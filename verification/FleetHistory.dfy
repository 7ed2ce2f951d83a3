/** What a visit of the sweep does, exactly, in terms of what was observed, paged and queued before. */
module FleetHistory {
  import opened Numbers
  import opened Options
  import D = Directives
  import opened FleetSweeps
  import opened FleetVerdicts
  import opened FleetRuns

  // ----- the history -----

  /** The state the device was last seen in, and when it was first seen in it without a break. */
  function StateSince(seen: seq<Observation>, device: int): Option<Standing> {
    if seen == [] then None
    else
      var n := |seen| - 1;
      var before, o := StateSince(seen[..n], device), seen[n];
      if o.device != device then before
      else if before.Some? && before.value.state == o.state then before
      else Some(Standing(o.state, o.at))
  }

  /** Since when the device has been seen without its watchdog. */
  function MissingSinceThen(seen: seq<Observation>, device: int): Option<int> {
    if seen == [] then None
    else
      var n := |seen| - 1;
      var before, o := MissingSinceThen(seen[..n], device), seen[n];
      if o.device != device then before
      else if !o.missing then None
      else if before.Some? then before
      else Some(o.at)
  }

  function LastPage(pages: seq<PageSent>, id: AlertId): Option<int> {
    if pages == [] then None
    else if pages[|pages| - 1].id == id then Some(pages[|pages| - 1].at)
    else LastPage(pages[..|pages| - 1], id)
  }

  function Lookup<K, V>(m: map<K, V>, k: K): Option<V> {
    if k in m then Some(m[k]) else None
  }

  /** The tables the sweep keeps say what the history does. */
  ghost predicate Remembered(w: World) {
    && (forall d :: Lookup(w.fleet.standings, d) == StateSince(w.seen, d))
    && (forall d :: Lookup(w.fleet.missingSince, d) == MissingSinceThen(w.seen, d))
    && (forall id :: Lookup(w.fleet.alertedAt, id) == LastPage(w.pages, id))
  }

  // ----- what is due -----

  /** The daemon is heard and reports that its watchdog, which is not, is not installed. */
  predicate ReportsMissing(v: Visit, now: int) {
    && DaemonHeard(v.signals, now) && !WatchdogHeard(v.signals, now)
    && v.signals.checkin.Some? && v.signals.checkin.value.watchdogInstalled == Some(false)
  }

  predicate Alarming(state: FleetState) {
    state == Wedged || state == DegradedFuse || state == Dark || state == HeartbeatIo
  }

  /** The page can go out, and none for the same matter has in the last six hours; `once` rules out any other. */
  predicate MayPage(v: Visit, pages: seq<PageSent>, key: AlertKey, once: bool, now: int) {
    var last := LastPage(pages, AlertId(v.device, key));
    v.webhook && v.delivers && (last.Some? ==> !once && now - last.value >= 6 * HOUR)
  }

  predicate FlagPageDue(v: Visit, seen: seq<Observation>, pages: seq<PageSent>, now: int) {
    var since := MissingSinceThen(seen, v.device);
    since.Some? && now - since.value >= HOUR && MayPage(v, pages, WatchdogMissing, false, now)
  }

  /** The device has never had a watchdog and was silent for a day and ten minutes when it was first seen dark. */
  predicate LongDead(v: Visit, s: Standing) {
    && s.state == Dark && v.signals.watchdogLastSeen.None?
    && s.since - (if v.signals.lastSeen.Some? then v.signals.lastSeen.value else v.signals.addedAt)
       > 24 * HOUR + 10 * MINUTE
  }

  predicate StatePageDue(v: Visit, seen: seq<Observation>, pages: seq<PageSent>, now: int) {
    var s := StateSince(seen, v.device);
    && s.Some? && Alarming(s.value.state) && now - s.value.since >= HOUR
    && MayPage(v, pages, OfState(s.value.state), LongDead(v, s.value), now)
  }

  /** A directive of the kind, for this device or all of the user's, that is unanswered and less than a day old,
      or was answered less than six hours ago. */
  ghost predicate InTheWay(rows: D.Table, user: string, device: int, verb: string, now: int) {
    exists i :: && 0 <= i < |rows| && rows[i].user == user && rows[i].verb == verb
                && (rows[i].deviceId.Some? ==> rows[i].deviceId.value == device)
                && if rows[i].executedAt.Some? then now - rows[i].executedAt.value < 6 * HOUR
                   else now - (if rows[i].requeuedAt.Some? then rows[i].requeuedAt.value
                               else rows[i].createdAt) < 24 * HOUR
  }

  /** A daemon is heard, on a platform with watchdogs and of a version that ships one, while none was heard for
      ten minutes. */
  ghost predicate ReinstallDue(v: Visit, rows: D.Table, now: int) {
    && DaemonHeard(v.signals, now) && (v.signals.checkin.Some? ==> v.signals.checkin.value.darwin) && v.capable
    && (v.signals.watchdogLastSeen.Some? ==> now - v.signals.watchdogLastSeen.value > 10 * MINUTE)
    && !InTheWay(rows, v.user, v.device, "reinstall_watchdog", now)
  }

  ghost predicate RestartDue(v: Visit, seen: seq<Observation>, rows: D.Table, now: int) {
    var s := StateSince(seen, v.device);
    && s.Some? && s.value.state == Wedged && now - s.value.since >= HOUR
    && !InTheWay(rows, v.user, v.device, "restart", now)
  }

  function NewRow(v: Visit, verb: string, now: int): D.Directive {
    D.Directive(v.user, verb, Some(v.device), now, None, None, None, None, None)
  }

  // ----- the visit -----

  lemma WayIsRecent(rows: D.Table, user: string, device: int, verb: string, now: int)
    ensures HasRecentDirective(rows, user, device, verb, now, ALERT_DEDUP_MS)
            <==> InTheWay(rows, user, device, verb, now)
  {
    if HasRecentDirective(rows, user, device, verb, now, ALERT_DEDUP_MS) {
      var i :| 0 <= i < |rows| && IsRecent(rows[i], user, device, verb, now, ALERT_DEDUP_MS);
      assert rows[i].user == user;
    }
    if InTheWay(rows, user, device, verb, now) {
      var i :| && 0 <= i < |rows| && rows[i].user == user && rows[i].verb == verb
               && (rows[i].deviceId.Some? ==> rows[i].deviceId.value == device)
               && if rows[i].executedAt.Some? then now - rows[i].executedAt.value < 6 * HOUR
                  else now - (if rows[i].requeuedAt.Some? then rows[i].requeuedAt.value
                              else rows[i].createdAt) < 24 * HOUR;
      assert IsRecent(rows[i], user, device, verb, now, ALERT_DEDUP_MS);
    }
  }

  lemma OtherVerbIsNotInTheWay(rows: D.Table, d: D.Directive, user: string, device: int, verb: string, now: int)
    requires d.verb != verb
    ensures InTheWay(rows + [d], user, device, verb, now) <==> InTheWay(rows, user, device, verb, now)
  {
    assert forall i :: 0 <= i < |rows| ==> (rows + [d])[i] == rows[i];
  }

  lemma MissingIsReported(v: Visit, now: int)
    ensures Missing(v, now) <==> ReportsMissing(v, now)
  {
    ThresholdsMet(v.signals, now);
  }

  /** One more observation in the tables. */
  lemma ObservationRemembered(w: World, v: Visit, at: int)
    requires Remembered(w)
    ensures var r, seen := Swept(w.fleet, v, at), Apply(w, SweepOne(v, at)).seen;
            && (forall d :: Lookup(r.standings, d) == StateSince(seen, d))
            && (forall d :: Lookup(r.missingSince, d) == MissingSinceThen(seen, d))
  {
    var o := Observation(v.device, ClassifyDevice(v.signals, at), Missing(v, at), at);
    assert (w.seen + [o])[..|w.seen|] == w.seen;
    SweptStandings(w.fleet, v, at);
  }

  lemma PagesAppend(pages: seq<PageSent>, id: AlertId, at: int)
    ensures forall k :: LastPage(pages + [PageSent(id, at)], k) == if k == id then Some(at) else LastPage(pages, k)
  {
    assert (pages + [PageSent(id, at)])[..|pages|] == pages;
  }

  lemma StateStands(w: World, v: Visit, at: int)
    requires Remembered(w)
    ensures StateSince(Apply(w, SweepOne(v, at)).seen, v.device) == Some(Noted(w.fleet, v, at).standings[v.device])
  {
    ObservationRemembered(w, v, at);
    SweptStandings(w.fleet, v, at);
  }

  lemma PagesExactly(w: World, v: Visit, at: int)
    requires Remembered(w)
    ensures var seen := Apply(w, SweepOne(v, at)).seen;
            && (PagesFlag(w.fleet, v, at) <==> FlagPageDue(v, seen, w.pages, at))
            && (PagesState(w.fleet, v, at) <==> StatePageDue(v, seen, w.pages, at))
  {
    var n := Noted(w.fleet, v, at);
    FlagPages(w.fleet, v, at);
    StateStands(w, v, at);
    ObservationRemembered(w, v, at);
    var s := n.standings[v.device];
    assert Lookup(w.fleet.alertedAt, AlertId(v.device, WatchdogMissing))
      == LastPage(w.pages, AlertId(v.device, WatchdogMissing));
    assert Lookup(w.fleet.alertedAt, AlertId(v.device, OfState(s.state)))
      == LastPage(w.pages, AlertId(v.device, OfState(s.state)));
  }

  lemma HealsExactly(w: World, v: Visit, at: int)
    requires Remembered(w)
    ensures var r, rows := Apply(w, SweepOne(v, at)), w.fleet.rows;
            && r.fleet.rows == rows + (if ReinstallDue(v, rows, at) then [NewRow(v, "reinstall_watchdog", at)] else [])
                               + (if RestartDue(v, r.seen, rows, at) then [NewRow(v, "restart", at)] else [])
            && r.restarts == w.restarts
                             + if RestartDue(v, r.seen, rows, at) then [Restart(v.device, v.user, at)] else []
  {
    var rows := w.fleet.rows;
    ThresholdsMet(v.signals, at);
    WayIsRecent(rows, v.user, v.device, "reinstall_watchdog", at);
    SweptRows(w.fleet, v, at);
    StateStands(w, v, at);
    var noted := Noted(w.fleet, v, at).rows;
    WayIsRecent(noted, v.user, v.device, "restart", at);
    OtherVerbIsNotInTheWay(rows, NewRow(v, "reinstall_watchdog", at), v.user, v.device, "restart", at);
    assert rows + [] == rows && noted + [] == noted && w.restarts + [] == w.restarts;
  }

  lemma {:induction false} HistoryKept(ops: seq<Op>)
    requires Possible(START, ops)
    ensures Remembered(Run(START, ops))
  {
    if ops != [] {
      var n := |ops| - 1;
      assert forall i :: 0 <= i < n ==> ops[..n][..i] == ops[..i];
      HistoryKept(ops[..n]);
      var w := Run(START, ops[..n]);
      if ops[n].SweepOne? {
        SweepRemembered(w, ops[n].v, ops[n].at);
      }
    }
  }

  lemma SweepRemembered(w: World, v: Visit, at: int)
    requires Remembered(w)
    ensures Remembered(Apply(w, SweepOne(v, at)))
  {
    var r, f := Apply(w, SweepOne(v, at)), w.fleet;
    ObservationRemembered(w, v, at);
    FlagPages(f, v, at);
    StatePages(f, v, at);
    var flagged := w.pages;
    if PagesFlag(f, v, at) {
      PagesAppend(w.pages, AlertId(v.device, WatchdogMissing), at);
      flagged := w.pages + [PageSent(AlertId(v.device, WatchdogMissing), at)];
    }
    if PagesState(f, v, at) {
      var id := AlertId(v.device, OfState(Noted(f, v, at).standings[v.device].state));
      PagesAppend(flagged, id, at);
      assert r.pages == flagged + [PageSent(id, at)];
    } else {
      assert r.pages == flagged;
    }
  }

  /** Over any run, a visit pages and queues exactly what is due: a page for the missing watchdog and one for the
      state, once either has lasted an hour and was not paged in the last six, a restart for a device that has
      been wedged for an hour, a reinstall, and each directive only if none like it is in the way. */
  lemma VisitsDoWhatIsDue(ops: seq<Op>, v: Visit, at: int)
    requires Possible(START, ops) && Enabled(Run(START, ops), SweepOne(v, at))
    ensures var w := Run(START, ops);
            var r, rows := Apply(w, SweepOne(v, at)), w.fleet.rows;
            && r.seen == w.seen + [Observation(v.device, ClassifyDevice(v.signals, at), ReportsMissing(v, at), at)]
            && r.pages == w.pages
                 + (if FlagPageDue(v, r.seen, w.pages, at) then [PageSent(AlertId(v.device, WatchdogMissing), at)]
                    else [])
                 + (if StatePageDue(v, r.seen, w.pages, at)
                    then [PageSent(AlertId(v.device, OfState(ClassifyDevice(v.signals, at))), at)] else [])
            && r.fleet.rows == rows + (if ReinstallDue(v, rows, at) then [NewRow(v, "reinstall_watchdog", at)] else [])
                               + (if RestartDue(v, r.seen, rows, at) then [NewRow(v, "restart", at)] else [])
  {
    var w := Run(START, ops);
    HistoryKept(ops);
    MissingIsReported(v, at);
    PagesExactly(w, v, at);
    HealsExactly(w, v, at);
    SweptStandings(w.fleet, v, at);
    assert Apply(w, SweepOne(v, at)).pages == w.pages + SentBy(w.fleet, v, at);
  }
}
