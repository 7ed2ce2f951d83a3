/** Runs of alert sweeps, with directives being taken, acknowledged and enqueued in between. */
module FleetRuns {
  import opened Numbers
  import opened Options
  import D = Directives
  import opened FleetSweeps

  datatype Restart = Restart(device: int, user: string, at: int)

  datatype PageSent = PageSent(id: AlertId, at: int)

  /** `missing` says that the daemon reports its watchdog as not installed. */
  datatype Observation = Observation(device: int, state: FleetState, missing: bool, at: int)

  /** The tables; what sweeps have queued, paged and observed so far, in order; the clock of the
      directive endpoints and the start time of the latest sweep. */
  datatype World = World(fleet: Fleet, restarts: seq<Restart>, pages: seq<PageSent>, seen: seq<Observation>,
                         clock: int, sweptAt: int)

  const START := World(NO_FLEET, [], [], [], 0, 0)

  datatype Op =
    | SweepOne(v: Visit, at: int)
    | Take(user: string, device: int, channel: D.Channel, at: int)
    | Ack(user: string, id: int, result: D.AckResult, executor: D.Channel, at: int)
    | Enqueue(user: string, verb: string, target: Option<int>, at: int)

  /** Sweeps follow one another in time, but a sweep's time may lag behind the endpoints' clock. */
  ghost predicate Enabled(w: World, op: Op) {
    if op.SweepOne? then w.sweptAt <= op.at else w.clock <= op.at
  }

  /** The state page of this visit went out. */
  predicate PagesState(f: Fleet, v: Visit, now: int) {
    var s := Noted(f, v, now).standings[v.device];
    && Alertable(s.state) && now - s.since >= ALERT_STATE_MIN_AGE_MS
    && PageOutcome(FlagPaged(Noted(f, v, now), v, now), v, OfState(s.state), Window(v, s.state, s.since), now).Alerted?
  }

  predicate PagesFlag(f: Fleet, v: Visit, now: int) {
    var n := Noted(f, v, now);
    && Missing(v, now) && v.device in n.missingSince && now - n.missingSince[v.device] >= ALERT_STATE_MIN_AGE_MS
    && PageOutcome(n, v, WatchdogMissing, Some(ALERT_DEDUP_MS), now).Alerted?
  }

  /** The visit queued a restart. */
  predicate Restarts(f: Fleet, v: Visit, now: int) {
    var s := Noted(f, v, now).standings[v.device];
    && s.state.Wedged? && now - s.since >= ALERT_STATE_MIN_AGE_MS
    && !HasRecentDirective(Noted(f, v, now).rows, v.user, v.device, "restart", now, ALERT_DEDUP_MS)
  }

  function SentBy(f: Fleet, v: Visit, now: int): seq<PageSent> {
    (if PagesFlag(f, v, now) then [PageSent(AlertId(v.device, WatchdogMissing), now)] else [])
    + if PagesState(f, v, now)
      then [PageSent(AlertId(v.device, OfState(Noted(f, v, now).standings[v.device].state)), now)] else []
  }

  function Apply(w: World, op: Op): World {
    var f := w.fleet;
    match op
    case SweepOne(v, at) =>
      World(Swept(f, v, at),
            if Restarts(f, v, at) then w.restarts + [Restart(v.device, v.user, at)] else w.restarts,
            w.pages + SentBy(f, v, at),
            w.seen + [Observation(v.device, ClassifyDevice(v.signals, at), Missing(v, at), at)],
            Larger(w.clock, at), at)
    case Take(user, device, channel, at) =>
      w.(fleet := f.(rows := D.Taken(f.rows, user, device, channel, at)), clock := at)
    case Ack(user, id, result, executor, at) =>
      w.(fleet := f.(rows := D.AckApplied(f.rows, user, id, result, executor, at)), clock := at)
    case Enqueue(user, verb, target, at) =>
      w.(fleet := f.(rows := D.Enqueued(f.rows, user, verb, target, at)), clock := at)
  }

  function Run(w: World, ops: seq<Op>): World {
    if ops == [] then w else Apply(Run(w, ops[..|ops| - 1]), ops[|ops| - 1])
  }

  ghost predicate Possible(w: World, ops: seq<Op>) {
    forall i :: 0 <= i < |ops| ==> Enabled(Run(w, ops[..i]), ops[i])
  }

  // ----- restarts -----

  /** The row of an auto-queued restart, which may have been re-queued or executed since. */
  ghost predicate IsRowOf(d: D.Directive, r: Restart) {
    && d.user == r.user && d.verb == "restart" && d.deviceId == Some(r.device) && d.createdAt == r.at
    && (d.requeuedAt.Some? ==> d.requeuedAt.value >= r.at) && (d.executedAt.Some? ==> d.executedAt.value >= r.at)
  }

  ghost predicate Kept(rows: D.Table, r: Restart) {
    exists i :: 0 <= i < |rows| && IsRowOf(rows[i], r)
  }

  ghost predicate Spaced(restarts: seq<Restart>) {
    forall i, j :: 0 <= i < j < |restarts| && restarts[i].device == restarts[j].device
      && restarts[i].user == restarts[j].user
      ==> restarts[j].at - restarts[i].at >= ALERT_DEDUP_MS
  }

  ghost predicate RestartInv(w: World) {
    && Spaced(w.restarts)
    && forall i :: 0 <= i < |w.restarts| ==> w.restarts[i].at <= w.clock && Kept(w.fleet.rows, w.restarts[i])
  }

  /** While an earlier restart is younger than the window, it is in the way of a new one. */
  lemma YoungRestartBlocks(rows: D.Table, r: Restart, now: int)
    requires Kept(rows, r) && now - r.at < ALERT_DEDUP_MS
    ensures HasRecentDirective(rows, r.user, r.device, "restart", now, ALERT_DEDUP_MS)
  {
    var i :| 0 <= i < |rows| && IsRowOf(rows[i], r);
    assert IsRecent(rows[i], r.user, r.device, "restart", now, ALERT_DEDUP_MS);
  }

  lemma KeptByAppend(rows: D.Table, d: D.Directive, r: Restart)
    requires Kept(rows, r)
    ensures Kept(rows + [d], r)
  {
    var i :| 0 <= i < |rows| && IsRowOf(rows[i], r);
    assert (rows + [d])[i] == rows[i];
  }

  lemma KeptByTake(rows: D.Table, r: Restart, user: string, device: int, channel: D.Channel, at: int)
    requires Kept(rows, r) && r.at <= at
    ensures Kept(D.Taken(rows, user, device, channel, at), r)
  {
    var i :| 0 <= i < |rows| && IsRowOf(rows[i], r);
    assert IsRowOf(D.Taken(rows, user, device, channel, at)[i], r);
  }

  lemma KeptByAck(rows: D.Table, r: Restart, user: string, id: int, result: D.AckResult, executor: D.Channel, at: int)
    requires Kept(rows, r) && r.at <= at
    ensures Kept(D.AckApplied(rows, user, id, result, executor, at), r)
  {
    var i :| 0 <= i < |rows| && IsRowOf(rows[i], r);
    assert IsRowOf(D.AckApplied(rows, user, id, result, executor, at)[i], r);
  }

  lemma KeptByHeal(rows: D.Table, r: Restart, needed: bool, v: Visit, verb: string, now: int)
    requires Kept(rows, r)
    ensures Kept(Healed(rows, needed, v, verb, now), r)
  {
    KeptByAppend(rows, D.Directive(v.user, verb, Some(v.device), now, None, None, None, None, None), r);
  }

  lemma SweptRows(f: Fleet, v: Visit, now: int)
    ensures Swept(f, v, now).rows
         == if Restarts(f, v, now) then D.Enqueued(Noted(f, v, now).rows, v.user, "restart", Some(v.device), now)
           else Noted(f, v, now).rows
  {
  }

  lemma SweepKeepsRestarts(w: World, v: Visit, at: int)
    requires RestartInv(w)
    ensures RestartInv(Apply(w, SweepOne(v, at)))
  {
    var noted, n := Noted(w.fleet, v, at).rows, |w.restarts|;
    SweptRows(w.fleet, v, at);
    forall i | 0 <= i < n
      ensures Kept(noted, w.restarts[i]) && Kept(Swept(w.fleet, v, at).rows, w.restarts[i])
    {
      KeptByHeal(w.fleet.rows, w.restarts[i], NeedsReinstall(v, at), v, "reinstall_watchdog", at);
      KeptByAppend(noted,
                   D.Directive(v.user, "restart", Some(v.device), at, None, None, None, None, None), w.restarts[i]);
    }
    if Restarts(w.fleet, v, at) {
      var r := Restart(v.device, v.user, at);
      var rows := D.Enqueued(noted, v.user, "restart", Some(v.device), at);
      assert IsRowOf(rows[|noted|], r);
      forall i | 0 <= i < n && w.restarts[i].device == v.device && w.restarts[i].user == v.user
        ensures at - w.restarts[i].at >= ALERT_DEDUP_MS
      {
        if at - w.restarts[i].at < ALERT_DEDUP_MS {
          YoungRestartBlocks(noted, w.restarts[i], at);
        }
      }
    }
  }

  // ----- pages -----

  ghost predicate PageInv(w: World) {
    && (forall i :: 0 <= i < |w.pages| ==>
        w.pages[i].id in w.fleet.alertedAt && w.pages[i].at <= w.fleet.alertedAt[w.pages[i].id])
    && (forall id :: id in w.fleet.alertedAt ==> w.fleet.alertedAt[id] <= w.sweptAt)
    && forall i, j :: 0 <= i < j < |w.pages| && w.pages[i].id == w.pages[j].id ==>
         w.pages[j].at - w.pages[i].at >= ALERT_DEDUP_MS
  }

  /** One page attempt, with everything it must respect. */
  lemma PagedShape(f: Fleet, v: Visit, key: AlertKey, window: Option<int>, now: int)
    requires window.Some? ==> window.value >= ALERT_DEDUP_MS
    ensures var g, id := Paged(f, v, key, window, now), AlertId(v.device, key);
            if PageOutcome(f, v, key, window, now).Alerted?
            then g.alertedAt == f.alertedAt[id := now]
              && (id in f.alertedAt ==> now - f.alertedAt[id] >= ALERT_DEDUP_MS)
            else g.alertedAt == f.alertedAt
  {
  }

  ghost predicate PagesFit(pages: seq<PageSent>, alertedAt: map<AlertId, int>, now: int) {
    && (forall i :: 0 <= i < |pages| ==> pages[i].id in alertedAt && pages[i].at <= alertedAt[pages[i].id])
    && (forall id :: id in alertedAt ==> alertedAt[id] <= now)
    && forall i, j :: 0 <= i < j < |pages| && pages[i].id == pages[j].id ==> pages[j].at - pages[i].at >= ALERT_DEDUP_MS
  }

  lemma OneMorePage(pages: seq<PageSent>, alertedAt: map<AlertId, int>, id: AlertId, now: int)
    requires PagesFit(pages, alertedAt, now) && (id in alertedAt ==> now - alertedAt[id] >= ALERT_DEDUP_MS)
    ensures PagesFit(pages + [PageSent(id, now)], alertedAt[id := now], now)
  {
  }

  lemma FlagPages(f: Fleet, v: Visit, now: int)
    ensures var n := Noted(f, v, now);
            && n.alertedAt == f.alertedAt && n.missingSince == f.missingSince
            && FlagPaged(n, v, now).alertedAt
               == (if PagesFlag(f, v, now) then n.alertedAt[AlertId(v.device, WatchdogMissing) := now] else n.alertedAt)
            && (PagesFlag(f, v, now) && AlertId(v.device, WatchdogMissing) in n.alertedAt
                ==> now - n.alertedAt[AlertId(v.device, WatchdogMissing)] >= ALERT_DEDUP_MS)
  {
  }

  lemma StatePages(f: Fleet, v: Visit, now: int)
    ensures var g, s := FlagPaged(Noted(f, v, now), v, now), Noted(f, v, now).standings[v.device];
            && Swept(f, v, now).alertedAt
               == (if PagesState(f, v, now) then g.alertedAt[AlertId(v.device, OfState(s.state)) := now]
                   else g.alertedAt)
            && (PagesState(f, v, now) && AlertId(v.device, OfState(s.state)) in g.alertedAt
                ==> now - g.alertedAt[AlertId(v.device, OfState(s.state))] >= ALERT_DEDUP_MS)
  {
    var g, s := FlagPaged(Noted(f, v, now), v, now), Noted(f, v, now).standings[v.device];
    PagedShape(g, v, OfState(s.state), Window(v, s.state, s.since), now);
  }

  lemma SweepKeepsPages(w: World, v: Visit, at: int)
    requires PageInv(w) && w.sweptAt <= at
    ensures PageInv(Apply(w, SweepOne(v, at)))
  {
    var f := w.fleet;
    FlagPages(f, v, at);
    StatePages(f, v, at);
    assert PagesFit(w.pages, f.alertedAt, at);
    var flagged := w.pages;
    var g := FlagPaged(Noted(f, v, at), v, at);
    if PagesFlag(f, v, at) {
      OneMorePage(w.pages, f.alertedAt, AlertId(v.device, WatchdogMissing), at);
      flagged := w.pages + [PageSent(AlertId(v.device, WatchdogMissing), at)];
    }
    assert PagesFit(flagged, g.alertedAt, at);
    if PagesState(f, v, at) {
      var id := AlertId(v.device, OfState(Noted(f, v, at).standings[v.device].state));
      OneMorePage(flagged, g.alertedAt, id, at);
      assert w.pages + SentBy(f, v, at) == flagged + [PageSent(id, at)];
    } else {
      assert w.pages + SentBy(f, v, at) == flagged;
    }
  }

  // ----- standings -----

  /** From observation `k` on, every observation of the device found it in this state. */
  ghost predicate StandsSince(seen: seq<Observation>, device: int, s: Standing, k: nat) {
    && k < |seen| && seen[k].device == device && seen[k].at == s.since
    && forall i :: k <= i < |seen| && seen[i].device == device ==> seen[i].state == s.state
  }

  ghost predicate Stands(seen: seq<Observation>, device: int, s: Standing) {
    exists k :: 0 <= k < |seen| && StandsSince(seen, device, s, k)
  }

  ghost predicate StandingInv(w: World) {
    forall d :: d in w.fleet.standings ==> Stands(w.seen, d, w.fleet.standings[d])
  }

  lemma SweptStandings(f: Fleet, v: Visit, now: int)
    ensures Swept(f, v, now).standings == Noted(f, v, now).standings
         == f.standings[v.device := StandingOf(f, v.device, ClassifyDevice(v.signals, now), now)]
  {
  }

  lemma StandsLonger(seen: seq<Observation>, o: Observation, device: int, s: Standing)
    requires Stands(seen, device, s) && (o.device == device ==> o.state == s.state)
    ensures Stands(seen + [o], device, s)
  {
    var k :| 0 <= k < |seen| && StandsSince(seen, device, s, k);
    assert StandsSince(seen + [o], device, s, k);
  }

  lemma SweepKeepsStandings(w: World, v: Visit, at: int)
    requires StandingInv(w)
    ensures StandingInv(Apply(w, SweepOne(v, at)))
    ensures Stands(Apply(w, SweepOne(v, at)).seen, v.device, Noted(w.fleet, v, at).standings[v.device])
  {
    var state := ClassifyDevice(v.signals, at);
    var o := Observation(v.device, state, Missing(v, at), at);
    SweptStandings(w.fleet, v, at);
    forall d | d in w.fleet.standings && (d != v.device || w.fleet.standings[d].state == state) {
      StandsLonger(w.seen, o, d, w.fleet.standings[d]);
    }
    if !(v.device in w.fleet.standings && w.fleet.standings[v.device].state == state) {
      assert StandsSince(w.seen + [o], v.device, Standing(state, at), |w.seen|);
    }
  }

  // ----- runs -----

  ghost predicate Inv(w: World) {
    RestartInv(w) && PageInv(w) && StandingInv(w)
  }

  lemma ApplyKeeps(w: World, op: Op)
    requires Inv(w) && Enabled(w, op)
    ensures Inv(Apply(w, op))
  {
    match op {
      case SweepOne(v, at) =>
        SweepKeepsRestarts(w, v, at);
        SweepKeepsPages(w, v, at);
        SweepKeepsStandings(w, v, at);
      case Take(user, device, channel, at) =>
        forall i | 0 <= i < |w.restarts| {
          KeptByTake(w.fleet.rows, w.restarts[i], user, device, channel, at);
        }
      case Ack(user, id, result, executor, at) =>
        forall i | 0 <= i < |w.restarts| {
          KeptByAck(w.fleet.rows, w.restarts[i], user, id, result, executor, at);
        }
      case Enqueue(user, verb, target, at) =>
        forall i | 0 <= i < |w.restarts| {
          KeptByAppend(w.fleet.rows, D.Directive(user, verb, target, at, None, None, None, None, None), w.restarts[i]);
        }
    }
  }

  lemma {:induction false} RunKeeps(ops: seq<Op>)
    requires Possible(START, ops)
    ensures Inv(Run(START, ops))
  {
    if ops != [] {
      var n := |ops| - 1;
      assert forall i :: 0 <= i < n ==> ops[..n][..i] == ops[..i];
      RunKeeps(ops[..n]);
      ApplyKeeps(Run(START, ops[..n]), ops[n]);
    }
  }

  /** Over any run of sweeps, deliveries, re-queues and acks: two automatic restarts of one device are
      at least the dedup window apart, and so are two pages for one device and state. */
  lemma {:induction false} AlertsAreSpaced(ops: seq<Op>)
    requires Possible(START, ops)
    ensures Spaced(Run(START, ops).restarts)
    ensures var pages := Run(START, ops).pages;
            forall i, j :: 0 <= i < j < |pages| && pages[i].id == pages[j].id ==>
              pages[j].at - pages[i].at >= ALERT_DEDUP_MS
  {
    RunKeeps(ops);
  }

  /** A page for a state, and a restart, mean that every sweep that observed the device for the last
      hour or more found it in that state. A restarted device has a reporting watchdog and missed three
      of its own ticks; a device paged as dark has been silent on every channel for an hour, a
      single-channel Mac for a day. */
  lemma {:induction false} PagesMeanAnHour(ops: seq<Op>, v: Visit, at: int)
    requires Possible(START, ops) && Enabled(Run(START, ops), SweepOne(v, at))
    requires PagesState(Run(START, ops).fleet, v, at) || Restarts(Run(START, ops).fleet, v, at)
    ensures var w, state := Apply(Run(START, ops), SweepOne(v, at)), ClassifyDevice(v.signals, at);
            exists k :: && 0 <= k < |w.seen| && w.seen[k].device == v.device
              && at - w.seen[k].at >= ALERT_STATE_MIN_AGE_MS
                        && forall i :: k <= i < |w.seen| && w.seen[i].device == v.device ==> w.seen[i].state == state
    ensures Restarts(Run(START, ops).fleet, v, at) ==>
              && ClassifyDevice(v.signals, at).Wedged? && WatchdogFresh(v.signals, at)
              && (v.signals.lastSeen.Some? ==> at - v.signals.lastSeen.value > 3 * IntervalOf(v.signals) * 1000)
    ensures ClassifyDevice(v.signals, at).Dark? ==>
              && Silence(v.signals, at) > DUAL_DARK_MS && !WatchdogFresh(v.signals, at)
              && (v.signals.watchdogLastSeen.Some? ==> at - v.signals.watchdogLastSeen.value > DUAL_DARK_MS)
              && (v.signals.watchdogLastSeen.None? && HasWatchdogPlatform(v.signals) ==>
                  Silence(v.signals, at) > PRE_WATCHDOG_DARK_MS)
  {
    WedgedIsEarned(v.signals, at);
    DarkIsEarned(v.signals, at);
    RunKeeps(ops);
    var w := Run(START, ops);
    SweepKeepsStandings(w, v, at);
    SweptStandings(w.fleet, v, at);
    var s, seen := Noted(w.fleet, v, at).standings[v.device], Apply(w, SweepOne(v, at)).seen;
    var k :| 0 <= k < |seen| && StandsSince(seen, v.device, s, k);
    assert seen[|w.seen|] == Observation(v.device, ClassifyDevice(v.signals, at), Missing(v, at), at);
  }

  /** What a visit reports is what it does: it names the pages that went out, a restart is queued
      exactly if a decision says so, and only for a device found wedged. */
  lemma DecisionsAreTrue(f: Fleet, v: Visit, now: int)
    ensures var ds := DecisionsOf(f, v, now);
            && (forall key :: PageSent(AlertId(v.device, key), now) in SentBy(f, v, now)
                         <==> exists d :: d in ds && d.key == key && d.action.Alerted?)
            && (Restarts(f, v, now) <==> exists d :: d in ds && d.key == OfState(Wedged) && d.healQueued)
            && ((exists d :: d in Swept(f, v, now).rows && d !in f.rows && d.verb == "restart")
                ==> Restarts(f, v, now) && ClassifyDevice(v.signals, now).Wedged?)
  {
    SweptRows(f, v, now);
    var noted, ds := Noted(f, v, now), DecisionsOf(f, v, now);
    var flag := FlagDecisions(noted, v, Heals(f.rows, NeedsReinstall(v, now), v, "reinstall_watchdog", now), now);
    var state := StateDecisions(FlagPaged(noted, v, now), v, noted.standings[v.device], now);
    assert ds == flag + state;
    FlagIsTrue(f, v, now);
    StateIsTrue(f, v, now);
  }

  lemma FlagIsTrue(f: Fleet, v: Visit, now: int)
    ensures var flag :=
            FlagDecisions(Noted(f, v, now), v,
                          Heals(f.rows, NeedsReinstall(v, now), v, "reinstall_watchdog", now), now);
            && (PagesFlag(f, v, now) <==> exists d :: d in flag && d.action.Alerted?)
            && forall d :: d in flag ==> d.key == WatchdogMissing
  {
  }

  lemma StateIsTrue(f: Fleet, v: Visit, now: int)
    ensures var s := Noted(f, v, now).standings[v.device];
            var state := StateDecisions(FlagPaged(Noted(f, v, now), v, now), v, s, now);
            && (PagesState(f, v, now) <==> exists d :: d in state && d.action.Alerted?)
            && (Restarts(f, v, now) <==> s.state.Wedged? && exists d :: d in state && d.healQueued)
            && forall d :: d in state ==> d.key == OfState(s.state)
  {
  }
}
