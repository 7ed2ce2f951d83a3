/** The fleet classifier and the alert sweep: how long a state must last, how far pages and
    restarts lie apart. */
module FleetSweeps {
  import opened Numbers
  import opened Options
  import opened Directives

  const DEFAULT_TICK_INTERVAL_S: int := 300
  const WATCHDOG_RUN_INTERVAL_S: int := 120
  const DAEMON_LATE_MS: int := 15 * 60 * 1000
  const DAEMON_WEDGE_MS: int := 30 * 60 * 1000
  const WATCHDOG_FRESH_MS: int := 15 * 60 * 1000
  const DUAL_DARK_MS: int := 60 * 60 * 1000
  const PRE_WATCHDOG_DARK_MS: int := 24 * 60 * 60 * 1000
  const STALE_HEARTBEAT_RUNS: int := 8
  const CRASH_LOOP_WINDOW_MS: int := 90 * 60 * 1000
  const CRASH_LOOP_THRESHOLD: int := 3
  const JOURNAL_EXPLAIN_SLOP_MS: int := 10 * 60 * 1000
  const ALERT_STATE_MIN_AGE_MS: int := 60 * 60 * 1000
  const ALERT_DEDUP_MS: int := 6 * 60 * 60 * 1000
  const WATCHDOG_REINSTALL_SILENT_MS: int := 10 * 60 * 1000
  const BORN_DARK_SLOP_MS: int := 2 * 5 * 60 * 1000

  datatype FleetState = Healthy | Late | Wedged | CrashLooping | DegradedFuse | Dark | UninstalledUser | HeartbeatIo

  predicate Alertable(s: FleetState) {
    s.Wedged? || s.DegradedFuse? || s.Dark? || s.HeartbeatIo?
  }

  // ----- classification -----

  datatype Beat = Beat(ts: int, uptimeS: Option<int>)

  datatype Checkin = Checkin(intervalS: int, journal: seq<int>, watchdogInstalled: Option<bool>, darwin: bool)

  datatype WatchdogReport = WatchdogReport(heartbeatAgeRuns: int, degraded: bool)

  datatype Signals = Signals(
    addedAt: int, lastSeen: Option<int>, watchdogLastSeen: Option<int>, uninstalled: bool,
    checkin: Option<Checkin>, watchdog: Option<WatchdogReport>, history: seq<Beat>)

  function IntervalOf(s: Signals): int {
    if s.checkin.Some? then s.checkin.value.intervalS else DEFAULT_TICK_INTERVAL_S
  }

  function LateThreshold(intervalS: int): int {
    Larger(DAEMON_LATE_MS, 3 * intervalS * 1000)
  }

  function WedgeThreshold(intervalS: int): int {
    Larger(DAEMON_WEDGE_MS, 3 * intervalS * 1000 + 15 * 60 * 1000)
  }

  function StaleHeartbeatRunsFor(intervalS: int): int {
    Larger(STALE_HEARTBEAT_RUNS, CeilDiv(3 * intervalS, WATCHDOG_RUN_INTERVAL_S))
  }

  predicate Explained(journal: seq<int>, bootAt: int) {
    exists i :: 0 <= i < |journal| && -JOURNAL_EXPLAIN_SLOP_MS <= journal[i] - bootAt <= JOURNAL_EXPLAIN_SLOP_MS
  }

  /** The last uptime reported, if any. */
  function LastUptime(history: seq<Beat>): Option<int> {
    if history == [] then None
    else if history[|history| - 1].uptimeS.Some? then history[|history| - 1].uptimeS
    else LastUptime(history[..|history| - 1])
  }

  /** The boot instant a check-in reveals when its uptime fell below the one reported before. */
  predicate RevealsCrash(before: seq<Beat>, b: Beat, journal: seq<int>, now: int) {
    && LastUptime(before).Some? && b.uptimeS.Some? && b.uptimeS.value < LastUptime(before).value
    && b.ts - b.uptimeS.value * 1000 >= now - CRASH_LOOP_WINDOW_MS
    && !Explained(journal, b.ts - b.uptimeS.value * 1000)
  }

  function CrashesIn(history: seq<Beat>, journal: seq<int>, now: int): nat {
    if history == [] then 0
    else
      var n := |history| - 1;
      CrashesIn(history[..n], journal, now) + if RevealsCrash(history[..n], history[n], journal, now) then 1 else 0
  }

  method CountUnexplainedResets(history: seq<Beat>, journal: seq<int>, now: int) returns (count: nat)
    ensures count == CrashesIn(history, journal, now)
  {
    count := 0;
    var prevUptime: Option<int> := None;
    for i := 0 to |history|
      invariant count == CrashesIn(history[..i], journal, now) && prevUptime == LastUptime(history[..i])
    {
      assert history[..i + 1][..i] == history[..i];
      var cur := history[i].uptimeS;
      if prevUptime.Some? && cur.Some? && cur.value < prevUptime.value {
        var bootAt := history[i].ts - cur.value * 1000;
        if bootAt >= now - CRASH_LOOP_WINDOW_MS && !Explained(journal, bootAt) {
          count := count + 1;
        }
      }
      if cur.Some? {
        prevUptime := cur;
      }
    }
    assert history[..|history|] == history;
  }

  predicate DaemonFresh(s: Signals, now: int) {
    s.lastSeen.Some? && now - s.lastSeen.value <= LateThreshold(IntervalOf(s))
  }

  predicate WatchdogFresh(s: Signals, now: int) {
    s.watchdogLastSeen.Some? && now - s.watchdogLastSeen.value <= WATCHDOG_FRESH_MS
  }

  predicate StaleHeartbeat(s: Signals, now: int) {
    WatchdogFresh(s, now) && s.watchdog.Some?
      && s.watchdog.value.heartbeatAgeRuns >= StaleHeartbeatRunsFor(IntervalOf(s))
  }

  function Silence(s: Signals, now: int): int {
    now - s.lastSeen.GetOr(s.addedAt)
  }

  predicate HasWatchdogPlatform(s: Signals) {
    s.checkin.Some? ==> s.checkin.value.darwin
  }

  function ClassifyDevice(s: Signals, now: int): FleetState {
    if s.uninstalled then UninstalledUser
    else if DaemonFresh(s, now) && StaleHeartbeat(s, now) then HeartbeatIo
    else if CrashesIn(s.history, if s.checkin.Some? then s.checkin.value.journal else [], now) >= CRASH_LOOP_THRESHOLD
      then CrashLooping
    else if WatchdogFresh(s, now) && s.watchdog.Some? && s.watchdog.value.degraded then DegradedFuse
    else if DaemonFresh(s, now) then Healthy
    else if s.watchdogLastSeen.Some? then
      if WatchdogFresh(s, now) then
        if StaleHeartbeat(s, now) || Silence(s, now) > WedgeThreshold(IntervalOf(s)) then Wedged else Late
      else if now - Larger(s.lastSeen.GetOr(s.addedAt), s.watchdogLastSeen.value) > DUAL_DARK_MS then Dark
      else Late
    else if Silence(s, now) > (if HasWatchdogPlatform(s) then PRE_WATCHDOG_DARK_MS else DUAL_DARK_MS) then Dark
    else Late
  }

  /** A device that was never seen by a watchdog is never judged wedged, whatever its silence; and a
      wedged one has missed three of its own ticks, with its watchdog reporting. */
  lemma WedgedIsEarned(s: Signals, now: int)
    ensures ClassifyDevice(s, now) == Wedged ==>
              && WatchdogFresh(s, now)
              && (s.lastSeen.Some? ==> now - s.lastSeen.value > 3 * IntervalOf(s) * 1000)
              && (s.watchdog.None? ==> Silence(s, now) > 3 * IntervalOf(s) * 1000 + 15 * 60 * 1000)
  {
  }

  /** Only a device that both channels have left for an hour is dark; a single-channel Mac for a day. */
  lemma DarkIsEarned(s: Signals, now: int)
    ensures ClassifyDevice(s, now) == Dark ==>
              && Silence(s, now) > DUAL_DARK_MS && !WatchdogFresh(s, now)
              && (s.watchdogLastSeen.Some? ==> now - s.watchdogLastSeen.value > DUAL_DARK_MS)
              && (s.watchdogLastSeen.None? && HasWatchdogPlatform(s) ==> Silence(s, now) > PRE_WATCHDOG_DARK_MS)
  {
  }

  // ----- the sweep -----

  /** What a page is about: a state, or the orthogonal WATCHDOG_MISSING flag. */
  datatype AlertKey = OfState(state: FleetState) | WatchdogMissing

  datatype Standing = Standing(state: FleetState, since: int)

  datatype AlertId = AlertId(device: int, key: AlertKey)

  /** The tables the sweep reads and writes. */
  datatype Fleet = Fleet(rows: Table, standings: map<int, Standing>, missingSince: map<int, int>,
                         alertedAt: map<AlertId, int>)

  const NO_FLEET := Fleet([], map[], map[], map[])

  /** One device as a sweep finds it; `webhook` says whether one is set, `delivers` whether it works. */
  datatype Visit = Visit(device: int, user: string, signals: Signals, capable: bool, webhook: bool, delivers: bool)

  datatype ActionTaken = ObservedOnly | Alerted | Deduped | NoWebhook | WebhookFailed

  predicate HasRecentDirective(rows: Table, user: string, device: int, verb: string, now: int, recentMs: int) {
    exists i :: 0 <= i < |rows| && IsRecent(rows[i], user, device, verb, now, recentMs)
  }

  predicate IsRecent(d: Directive, user: string, device: int, verb: string, now: int, recentMs: int) {
    && d.user == user && d.verb == verb && (d.deviceId.None? || d.deviceId == Some(device))
    && ((d.executedAt.None? && WindowStart(d) > now - DIRECTIVE_TTL_MS)
        || (d.executedAt.Some? && d.executedAt.value > now - recentMs))
  }

  function StandingOf(f: Fleet, device: int, state: FleetState, now: int): Standing {
    if device in f.standings && f.standings[device].state == state then f.standings[device] else Standing(state, now)
  }

  /** Queues a device-targeted directive unless one of the kind is live or recent. */
  function Healed(rows: Table, needed: bool, v: Visit, verb: string, now: int): Table {
    if needed && !HasRecentDirective(rows, v.user, v.device, verb, now, ALERT_DEDUP_MS)
    then Enqueued(rows, v.user, verb, Some(v.device), now)
    else rows
  }

  predicate NeedsReinstall(v: Visit, now: int) {
    && DaemonFresh(v.signals, now) && HasWatchdogPlatform(v.signals) && v.capable
    && (v.signals.watchdogLastSeen.None? || now - v.signals.watchdogLastSeen.value > WATCHDOG_REINSTALL_SILENT_MS)
  }

  predicate Missing(v: Visit, now: int) {
    DaemonFresh(v.signals, now) && !WatchdogFresh(v.signals, now)
    && v.signals.checkin.Some? && v.signals.checkin.value.watchdogInstalled == Some(false)
  }

  /** The outcome of one page attempt; a window of None never ends. */
  function PageOutcome(f: Fleet, v: Visit, key: AlertKey, window: Option<int>, now: int): ActionTaken {
    var id := AlertId(v.device, key);
    if !v.webhook then NoWebhook
    else if id in f.alertedAt && (window.None? || now - f.alertedAt[id] < window.value) then Deduped
    else if v.delivers then Alerted
    else WebhookFailed
  }

  function Paged(f: Fleet, v: Visit, key: AlertKey, window: Option<int>, now: int): Fleet {
    if PageOutcome(f, v, key, window, now).Alerted? then f.(alertedAt := f.alertedAt[AlertId(v.device, key) := now])
    else f
  }

  /** Dead since before the sweep first saw it: paged once, then never again. */
  predicate BornDark(v: Visit, state: FleetState, since: int) {
    state.Dark? && v.signals.watchdogLastSeen.None?
    && since - v.signals.lastSeen.GetOr(v.signals.addedAt) > PRE_WATCHDOG_DARK_MS + BORN_DARK_SLOP_MS
  }

  function Window(v: Visit, state: FleetState, since: int): Option<int> {
    if BornDark(v, state, since) then None else Some(ALERT_DEDUP_MS)
  }

  /** Bookkeeping and reinstall nudge. */
  function Noted(f: Fleet, v: Visit, now: int): Fleet {
    var state := ClassifyDevice(v.signals, now);
    f.(standings := f.standings[v.device := StandingOf(f, v.device, state, now)],
       rows := Healed(f.rows, NeedsReinstall(v, now), v, "reinstall_watchdog", now))
  }

  /** The WATCHDOG_MISSING streak and its page. */
  function FlagPaged(f: Fleet, v: Visit, now: int): Fleet {
    if !Missing(v, now) then f.(missingSince := f.missingSince - {v.device})
    else
      var since := if v.device in f.missingSince then f.missingSince[v.device] else now;
      var g := f.(missingSince := f.missingSince[v.device := since]);
      if now - since < ALERT_STATE_MIN_AGE_MS then g else Paged(g, v, WatchdogMissing, Some(ALERT_DEDUP_MS), now)
  }

  /** The alert gate, the restart and the page for a lasting state. */
  function StatePaged(f: Fleet, v: Visit, s: Standing, now: int): Fleet {
    if !Alertable(s.state) || now - s.since < ALERT_STATE_MIN_AGE_MS then f
    else
      var g := f.(rows := Healed(f.rows, s.state.Wedged?, v, "restart", now));
      Paged(g, v, OfState(s.state), Window(v, s.state, s.since), now)
  }

  function Swept(f: Fleet, v: Visit, now: int): Fleet {
    var noted := Noted(f, v, now);
    StatePaged(FlagPaged(noted, v, now), v, noted.standings[v.device], now)
  }

  // ----- what the sweep reports -----

  datatype Decision = Decision(device: int, key: AlertKey, action: ActionTaken, healQueued: bool)

  /** The directive is queued. */
  predicate Heals(rows: Table, needed: bool, v: Visit, verb: string, now: int) {
    needed && !HasRecentDirective(rows, v.user, v.device, verb, now, ALERT_DEDUP_MS)
  }

  function MissingSince(f: Fleet, v: Visit, now: int): int {
    if v.device in f.missingSince then f.missingSince[v.device] else now
  }

  function FlagDecisions(f: Fleet, v: Visit, reinstallQueued: bool, now: int): seq<Decision> {
    if !Missing(v, now) then []
    else
      var action := if now - MissingSince(f, v, now) < ALERT_STATE_MIN_AGE_MS then ObservedOnly
                    else PageOutcome(f, v, WatchdogMissing, Some(ALERT_DEDUP_MS), now);
      [Decision(v.device, WatchdogMissing, action, reinstallQueued)]
  }

  function StateDecisions(f: Fleet, v: Visit, s: Standing, now: int): seq<Decision> {
    if !Alertable(s.state) then []
    else if now - s.since < ALERT_STATE_MIN_AGE_MS then [Decision(v.device, OfState(s.state), ObservedOnly, false)]
    else [Decision(v.device, OfState(s.state), PageOutcome(f, v, OfState(s.state), Window(v, s.state, s.since), now),
                   Heals(f.rows, s.state.Wedged?, v, "restart", now))]
  }

  /** One device's entries: the flag's, then the state's. */
  function DecisionsOf(f: Fleet, v: Visit, now: int): seq<Decision> {
    var noted := Noted(f, v, now);
    FlagDecisions(noted, v, Heals(f.rows, NeedsReinstall(v, now), v, "reinstall_watchdog", now), now)
    + StateDecisions(FlagPaged(noted, v, now), v, noted.standings[v.device], now)
  }

  function AllDecisions(f: Fleet, visits: seq<Visit>, now: int): seq<Decision> {
    if visits == [] then []
    else
      var n := |visits| - 1;
      AllDecisions(f, visits[..n], now) + DecisionsOf(SweptAll(f, visits[..n], now), visits[n], now)
  }

  // ----- the sweep as it runs -----

  class FleetStore {
    var rows: Table
    var standings: map<int, Standing>
    var missingSince: map<int, int>
    var alertedAt: map<AlertId, int>

    function Now(): Fleet
      reads this
    {
      Fleet(rows, standings, missingSince, alertedAt)
    }

    constructor ()
      ensures Now() == NO_FLEET
    {
      rows, standings, missingSince, alertedAt := [], map[], map[], map[];
    }

    /** Keeps the clock of a repeated state, restarts it on a change. */
    method ObserveDeviceFleetState(device: int, state: FleetState, now: int) returns (since: int)
      modifies this`standings
      ensures standings == old(standings)[device := StandingOf(old(Now()), device, state, now)]
              && since == standings[device].since
    {
      since := now;
      if device in standings && standings[device].state == state {
        since := standings[device].since;
      }
      standings := standings[device := Standing(state, since)];
    }

    method ObserveDeviceFlag(device: int, present: bool, now: int) returns (since: Option<int>)
      modifies this`missingSince
      ensures missingSince == if present then old(missingSince)[device := since.GetOr(0)]
              else old(missingSince) - {device}
      ensures since == if !present then None
              else Some(if device in old(missingSince) then old(missingSince)[device] else now)
    {
      if !present {
        missingSince := missingSince - {device};
        return None;
      }
      var start := if device in missingSince then missingSince[device] else now;
      missingSince := missingSince[device := start];
      since := Some(start);
    }

    method QueueHeal(needed: bool, v: Visit, verb: string, now: int) returns (queued: bool)
      modifies this`rows
      ensures rows == Healed(old(rows), needed, v, verb, now) && queued == Heals(old(rows), needed, v, verb, now)
    {
      if !needed {
        return false;
      }
      for i := 0 to |rows|
        invariant rows == old(rows)
        invariant forall k :: 0 <= k < i ==> !IsRecent(rows[k], v.user, v.device, verb, now, ALERT_DEDUP_MS)
      {
        if IsRecent(rows[i], v.user, v.device, verb, now, ALERT_DEDUP_MS) {
          return false;
        }
      }
      rows := rows + [Directive(v.user, verb, Some(v.device), now, None, None, None, None, None)];
      queued := true;
    }

    /** Recorded only once delivered, so that a failed page is retried by the next sweep. */
    method Page(v: Visit, key: AlertKey, window: Option<int>, now: int) returns (action: ActionTaken)
      modifies this`alertedAt
      ensures action == PageOutcome(old(Now()), v, key, window, now) && Now() == Paged(old(Now()), v, key, window, now)
    {
      if !v.webhook {
        return NoWebhook;
      }
      var id := AlertId(v.device, key);
      if id in alertedAt && (window.None? || now - alertedAt[id] < window.value) {
        return Deduped;
      }
      if v.delivers {
        alertedAt := alertedAt[id := now];
        return Alerted;
      }
      return WebhookFailed;
    }

    method SweepFlag(v: Visit, reinstallQueued: bool, now: int) returns (decisions: seq<Decision>)
      modifies this
      ensures Now() == FlagPaged(old(Now()), v, now) && decisions == FlagDecisions(old(Now()), v, reinstallQueued, now)
    {
      decisions := [];
      var since := ObserveDeviceFlag(v.device, Missing(v, now), now);
      if since.Some? {
        if now - since.value < ALERT_STATE_MIN_AGE_MS {
          decisions := [Decision(v.device, WatchdogMissing, ObservedOnly, reinstallQueued)];
        } else {
          var action := Page(v, WatchdogMissing, Some(ALERT_DEDUP_MS), now);
          decisions := [Decision(v.device, WatchdogMissing, action, reinstallQueued)];
        }
      }
    }

    method SweepState(v: Visit, state: FleetState, since: int, now: int) returns (decisions: seq<Decision>)
      modifies this
      ensures Now() == StatePaged(old(Now()), v, Standing(state, since), now)
      ensures decisions == StateDecisions(old(Now()), v, Standing(state, since), now)
    {
      if !Alertable(state) {
        return [];
      }
      if now - since < ALERT_STATE_MIN_AGE_MS {
        return [Decision(v.device, OfState(state), ObservedOnly, false)];
      }
      var healQueued := QueueHeal(state.Wedged?, v, "restart", now);
      var action := Page(v, OfState(state), Window(v, state, since), now);
      decisions := [Decision(v.device, OfState(state), action, healQueued)];
    }

    /** One device of one sweep. */
    method SweepDevice(v: Visit, now: int) returns (decisions: seq<Decision>)
      modifies this
      ensures Now() == Swept(old(Now()), v, now) && decisions == DecisionsOf(old(Now()), v, now)
    {
      var state := ClassifyDevice(v.signals, now);
      var since := ObserveDeviceFleetState(v.device, state, now);
      var reinstallQueued := QueueHeal(NeedsReinstall(v, now), v, "reinstall_watchdog", now);
      var flagged := SweepFlag(v, reinstallQueued, now);
      var paged := SweepState(v, state, since, now);
      decisions := flagged + paged;
    }

    /** A whole sweep: device by device, or nothing at all while suppressed. */
    method SweepFleetAlerts(visits: seq<Visit>, suppressed: bool, now: int) returns (decisions: seq<Decision>)
      modifies this
      ensures Now() == if suppressed then old(Now()) else SweptAll(old(Now()), visits, now)
      ensures decisions == if suppressed then [] else AllDecisions(old(Now()), visits, now)
    {
      decisions := [];
      if suppressed {
        return;
      }
      for i := 0 to |visits|
        invariant Now() == SweptAll(old(Now()), visits[..i], now)
                  && decisions == AllDecisions(old(Now()), visits[..i], now)
      {
        assert visits[..i + 1][..i] == visits[..i];
        var more := SweepDevice(visits[i], now);
        decisions := decisions + more;
      }
      assert visits[..|visits|] == visits;
    }
  }

  function SweptAll(f: Fleet, visits: seq<Visit>, now: int): Fleet {
    if visits == [] then f else Swept(SweptAll(f, visits[..|visits| - 1], now), visits[|visits| - 1], now)
  }
}
