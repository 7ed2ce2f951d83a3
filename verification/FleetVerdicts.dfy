/** When a device is in which state: exact conditions on what it sent, in time that passed. */
module FleetVerdicts {
  import opened Numbers
  import opened Options
  import opened FleetSweeps

  const MINUTE: int := 60_000
  const HOUR: int := 60 * MINUTE

  /** How long the daemon has not been heard; for one that was never heard, since it was added. */
  function StillFor(s: Signals, now: int): int {
    if s.lastSeen.Some? then now - s.lastSeen.value else now - s.addedAt
  }

  /** The daemon's own tick interval in ms, five minutes if it never reported one. */
  function TickMs(s: Signals): int {
    1000 * if s.checkin.Some? then s.checkin.value.intervalS else 300
  }

  /** The daemon was heard within a quarter of an hour, or within three of its own ticks. */
  predicate DaemonHeard(s: Signals, now: int) {
    s.lastSeen.Some? && (StillFor(s, now) <= 15 * MINUTE || StillFor(s, now) <= 3 * TickMs(s))
  }

  predicate WatchdogHeard(s: Signals, now: int) {
    s.watchdogLastSeen.Some? && now - s.watchdogLastSeen.value <= 15 * MINUTE
  }

  /** A watchdog that is heard reports the heartbeat unchanged for at least eight of its firings, which lie
      two minutes apart, and for three ticks' worth of them. */
  predicate Frozen(s: Signals, now: int) {
    && WatchdogHeard(s, now) && s.watchdog.Some?
    && s.watchdog.value.heartbeatAgeRuns >= 8 && 2 * MINUTE * s.watchdog.value.heartbeatAgeRuns >= 3 * TickMs(s)
  }

  /** Check-in `i` follows check-in `j`, with none in between that reports an uptime, and reports a smaller one. */
  ghost predicate FellSince(history: seq<Beat>, j: nat, i: nat) {
    && j < i < |history| && history[j].uptimeS.Some? && history[i].uptimeS.Some?
    && (forall k :: j < k < i ==> history[k].uptimeS.None?)
    && history[i].uptimeS.value < history[j].uptimeS.value
  }

  /** Check-in `i` reveals a restart of the last 90 minutes that no exit within ten minutes of it explains. */
  ghost predicate Crash(history: seq<Beat>, i: nat, journal: seq<int>, now: int) {
    && i < |history| && (exists j :: 0 <= j && FellSince(history, j, i))
    && var boot := history[i].ts - history[i].uptimeS.GetOr(0) * 1000;
       && now - boot <= 90 * MINUTE
       && forall k :: 0 <= k < |journal| ==> journal[k] < boot - 10 * MINUTE || boot + 10 * MINUTE < journal[k]
  }

  ghost function Crashes(history: seq<Beat>, journal: seq<int>, now: int): set<nat> {
    set i | 0 <= i < |history| && Crash(history, i, journal, now)
  }

  lemma {:induction false} LastUptimeAt(history: seq<Beat>) returns (j: nat)
    ensures LastUptime(history).None? ==> forall k :: 0 <= k < |history| ==> history[k].uptimeS.None?
    ensures LastUptime(history).Some? ==>
              && j < |history| && history[j].uptimeS == LastUptime(history)
              && forall k :: j < k < |history| ==> history[k].uptimeS.None?
  {
    j := 0;
    if history != [] {
      if history[|history| - 1].uptimeS.Some? {
        j := |history| - 1;
      } else {
        j := LastUptimeAt(history[..|history| - 1]);
      }
    }
  }

  lemma FellIff(history: seq<Beat>, i: nat)
    requires i < |history|
    ensures (exists j :: 0 <= j && FellSince(history, j, i)) <==>
            && LastUptime(history[..i]).Some? && history[i].uptimeS.Some?
            && history[i].uptimeS.value < LastUptime(history[..i]).value
  {
    var last := LastUptimeAt(history[..i]);
    if j :| 0 <= j && FellSince(history, j, i) {
      assert history[..i][j].uptimeS.Some?;
      assert j == last;
    }
    if LastUptime(history[..i]).Some? && history[i].uptimeS.Some?
       && history[i].uptimeS.value < LastUptime(history[..i]).value {
      assert forall k :: last < k < i ==> history[..i][k] == history[k];
      assert FellSince(history, last, i);
    }
  }

  lemma CrashIff(history: seq<Beat>, i: nat, journal: seq<int>, now: int)
    requires i < |history|
    ensures Crash(history, i, journal, now) <==> RevealsCrash(history[..i], history[i], journal, now)
  {
    FellIff(history, i);
  }

  /** A crash shows in the check-ins up to it. */
  lemma CrashInPrefix(history: seq<Beat>, n: nat, i: nat, journal: seq<int>, now: int)
    requires i < n <= |history|
    ensures Crash(history[..n], i, journal, now) <==> Crash(history, i, journal, now)
  {
    CrashIff(history, i, journal, now);
    CrashIff(history[..n], i, journal, now);
    assert history[..n][..i] == history[..i];
  }

  lemma OneMoreCheckin(history: seq<Beat>, journal: seq<int>, now: int)
    requires history != []
    ensures var n := |history| - 1;
            Crashes(history, journal, now)
            == Crashes(history[..n], journal, now) + if RevealsCrash(history[..n], history[n], journal, now) then {n}
              else {}
  {
    var n := |history| - 1;
    CrashIff(history, n, journal, now);
    forall i: nat | i < |history|
      ensures i in Crashes(history, journal, now) <==>
              i in Crashes(history[..n], journal, now) || (i == n && Crash(history, n, journal, now))
    {
      if i < n {
        CrashInPrefix(history, n, i, journal, now);
      }
    }
  }

  lemma {:induction false} CrashesCounted(history: seq<Beat>, journal: seq<int>, now: int)
    ensures CrashesIn(history, journal, now) == |Crashes(history, journal, now)|
  {
    if history != [] {
      CrashesCounted(history[..|history| - 1], journal, now);
      OneMoreCheckin(history, journal, now);
    }
  }

  function JournalOf(s: Signals): seq<int> {
    if s.checkin.Some? then s.checkin.value.journal else []
  }

  /** Three restarts nothing explains. */
  ghost predicate Loops(s: Signals, now: int) {
    |Crashes(s.history, JournalOf(s), now)| >= 3
  }

  predicate FuseReported(s: Signals, now: int) {
    WatchdogHeard(s, now) && s.watchdog.Some? && s.watchdog.value.degraded
  }

  /** The device is in use and silent, and no other state explains that. */
  ghost predicate Quiet(s: Signals, now: int) {
    !s.uninstalled && !DaemonHeard(s, now) && !Loops(s, now) && !FuseReported(s, now)
  }

  /** A silent daemon whose watchdog is heard: its heartbeat is frozen, or it has been still for more than half
      an hour and for a quarter of an hour more than three of its ticks. */
  ghost predicate IsWedged(s: Signals, now: int) {
    && Quiet(s, now) && WatchdogHeard(s, now)
    && (Frozen(s, now) || (StillFor(s, now) > 30 * MINUTE && StillFor(s, now) > 3 * TickMs(s) + 15 * MINUTE))
  }

  /** A silent daemon that is still for more than an hour, as its watchdog is; or, if it never had one, for more
      than a day, an hour where none is to be expected. */
  ghost predicate IsDark(s: Signals, now: int) {
    && Quiet(s, now)
    && if s.watchdogLastSeen.Some?
       then StillFor(s, now) > HOUR && now - s.watchdogLastSeen.value > HOUR
       else StillFor(s, now) > if s.checkin.Some? && !s.checkin.value.darwin then HOUR else 24 * HOUR
  }

  lemma ThresholdsMet(s: Signals, now: int)
    ensures DaemonFresh(s, now) <==> DaemonHeard(s, now)
    ensures WatchdogFresh(s, now) <==> WatchdogHeard(s, now)
    ensures StaleHeartbeat(s, now) <==> Frozen(s, now)
    ensures CrashesIn(s.history, if s.checkin.Some? then s.checkin.value.journal else [], now) >= 3 <==> Loops(s, now)
  {
    CrashesCounted(s.history, JournalOf(s), now);
  }

  /** Each state's exact condition. */
  lemma ClassifiedExactly(s: Signals, now: int)
    ensures var state, heard, loops := ClassifyDevice(s, now), DaemonHeard(s, now), Loops(s, now);
            && (state == UninstalledUser <==> s.uninstalled)
            && (state == HeartbeatIo <==> !s.uninstalled && heard && Frozen(s, now))
            && (state == CrashLooping <==> !s.uninstalled && loops && !(heard && Frozen(s, now)))
            && (state == DegradedFuse <==>
                  !s.uninstalled && !loops && FuseReported(s, now) && !(heard && Frozen(s, now)))
            && (state == Healthy <==> !s.uninstalled && heard && !Frozen(s, now) && !loops && !FuseReported(s, now))
            && (state == Wedged <==> IsWedged(s, now)) && (state == Dark <==> IsDark(s, now))
            && (state == Late <==> Quiet(s, now) && !IsWedged(s, now) && !IsDark(s, now))
  {
    ThresholdsMet(s, now);
  }
}
