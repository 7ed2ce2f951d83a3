/** When the watchdog must signal: exact deadlines, escalation and fuse over runs of firings. */
module WatchdogDeadlines {
  import opened Options
  import opened Watchdogs

  /** Two firings see the same heartbeat, or none. */
  predicate SameBeat(a: Option<Heartbeat>, b: Option<Heartbeat>) {
    if a.None? || b.None? then a.None? && b.None?
    else a.value.tickSeq == b.value.tickSeq && a.value.wallMs == b.value.wallMs && a.value.pid == b.value.pid
  }

  lemma SigsAgree(a: Option<Heartbeat>, b: Option<Heartbeat>)
    ensures SigOf(a) == SigOf(b) <==> SameBeat(a, b)
  {
  }

  /** Firing `i` has a heartbeat that the state file, if there is one, does not know. */
  ghost predicate SeesNew(sights: seq<Sight>, i: nat) {
    && i < |sights| && sights[i].hb.Some? && !sights[i].loaded.Corrupt?
    && (sights[i].loaded.Missing? || i == 0 || !SameBeat(sights[i - 1].hb, sights[i].hb))
  }

  /** The firings after `i` up to `j` found their state file and the heartbeat that firing `i` saw first. */
  ghost predicate Unchanged(sights: seq<Sight>, i: nat, j: nat) {
    && i <= j < |sights| && SeesNew(sights, i)
    && forall k :: i < k <= j ==> sights[k].loaded.Kept? && SameBeat(sights[k].hb, sights[i].hb)
  }

  /** The heartbeat has stood still for so many firings that its author is to be signalled: 45 minutes'
      worth of firings while an update marker is younger than an hour, else three tick intervals' worth,
      but no fewer than eight. */
  predicate Due(o: Sight, repeats: int) {
    if o.updateStartedAt.Some? && o.now - o.updateStartedAt.value < 60 * 60 * 1000 then 120 * repeats >= 45 * 60
    else repeats >= 8 && 120 * repeats >= 3 * o.tickIntervalSec
  }

  predicate Signals(a: Action) {
    a.SigTerm? || a.SigKill?
  }

  /** The last signal of firings `i` up to, not including, `j`. */
  function LastSignal(sights: seq<Sight>, i: nat, j: nat): Option<Action>
    requires i <= j <= |sights|
    decreases j
  {
    if i == j then None
    else if Signals(ActionAt(sights, j - 1)) then Some(ActionAt(sights, j - 1))
    else LastSignal(sights, i, j - 1)
  }

  ghost predicate FuseBlown(sights: seq<Sight>, j: nat)
    requires j < |sights|
  {
    StateAfter(sights[..j + 1]).degraded
  }

  lemma StateNext(sights: seq<Sight>, j: nat)
    requires j < |sights|
    ensures StateAfter(sights[..j + 1]) == Fire(StateAfter(sights[..j]), sights[j]).state
  {
    assert sights[..j + 1][..j] == sights[..j];
  }

  lemma DueIff(o: Sight, repeats: int)
    ensures repeats >= Threshold(o) <==> Due(o, repeats)
  {
  }

  /** What the state remembers of a heartbeat that stands still. */
  ghost predicate Remembers(sights: seq<Sight>, i: nat, j: nat)
    requires i <= j < |sights| && sights[i].hb.Some?
  {
    var c, last := CoreOf(StateAfter(sights[..j + 1])), LastSignal(sights, i, j + 1);
    && c.lastSig == SigOf(sights[i].hb) && c.consecUnchanged == j - i
    && c.termedPid == (if last.Some? && last.value.SigTerm? then Some(sights[i].hb.value.pid) else None)
  }

  lemma FireKnowsSig(s: State, o: Sight)
    ensures Fire(s, o).state.lastSig == SigOf(o.hb)
  {
    ReadyCore(s, o);
    FireCore(s, o);
  }

  lemma LastSigKnown(sights: seq<Sight>)
    requires sights != []
    ensures StateAfter(sights).lastSig == SigOf(sights[|sights| - 1].hb)
  {
    FireKnowsSig(StateAfter(sights[..|sights| - 1]), sights[|sights| - 1]);
  }

  lemma NewIsReady(sights: seq<Sight>, i: nat)
    requires SeesNew(sights, i)
    ensures CoreOf(Ready(StateAfter(sights[..i]), sights[i])) == Core(SigOf(sights[i].hb), 0, None)
  {
    ReadyCore(StateAfter(sights[..i]), sights[i]);
    if i > 0 && sights[i].loaded.Kept? {
      LastSigKnown(sights[..i]);
      SigsAgree(sights[i - 1].hb, sights[i].hb);
    }
  }

  /** The firing's decision on a state that is ready. */
  lemma DecidesExactly(s: State, o: Sight)
    requires o.hb.Some?
    ensures var r, a, pid := Ready(s, o), Fire(s, o).action, o.hb.value.pid;
            && (Signals(a) <==> Due(o, r.consecUnchanged) && o.daemonPid == Some(pid) && !Fire(s, o).state.degraded)
            && (Signals(a) ==> a == if r.termedPid == Some(pid) then SigKill(pid) else SigTerm(pid))
            && (a.NoDaemon? <==> Due(o, r.consecUnchanged) && o.daemonPid.None?)
  {
    DueIff(o, Ready(s, o).consecUnchanged);
  }

  /** What the ladder decides on at firing `j`. */
  ghost predicate ReadyFor(sights: seq<Sight>, i: nat, j: nat)
    requires i <= j < |sights| && sights[i].hb.Some?
  {
    var last := LastSignal(sights, i, j);
    CoreOf(Ready(StateAfter(sights[..j]), sights[j]))
    == Core(SigOf(sights[i].hb), j - i,
            if last.Some? && last.value.SigTerm? then Some(sights[i].hb.value.pid) else None)
  }

  lemma SignalledState(sights: seq<Sight>, i: nat, j: nat)
    requires i <= j < |sights| && sights[i].hb.Some? && SameBeat(sights[j].hb, sights[i].hb) && ReadyFor(sights, i, j)
    ensures Remembers(sights, i, j)
  {
    StateNext(sights, j);
    FireCore(StateAfter(sights[..j]), sights[j]);
    DecidesExactly(StateAfter(sights[..j]), sights[j]);
  }

  lemma ReadyNext(sights: seq<Sight>, i: nat, j: nat)
    requires Unchanged(sights, i, j) && i < j && Remembers(sights, i, j - 1)
    ensures ReadyFor(sights, i, j)
  {
    ReadyCore(StateAfter(sights[..j]), sights[j]);
    SigsAgree(sights[j].hb, sights[i].hb);
  }

  lemma {:induction false} CountsRepeats(sights: seq<Sight>, i: nat, j: nat)
    requires Unchanged(sights, i, j)
    ensures ReadyFor(sights, i, j) && Remembers(sights, i, j)
    decreases j
  {
    if i == j {
      NewIsReady(sights, i);
    } else {
      CountsRepeats(sights, i, j - 1);
      ReadyNext(sights, i, j);
    }
    SignalledState(sights, i, j);
  }

  /** An unchanged heartbeat is signalled exactly when it is due, launchd agrees on its author and the
      fuse is whole: with SIGKILL if the last signal since it was new was a SIGTERM, else with SIGTERM.
      No other process is ever signalled, and a due one that launchd does not run is reported. */
  lemma SignalsExactly(sights: seq<Sight>, i: nat, j: nat)
    requires Unchanged(sights, i, j)
    ensures var o, a, last := sights[j], ActionAt(sights, j), LastSignal(sights, i, j);
            var pid := sights[i].hb.value.pid;
            && (Signals(a) <==> Due(o, j - i) && o.daemonPid == Some(pid) && !FuseBlown(sights, j))
            && (Signals(a) ==> a == if last.Some? && last.value.SigTerm? then SigKill(pid) else SigTerm(pid))
            && (a.NoDaemon? <==> Due(o, j - i) && o.daemonPid.None?)
  {
    CountsRepeats(sights, i, j);
    DecidesExactly(StateAfter(sights[..j]), sights[j]);
    StateNext(sights, j);
  }

  /** At firing `j` the author of the heartbeat that has not changed since firing `i` is to be signalled. */
  ghost predicate IsDue(sights: seq<Sight>, i: nat, j: nat)
    requires Unchanged(sights, i, j)
  {
    Due(sights[j], j - i) && sights[j].daemonPid == Some(sights[i].hb.value.pid) && !FuseBlown(sights, j)
  }

  lemma DueIsSignalled(sights: seq<Sight>, i: nat, j: nat)
    requires Unchanged(sights, i, j) && IsDue(sights, i, j)
    ensures var last, pid := LastSignal(sights, i, j), sights[i].hb.value.pid;
            ActionAt(sights, j) == if last.Some? && last.value.SigTerm? then SigKill(pid) else SigTerm(pid)
  {
    SignalsExactly(sights, i, j);
  }

  /** The first firing at which the author of an unchanged heartbeat is to be signalled sends SIGTERM,
      and the one after it SIGKILL. */
  lemma FirstTermThenKill(sights: seq<Sight>, i: nat, j: nat)
    requires Unchanged(sights, i, j) && Unchanged(sights, i, j + 1) && LastSignal(sights, i, j) == None
    requires IsDue(sights, i, j) && IsDue(sights, i, j + 1)
    ensures ActionAt(sights, j) == SigTerm(sights[i].hb.value.pid)
    ensures ActionAt(sights, j + 1) == SigKill(sights[i].hb.value.pid)
  {
    DueIsSignalled(sights, i, j);
    SignalRemembered(sights, i, j);
    DueIsSignalled(sights, i, j + 1);
  }

  lemma SignalRemembered(sights: seq<Sight>, i: nat, j: nat)
    requires i <= j < |sights| && Signals(ActionAt(sights, j))
    ensures LastSignal(sights, i, j + 1) == Some(ActionAt(sights, j))
  {
  }

  // ----- the fuse -----

  /** Firing `a` starts from an empty state, and the firings up to `j` keep what it leaves. */
  ghost predicate KeptSince(sights: seq<Sight>, a: nat, j: nat)
    decreases j
  {
    && a <= j < |sights|
    && if a == j then a == 0 || !sights[a].loaded.Kept? else sights[j].loaded.Kept? && KeptSince(sights, a, j - 1)
  }

  ghost predicate ClockGoesOn(sights: seq<Sight>, a: nat, j: nat)
    requires a <= j < |sights|
    decreases j
  {
    a == j || (sights[j - 1].now <= sights[j].now && ClockGoesOn(sights, a, j - 1))
  }

  /** The pid of the last heartbeat seen in firings `a` up to, not including, `r`. */
  function LastPid(sights: seq<Sight>, a: nat, r: nat): Option<int>
    requires a <= r <= |sights|
    decreases r
  {
    if r == a then None
    else if sights[r - 1].hb.Some? then Some(sights[r - 1].hb.value.pid)
    else LastPid(sights, a, r - 1)
  }

  /** Firing `r` meets another process, by heartbeat or by launchd, that no journal entry explains. */
  predicate Respawned(sights: seq<Sight>, a: nat, r: nat)
    requires a < r < |sights|
  {
    var o, last, before := sights[r], LastPid(sights, a, r), sights[r - 1].daemonPid;
    && !o.explained
    && (|| (o.hb.Some? && last.Some? && o.hb.value.pid != last.value)
        || (o.daemonPid.Some? && before.Some? && o.daemonPid.value != before.value))
  }

  /** Firing `k` sees a new heartbeat of a daemon that has ticked without failures. */
  predicate Recovers(sights: seq<Sight>, k: nat)
    requires 0 < k < |sights|
  {
    var hb := sights[k].hb;
    hb.Some? && !SameBeat(sights[k - 1].hb, hb) && hb.value.tickSeq >= 1 && hb.value.consecFailures == 0
  }

  /** A respawn at firing `r` still speaks against the daemon at firing `j`. */
  predicate Counts(sights: seq<Sight>, a: nat, r: nat, j: nat)
    requires a < r <= j < |sights|
  {
    && Respawned(sights, a, r) && sights[j].now - sights[r].now < 90 * 60 * 1000
    && forall k :: r <= k <= j ==> !Recovers(sights, k)
  }

  /** The times of the respawns before firing `n` that count at firing `j`. */
  function RespawnTimes(sights: seq<Sight>, a: nat, n: nat, j: nat): seq<int>
    requires a < n <= j + 1 && j < |sights|
    decreases n
  {
    if n == a + 1 then []
    else RespawnTimes(sights, a, n - 1, j) + if Counts(sights, a, n - 1, j) then [sights[n - 1].now] else []
  }

  lemma RecentAppend(times: seq<int>, t: int, now: int)
    ensures Recent(times + [t], now) == Recent(times, now) + if now - t < FUSE_WINDOW_MS then [t] else []
  {
    assert (times + [t])[..|times|] == times;
  }

  lemma CountsAges(sights: seq<Sight>, a: nat, r: nat, j: nat)
    requires a < r <= j && j + 1 < |sights| && sights[j].now <= sights[j + 1].now
    ensures Counts(sights, a, r, j + 1) <==>
            Counts(sights, a, r, j) && sights[j + 1].now - sights[r].now < FUSE_WINDOW_MS && !Recovers(sights, j + 1)
  {
  }

  lemma OneAges(times: seq<int>, aged: seq<int>, t: int, now: int, counted: bool, counts: bool, cleared: bool)
    requires counts <==> counted && now - t < FUSE_WINDOW_MS && !cleared
    requires aged == if cleared then [] else Recent(times, now)
    ensures aged + (if counts then [t] else [])
         == if cleared then [] else Recent(times + if counted then [t] else [], now)
  {
    RecentAppend(times, t, now);
    assert times + [] == times;
  }

  /** What counted at the last firing counts on while it is recent and nothing recovers. */
  lemma {:induction false} TimesAge(sights: seq<Sight>, a: nat, n: nat, j: nat)
    requires a < n <= j + 1 && j + 1 < |sights| && sights[j].now <= sights[j + 1].now
    ensures RespawnTimes(sights, a, n, j + 1)
         == if Recovers(sights, j + 1) then [] else Recent(RespawnTimes(sights, a, n, j), sights[j + 1].now)
    decreases n
  {
    if n == a + 1 {
      assert Recent([], sights[j + 1].now) == [];
    } else {
      TimesAge(sights, a, n - 1, j);
      CountsAges(sights, a, n - 1, j);
      OneAges(RespawnTimes(sights, a, n - 1, j), RespawnTimes(sights, a, n - 1, j + 1), sights[n - 1].now,
              sights[j + 1].now, Counts(sights, a, n - 1, j), Counts(sights, a, n - 1, j + 1), Recovers(sights, j + 1));
    }
  }

  lemma CountsNow(sights: seq<Sight>, a: nat, j: nat)
    requires a < j < |sights|
    ensures Counts(sights, a, j, j) <==> Respawned(sights, a, j) && !Recovers(sights, j)
    ensures RespawnTimes(sights, a, j + 1, j)
         == RespawnTimes(sights, a, j, j) + if Counts(sights, a, j, j) then [sights[j].now] else []
  {
  }

  /** The respawn times of one more firing. */
  lemma TimesNext(sights: seq<Sight>, a: nat, j: nat)
    requires a < j < |sights| && sights[j - 1].now <= sights[j].now
    ensures var before, now := RespawnTimes(sights, a, j, j - 1), sights[j].now;
            RespawnTimes(sights, a, j + 1, j)
            == if Recovers(sights, j) then []
               else Recent(before + if Respawned(sights, a, j) then [now] else [], now)
  {
    TimesAge(sights, a, j, j - 1);
    CountsNow(sights, a, j);
    OneAges(RespawnTimes(sights, a, j, j - 1), RespawnTimes(sights, a, j, j), sights[j].now, sights[j].now,
            Respawned(sights, a, j), Counts(sights, a, j, j), Recovers(sights, j));
  }

  /** What the fuse knows after firing `j` if it was never blown before. */
  ghost predicate FuseMemory(sights: seq<Sight>, a: nat, j: nat)
    requires a <= j < |sights|
  {
    var s := StateAfter(sights[..j + 1]);
    && s.respawns == RespawnTimes(sights, a, j + 1, j) && s.lastHbPid == LastPid(sights, a, j + 1)
    && s.lastLabelPid == sights[j].daemonPid
  }

  lemma FireFromEmpty(s: State, o: Sight)
    requires Load(s, o.loaded) == EMPTY_STATE
    ensures var f := Fire(s, o).state;
            f.respawns == [] && f.lastHbPid == HbPid(o.hb) && f.lastLabelPid == o.daemonPid && !f.degraded
  {
    assert Recent([], o.now) == [];
  }

  lemma FuseStarts(sights: seq<Sight>, a: nat)
    requires KeptSince(sights, a, a)
    ensures FuseMemory(sights, a, a) && !FuseBlown(sights, a)
  {
    assert sights[..0] == [];
    FireFromEmpty(StateAfter(sights[..a]), sights[a]);
    StateNext(sights, a);
    assert LastPid(sights, a, a) == None;
  }

  /** The fuse was whole after each firing from `a` up to, not including, `j`. */
  ghost predicate WholeBefore(sights: seq<Sight>, a: nat, j: nat)
    requires a <= j < |sights|
    decreases j
  {
    j == a || (WholeBefore(sights, a, j - 1) && !FuseBlown(sights, j - 1))
  }

  /** How the fuse's memory moves at one firing that keeps its state. */
  ghost predicate FuseMove(s: State, o: Sight, f: State) {
    && f.lastLabelPid == o.daemonPid && f.lastHbPid == (if o.hb.Some? then HbPid(o.hb) else s.lastHbPid)
    && f.respawns == (if o.hb.Some? && SigOf(o.hb) != s.lastSig && o.hb.value.tickSeq >= 1
                         && o.hb.value.consecFailures == 0 then []
                      else Accounted(s, o).respawns)
    && (f.degraded <==> |f.respawns| >= 3)
  }

  lemma FireMovesFuse(s: State, o: Sight)
    requires o.loaded.Kept? && !s.degraded
    ensures FuseMove(s, o, Fire(s, o).state)
  {
  }

  lemma AccountsRespawns(sights: seq<Sight>, a: nat, j: nat, s: State)
    requires a < j < |sights| && s.lastHbPid == LastPid(sights, a, j) && s.lastLabelPid == sights[j - 1].daemonPid
    ensures Accounted(s, sights[j]).respawns
         == Recent(s.respawns + if Respawned(sights, a, j) then [sights[j].now] else [], sights[j].now)
  {
    assert s.respawns + [] == s.respawns;
  }

  lemma FuseMoves(sights: seq<Sight>, a: nat, j: nat, s: State, f: State)
    requires a < j < |sights| && FuseMove(s, sights[j], f) && s.lastSig == SigOf(sights[j - 1].hb)
    requires sights[j - 1].now <= sights[j].now
    requires s.respawns == RespawnTimes(sights, a, j, j - 1) && s.lastHbPid == LastPid(sights, a, j)
    requires s.lastLabelPid == sights[j - 1].daemonPid
    ensures f.respawns == RespawnTimes(sights, a, j + 1, j) && f.lastHbPid == LastPid(sights, a, j + 1)
    ensures f.lastLabelPid == sights[j].daemonPid && (f.degraded <==> |RespawnTimes(sights, a, j + 1, j)| >= 3)
  {
    AccountsRespawns(sights, a, j, s);
    SigsAgree(sights[j - 1].hb, sights[j].hb);
    TimesNext(sights, a, j);
  }

  lemma FuseGoesOn(sights: seq<Sight>, a: nat, j: nat)
    requires a < j < |sights| && sights[j].loaded.Kept? && sights[j - 1].now <= sights[j].now
    requires FuseMemory(sights, a, j - 1) && !FuseBlown(sights, j - 1)
    ensures FuseMemory(sights, a, j) && (FuseBlown(sights, j) <==> |RespawnTimes(sights, a, j + 1, j)| >= 3)
  {
    FireMovesFuse(StateAfter(sights[..j]), sights[j]);
    StateNext(sights, j);
    LastSigKnown(sights[..j]);
    FuseMoves(sights, a, j, StateAfter(sights[..j]), StateAfter(sights[..j + 1]));
  }

  /** With the state file kept and a clock that does not go back, a whole fuse blows at the firing at which
      three unexplained respawns of the last 90 minutes stand, with no healthy new heartbeat since. */
  lemma {:induction false} FuseBlowsAtThird(sights: seq<Sight>, a: nat, j: nat)
    requires KeptSince(sights, a, j) && ClockGoesOn(sights, a, j) && WholeBefore(sights, a, j)
    ensures FuseMemory(sights, a, j) && (FuseBlown(sights, j) <==> |RespawnTimes(sights, a, j + 1, j)| >= 3)
    decreases j
  {
    if j == a {
      FuseStarts(sights, a);
    } else {
      FuseBlowsAtThird(sights, a, j - 1);
      FuseGoesOn(sights, a, j);
    }
  }

  /** For how many firings in a row the heartbeat of firing `j` has stood still. */
  function Repeated(sights: seq<Sight>, a: nat, j: nat): nat
    requires a <= j < |sights|
    decreases j
  {
    if sights[j].hb.None? then 0
    else if j == a then if sights[a].loaded.Corrupt? then 1 else 0
    else if SameBeat(sights[j - 1].hb, sights[j].hb) then Repeated(sights, a, j - 1) + 1
    else 0
  }

  /** When a new heartbeat last ended a silence that was due, or was the first one. */
  function Anchor(sights: seq<Sight>, a: nat, j: nat): Option<int>
    requires a <= j < |sights|
    decreases j
  {
    var o, before := sights[j], if j == a then None else Anchor(sights, a, j - 1);
    if o.hb.None? || Repeated(sights, a, j) > 0 then before
    else if before.None? || Due(o.(updateStartedAt := None), Repeated(sights, a, j - 1)) then Some(o.now)
    else before
  }

  lemma StillDue(o: Sight, repeats: int)
    ensures repeats >= StaleRunsFor(o.tickIntervalSec) <==> Due(o.(updateStartedAt := None), repeats)
  {
  }

  /** How the anchor and the count of repeats move at one firing. */
  ghost predicate FreshMove(r: State, o: Sight, f: State) {
    var t := SigOf(o.hb);
    && f.consecUnchanged == (if t.None? then 0 else if o.loaded.Corrupt? then 1
                             else if t == r.lastSig then r.consecUnchanged + 1 else 0)
    && f.freshSince == (if t.Some? && !o.loaded.Corrupt? && t != r.lastSig
                           && (r.consecUnchanged >= StaleRunsFor(o.tickIntervalSec) || r.freshSince.None?)
                        then Some(o.now) else r.freshSince)
  }

  lemma FireMovesFresh(s: State, o: Sight)
    ensures FreshMove(Load(s, o.loaded), o, Fire(s, o).state)
  {
  }

  ghost predicate KnowsAnchor(sights: seq<Sight>, a: nat, j: nat)
    requires a <= j < |sights|
  {
    var s := StateAfter(sights[..j + 1]);
    s.consecUnchanged == Repeated(sights, a, j) && s.freshSince == Anchor(sights, a, j)
  }

  lemma AnchorStarts(sights: seq<Sight>, a: nat)
    requires KeptSince(sights, a, a)
    ensures KnowsAnchor(sights, a, a)
  {
    StateNext(sights, a);
    FireMovesFresh(StateAfter(sights[..a]), sights[a]);
    assert sights[..0] == [];
  }

  lemma AnchorMoves(sights: seq<Sight>, a: nat, j: nat, s: State, f: State)
    requires a < j < |sights| && sights[j].loaded.Kept? && FreshMove(s, sights[j], f)
    requires s.lastSig == SigOf(sights[j - 1].hb)
    requires s.consecUnchanged == Repeated(sights, a, j - 1) && s.freshSince == Anchor(sights, a, j - 1)
    ensures f.consecUnchanged == Repeated(sights, a, j) && f.freshSince == Anchor(sights, a, j)
  {
    SigsAgree(sights[j - 1].hb, sights[j].hb);
    StillDue(sights[j], Repeated(sights, a, j - 1));
  }

  lemma AnchorGoesOn(sights: seq<Sight>, a: nat, j: nat)
    requires a < j < |sights| && sights[j].loaded.Kept? && KnowsAnchor(sights, a, j - 1)
    ensures KnowsAnchor(sights, a, j)
  {
    StateNext(sights, j);
    FireMovesFresh(StateAfter(sights[..j]), sights[j]);
    LastSigKnown(sights[..j]);
    AnchorMoves(sights, a, j, StateAfter(sights[..j]), StateAfter(sights[..j + 1]));
  }

  lemma {:induction false} FreshSinceAnchor(sights: seq<Sight>, a: nat, j: nat)
    requires KeptSince(sights, a, j)
    ensures KnowsAnchor(sights, a, j)
    decreases j
  {
    if j == a {
      AnchorStarts(sights, a);
    } else {
      FreshSinceAnchor(sights, a, j - 1);
      AnchorGoesOn(sights, a, j);
    }
  }

  lemma FuseMends(s: State, o: Sight)
    requires o.loaded.Kept? && s.degraded
    ensures var f := Fire(s, o).state;
            !f.degraded <==>
            f.consecUnchanged == 0 && f.freshSince.Some?
              && o.now - f.freshSince.value >= 30 * 60 * 1000
  {
  }

  /** A blown fuse is mended exactly by a firing that sees a new heartbeat, or none, at least 30 minutes
      after the anchor, however short it has been blown. */
  lemma MendsIff(sights: seq<Sight>, a: nat, j: nat)
    requires KeptSince(sights, a, j) && a < j && FuseBlown(sights, j - 1)
    ensures var anchor := Anchor(sights, a, j);
            !FuseBlown(sights, j) <==>
            Repeated(sights, a, j) == 0 && anchor.Some? && sights[j].now - anchor.value >= 30 * 60 * 1000
  {
    StateNext(sights, j);
    FuseMends(StateAfter(sights[..j]), sights[j]);
    FreshSinceAnchor(sights, a, j);
  }

  /** A daemon that is started anew for each firing, without a tick and without a journal entry. */
  function Crashing(pid: int, now: int): Sight {
    Sight(Kept, Some(Heartbeat(0, now, pid, 0)), Some(pid), false, None, 300, now)
  }

  /** A daemon that runs for half an hour and then crashes in a loop: the fuse blows at the third respawn
      and is mended at the fourth, one firing later. */
  function CrashLoop(start: int): seq<Sight> {
    [Crashing(1, start), Crashing(2, start + 1_800_000), Crashing(3, start + 1_920_000),
     Crashing(4, start + 2_040_000), Crashing(5, start + 2_160_000)]
  }

  /** The state of such a loop after the process `pid` was seen. */
  ghost predicate Looping(s: State, pid: int, start: int, respawns: seq<int>) {
    && s.consecUnchanged == 0 && s.freshSince == Some(start) && s.lastHbPid == Some(pid)
    && s.lastSig.Some? && s.lastSig.value.pid == pid && s.respawns == respawns
  }

  lemma CrashStep(s: State, pid: int, start: int, respawns: seq<int>, now: int)
    requires Looping(s, pid, start, respawns)
    ensures var f, times := Fire(s, Crashing(pid + 1, now)).state, Recent(respawns + [now], now);
            && (!s.degraded ==> Looping(f, pid + 1, start, times) && (f.degraded <==> |times| >= 3))
            && (s.degraded ==> (!f.degraded <==> now - start >= UNLATCH_FRESH_MS))
  {
    FireMovesFresh(s, Crashing(pid + 1, now));
    FireKnowsSig(s, Crashing(pid + 1, now));
  }

  lemma ThreeRecent(a: int, b: int, c: int)
    requires a <= b <= c < a + FUSE_WINDOW_MS
    ensures Recent([] + [a], a) == [a] && Recent([a] + [b], b) == [a, b] && Recent([a, b] + [c], c) == [a, b, c]
  {
    RecentAppend([], a, a);
    RecentAppend([], a, b);
    RecentAppend([], a, c);
    RecentAppend([a], b, b);
    RecentAppend([a], b, c);
    RecentAppend([a, b], c, c);
    assert [] + [a] == [a] && [a] + [b] == [a, b];
  }

  lemma LoopGoesOn(sights: seq<Sight>, n: nat, start: int, respawns: seq<int>, now: int, times: seq<int>)
    requires 0 < n < |sights| && sights[n] == Crashing(n + 1, now)
    requires Looping(StateAfter(sights[..n]), n, start, respawns) && !FuseBlown(sights, n - 1)
    requires times == Recent(respawns + [now], now)
    ensures Looping(StateAfter(sights[..n + 1]), n + 1, start, times) && (FuseBlown(sights, n) <==> |times| >= 3)
  {
    StateNext(sights, n);
    CrashStep(StateAfter(sights[..n]), n, start, respawns, now);
  }

  lemma LoopMends(sights: seq<Sight>, n: nat, start: int, respawns: seq<int>, now: int)
    requires 0 < n < |sights| && sights[n] == Crashing(n + 1, now)
    requires Looping(StateAfter(sights[..n]), n, start, respawns) && FuseBlown(sights, n - 1)
    ensures !FuseBlown(sights, n) <==> now - start >= UNLATCH_FRESH_MS
  {
    StateNext(sights, n);
    CrashStep(StateAfter(sights[..n]), n, start, respawns, now);
  }

  lemma LoopStarts(start: int)
    ensures Looping(StateAfter(CrashLoop(start)[..1]), 1, start, []) && !FuseBlown(CrashLoop(start), 0)
  {
    StateNext(CrashLoop(start), 0);
    assert CrashLoop(start)[..0] == [];
    FireMovesFresh(EMPTY_STATE, Crashing(1, start));
    assert Recent([], start) == [];
  }

  lemma MendsAtOnce(start: int)
    ensures var sights := CrashLoop(start); FuseBlown(sights, 3) && !FuseBlown(sights, 4)
  {
    var sights, a, b, c := CrashLoop(start), start + 1_800_000, start + 1_920_000, start + 2_040_000;
    LoopStarts(start);
    ThreeRecent(a, b, c);
    LoopGoesOn(sights, 1, start, [], a, [a]);
    LoopGoesOn(sights, 2, start, [a], b, [a, b]);
    LoopGoesOn(sights, 3, start, [a, b], c, [a, b, c]);
    LoopMends(sights, 4, start, [a, b, c], start + 2_160_000);
  }
}
