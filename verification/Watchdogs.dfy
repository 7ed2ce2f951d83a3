/** The daemon's watchdog: one firing of the kill ladder, and what whole runs of firings guarantee. */
module Watchdogs {
  import opened Numbers
  import opened Options

  const WATCHDOG_INTERVAL_SEC: int := 120
  const STALE_RUNS_MIN: int := 8
  const UPDATE_GRACE_MS: int := 45 * 60_000
  const UPDATE_MARKER_IGNORE_MS: int := 60 * 60_000
  const FUSE_RESPAWNS: int := 3
  const FUSE_WINDOW_MS: int := 90 * 60_000
  const UNLATCH_FRESH_MS: int := 30 * 60_000

  function StaleRunsFor(tickIntervalSec: int): int {
    var scaled := CeilDiv(3 * tickIntervalSec, WATCHDOG_INTERVAL_SEC);
    if scaled >= STALE_RUNS_MIN then scaled else STALE_RUNS_MIN
  }

  const UPDATE_GRACE_RUNS := CeilDiv(UPDATE_GRACE_MS / 1000, WATCHDOG_INTERVAL_SEC)

  datatype Heartbeat = Heartbeat(tickSeq: int, wallMs: int, pid: int, consecFailures: int)

  /** The parts of a heartbeat that make up its signature. */
  datatype Sig = Sig(tickSeq: int, wallMs: int, pid: int)

  datatype State = State(
    lastSig: Option<Sig>, consecUnchanged: int, freshSince: Option<int>, termedPid: Option<int>,
    lastLabelPid: Option<int>, lastHbPid: Option<int>, lastRunAt: Option<int>,
    respawns: seq<int>, kills: seq<int>, noPidRuns: int, degraded: bool, degradedAt: Option<int>)

  const EMPTY_STATE := State(None, 0, None, None, None, None, None, [], [], 0, false, None)

  /** How the state file was found: as the last firing left it, unreadable, or missing. */
  datatype Loaded = Kept | Corrupt | Missing

  /** What one firing sees. `explained` says that an exit journal entry accounts for a new pid. */
  datatype Sight = Sight(
    loaded: Loaded, hb: Option<Heartbeat>, daemonPid: Option<int>, explained: bool,
    updateStartedAt: Option<int>, tickIntervalSec: int, now: int)

  datatype Action = Observe | SigTerm(pid: int) | SigKill(pid: int) | Degraded | NoDaemon

  function SigOf(hb: Option<Heartbeat>): Option<Sig> {
    if hb.Some? then Some(Sig(hb.value.tickSeq, hb.value.wallMs, hb.value.pid)) else None
  }

  function Load(s: State, how: Loaded): State {
    if how.Kept? then s else EMPTY_STATE
  }

  function Recent(times: seq<int>, now: int): seq<int> {
    if times == [] then []
    else
      var n := |times| - 1;
      Recent(times[..n], now) + if now - times[n] < FUSE_WINDOW_MS then [times[n]] else []
  }

  function PidChanged(seen: Option<int>, before: Option<int>): bool {
    seen.Some? && before.Some? && seen != before
  }

  function HbPid(hb: Option<Heartbeat>): Option<int> {
    if hb.Some? then Some(hb.value.pid) else None
  }

  /** Respawn accounting for the fuse. */
  function Accounted(s: State, o: Sight): State {
    var respawned := (PidChanged(HbPid(o.hb), s.lastHbPid) || PidChanged(o.daemonPid, s.lastLabelPid)) && !o.explained;
    s.(respawns := Recent(if respawned then s.respawns + [o.now] else s.respawns, o.now),
       lastLabelPid := o.daemonPid,
       lastHbPid := if o.hb.Some? then HbPid(o.hb) else s.lastHbPid,
       lastRunAt := Some(o.now),
       noPidRuns := if o.daemonPid.None? then s.noPidRuns + 1 else 0)
  }

  /** The staleness counter. A corrupt state counts as one stale observation already made. */
  function Observed(s: State, o: Sight): State {
    var sig := SigOf(o.hb);
    if o.loaded.Corrupt? && sig.Some? then s.(lastSig := sig, consecUnchanged := 1)
    else if sig.None? then s.(lastSig := None, consecUnchanged := 0)
    else if sig != s.lastSig then
      s.(lastSig := sig,
         freshSince := if s.consecUnchanged >= StaleRunsFor(o.tickIntervalSec) || s.freshSince.None? then Some(o.now)
           else s.freshSince,
         consecUnchanged := 0, termedPid := None,
         respawns := if o.hb.value.tickSeq >= 1 && o.hb.value.consecFailures == 0 then [] else s.respawns)
    else s.(consecUnchanged := s.consecUnchanged + 1)
  }

  function Unlatched(s: State, now: int): State {
    if s.degraded && s.consecUnchanged == 0 && s.freshSince.Some? && now - s.freshSince.value >= UNLATCH_FRESH_MS
    then s.(degraded := false, degradedAt := None, respawns := [], kills := [])
    else s
  }

  predicate Blows(s: State) {
    !s.degraded && |s.respawns| >= FUSE_RESPAWNS
  }

  function Fused(s: State, now: int): State {
    if Blows(s) then s.(degraded := true, degradedAt := Some(now)) else s
  }

  /** A fresh update marker replaces the threshold, it does not raise it. */
  function Threshold(o: Sight): int {
    if o.updateStartedAt.Some? && o.now - o.updateStartedAt.value < UPDATE_MARKER_IGNORE_MS then UPDATE_GRACE_RUNS
    else StaleRunsFor(o.tickIntervalSec)
  }

  predicate Killable(s: State, o: Sight) {
    o.hb.Some? && s.consecUnchanged >= Threshold(o) && o.daemonPid == Some(o.hb.value.pid)
  }

  /** The ladder's decision, once the state is up to date. */
  function Decided(s: State, o: Sight, blew: bool): Action {
    if Killable(s, o) && !s.degraded then
      if s.termedPid == Some(o.hb.value.pid) then SigKill(o.hb.value.pid) else SigTerm(o.hb.value.pid)
    else if o.hb.Some? && s.consecUnchanged >= Threshold(o) && o.daemonPid.None? then NoDaemon
    else if blew then Degraded
    else Observe
  }

  function Acted(s: State, a: Action, now: int): State {
    match a
    case SigTerm(pid) => s.(termedPid := Some(pid), kills := Recent(s.kills + [now], now))
    case SigKill(_) => s.(termedPid := None, kills := Recent(s.kills + [now], now))
    case _ => s.(kills := Recent(s.kills, now))
  }

  datatype Firing = Firing(state: State, action: Action)

  function Fire(s: State, o: Sight): Firing {
    var ready := Unlatched(Observed(Accounted(Load(s, o.loaded), o), o), o.now);
    var fused := Fused(ready, o.now);
    var a := Decided(fused, o, Blows(ready));
    Firing(Acted(fused, a, o.now), a)
  }

  // ----- the firing as it runs -----

  class Watchdog {
    var lastSig: Option<Sig>
    var consecUnchanged: int
    var freshSince: Option<int>
    var termedPid: Option<int>
    var lastLabelPid: Option<int>
    var lastHbPid: Option<int>
    var lastRunAt: Option<int>
    var respawns: seq<int>
    var kills: seq<int>
    var noPidRuns: int
    var degraded: bool
    var degradedAt: Option<int>

    function Now(): State
      reads this
    {
      State(lastSig, consecUnchanged, freshSince, termedPid, lastLabelPid, lastHbPid, lastRunAt, respawns, kills,
            noPidRuns, degraded, degradedAt)
    }

    constructor ()
      ensures Now() == EMPTY_STATE
    {
      lastSig, consecUnchanged, freshSince, termedPid := None, 0, None, None;
      lastLabelPid, lastHbPid, lastRunAt, respawns, kills := None, None, None, [], [];
      noPidRuns, degraded, degradedAt := 0, false, None;
    }

    method LoadState(how: Loaded)
      modifies this
      ensures Now() == Load(old(Now()), how)
    {
      if !how.Kept? {
        lastSig, consecUnchanged, freshSince, termedPid := None, 0, None, None;
        lastLabelPid, lastHbPid, lastRunAt, respawns, kills := None, None, None, [], [];
        noPidRuns, degraded, degradedAt := 0, false, None;
      }
    }

    method AccountRespawn(o: Sight)
      modifies this
      ensures Now() == Accounted(old(Now()), o)
    {
      var hbPidChanged := o.hb.Some? && lastHbPid.Some? && o.hb.value.pid != lastHbPid.value;
      var labelPidChanged := o.daemonPid.Some? && lastLabelPid.Some? && o.daemonPid.value != lastLabelPid.value;
      if (hbPidChanged || labelPidChanged) && !o.explained {
        respawns := respawns + [o.now];
      }
      lastLabelPid := o.daemonPid;
      if o.hb.Some? {
        lastHbPid := Some(o.hb.value.pid);
      }
      lastRunAt := Some(o.now);
      if o.daemonPid.None? {
        noPidRuns := noPidRuns + 1;
      } else {
        noPidRuns := 0;
      }
      respawns := KeepRecent(respawns, o.now);
    }

    method ObserveHeartbeat(o: Sight)
      modifies this
      ensures Now() == Observed(old(Now()), o)
    {
      var sig := SigOf(o.hb);
      if o.loaded.Corrupt? && sig.Some? {
        lastSig, consecUnchanged := sig, 1;
      } else if sig.None? {
        lastSig, consecUnchanged := None, 0;
      } else if sig != lastSig {
        lastSig := sig;
        if consecUnchanged >= StaleRunsFor(o.tickIntervalSec) || freshSince.None? {
          freshSince := Some(o.now);
        }
        consecUnchanged := 0;
        termedPid := None;
        if o.hb.value.tickSeq >= 1 && o.hb.value.consecFailures == 0 {
          respawns := [];
        }
      } else {
        consecUnchanged := consecUnchanged + 1;
      }
    }

    /** Unlatches after enough fresh heartbeats, then latches if the fuse blows. */
    method TurnFuse(now: int) returns (blew: bool)
      modifies this
      ensures Now() == Fused(Unlatched(old(Now()), now), now) && blew == Blows(Unlatched(old(Now()), now))
    {
      if degraded && consecUnchanged == 0 && freshSince.Some? && now - freshSince.value >= UNLATCH_FRESH_MS {
        degraded, degradedAt, respawns, kills := false, None, [], [];
      }
      blew := !degraded && |respawns| >= FUSE_RESPAWNS;
      if blew {
        degraded, degradedAt := true, Some(now);
      }
    }

    method Signal(pid: int, now: int) returns (action: Action)
      modifies this`termedPid, this`kills
      ensures action == if old(termedPid) == Some(pid) then SigKill(pid) else SigTerm(pid)
      ensures termedPid == (if action.SigKill? then None else Some(pid)) && kills == old(kills) + [now]
    {
      kills := kills + [now];
      if termedPid == Some(pid) {
        termedPid := None;
        action := SigKill(pid);
      } else {
        termedPid := Some(pid);
        action := SigTerm(pid);
      }
    }

    /** Escalates from SIGTERM to SIGKILL, against the heartbeat's author only. */
    method ClimbLadder(o: Sight, blew: bool) returns (action: Action)
      modifies this
      ensures action == Decided(old(Now()), o, blew) && Now() == Acted(old(Now()), action, o.now)
    {
      action := if blew then Degraded else Observe;
      var stale := o.hb.Some? && consecUnchanged >= Threshold(o);
      var killable := stale && o.daemonPid.Some? && o.daemonPid.value == o.hb.value.pid;
      if killable && !degraded {
        action := Signal(o.hb.value.pid, o.now);
      } else if stale && o.daemonPid.None? {
        action := NoDaemon;
      }
      kills := KeepRecent(kills, o.now);
    }

    method RunWatchdog(o: Sight) returns (action: Action)
      modifies this
      ensures Firing(Now(), action) == Fire(old(Now()), o)
    {
      LoadState(o.loaded);
      AccountRespawn(o);
      ObserveHeartbeat(o);
      var blew := TurnFuse(o.now);
      action := ClimbLadder(o, blew);
    }
  }

  method KeepRecent(times: seq<int>, now: int) returns (kept: seq<int>)
    ensures kept == Recent(times, now)
  {
    kept := [];
    for i := 0 to |times|
      invariant kept == Recent(times[..i], now)
    {
      assert times[..i + 1][..i] == times[..i];
      if now - times[i] < FUSE_WINDOW_MS {
        kept := kept + [times[i]];
      }
    }
    assert times[..|times|] == times;
  }

  // ----- runs of firings -----

  function StateAfter(sights: seq<Sight>): State {
    if sights == [] then EMPTY_STATE else Fire(StateAfter(sights[..|sights| - 1]), sights[|sights| - 1]).state
  }

  /** What the i-th firing did. */
  function ActionAt(sights: seq<Sight>, i: nat): Action
    requires i < |sights|
  {
    Fire(StateAfter(sights[..i]), sights[i]).action
  }

  /** All firings from i to j saw the same heartbeat. */
  ghost predicate SameHeartbeat(sights: seq<Sight>, i: nat, j: nat) {
    i <= j < |sights| && sights[j].hb.Some? && forall k :: i <= k <= j ==> SigOf(sights[k].hb) == SigOf(sights[j].hb)
  }

  /** The part of the state the ladder reads. */
  datatype Core = Core(lastSig: Option<Sig>, consecUnchanged: int, termedPid: Option<int>)

  function CoreOf(s: State): Core {
    Core(s.lastSig, s.consecUnchanged, s.termedPid)
  }

  function CoreObserved(c: Core, o: Sight): Core {
    var sig := SigOf(o.hb);
    if o.loaded.Corrupt? && sig.Some? then Core(sig, 1, c.termedPid)
    else if sig.None? then Core(None, 0, c.termedPid)
    else if sig != c.lastSig then Core(sig, 0, None)
    else c.(consecUnchanged := c.consecUnchanged + 1)
  }

  /** The state the ladder decides on. */
  function Ready(s: State, o: Sight): State {
    Fused(Unlatched(Observed(Accounted(Load(s, o.loaded), o), o), o.now), o.now)
  }

  lemma ReadyCore(s: State, o: Sight)
    ensures CoreOf(Ready(s, o)) == CoreObserved(CoreOf(Load(s, o.loaded)), o)
  {
  }

  /** The counter never overstates how long the current heartbeat has been seen, and a remembered
      SIGTERM was sent while it was. */
  ghost predicate Inv(sights: seq<Sight>, c: Core) {
    && c.consecUnchanged >= 0 && (c.lastSig.None? ==> c.consecUnchanged == 0)
    && (c.lastSig.Some? ==>
          var n := |sights|;
          && n > 0 && c.lastSig == SigOf(sights[n - 1].hb)
          && (c.consecUnchanged > 0 ==> c.consecUnchanged <= n && SameHeartbeat(sights, n - c.consecUnchanged, n - 1))
          && (c.termedPid.Some? ==> Termed(sights, n, n - 1, c.termedPid.value)))
  }

  ghost predicate NoKillBetween(sights: seq<Sight>, i: nat, n: nat) {
    n <= |sights| && forall k :: i < k < n ==> !ActionAt(sights, k).SigKill?
  }

  /** Before firing `n`, while the heartbeat of firing `last` was seen, `pid` got a SIGTERM, and nothing
      got a SIGKILL since. */
  ghost predicate Termed(sights: seq<Sight>, n: nat, last: nat, pid: int) {
    n <= |sights| && exists i ::
      0 <= i < n && SameHeartbeat(sights, i, last) && ActionAt(sights, i) == SigTerm(pid) && NoKillBetween(sights, i, n)
  }

  lemma GraceIsAboveFloor(o: Sight)
    ensures Threshold(o) >= STALE_RUNS_MIN
  {
  }

  lemma SameGrows(sights: seq<Sight>, o: Sight, i: nat)
    requires sights != [] && SameHeartbeat(sights, i, |sights| - 1) && SigOf(o.hb) == SigOf(sights[|sights| - 1].hb)
    ensures SameHeartbeat(sights + [o], i, |sights|)
  {
    var more := sights + [o];
    assert forall k :: 0 <= k < |sights| ==> more[k] == sights[k];
  }

  lemma ActionStays(sights: seq<Sight>, o: Sight, i: nat)
    requires i < |sights|
    ensures ActionAt(sights + [o], i) == ActionAt(sights, i)
  {
    assert (sights + [o])[..i] == sights[..i];
  }

  lemma TermedGrows(sights: seq<Sight>, o: Sight, pid: int)
    requires sights != [] && SigOf(o.hb) == SigOf(sights[|sights| - 1].hb)
             && Termed(sights, |sights|, |sights| - 1, pid)
    ensures Termed(sights + [o], |sights|, |sights|, pid)
  {
    var i :| 0 <= i < |sights| && SameHeartbeat(sights, i, |sights| - 1) && ActionAt(sights, i) == SigTerm(pid)
      && NoKillBetween(sights, i, |sights|);
    SameGrows(sights, o, i);
    ActionStays(sights, o, i);
    forall k | i < k < |sights|
      ensures !ActionAt(sights + [o], k).SigKill?
    {
      ActionStays(sights, o, k);
    }
    assert NoKillBetween(sights + [o], i, |sights|);
  }

  /** The state just before the decision, with its SIGTERM memory pointing into the firings so far. */
  ghost predicate ReadyInv(sights: seq<Sight>, o: Sight, c: Core) {
    var more := sights + [o];
    var n := |more|;
    && c.consecUnchanged >= 0 && c.lastSig == SigOf(o.hb) && (c.lastSig.None? ==> c.consecUnchanged == 0)
    && (c.consecUnchanged > 0 ==> c.consecUnchanged <= n && SameHeartbeat(more, n - c.consecUnchanged, n - 1))
    && (c.lastSig.Some? && c.termedPid.Some? ==> Termed(more, n - 1, n - 1, c.termedPid.value))
  }

  lemma ObservedReady(sights: seq<Sight>, s: State, o: Sight)
    requires Inv(sights, CoreOf(s))
    ensures ReadyInv(sights, o, CoreOf(Ready(s, o)))
  {
    ReadyCore(s, o);
    var n := |sights|;
    assert (sights + [o])[n] == o;
    if o.loaded.Kept? && SigOf(o.hb).Some? && SigOf(o.hb) == s.lastSig {
      if s.consecUnchanged > 0 {
        SameGrows(sights, o, n - s.consecUnchanged);
      }
      if s.termedPid.Some? {
        TermedGrows(sights, o, s.termedPid.value);
      }
    }
  }

  /** What justifies a signal. */
  ghost predicate Justified(sights: seq<Sight>, i: nat, pid: int)
    requires i < |sights|
  {
    && sights[i].hb.Some? && sights[i].hb.value.pid == pid && sights[i].daemonPid == Some(pid)
    && i + 1 >= STALE_RUNS_MIN && SameHeartbeat(sights, i + 1 - STALE_RUNS_MIN, i)
  }

  lemma ShorterStretch(sights: seq<Sight>, i: nat, j: nat, k: nat)
    requires SameHeartbeat(sights, i, j) && i <= k <= j
    ensures SameHeartbeat(sights, k, j)
  {
  }

  lemma DecisionJustified(sights: seq<Sight>, o: Sight, s: State, blew: bool)
    requires ReadyInv(sights, o, CoreOf(s))
    ensures var a, more := Decided(s, o, blew), sights + [o];
            && (a.SigTerm? || a.SigKill? ==> Justified(more, |sights|, a.pid))
            && (a.SigKill? ==> Termed(more, |sights|, |sights|, a.pid))
  {
    GraceIsAboveFloor(o);
    var more := sights + [o];
    assert more[|sights|] == o;
    if Killable(s, o) {
      ShorterStretch(more, |more| - s.consecUnchanged, |sights|, |more| - STALE_RUNS_MIN);
    }
  }

  lemma FireCore(s: State, o: Sight)
    ensures var r, f := Ready(s, o), Fire(s, o);
            CoreOf(f.state) == CoreOf(r).(termedPid := if f.action.SigTerm? then Some(f.action.pid)
                                          else if f.action.SigKill? then None else r.termedPid)
  {
  }

  lemma TermedNow(sights: seq<Sight>, o: Sight, pid: int)
    requires SigOf(o.hb).Some? && Fire(StateAfter(sights), o).action == SigTerm(pid)
    ensures Termed(sights + [o], |sights| + 1, |sights|, pid)
  {
    var more, n := sights + [o], |sights|;
    assert more[..n] == sights && more[n] == o;
    assert SameHeartbeat(more, n, n) && ActionAt(more, n) == SigTerm(pid) && NoKillBetween(more, n, n + 1);
  }

  lemma TermedLonger(sights: seq<Sight>, n: nat, last: nat, pid: int)
    requires Termed(sights, n, last, pid) && n < |sights| && !ActionAt(sights, n).SigKill?
    ensures Termed(sights, n + 1, last, pid)
  {
    var i :| 0 <= i < n && SameHeartbeat(sights, i, last) && ActionAt(sights, i) == SigTerm(pid)
      && NoKillBetween(sights, i, n);
    forall k | i < k < n + 1
      ensures !ActionAt(sights, k).SigKill?
    {
    }
    assert NoKillBetween(sights, i, n + 1) && 0 <= i < n + 1;
  }

  lemma ActedInv(sights: seq<Sight>, s: State, o: Sight)
    requires ReadyInv(sights, o, CoreOf(Ready(s, o))) && s == StateAfter(sights)
    ensures Inv(sights + [o], CoreOf(Fire(s, o).state))
  {
    var more, n, r, a := sights + [o], |sights|, Ready(s, o), Fire(s, o).action;
    FireCore(s, o);
    assert more[n] == o;
    if SigOf(o.hb).Some? {
      if a.SigTerm? {
        TermedNow(sights, o, a.pid);
      } else if !a.SigKill? && r.termedPid.Some? {
        assert more[..n] == sights && ActionAt(more, n) == a;
        TermedLonger(more, n, n, r.termedPid.value);
      }
    }
  }

  lemma {:induction false} RunInv(sights: seq<Sight>)
    ensures Inv(sights, CoreOf(StateAfter(sights)))
  {
    if sights != [] {
      var n := |sights| - 1;
      assert sights == sights[..n] + [sights[n]];
      RunInv(sights[..n]);
      ObservedReady(sights[..n], StateAfter(sights[..n]), sights[n]);
      ActedInv(sights[..n], StateAfter(sights[..n]), sights[n]);
    }
  }

  lemma SamePrefix(sights: seq<Sight>, i: nat, j: nat)
    requires i < |sights| && SameHeartbeat(sights[..i + 1], j, i)
    ensures SameHeartbeat(sights, j, i)
  {
  }

  lemma PrefixJustified(sights: seq<Sight>, i: nat, pid: int)
    requires i < |sights| && Justified(sights[..i + 1], i, pid)
    ensures Justified(sights, i, pid)
  {
    SamePrefix(sights, i, i + 1 - STALE_RUNS_MIN);
  }

  lemma ActionPrefix(sights: seq<Sight>, i: nat, j: nat)
    requires j <= i < |sights|
    ensures ActionAt(sights[..i + 1], j) == ActionAt(sights, j)
  {
    assert sights[..i + 1][..j] == sights[..j];
  }

  lemma PrefixTermed(sights: seq<Sight>, i: nat, pid: int)
    requires i < |sights| && Termed(sights[..i + 1], i, i, pid)
    ensures Termed(sights, i, i, pid)
  {
    var j :| 0 <= j < i && SameHeartbeat(sights[..i + 1], j, i) && ActionAt(sights[..i + 1], j) == SigTerm(pid)
      && NoKillBetween(sights[..i + 1], j, i);
    SamePrefix(sights, i, j);
    ActionPrefix(sights, i, j);
    forall k | j < k < i
      ensures !ActionAt(sights, k).SigKill?
    {
      ActionPrefix(sights, i, k);
    }
    assert NoKillBetween(sights, j, i);
  }

  /** Over any run of firings, with the state file kept, corrupt or missing: every signal goes to the
      pid that launchd and the heartbeat agree on, after at least eight consecutive firings that saw
      that same heartbeat; and a SIGKILL follows an earlier SIGTERM to the same pid with no different
      or missing heartbeat and no other SIGKILL in between. */
  lemma SignalsAreJustified(sights: seq<Sight>, i: nat)
    requires i < |sights|
    ensures var a := ActionAt(sights, i);
            && (a.SigTerm? || a.SigKill? ==> Justified(sights, i, a.pid))
            && (a.SigKill? ==> exists j ::
                && 0 <= j < i && SameHeartbeat(sights, j, i) && ActionAt(sights, j) == SigTerm(a.pid)
                                           && NoKillBetween(sights, j, i))
  {
    var s, o, a := StateAfter(sights[..i]), sights[i], ActionAt(sights, i);
    assert sights[..i + 1] == sights[..i] + [o];
    RunInv(sights[..i]);
    ObservedReady(sights[..i], s, o);
    DecisionJustified(sights[..i], o, Ready(s, o),
                      Blows(Unlatched(Observed(Accounted(Load(s, o.loaded), o), o), o.now)));
    if a.SigTerm? || a.SigKill? {
      PrefixJustified(sights, i, a.pid);
    }
    if a.SigKill? {
      PrefixTermed(sights, i, a.pid);
    }
  }

  /** While the fuse is blown nothing is signalled, nor by the firing that blows it, nor by the one
      that unlatches it. */
  lemma DegradedNeverKills(s: State, o: Sight)
    ensures (o.loaded.Kept? && s.degraded) || Fire(s, o).state.degraded ==>
              !Fire(s, o).action.SigTerm? && !Fire(s, o).action.SigKill?
  {
  }
}
