/** The cloud sync's watermark whatever the history was at first: exactly when a completed sync keeps it. */
module CloudStarts {
  import opened Options
  import opened Events
  import opened PageWalk
  import opened CloudSyncs
  import opened CloudSafety

  /** A first start; the remote list grows by arrivals. */
  const NOTHING_YET := World([], {}, None, [])

  // ----- the invariant: nothing is known of events below a window -----

  ghost predicate WindowCloud(list: seq<RemoteEvent>, posted: set<DedupKey>, cloud: Option<Cloud>) {
    cloud.Some? ==>
      var c := cloud.value;
      && 0 <= c.lastEventTimestamp <= Newest(list) && (c.resumePage.Some? <==> c.resumeStartDate.Some?)
      && (c.resumePage.Some? ==>
            && c.resumePage.value >= 1 && c.resumeStartDate.value >= 0
            && Walked(list, c.resumeStartDate.value, c.lastEventTimestamp, Skip(c.resumePage.value - 1), posted, {}))
  }

  ghost predicate WindowSync(list: seq<RemoteEvent>, posted: set<DedupKey>, s: Sync) {
    var all := posted + EventKeys(s.events);
    && WindowCloud(list, posted, s.base) && s.startDate >= 0 && s.lastPage >= 0 && 0 <= Bound(s) <= Newest(list)
    && (forall e :: e in s.events ==> FromList(list, s.startDate, e) && e.timestamp > 0)
    && Walked(list, s.startDate, Bound(s), Skip(s.lastPage), all, {})
    && (s.complete ==> Walked(list, s.startDate, Bound(s), |list|, all, {}))
  }

  ghost predicate WindowInv(w: World) {
    && Growing(w.list) && WindowCloud(w.list, w.posted, w.cloud)
    && forall i :: 0 <= i < |w.flying| ==> WindowSync(w.list, w.posted, w.flying[i])
  }

  lemma ArrivalKeepsWindowCloud(list: seq<RemoteEvent>, e: RemoteEvent, posted: set<DedupKey>, cloud: Option<Cloud>)
    requires Growing(list + [e]) && WindowCloud(list, posted, cloud)
    ensures WindowCloud(list + [e], posted, cloud)
  {
    ArrivalIsNewer(list, e);
    if cloud.Some? && cloud.value.resumePage.Some? {
      var c := cloud.value;
      ArrivalKeepsWalked(list, e, c.resumeStartDate.value, c.lastEventTimestamp,
                         Skip(c.resumePage.value - 1), posted, {});
    }
  }

  lemma ArrivalKeepsWindow(list: seq<RemoteEvent>, e: RemoteEvent, posted: set<DedupKey>, s: Sync)
    requires Growing(list + [e]) && WindowSync(list, posted, s)
    ensures WindowSync(list + [e], posted, s)
  {
    var all := posted + EventKeys(s.events);
    ArrivalIsNewer(list, e);
    ArrivalKeepsWindowCloud(list, e, posted, s.base);
    ArrivalKeepsWalked(list, e, s.startDate, Bound(s), Skip(s.lastPage), all, {});
    if s.complete {
      ArrivalKeepsDone(list, e, s.startDate, Bound(s), all, {});
    }
    forall t | t in s.events {
      ArrivalKeepsFrom(list, e, s.startDate, t);
    }
  }

  lemma ArriveKeepsInv(w: World, e: RemoteEvent)
    requires WindowInv(w) && Growing(w.list + [e])
    ensures WindowInv(Next(w, Arrive(e)))
  {
    ArrivalKeepsWindowCloud(w.list, e, w.posted, w.cloud);
    forall i | 0 <= i < |w.flying| {
      ArrivalKeepsWindow(w.list, e, w.posted, w.flying[i]);
    }
  }

  lemma MoreKeepsWindow(list: seq<RemoteEvent>, posted: set<DedupKey>, more: set<DedupKey>, s: Sync)
    requires WindowSync(list, posted, s) && posted <= more
    ensures WindowSync(list, more, s)
  {
    assert posted + EventKeys(s.events) <= more + EventKeys(s.events);
  }

  lemma MoreKeepsInv(w: World, more: set<DedupKey>)
    requires WindowInv(w) && w.posted <= more
    ensures WindowInv(w.(posted := more))
  {
    forall i | 0 <= i < |w.flying| {
      MoreKeepsWindow(w.list, w.posted, more, w.flying[i]);
    }
  }

  lemma BeginIsWindow(w: World, mode: Mode, now: int)
    requires WindowInv(w)
    ensures WindowSync(w.list, w.posted, BeginSync(w.cloud, mode, now))
  {
    assert EventKeys([]) == {} && w.posted + EventKeys([]) == w.posted;
  }

  /** One more page moves the walk on. */
  lemma PageWalks(list: seq<RemoteEvent>, posted: set<DedupKey>, s: Sync, page: seq<RemoteEvent>)
    requires Growing(list) && WindowSync(list, posted, s) && page == PageAt(list, s.startDate, Skip(s.lastPage))
    ensures var r := s.(events := s.events + Mapped(page));
            var all := posted + EventKeys(r.events);
            && 0 <= Bound(r) <= Newest(list)
            && Walked(list, s.startDate, Bound(r), Skip(s.lastPage) + PAGE_SIZE, all, {})
            && (!MoreAfter(list, s.startDate, Skip(s.lastPage)) ==>
                Walked(list, s.startDate, Bound(r), |list|, all, {}))
  {
    var r := s.(events := s.events + Mapped(page));
    PageRaises(list, s, page);
    PageHeld(page, posted, s.events, {});
    var before, all := posted + EventKeys(s.events), posted + EventKeys(r.events);
    assert before <= all;
    FetchAdvances(list, s.startDate, Bound(s), Skip(s.lastPage), before, Bound(r), all, {});
  }

  lemma FetchIsWindow(w: World, s: Sync, saysMore: bool)
    requires Growing(w.list) && WindowSync(w.list, w.posted, s)
    ensures WindowSync(w.list, w.posted, TakePage(s, PageOf(w, s), Flag(w, s, saysMore)))
  {
    var page, skip := PageOf(w, s), Skip0(s);
    var r := TakePage(s, page, Flag(w, s, saysMore));
    PageWalks(w.list, w.posted, s, page);
    PageFromList(w.list, s.startDate, skip);
    MappedAreUsable(w.list, s.startDate, skip);
    EndIsEnd(w.list, s.startDate, skip, Flag(w, s, saysMore));
    assert Bound(r) == Bound(s.(events := s.events + Mapped(page)));
  }

  lemma {:induction false} MappedUsable(page: seq<RemoteEvent>, e: TokenEvent)
    requires e in Mapped(page)
    ensures exists k :: 0 <= k < |page| && Mappable(page[k]) && page[k].token == Some(e)
  {
    var n := |page| - 1;
    if e in Mapped(page[..n]) {
      MappedUsable(page[..n], e);
      var k :| 0 <= k < n && Mappable(page[..n][k]) && page[..n][k].token == Some(e);
      assert page[k] == page[..n][k];
    }
  }

  lemma MappedAreUsable(list: seq<RemoteEvent>, since: int, skip: nat)
    requires Growing(list)
    ensures forall e :: e in Mapped(PageAt(list, since, skip)) ==> e.timestamp > 0
  {
    var page := PageAt(list, since, skip);
    forall e | e in Mapped(page)
      ensures e.timestamp > 0
    {
      MappedUsable(page, e);
      var k :| 0 <= k < |page| && Mappable(page[k]) && page[k].token == Some(e);
      PageTimes(list, since, skip, k);
    }
  }

  lemma LandedIsWindow(w: World, s: Sync, now: int)
    requires WindowInv(w) && WindowSync(w.list, w.posted, s)
    ensures WindowCloud(w.list, w.posted + EventKeys(s.events), Landed(w, s, now))
  {
  }

  lemma StepKeepsInv(w: World, step: Step)
    requires WindowInv(w) && Enabled(w, step)
    ensures WindowInv(Next(w, step))
  {
    match step {
      case Arrive(e) => ArriveKeepsInv(w, e);
      case Begin(mode, now) => BeginIsWindow(w, mode, now);
      case Fetch(i, saysMore) => FetchIsWindow(w, w.flying[i], saysMore);
      case Abandon(i) =>
      case PostFails(i, stored) => MoreKeepsInv(w, w.posted + stored);
      case Finish(i, now, saved) =>
        LandedIsWindow(w, w.flying[i], now);
        MoreKeepsInv(w, w.posted + EventKeys(w.flying[i].events));
      case Restart =>
    }
  }

  lemma {:induction false} RunKeepsInv(w: World, steps: seq<Step>)
    requires WindowInv(w) && Possible(w, steps)
    ensures WindowInv(After(w, steps))
    decreases |steps|
  {
    if steps != [] {
      StepKeepsInv(w, steps[0]);
      RunKeepsInv(Next(w, steps[0]), steps[1..]);
    }
  }

  // ----- one completed sync -----

  /** No mappable event below the sync's window, at or below the watermark it would save, is unposted. */
  ghost predicate NothingMissed(w: World, s: Sync) {
    forall j ::
      0 <= j < |w.list| && Mappable(w.list[j]) && w.list[j].time < s.startDate && w.list[j].time <= Bound(s) ==>
        RemoteKey(w.list[j]) in w.posted + EventKeys(s.events)
  }

  lemma FinishSafeIff(w: World, i: nat, now: int)
    requires WindowInv(w) && i < |w.flying| && w.flying[i].complete
    ensures Safe(Next(w, Finish(i, now, true))) <==> NothingMissed(w, w.flying[i])
  {
    var s := w.flying[i];
    var all := w.posted + EventKeys(s.events);
    if AllHeld(w.list, Bound(s), all, {}) {
      forall j | 0 <= j < |w.list| && Mappable(w.list[j]) && w.list[j].time < s.startDate && w.list[j].time <= Bound(s)
        ensures RemoteKey(w.list[j]) in all
      {
        assert Held(w.list[j], all, {});
      }
    }
    if NothingMissed(w, s) {
      forall j | 0 <= j < |w.list| && w.list[j].time <= Bound(s)
        ensures Held(w.list[j], all, {})
      {
      }
    }
  }

  /** The step saves the watermark of a completed walk. */
  ghost predicate Completes(w: World, step: Step)
    requires Enabled(w, step)
  {
    step.Finish? && step.saved && w.flying[step.i].complete
  }

  lemma OtherStepsKeepSafe(w: World, step: Step)
    requires WindowInv(w) && Safe(w) && Enabled(w, step) && !Completes(w, step)
    ensures Safe(Next(w, step))
  {
    if step.Arrive? && w.cloud.Some? && w.cloud.value.resumePage.None? {
      ArrivalBelow(w.list, step.e, w.cloud.value.lastEventTimestamp, w.posted);
    }
  }

  // ----- whole runs -----

  ghost predicate SafeThroughout(w: World, steps: seq<Step>)
    requires Possible(w, steps)
    decreases |steps|
  {
    Safe(w) && (steps != [] ==> SafeThroughout(Next(w, steps[0]), steps[1..]))
  }

  ghost predicate NothingEverMissed(w: World, steps: seq<Step>)
    requires Possible(w, steps)
    decreases |steps|
  {
    steps != [] ==>
      && (Completes(w, steps[0]) ==> NothingMissed(w, w.flying[steps[0].i]))
      && NothingEverMissed(Next(w, steps[0]), steps[1..])
  }

  lemma {:induction false} SafeIff(w: World, steps: seq<Step>)
    requires WindowInv(w) && Safe(w) && Possible(w, steps)
    ensures SafeThroughout(w, steps) <==> NothingEverMissed(w, steps)
    decreases |steps|
  {
    if steps != [] {
      var step := steps[0];
      StepKeepsInv(w, step);
      if Completes(w, step) {
        FinishSafeIff(w, step.i, step.now);
      } else {
        OtherStepsKeepSafe(w, step);
      }
      if Safe(Next(w, step)) {
        SafeIff(Next(w, step), steps[1..]);
      }
    }
  }

  /** Over any run from a first start, whatever the history held then: the watermark's promise holds
      throughout if and only if each completed sync, when it is saved, leaves no mappable event unposted
      that is older than its window and not above the watermark it saves. */
  lemma RunSafeIff(steps: seq<Step>)
    requires Possible(NOTHING_YET, steps)
    ensures SafeThroughout(NOTHING_YET, steps) <==> NothingEverMissed(NOTHING_YET, steps)
  {
    SafeIff(NOTHING_YET, steps);
  }

  // ----- without a watermark -----

  lemma FirstBound(list: seq<RemoteEvent>, posted: set<DedupKey>, s: Sync)
    requires Growing(list) && WindowSync(list, posted, s) && LastEvent(s.base) == 0
    ensures s.events == [] ==> Bound(s) == 0
    ensures s.events != [] ==> Bound(s) >= s.startDate && Bound(s) > 0
  {
    if s.events != [] {
      MaxTimestampOf([], s.events);
      var e := s.events[0];
      assert e in s.events && FromList(list, s.startDate, e);
      var j :| 0 <= j < |list| && list[j].time >= s.startDate && list[j].token == Some(e);
    }
  }

  /** Everything mappable that is older than the window has been posted. */
  ghost predicate OlderPosted(w: World, since: int) {
    forall j :: 0 <= j < |w.list| && Mappable(w.list[j]) && w.list[j].time < since ==> RemoteKey(w.list[j]) in w.posted
  }

  /** Without a watermark a sync starts by the clock. However many syncs completed empty before, and
      whatever arrived, was truncated, failed or was lost: the sync that completes next saves a
      watermark with everything below it posted if and only if it fetched nothing or no mappable event
      older than its start date is still unposted. */
  lemma EmptyHistoryIff(steps: seq<Step>, i: nat, now: int)
    requires Possible(NOTHING_YET, steps) && i < |After(NOTHING_YET, steps).flying|
    requires var s := After(NOTHING_YET, steps).flying[i]; s.complete && LastEvent(s.base) == 0
    requires TellApart(After(NOTHING_YET, steps).list)
    ensures var w := After(NOTHING_YET, steps);
            Safe(Next(w, Finish(i, now, true))) <==> w.flying[i].events == [] || OlderPosted(w, w.flying[i].startDate)
  {
    RunKeepsInv(NOTHING_YET, steps);
    var w := After(NOTHING_YET, steps);
    var s := w.flying[i];
    FinishSafeIff(w, i, now);
    FirstBound(w.list, w.posted, s);
    forall j | 0 <= j < |w.list| && Mappable(w.list[j]) && w.list[j].time < s.startDate
      ensures RemoteKey(w.list[j]) !in EventKeys(s.events)
    {
      OlderNotFetched(w.list, s.startDate, s.events, j);
    }
  }

  /** A completed sync that fetched nothing moves the window: the next one starts at its clock less the
      overlap. */
  lemma EmptySyncMovesWindow(w: World, i: nat, now: int, later: int)
    requires i < |w.flying| && w.flying[i].complete && w.flying[i].events == []
             && LastEvent(w.flying[i].base) == 0 && now > 0
    ensures BeginSync(Next(w, Finish(i, now, true)).cloud, Incremental, later).startDate
            == AtLeastZero(now - OVERLAP_MS)
  {
  }

  // ----- such a loss can be reached -----

  /** The state an empty walk saves. */
  function EmptyWalked(walkedAt: int): World {
    World([], {}, Some(Cloud(walkedAt, 0, true, None, None)), [])
  }

  lemma {:induction false} OneMore(w: World, steps: seq<Step>, step: Step)
    requires Possible(w, steps) && Enabled(After(w, steps), step)
    ensures Possible(w, steps + [step]) && After(w, steps + [step]) == Next(After(w, steps), step)
    decreases |steps|
  {
    if steps == [] {
      assert [step][1..] == [] && [] + [step] == [step];
    } else {
      assert (steps + [step])[1..] == steps[1..] + [step];
      OneMore(Next(w, steps[0]), steps[1..], step);
    }
  }

  /** The first full sync of an empty history gets there. */
  lemma {:induction false} EmptyWalk(began: int, walkedAt: int) returns (steps: seq<Step>)
    ensures Possible(NOTHING_YET, steps) && After(NOTHING_YET, steps) == EmptyWalked(walkedAt)
  {
    var w := NOTHING_YET;
    OneMore(w, [], Begin(Full, began));
    steps := [] + [Begin(Full, began)];
    assert After(w, steps) == World([], {}, None, [Sync(None, Full, 0, 1, 0, [], false)]);
    OneMore(w, steps, Fetch(0, true));
    steps := steps + [Fetch(0, true)];
    EmptyPage();
    assert After(w, steps) == World([], {}, None, [Sync(None, Full, 0, 1, 1, [], true)]);
    OneMore(w, steps, Finish(0, walkedAt, true));
    steps := steps + [Finish(0, walkedAt, true)];
    assert EventKeys([]) == {} && After(w, steps).flying == [];
  }

  lemma EmptyPage()
    ensures PageAt([], 0, 0) == [] && [] + Mapped([]) == []
  {
  }

  lemma {:induction false} RunOn(w: World, a: seq<Step>, b: seq<Step>)
    requires Possible(w, a) && Possible(After(w, a), b)
    ensures Possible(w, a + b) && After(w, a + b) == After(After(w, a), b)
    decreases |a|
  {
    if a == [] {
      assert a + b == b;
    } else {
      assert (a + b)[1..] == a[1..] + b;
      RunOn(Next(w, a[0]), a[1..], b);
    }
  }

  /** A sync of an idle account completes empty and moves the clock. */
  lemma {:induction false} IdleSync(walkedAt: int, began: int, endedAt: int) returns (steps: seq<Step>)
    ensures Possible(EmptyWalked(walkedAt), steps) && After(EmptyWalked(walkedAt), steps) == EmptyWalked(endedAt)
  {
    var w := EmptyWalked(walkedAt);
    var s := BeginSync(w.cloud, Incremental, began);
    OneMore(w, [], Begin(Incremental, began));
    steps := [] + [Begin(Incremental, began)];
    assert After(w, steps) == World([], {}, w.cloud, [s]) && s.lastPage == 0;
    OneMore(w, steps, Fetch(0, true));
    steps := steps + [Fetch(0, true)];
    assert PageAt([], s.startDate, 0) == [] && [] + Mapped([]) == [];
    assert After(w, steps) == World([], {}, w.cloud, [s.(lastPage := 1, complete := true)]);
    OneMore(w, steps, Finish(0, endedAt, true));
    steps := steps + [Finish(0, endedAt, true)];
    assert EventKeys([]) == {} && After(w, steps).flying == [];
  }

  lemma TwoMatches(a: RemoteEvent, b: RemoteEvent, since: int)
    requires a.time < since <= b.time && Mappable(b)
    ensures PageAt([a, b], since, 0) == [b] && !MoreAfter([a, b], since, 0) && Mapped([b]) == [b.token.value]
  {
    assert [a, b][..1] == [a] && [a][..0] == [] && [b][..0] == [];
    assert Matching([a], since) == [] && [b] + Matching([a], since) == [b];
  }

  /** Two events arrive, one of them older than the window. */
  lemma {:induction false} TwoArrive(a: RemoteEvent, b: RemoteEvent, walkedAt: int) returns (steps: seq<Step>)
    requires Growing([a, b])
    ensures Possible(EmptyWalked(walkedAt), steps)
    ensures After(EmptyWalked(walkedAt), steps) == EmptyWalked(walkedAt).(list := [a, b])
  {
    var w := EmptyWalked(walkedAt);
    assert [a, b][0] == a && [a, b][1] == b && [] + [a] == [a] && [a] + [b] == [a, b];
    assert Growing([a]);
    OneMore(w, [], Arrive(a));
    steps := [] + [Arrive(a)];
    OneMore(w, steps, Arrive(b));
    steps := steps + [Arrive(b)];
  }

  /** The next sync fetches the other one. */
  lemma {:induction false} OneFetched(a: RemoteEvent, b: RemoteEvent, walkedAt: int, now: int)
      returns (steps: seq<Step>)
    requires Growing([a, b]) && Mappable(b) && walkedAt > OVERLAP_MS && a.time < walkedAt - OVERLAP_MS <= b.time
    ensures Possible(EmptyWalked(walkedAt), steps)
    ensures var w := After(EmptyWalked(walkedAt), steps);
            && w.list == [a, b] && w.posted == {} && |w.flying| == 1 && LastEvent(w.flying[0].base) == 0
            && w.flying[0].complete && w.flying[0].startDate == walkedAt - OVERLAP_MS
            && w.flying[0].events == [b.token.value]
  {
    var w, since := EmptyWalked(walkedAt), walkedAt - OVERLAP_MS;
    steps := TwoArrive(a, b, walkedAt);
    OneMore(w, steps, Begin(Incremental, now));
    steps := steps + [Begin(Incremental, now)];
    var s := BeginSync(w.cloud, Incremental, now);
    assert After(w, steps).list == [a, b] && After(w, steps).flying == [s] && s.startDate == since
      && s.lastPage == 0 && s.events == [];
    TwoMatches(a, b, since);
    OneMore(w, steps, Fetch(0, true));
    steps := steps + [Fetch(0, true)];
    assert [] + [b.token.value] == [b.token.value];
  }

  /** Any two events make such a run: a first walk finds nothing, an idle sync moves the window past the
      older one, and the sync that fetches the newer one saves a watermark above both. It does not
      matter whether the older one lies above or below the window the first walk left. */
  lemma EmptyHistoryLosesOne(a: RemoteEvent, b: RemoteEvent, walkedAt: int, idleAt: int, now: int)
    requires Growing([a, b]) && Mappable(a) && Mappable(b) && RemoteKey(a) != RemoteKey(b)
    requires idleAt > OVERLAP_MS && a.time < idleAt - OVERLAP_MS <= b.time
    ensures exists steps :: && Possible(NOTHING_YET, steps) && Enabled(After(NOTHING_YET, steps), Finish(0, now, true))
                            && !Safe(Next(After(NOTHING_YET, steps), Finish(0, now, true)))
  {
    var steps := EmptyWalk(now, walkedAt);
    var idle := IdleSync(walkedAt, now, idleAt);
    RunOn(NOTHING_YET, steps, idle);
    var last := OneFetched(a, b, idleAt, now);
    RunOn(NOTHING_YET, steps + idle, last);
    steps := (steps + idle) + last;
    var w := After(NOTHING_YET, steps);
    assert Mappable(w.list[0]) && w.list[0].time < w.flying[0].startDate && RemoteKey(w.list[0]) !in w.posted;
    EmptyHistoryIff(steps, 0, now);
  }
}
