/** What the cloud sync's watermark promises, over every run of syncs by the daemon and the CLI. */
module CloudSafety {
  import opened Numbers
  import opened Options
  import opened Events
  import opened PageWalk
  import opened CloudSyncs

  /** The remote list, the keys the server holds, the saved state, and the syncs in flight: the
      daemon's and any number of CLI runs, each working from the state it read. */
  datatype World = World(list: seq<RemoteEvent>, posted: set<DedupKey>, cloud: Option<Cloud>, flying: seq<Sync>)

  datatype Step =
    | Arrive(e: RemoteEvent)
    | Begin(mode: Mode, now: int)
    | Fetch(i: nat, saysMore: bool)
    | Abandon(i: nat)
    | PostFails(i: nat, stored: set<DedupKey>)
    | Finish(i: nat, now: int, saved: bool)
    | Restart

  function Skip0(s: Sync): nat {
    Skip(s.lastPage)
  }

  ghost function PageOf(w: World, s: Sync): seq<RemoteEvent> {
    PageAt(w.list, s.startDate, Skip0(s))
  }

  /** The API says truthfully whether more pages follow, or leaves it out. */
  ghost function Flag(w: World, s: Sync, saysMore: bool): Option<bool> {
    if saysMore then Some(MoreAfter(w.list, s.startDate, Skip0(s))) else None
  }

  ghost predicate Enabled(w: World, step: Step) {
    match step
    case Arrive(e) => Growing(w.list + [e])
    case Begin(mode, _) => mode.Incremental? ==> w.cloud.Some? && w.cloud.value.fullSyncDone
    case Fetch(i, _) => i < |w.flying| && !w.flying[i].complete
    case Abandon(i) => i < |w.flying|
    case PostFails(i, stored) => i < |w.flying| && stored <= EventKeys(w.flying[i].events)
    case Finish(i, _, _) => i < |w.flying|
    case Restart => true
  }

  function Without(flying: seq<Sync>, i: nat): seq<Sync>
    requires i < |flying|
  {
    flying[..i] + flying[i + 1..]
  }

  ghost function Landed(w: World, s: Sync, now: int): Option<Cloud> {
    Some(NextCloud(s.base, s.mode, s.events, now, s.complete, s.lastPage + 1, s.startDate))
  }

  ghost function Next(w: World, step: Step): World
    requires Enabled(w, step)
  {
    match step
    case Arrive(e) => w.(list := w.list + [e])
    case Begin(mode, now) => w.(flying := w.flying + [BeginSync(w.cloud, mode, now)])
    case Fetch(i, saysMore) =>
      var s := w.flying[i];
      w.(flying := w.flying[i := TakePage(s, PageOf(w, s), Flag(w, s, saysMore))])
    case Abandon(i) => w.(flying := Without(w.flying, i))
    case PostFails(i, stored) => w.(posted := w.posted + stored, flying := Without(w.flying, i))
    case Finish(i, now, saved) =>
      var s := w.flying[i];
      w.(posted := w.posted + EventKeys(s.events), cloud := if saved then Landed(w, s, now) else w.cloud,
         flying := Without(w.flying, i))
    case Restart => w.(flying := [])
  }

  ghost predicate Possible(w: World, steps: seq<Step>)
    decreases |steps|
  {
    steps == [] || (Enabled(w, steps[0]) && Possible(Next(w, steps[0]), steps[1..]))
  }

  ghost function After(w: World, steps: seq<Step>): World
    requires Possible(w, steps)
    decreases |steps|
  {
    if steps == [] then w else After(Next(w, steps[0]), steps[1..])
  }

  /** A first run against a history that already holds a mappable event. */
  ghost predicate Initial(w: World) {
    Growing(w.list) && w.cloud == None && w.flying == [] && exists j :: 0 <= j < |w.list| && Mappable(w.list[j])
  }

  /** When no walk is pending, everything up to the watermark has been posted. */
  ghost predicate Safe(w: World) {
    w.cloud.Some? && w.cloud.value.resumePage.None? ==> AllHeld(w.list, w.cloud.value.lastEventTimestamp, w.posted, {})
  }

  // ----- the invariant -----

  /** A mappable event was seen, or one of the window still lies ahead of the walk. */
  ghost predicate SeenOrAhead(list: seq<RemoteEvent>, since: int, skip: nat, bound: int) {
    bound > 0 || exists j :: 0 <= j < |list| && Mappable(list[j]) && list[j].time >= since && |list| - 1 - j >= skip
  }

  ghost predicate CloudInv(list: seq<RemoteEvent>, posted: set<DedupKey>, cloud: Option<Cloud>) {
    cloud.Some? ==>
      var c := cloud.value;
      && 0 <= c.lastEventTimestamp <= Newest(list)
      && (c.resumePage.Some? <==> c.resumeStartDate.Some?)
      && (c.fullSyncDone ==> c.lastEventTimestamp > 0)
      && (c.resumePage.None? ==> AllHeld(list, c.lastEventTimestamp, posted, {}))
      && (c.resumePage.Some? ==>
          PinnedInv(list, posted, c.resumeStartDate.value, c.resumePage.value, c.lastEventTimestamp))
  }

  ghost predicate PinnedInv(list: seq<RemoteEvent>, posted: set<DedupKey>, startDate: int, page: int, last: int) {
    && page >= 1 && 0 <= startDate <= Newest(list) + 1
    && AllHeld(list, startDate - 1, posted, {})
    && Walked(list, startDate, last, Skip(page - 1), posted, {})
    && SeenOrAhead(list, startDate, Skip(page - 1), last)
  }

  /** The watermark a sync would save if it ended here with a complete walk. */
  function Bound(s: Sync): int {
    Larger(MaxTimestamp(s.events), LastEvent(s.base))
  }

  ghost predicate SyncInv(list: seq<RemoteEvent>, posted: set<DedupKey>, s: Sync) {
    var all := posted + EventKeys(s.events);
    && CloudInv(list, posted, s.base) && 0 <= s.startDate <= Newest(list) + 1 && s.lastPage >= 0
    && 0 <= Bound(s) <= Newest(list)
    && (s.mode.Incremental? ==> LastEvent(s.base) > 0)
    && AllHeld(list, s.startDate - 1, posted, {})
    && Walked(list, s.startDate, Bound(s), Skip(s.lastPage), all, {})
    && SeenOrAhead(list, s.startDate, Skip(s.lastPage), Bound(s))
    && (s.complete ==> Walked(list, s.startDate, Bound(s), |list|, all, {}) && Bound(s) > 0)
  }

  ghost predicate HasHistory(list: seq<RemoteEvent>) {
    exists j :: 0 <= j < |list| && Mappable(list[j])
  }

  ghost predicate Inv(w: World) {
    && Growing(w.list) && HasHistory(w.list) && CloudInv(w.list, w.posted, w.cloud)
    && forall i :: 0 <= i < |w.flying| ==> SyncInv(w.list, w.posted, w.flying[i])
  }

  // ----- arrivals and posts -----

  lemma ArrivalKeepsAhead(list: seq<RemoteEvent>, e: RemoteEvent, since: int, skip: nat, bound: int)
    requires SeenOrAhead(list, since, skip, bound)
    ensures SeenOrAhead(list + [e], since, skip, bound)
  {
    if bound <= 0 {
      var j :| 0 <= j < |list| && Mappable(list[j]) && list[j].time >= since && |list| - 1 - j >= skip;
      assert (list + [e])[j] == list[j];
    }
  }

  /** Below a window that starts at or under the newest known time, an arrival adds nothing. */
  lemma ArrivalBelow(list: seq<RemoteEvent>, e: RemoteEvent, upTo: int, posted: set<DedupKey>)
    requires Growing(list + [e]) && AllHeld(list, upTo, posted, {}) && (upTo <= Newest(list) || upTo < e.time)
    ensures AllHeld(list + [e], upTo, posted, {})
  {
    ArrivalIsNewer(list, e);
    forall j | 0 <= j < |list + [e]| && (list + [e])[j].time <= upTo
      ensures Held((list + [e])[j], posted, {})
    {
      if j < |list| {
        assert (list + [e])[j] == list[j];
      }
    }
  }

  lemma ArrivalKeepsCloud(list: seq<RemoteEvent>, e: RemoteEvent, posted: set<DedupKey>, cloud: Option<Cloud>)
    requires Growing(list + [e]) && CloudInv(list, posted, cloud)
    ensures CloudInv(list + [e], posted, cloud)
  {
    ArrivalIsNewer(list, e);
    if cloud.Some? {
      var c := cloud.value;
      if c.resumePage.None? {
        ArrivalBelow(list, e, c.lastEventTimestamp, posted);
      } else {
        ArrivalBelow(list, e, c.resumeStartDate.value - 1, posted);
        ArrivalKeepsWalked(list, e, c.resumeStartDate.value, c.lastEventTimestamp,
                           Skip(c.resumePage.value - 1), posted, {});
        ArrivalKeepsAhead(list, e, c.resumeStartDate.value, Skip(c.resumePage.value - 1), c.lastEventTimestamp);
      }
    }
  }

  lemma ArrivalKeepsSync(list: seq<RemoteEvent>, e: RemoteEvent, posted: set<DedupKey>, s: Sync)
    requires Growing(list + [e]) && SyncInv(list, posted, s)
    ensures SyncInv(list + [e], posted, s)
  {
    var all := posted + EventKeys(s.events);
    ArrivalIsNewer(list, e);
    ArrivalKeepsCloud(list, e, posted, s.base);
    ArrivalBelow(list, e, s.startDate - 1, posted);
    ArrivalKeepsWalked(list, e, s.startDate, Bound(s), Skip(s.lastPage), all, {});
    ArrivalKeepsAhead(list, e, s.startDate, Skip(s.lastPage), Bound(s));
    if s.complete {
      ArrivalKeepsDone(list, e, s.startDate, Bound(s), all, {});
    }
  }

  lemma ArriveKeeps(w: World, e: RemoteEvent)
    requires Inv(w) && Enabled(w, Arrive(e))
    ensures Inv(Next(w, Arrive(e)))
  {
    ArrivalIsNewer(w.list, e);
    ArrivalKeepsCloud(w.list, e, w.posted, w.cloud);
    var j :| 0 <= j < |w.list| && Mappable(w.list[j]);
    assert (w.list + [e])[j] == w.list[j];
    forall i | 0 <= i < |w.flying| {
      ArrivalKeepsSync(w.list, e, w.posted, w.flying[i]);
    }
  }

  /** More posted keys never hurt. */
  lemma MoreKeepsCloud(list: seq<RemoteEvent>, posted: set<DedupKey>, more: set<DedupKey>, cloud: Option<Cloud>)
    requires CloudInv(list, posted, cloud) && posted <= more
    ensures CloudInv(list, more, cloud)
  {
  }

  lemma MoreKeepsSync(list: seq<RemoteEvent>, posted: set<DedupKey>, more: set<DedupKey>, s: Sync)
    requires SyncInv(list, posted, s) && posted <= more
    ensures SyncInv(list, more, s)
  {
    MoreKeepsCloud(list, posted, more, s.base);
    assert posted + EventKeys(s.events) <= more + EventKeys(s.events);
  }

  lemma MoreKeeps(w: World, more: set<DedupKey>)
    requires Inv(w) && w.posted <= more
    ensures Inv(w.(posted := more))
  {
    MoreKeepsCloud(w.list, w.posted, more, w.cloud);
    forall i | 0 <= i < |w.flying| {
      MoreKeepsSync(w.list, w.posted, more, w.flying[i]);
    }
  }

  // ----- a sync begins -----

  lemma HistoryIsAhead(list: seq<RemoteEvent>, bound: int)
    requires HasHistory(list)
    ensures SeenOrAhead(list, 0, 0, bound)
  {
    var j :| 0 <= j < |list| && Mappable(list[j]);
  }

  lemma BeginKeeps(w: World, mode: Mode, now: int)
    requires Inv(w) && Enabled(w, Begin(mode, now))
    ensures SyncInv(w.list, w.posted, BeginSync(w.cloud, mode, now))
  {
    var s := BeginSync(w.cloud, mode, now);
    assert EventKeys([]) == {} && w.posted + EventKeys([]) == w.posted;
    NothingBelowZero(w.list, w.posted, {});
    HistoryIsAhead(w.list, LastEvent(w.cloud));
  }

  // ----- one page -----

  lemma {:induction false} MaxTimestampOf(a: seq<TokenEvent>, b: seq<TokenEvent>)
    ensures MaxTimestamp(a) >= 0 && MaxTimestamp(a + b) == Larger(MaxTimestamp(a), MaxTimestamp(b))
    ensures forall e :: e in b ==> e.timestamp <= MaxTimestamp(b)
    ensures MaxTimestamp(b) == 0 || exists e :: e in b && e.timestamp == MaxTimestamp(b)
    decreases |a| + |b|
  {
    if b == [] {
      assert a + b == a;
      if a != [] {
        MaxTimestampOf(a[..|a| - 1], []);
      }
    } else {
      var n := |b| - 1;
      assert (a + b)[..|a| + n] == a + b[..n];
      MaxTimestampOf(a, b[..n]);
    }
  }

  lemma PageRaises(list: seq<RemoteEvent>, s: Sync, page: seq<RemoteEvent>)
    requires Growing(list) && page == PageAt(list, s.startDate, Skip(s.lastPage)) && 0 <= Bound(s) <= Newest(list)
    ensures var r := Bound(s.(events := s.events + Mapped(page)));
            && Bound(s) <= r <= Newest(list) && BoundFrom(page, Bound(s), r)
            && (forall k :: 0 <= k < |page| && Mappable(page[k]) ==> page[k].time <= r)
  {
    MaxTimestampOf(s.events, Mapped(page));
    MappedIn(page);
    forall k | 0 <= k < |page| && Mappable(page[k])
      ensures page[k].token.value.timestamp == page[k].time
    {
      PageTimes(list, s.startDate, Skip(s.lastPage), k);
    }
    if MaxTimestamp(Mapped(page)) > Bound(s) {
      var e :| e in Mapped(page) && e.timestamp == MaxTimestamp(Mapped(page));
      var k :| 0 <= k < |page| && page[k].token == Some(e);
      PageTimes(list, s.startDate, Skip(s.lastPage), k);
    }
  }

  lemma EndIsEnd(list: seq<RemoteEvent>, since: int, skip: nat, flag: Option<bool>)
    requires flag.Some? ==> flag.value == MoreAfter(list, since, skip)
    ensures AtEnd(PageAt(list, since, skip), flag) ==> !MoreAfter(list, since, skip)
  {
  }

  lemma PageMeetsAhead(list: seq<RemoteEvent>, since: int, skip: nat, before: int, bound: int)
    requires Growing(list) && SeenOrAhead(list, since, skip, before) && before <= bound
    requires forall k :: 0 <= k < |PageAt(list, since, skip)| && Mappable(PageAt(list, since, skip)[k]) ==>
               PageAt(list, since, skip)[k].time <= bound
    ensures SeenOrAhead(list, since, skip + PAGE_SIZE, bound)
    ensures !MoreAfter(list, since, skip) ==> bound > 0
  {
    MatchingAt(list, since);
    if before <= 0 {
      var j :| 0 <= j < |list| && Mappable(list[j]) && list[j].time >= since && |list| - 1 - j >= skip;
      var back := |list| - 1 - j;
      if back < skip + PAGE_SIZE {
        var all := Matching(list, since);
        assert back < |all| && all[back] == list[j];
        assert PageAt(list, since, skip)[back - skip] == all[back];
      }
    }
  }

  lemma FetchKeeps(w: World, s: Sync, saysMore: bool)
    requires Inv(w) && SyncInv(w.list, w.posted, s)
    ensures SyncInv(w.list, w.posted, TakePage(s, PageOf(w, s), Flag(w, s, saysMore)))
  {
    var page, skip := PageOf(w, s), Skip0(s);
    var r := TakePage(s, page, Flag(w, s, saysMore));
    PageRaises(w.list, s, page);
    PageHeld(page, w.posted, s.events, {});
    EndIsEnd(w.list, s.startDate, skip, Flag(w, s, saysMore));
    PageMeetsAhead(w.list, s.startDate, skip, Bound(s), Bound(r));
    assert w.posted + EventKeys(s.events) <= w.posted + EventKeys(r.events);
    FetchAdvances(w.list, s.startDate, Bound(s), skip, w.posted + EventKeys(s.events), Bound(r),
                  w.posted + EventKeys(r.events), {});
    assert Bound(r) == Bound(s.(events := s.events + Mapped(page)));
  }

  // ----- a sync ends -----

  lemma LandedKeeps(w: World, s: Sync, now: int)
    requires Inv(w) && SyncInv(w.list, w.posted, s)
    ensures CloudInv(w.list, w.posted + EventKeys(s.events), Landed(w, s, now))
  {
    var all := w.posted + EventKeys(s.events);
    MoreKeepsCloud(w.list, w.posted, all, s.base);
    if s.complete {
      WalkEnds(w.list, s.startDate, s.startDate - 1, Bound(s), all, {});
    }
  }

  lemma StepKeeps(w: World, step: Step)
    requires Inv(w) && Enabled(w, step)
    ensures Inv(Next(w, step))
  {
    match step {
      case Arrive(e) => ArriveKeeps(w, e);
      case Begin(mode, now) => BeginKeeps(w, mode, now);
      case Fetch(i, saysMore) => FetchKeeps(w, w.flying[i], saysMore);
      case Abandon(i) =>
      case PostFails(i, stored) => MoreKeeps(w, w.posted + stored);
      case Finish(i, now, saved) =>
        LandedKeeps(w, w.flying[i], now);
        MoreKeeps(w, w.posted + EventKeys(w.flying[i].events));
      case Restart =>
    }
  }

  lemma {:induction false} RunKeeps(w: World, steps: seq<Step>)
    requires Inv(w) && Possible(w, steps)
    ensures Inv(After(w, steps))
    decreases |steps|
  {
    if steps != [] {
      StepKeeps(w, steps[0]);
      RunKeeps(Next(w, steps[0]), steps[1..]);
    }
  }

  /** Over any interleaving of full and incremental syncs by the daemon and the CLI, arrivals, failed
      requests, partly stored posts, lost saves and restarts: whenever no walk is pending, every
      mappable event up to lastEventTimestamp has been posted. */
  lemma CloudWatermarkIsSafe(w: World, steps: seq<Step>)
    requires Initial(w) && Possible(w, steps)
    ensures Safe(After(w, steps))
  {
    RunKeeps(w, steps);
  }
}
