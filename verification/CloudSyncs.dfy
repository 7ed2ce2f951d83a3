/** The daemon's Cursor cloud sync: bounded walks over the dashboard's event list, resumed across runs. */
module CloudSyncs {
  import opened Numbers
  import opened Options
  import opened Events
  import opened PageWalk

  const OVERLAP_MS: int := 5 * 60 * 1000
  const DEFAULT_LOOKBACK_MS: int := 24 * 60 * 60 * 1000

  datatype Mode = Incremental | Full

  /** state.json's cursorCloud; an absent lastEventTimestamp is 0. */
  datatype Cloud = Cloud(lastSyncAt: int, lastEventTimestamp: int, fullSyncDone: bool,
                         resumePage: Option<int>, resumeStartDate: Option<int>)

  /** One page request: it fails, or serves events and perhaps says whether more follow. */
  datatype Reply = Failed | Served(page: seq<RemoteEvent>, hasNextPage: Option<bool>)

  datatype Fetch = Threw | Fetched(events: seq<TokenEvent>, complete: bool, nextPage: int)

  function AtLeastZero(n: int): int {
    if n >= 0 then n else 0
  }

  function LastEvent(cloud: Option<Cloud>): int {
    if cloud.Some? then cloud.value.lastEventTimestamp else 0
  }

  /** The window's lower end. A pending walk pins the one it began with. */
  function StartDate(cloud: Option<Cloud>, mode: Mode, now: int): int {
    if mode.Full? then 0
    else if cloud.Some? && cloud.value.resumePage.Some? && cloud.value.resumeStartDate.Some?
      then cloud.value.resumeStartDate.value
    else if LastEvent(cloud) > 0 then AtLeastZero(LastEvent(cloud) - OVERLAP_MS)
    else if cloud.Some? && cloud.value.lastSyncAt > 0 then AtLeastZero(cloud.value.lastSyncAt - OVERLAP_MS)
    else AtLeastZero(now - DEFAULT_LOOKBACK_MS)
  }

  /** A walk is resumed only by a sync over the window that pinned it. */
  function StartPage(cloud: Option<Cloud>, startDate: int): int {
    if cloud.Some? && cloud.value.resumePage.Some? && cloud.value.resumeStartDate == Some(startDate)
    then cloud.value.resumePage.value else 1
  }

  function MaxTimestamp(events: seq<TokenEvent>): int {
    if events == [] then 0
    else
      var n := |events| - 1;
      var rest := MaxTimestamp(events[..n]);
      if events[n].timestamp > rest then events[n].timestamp else rest
  }

  method MaxEventTimestamp(events: seq<TokenEvent>) returns (max: int)
    ensures max == MaxTimestamp(events)
  {
    max := 0;
    for i := 0 to |events|
      invariant max == MaxTimestamp(events[..i])
    {
      assert events[..i + 1][..i] == events[..i];
      if events[i].timestamp > max {
        max := events[i].timestamp;
      }
    }
    assert events[..|events|] == events;
  }

  /** The state after a walk's events were posted. An incremental run moves its watermark only when it
      completed; a full one always, since its window does not depend on it. */
  function NextCloud(cloud: Option<Cloud>, mode: Mode, events: seq<TokenEvent>, now: int, complete: bool, nextPage: int,
                     startDate: int): Cloud {
    var last := if mode.Full? || complete then Larger(MaxTimestamp(events), LastEvent(cloud)) else LastEvent(cloud);
    Cloud(now, AtLeastZero(last), (mode.Full? && complete) || (cloud.Some? && cloud.value.fullSyncDone),
          if complete then None else Some(nextPage), if complete then None else Some(startDate))
  }

  /** The three rules by which the walk knows it is at the end. */
  predicate AtEnd(page: seq<RemoteEvent>, hasNextPage: Option<bool>) {
    || page == []
    || hasNextPage == Some(false)
    || (hasNextPage != Some(true) && |page| < PAGE_SIZE)
  }

  // ----- one walk, page by page -----

  /** A sync in flight. */
  datatype Sync = Sync(base: Option<Cloud>, mode: Mode, startDate: int, startPage: int, lastPage: int,
                       events: seq<TokenEvent>, complete: bool)

  function BeginSync(cloud: Option<Cloud>, mode: Mode, now: int): Sync {
    var startDate := StartDate(cloud, mode, now);
    var page := StartPage(cloud, startDate);
    Sync(cloud, mode, startDate, page, page - 1, [], false)
  }

  function TakePage(s: Sync, page: seq<RemoteEvent>, hasNextPage: Option<bool>): Sync {
    s.(lastPage := s.lastPage + 1, events := s.events + Mapped(page), complete := AtEnd(page, hasNextPage))
  }

  function Outcome(s: Sync): Fetch {
    Fetched(s.events, s.complete, s.lastPage + 1)
  }

  /** The page loop: a failed request throws the whole walk away. */
  function TakePages(s: Sync, replies: seq<Reply>, budget: nat): Fetch
    decreases budget
  {
    if budget == 0 || s.complete then Outcome(s)
    else if replies == [] || replies[0].Failed? then Threw
    else TakePages(TakePage(s, replies[0].page, replies[0].hasNextPage), replies[1..], budget - 1)
  }

  method MapPage(page: seq<RemoteEvent>) returns (events: seq<TokenEvent>)
    ensures events == Mapped(page)
  {
    events := [];
    for i := 0 to |page|
      invariant events == Mapped(page[..i])
    {
      assert page[..i + 1][..i] == page[..i];
      if Mappable(page[i]) {
        events := events + [page[i].token.value];
      }
    }
    assert page[..|page|] == page;
  }

  /** Walks pages until the end, the cap or a failure. */
  method FetchFilteredUsageEvents(ghost s: Sync, startPage: int, maxPages: nat, replies: seq<Reply>) returns (r: Fetch)
    requires s.lastPage == startPage - 1 && s.events == [] && !s.complete
    ensures r == TakePages(s, replies, maxPages)
  {
    var events: seq<TokenEvent> := [];
    var complete, lastPage, page := false, startPage - 1, startPage;
    while page < startPage + maxPages
      invariant startPage <= page <= startPage + maxPages && lastPage == page - 1 && !complete
      invariant page - startPage <= |replies|
      invariant TakePages(s, replies, maxPages)
             == TakePages(s.(lastPage := lastPage, events := events), replies[page - startPage..],
                          maxPages - (page - startPage))
      decreases startPage + maxPages - page
    {
      var i := page - startPage;
      if i == |replies| || replies[i].Failed? {
        return Threw;
      }
      assert replies[i..][1..] == replies[i + 1..];
      var mapped := MapPage(replies[i].page);
      events := events + mapped;
      lastPage := page;
      if replies[i].page == [] {
        complete := true;
        break;
      }
      if replies[i].hasNextPage == Some(false) {
        complete := true;
        break;
      }
      if replies[i].hasNextPage != Some(true) && |replies[i].page| < PAGE_SIZE {
        complete := true;
        break;
      }
      page := page + 1;
    }
    return Fetched(events, complete, lastPage + 1);
  }

  /** One whole sync: fetch, post, and only then a new state. `postOk` answers the post, if any. */
  method RunCursorCloudSync(cloud: Option<Cloud>, mode: Mode, startedAt: int, endedAt: int, maxPages: nat,
                            replies: seq<Reply>, postOk: bool)
    returns (next: Option<Cloud>, posted: seq<TokenEvent>)
    ensures var f := TakePages(BeginSync(cloud, mode, startedAt), replies, maxPages);
            if f.Threw? || (f.events != [] && !postOk) then next == cloud && posted == []
            else && posted == f.events
                 && next == Some(NextCloud(cloud, mode, f.events, endedAt, f.complete, f.nextPage,
                                           StartDate(cloud, mode, startedAt)))
  {
    var startDate := StartDate(cloud, mode, startedAt);
    var startPage := StartPage(cloud, startDate);
    var f := FetchFilteredUsageEvents(BeginSync(cloud, mode, startedAt), startPage, maxPages, replies);
    if f.Threw? {
      return cloud, [];
    }
    if f.events != [] && !postOk {
      return cloud, [];
    }
    var max := MaxEventTimestamp(f.events);
    var last := LastEvent(cloud);
    if mode.Full? || f.complete {
      last := if max >= last then max else last;
    }
    var done := (mode.Full? && f.complete) || (cloud.Some? && cloud.value.fullSyncDone);
    posted := f.events;
    if f.complete {
      next := Some(Cloud(endedAt, AtLeastZero(last), done, None, None));
    } else {
      next := Some(Cloud(endedAt, AtLeastZero(last), done, Some(f.nextPage), Some(startDate)));
    }
  }

  // ----- resumption -----

  /** The daemon's choice: full history until it has been walked once, the recent window after that. */
  function DaemonMode(cloud: Option<Cloud>): Mode {
    if cloud.Some? && cloud.value.fullSyncDone then Incremental else Full
  }

  lemma {:induction false} PagesMoveOn(s: Sync, replies: seq<Reply>, budget: nat)
    ensures var f := TakePages(s, replies, budget);
            f.Fetched? && !f.complete ==> f.nextPage == s.lastPage + 1 + budget
    decreases budget
  {
    if budget > 0 && !s.complete && replies != [] && replies[0].Served? {
      PagesMoveOn(TakePage(s, replies[0].page, replies[0].hasNextPage), replies[1..], budget - 1);
    }
  }

  /** A truncated walk keeps its start date, and the daemon's next sync goes on exactly one budget of
      pages further; the clock has no say in it. */
  lemma TruncatedWalkResumes(cloud: Option<Cloud>, now: int, endedAt: int, later: int, maxPages: nat,
                             replies: seq<Reply>)
    requires var f := TakePages(BeginSync(cloud, DaemonMode(cloud), now), replies, maxPages); f.Fetched? && !f.complete
    ensures var mode := DaemonMode(cloud);
            var s, f := BeginSync(cloud, mode, now), TakePages(BeginSync(cloud, mode, now), replies, maxPages);
            var next := Some(NextCloud(cloud, mode, f.events, endedAt, f.complete, f.nextPage, s.startDate));
            && DaemonMode(next) == mode
            && BeginSync(next, mode, later).startDate == s.startDate
            && BeginSync(next, mode, later).startPage == s.startPage + maxPages
  {
    PagesMoveOn(BeginSync(cloud, DaemonMode(cloud), now), replies, maxPages);
  }
}
