/** Cloud syncs over a list that stands still: what each saves, where the next goes on, and when a walk has
    caught up. */
module CloudWalks {
  import opened Numbers
  import opened Options
  import opened Events
  import opened PageWalk
  import opened CloudSyncs
  import opened CloudSafety

  // ----- one sync -----

  /** The walk ends with this answer: it is empty, says that no more follow, or says nothing and is short. */
  predicate EndsThere(r: Reply) {
    r.Served? && (r.page == [] || r.hasNextPage == Some(false) || (r.hasNextPage == None && |r.page| < PAGE_SIZE))
  }

  /** The walk is served `n` pages, and ends with the last of them or at its cap. */
  ghost predicate ServedPages(replies: seq<Reply>, maxPages: nat, n: nat) {
    && n <= |replies| && n <= maxPages
    && (forall i :: 0 <= i < n ==> replies[i].Served? && (i < n - 1 ==> !EndsThere(replies[i])))
    && (n == maxPages || (n > 0 && EndsThere(replies[n - 1])))
  }

  function EventsOn(replies: seq<Reply>, n: nat): seq<TokenEvent>
    requires n <= |replies|
  {
    if n == 0 then []
    else EventsOn(replies, n - 1) + if replies[n - 1].Served? then Mapped(replies[n - 1].page) else []
  }

  lemma {:induction false} EventsOnRest(replies: seq<Reply>, n: nat)
    requires 0 < n <= |replies| && replies[0].Served?
    ensures EventsOn(replies, n) == Mapped(replies[0].page) + EventsOn(replies[1..], n - 1)
  {
    if n == 1 {
      assert EventsOn(replies, 0) == [] && EventsOn(replies[1..], 0) == [];
    } else {
      EventsOnRest(replies, n - 1);
      assert replies[1..][n - 2] == replies[n - 1];
    }
  }

  lemma RestServed(replies: seq<Reply>, maxPages: nat, n: nat)
    requires ServedPages(replies, maxPages, n) && n > 0
    ensures n > 1 ==> ServedPages(replies[1..], maxPages - 1, n - 1)
    ensures n > 1 ==> (EndsThere(replies[1..][n - 2]) <==> EndsThere(replies[n - 1]))
  {
  }

  lemma EndsAlike(page: seq<RemoteEvent>, hasNextPage: Option<bool>)
    ensures AtEnd(page, hasNextPage) <==> EndsThere(Served(page, hasNextPage))
  {
    match hasNextPage {
      case None =>
      case Some(more) =>
    }
  }

  /** One served page, and what the walk makes of the rest. */
  lemma TakesOne(s: Sync, replies: seq<Reply>, maxPages: nat, events: seq<TokenEvent>)
    requires !s.complete && maxPages > 0 && replies != [] && replies[0].Served?
    requires events == s.events + Mapped(replies[0].page)
    ensures var next := TakePage(s, replies[0].page, replies[0].hasNextPage);
            && next.complete == EndsThere(replies[0]) && next.events == events && next.lastPage == s.lastPage + 1
            && TakePages(s, replies, maxPages)
               == if next.complete then Fetched(events, true, s.lastPage + 2)
                 else TakePages(next, replies[1..], maxPages - 1)
  {
    EndsAlike(replies[0].page, replies[0].hasNextPage);
  }

  /** A walk that is served throughout yields the events of its pages, says whether it ended, and the page
      after them. */
  lemma {:induction false} FetchesServed(s: Sync, replies: seq<Reply>, maxPages: nat, n: nat)
    requires !s.complete && ServedPages(replies, maxPages, n)
    ensures TakePages(s, replies, maxPages)
         == Fetched(s.events + EventsOn(replies, n), n > 0 && EndsThere(replies[n - 1]), s.lastPage + n + 1)
    decreases n
  {
    if n == 0 {
      assert s.events + EventsOn(replies, 0) == s.events;
    } else {
      var page, rest := Mapped(replies[0].page), EventsOn(replies[1..], n - 1);
      EventsOnRest(replies, n);
      TakesOne(s, replies, maxPages, s.events + page);
      Reassociate(s.events, page, rest);
      if n == 1 && EndsThere(replies[0]) {
        assert (s.events + page) + [] == s.events + page;
      } else {
        assert !EndsThere(replies[0]);
        RestServed(replies, maxPages, n);
        FetchesServed(TakePage(s, replies[0].page, replies[0].hasNextPage), replies[1..], maxPages - 1, n - 1);
      }
    }
  }

  lemma Reassociate(a: seq<TokenEvent>, b: seq<TokenEvent>, c: seq<TokenEvent>)
    ensures a + (b + c) == (a + b) + c
  {
  }

  /** A request that is not answered before the walk ended throws the whole walk away. */
  lemma {:induction false} FailureThrows(s: Sync, replies: seq<Reply>, maxPages: nat, n: nat)
    requires !s.complete && n < maxPages && n <= |replies| && (n < |replies| ==> replies[n].Failed?)
    requires forall i :: 0 <= i < n ==> replies[i].Served? && !EndsThere(replies[i])
    ensures TakePages(s, replies, maxPages) == Threw
    decreases n
  {
    if n > 0 {
      EndsAlike(replies[0].page, replies[0].hasNextPage);
      FailureThrows(TakePage(s, replies[0].page, replies[0].hasNextPage), replies[1..], maxPages - 1, n - 1);
    }
  }

  /** Where a sync of the daemon begins: with the whole history until that was walked once; then where a
      truncated walk stopped; else five minutes before the watermark, or before the last sync if there is no
      watermark, or a day ago if there was no sync. */
  lemma BeginsExactly(cloud: Option<Cloud>, now: int)
    requires cloud.Some? ==> (cloud.value.resumePage.Some? <==> cloud.value.resumeStartDate.Some?)
    ensures var mode, s := DaemonMode(cloud), BeginSync(cloud, DaemonMode(cloud), now);
            && (mode == Full <==> cloud.None? || !cloud.value.fullSyncDone) && s.lastPage == s.startPage - 1
            && s.startDate
               == (if mode == Full then 0
                   else if cloud.value.resumePage.Some? then cloud.value.resumeStartDate.value
                   else if cloud.value.lastEventTimestamp > 0 then Larger(0, cloud.value.lastEventTimestamp - 300_000)
                   else if cloud.value.lastSyncAt > 0 then Larger(0, cloud.value.lastSyncAt - 300_000)
                   else Larger(0, now - 86_400_000))
            && s.startPage == if cloud.Some? && cloud.value.resumePage.Some?
            && cloud.value.resumeStartDate.value == s.startDate
                              then cloud.value.resumePage.value else 1
  {
  }

  lemma NewestKnown(events: seq<TokenEvent>, last: int)
    requires last >= 0
    ensures var mark := Larger(MaxTimestamp(events), last);
            && (forall e :: e in events ==> e.timestamp <= mark) && mark >= last
            && (mark > last ==> exists e :: e in events && e.timestamp == mark)
  {
    MaxTimestampOf([], events);
  }

  /** What a sync saves: its time, that the full history was walked, the page and the window to go on with if it
      was truncated, and the newest event it met, which a truncated incremental one leaves out. */
  lemma SavesExactly(cloud: Option<Cloud>, mode: Mode, events: seq<TokenEvent>, now: int, complete: bool, nextPage: int,
                     startDate: int)
    requires LastEvent(cloud) >= 0
    ensures var c, last := NextCloud(cloud, mode, events, now, complete, nextPage, startDate), LastEvent(cloud);
            && c.lastSyncAt == now
            && (c.fullSyncDone <==> (mode == Full && complete) || (cloud.Some? && cloud.value.fullSyncDone))
            && c.resumePage == (if complete then None else Some(nextPage))
            && c.resumeStartDate == (if complete then None else Some(startDate))
            && if mode == Incremental && !complete then c.lastEventTimestamp == last
               else && (forall e :: e in events ==> e.timestamp <= c.lastEventTimestamp) && c.lastEventTimestamp >= last
                    && (c.lastEventTimestamp > last ==> exists e :: e in events && e.timestamp == c.lastEventTimestamp)
  {
    NewestKnown(events, LastEvent(cloud));
  }

  // ----- several syncs -----

  /** What the server holds, and the daemon's saved state. */
  datatype Daemon = Daemon(posted: set<DedupKey>, cloud: Option<Cloud>)

  datatype Clock = Clock(began: int, ended: int)

  function Flagged(list: seq<RemoteEvent>, since: int, lastPage: nat, saysMore: bool): Reply {
    Served(PageAt(list, since, Skip(lastPage)), if saysMore then Some(MoreAfter(list, since, Skip(lastPage))) else None)
  }

  /** The answers to page requests from `lastPage + 1` on. */
  function Answers(list: seq<RemoteEvent>, since: int, lastPage: nat, saysMore: bool, n: nat): seq<Reply> {
    seq(n, i requires 0 <= i < n => Flagged(list, since, lastPage + i, saysMore))
  }

  /** One sync whose requests and post go through. */
  ghost function Synced(list: seq<RemoteEvent>, d: Daemon, budget: nat, saysMore: bool, clock: Clock): Daemon {
    var mode := DaemonMode(d.cloud);
    var s := BeginSync(d.cloud, mode, clock.began);
    var f := TakePages(s, Answers(list, s.startDate, Larger(0, s.lastPage), saysMore, budget), budget);
    if f.Threw? then d
    else Daemon(d.posted + EventKeys(f.events),
                Some(NextCloud(d.cloud, mode, f.events, clock.ended, f.complete, f.nextPage, s.startDate)))
  }

  ghost function SyncedAll(list: seq<RemoteEvent>, d: Daemon, budget: nat, saysMore: bool, clocks: seq<Clock>): Daemon {
    if clocks == [] then d
    else Synced(list, SyncedAll(list, d, budget, saysMore, clocks[..|clocks| - 1]), budget, saysMore,
                clocks[|clocks| - 1])
  }

  /** The walk of these events ends with this page: the first one that has no next; where the API does not say,
      the first that is not full. */
  ghost predicate EndsAtPage(list: seq<RemoteEvent>, since: int, saysMore: bool, pages: nat) {
    var found := |Matching(list, since)|;
    && pages >= 1
    && if saysMore then found <= pages * PAGE_SIZE && (pages > 1 ==> found > (pages - 1) * PAGE_SIZE)
       else (pages - 1) * PAGE_SIZE <= found < pages * PAGE_SIZE
  }

  lemma EndsAtLast(list: seq<RemoteEvent>, since: int, saysMore: bool, pages: nat, lastPage: nat)
    requires EndsAtPage(list, since, saysMore, pages) && lastPage < pages
    ensures EndsThere(Flagged(list, since, lastPage, saysMore)) <==> lastPage + 1 == pages
  {
  }

  /** Event `j` of the list lies in the window, with `from` up to `to` newer events before it. */
  predicate InPart(list: seq<RemoteEvent>, since: int, from: nat, to: nat, j: nat) {
    j < |list| && list[j].time >= since && from <= |list| - 1 - j < to
  }

  ghost predicate PartHeld(list: seq<RemoteEvent>, since: int, from: nat, to: nat, got: set<DedupKey>) {
    forall j: nat :: InPart(list, since, from, to, j) ==> Held(list[j], got, {})
  }

  /** `mark` is the newest time of a mappable event of the part, if one is newer than `before`. */
  ghost predicate Marks(list: seq<RemoteEvent>, since: int, from: nat, to: nat, before: int, mark: int) {
    && mark >= before
    && (forall j: nat :: InPart(list, since, from, to, j) && Mappable(list[j]) ==> list[j].time <= mark)
    && (mark > before ==> exists j: nat ::
        InPart(list, since, from, to, j) && Mappable(list[j]) && list[j].time == mark)
  }

  /** An event is one of these exactly if it is what is mapped of the part. */
  ghost predicate PartOf(list: seq<RemoteEvent>, since: int, from: nat, to: nat, events: seq<TokenEvent>) {
    && (forall j: nat :: InPart(list, since, from, to, j) && Mappable(list[j]) ==> list[j].token.value in events)
    && (forall e :: e in events ==>
          exists j: nat :: InPart(list, since, from, to, j) && Mappable(list[j]) && list[j].token.value == e)
  }

  /** The events of a page are those of the list with `skip` to `skip + PAGE_SIZE` newer ones. */
  lemma PageHasPart(list: seq<RemoteEvent>, since: int, skip: nat, j: nat)
    requires Growing(list) && InPart(list, since, skip, skip + PAGE_SIZE, j)
    ensures var page := PageAt(list, since, skip);
            0 <= |list| - 1 - j - skip < |page| && page[|list| - 1 - j - skip] == list[j]
  {
    MatchingAt(list, since);
    assert |list| - 1 - j < |Matching(list, since)|;
  }

  lemma PageIsInPart(list: seq<RemoteEvent>, since: int, skip: nat, k: nat)
    requires Growing(list) && k < |PageAt(list, since, skip)|
    ensures 0 <= |list| - 1 - skip - k && InPart(list, since, skip, skip + PAGE_SIZE, |list| - 1 - skip - k)
    ensures PageAt(list, since, skip)[k] == list[|list| - 1 - skip - k]
  {
    MatchingAt(list, since);
    assert PageAt(list, since, skip)[k] == Matching(list, since)[skip + k];
  }

  lemma PageIsPart(list: seq<RemoteEvent>, since: int, skip: nat)
    requires Growing(list)
    ensures PartOf(list, since, skip, skip + PAGE_SIZE, Mapped(PageAt(list, since, skip)))
  {
    var page, events := PageAt(list, since, skip), Mapped(PageAt(list, since, skip));
    MappedIn(page);
    forall j: nat | j < |list| && InPart(list, since, skip, skip + PAGE_SIZE, j) && Mappable(list[j])
      ensures list[j].token.value in events
    {
      PageHasPart(list, since, skip, j);
    }
    forall e | e in events
      ensures exists j: nat ::
                InPart(list, since, skip, skip + PAGE_SIZE, j) && Mappable(list[j]) && list[j].token.value == e
    {
      MappedSource(page, e);
      var k :| 0 <= k < |page| && Mappable(page[k]) && page[k].token == Some(e);
      PageIsInPart(list, since, skip, k);
    }
  }

  lemma {:induction false} MappedSource(page: seq<RemoteEvent>, e: TokenEvent)
    requires e in Mapped(page)
    ensures exists k :: 0 <= k < |page| && Mappable(page[k]) && page[k].token == Some(e)
  {
    var n := |page| - 1;
    if e in Mapped(page[..n]) {
      MappedSource(page[..n], e);
      var k :| 0 <= k < n && Mappable(page[..n][k]) && page[..n][k].token == Some(e);
      assert page[k] == page[..n][k];
    } else {
      assert Mappable(page[n]) && page[n].token == Some(e);
    }
  }

  lemma PartsJoin(list: seq<RemoteEvent>, since: int, from: nat, mid: nat, to: nat,
                  a: seq<TokenEvent>, b: seq<TokenEvent>)
    requires from <= mid <= to && PartOf(list, since, from, mid, a) && PartOf(list, since, mid, to, b)
    ensures PartOf(list, since, from, to, a + b)
  {
    forall e | e in a + b
      ensures exists j: nat :: InPart(list, since, from, to, j) && Mappable(list[j]) && list[j].token.value == e
    {
      if e in a {
        var j: nat :| InPart(list, since, from, mid, j) && Mappable(list[j]) && list[j].token.value == e;
        assert InPart(list, since, from, to, j);
      } else {
        var j: nat :| InPart(list, since, mid, to, j) && Mappable(list[j]) && list[j].token.value == e;
        assert InPart(list, since, from, to, j);
      }
    }
  }

  lemma {:induction false} AnswersArePart(list: seq<RemoteEvent>, since: int, lastPage: nat,
                                          saysMore: bool, more: nat, n: nat)
    requires Growing(list) && n <= more
    ensures PartOf(list, since, Skip(lastPage), Skip(lastPage + n),
                   EventsOn(Answers(list, since, lastPage, saysMore, more), n))
  {
    if n > 0 {
      AnswersArePart(list, since, lastPage, saysMore, more, n - 1);
      PageIsPart(list, since, Skip(lastPage + n - 1));
      assert Skip(lastPage + n - 1) + PAGE_SIZE == Skip(lastPage + n);
      assert Answers(list, since, lastPage, saysMore, more)[n - 1] == Flagged(list, since, lastPage + n - 1, saysMore);
      PartsJoin(list, since, Skip(lastPage), Skip(lastPage + n - 1), Skip(lastPage + n),
                EventsOn(Answers(list, since, lastPage, saysMore, more), n - 1),
                Mapped(PageAt(list, since, Skip(lastPage + n - 1))));
    }
  }

  lemma PartIsMarked(list: seq<RemoteEvent>, since: int, from: nat, to: nat, events: seq<TokenEvent>,
                     before: int, mark: int)
    requires Growing(list) && PartOf(list, since, from, to, events)
    requires (forall e :: e in events ==> e.timestamp <= mark) && mark >= before
    requires mark > before ==> exists e :: e in events && e.timestamp == mark
    ensures Marks(list, since, from, to, before, mark)
  {
    forall j: nat | InPart(list, since, from, to, j) && Mappable(list[j])
      ensures list[j].time <= mark
    {
      assert list[j].token.value in events;
    }
    if mark > before {
      var e :| e in events && e.timestamp == mark;
      var j: nat :| InPart(list, since, from, to, j) && Mappable(list[j]) && list[j].token.value == e;
      assert list[j].time == mark;
    }
  }

  lemma PartIsHeld(list: seq<RemoteEvent>, since: int, from: nat, to: nat, events: seq<TokenEvent>, got: set<DedupKey>)
    requires PartOf(list, since, from, to, events)
    ensures PartHeld(list, since, from, to, got + EventKeys(events))
  {
  }

  /** What a sync that goes on after `done` pages fetches. */
  ghost function PartFetched(list: seq<RemoteEvent>, budget: nat, saysMore: bool, since: int, done: nat,
                             n: nat): seq<TokenEvent>
    requires n <= budget
  {
    EventsOn(Answers(list, since, done, saysMore, budget), n)
  }

  lemma AnswersServe(list: seq<RemoteEvent>, budget: nat, saysMore: bool, since: int, done: nat, pages: nat, n: nat)
    requires EndsAtPage(list, since, saysMore, pages) && done < pages && budget > 0
             && n == Smaller(budget, pages - done)
    ensures var answers := Answers(list, since, done, saysMore, budget);
            ServedPages(answers, budget, n) && (EndsThere(answers[n - 1]) <==> done + n == pages)
  {
    var answers := Answers(list, since, done, saysMore, budget);
    forall i | 0 <= i < n
      ensures answers[i].Served? && (EndsThere(answers[i]) <==> done + i + 1 == pages)
    {
      assert answers[i] == Flagged(list, since, done + i, saysMore);
      EndsAtLast(list, since, saysMore, pages, done + i);
    }
  }

  lemma SyncIs(list: seq<RemoteEvent>, d: Daemon, budget: nat, saysMore: bool, clock: Clock, since: int, done: nat,
               events: seq<TokenEvent>, complete: bool, nextPage: int)
    requires var s := BeginSync(d.cloud, DaemonMode(d.cloud), clock.began);
             && s.startDate == since && s.lastPage == done
             && TakePages(s, Answers(list, since, done, saysMore, budget), budget)
                == Fetched(events, complete, nextPage)
    ensures Synced(list, d, budget, saysMore, clock)
            == Daemon(d.posted + EventKeys(events),
                      Some(NextCloud(d.cloud, DaemonMode(d.cloud), events, clock.ended, complete, nextPage, since)))
  {
  }

  lemma WalkServed(list: seq<RemoteEvent>, s: Sync, budget: nat, saysMore: bool, since: int,
                   done: nat, pages: nat, n: nat)
    requires EndsAtPage(list, since, saysMore, pages) && done < pages && budget > 0
             && n == Smaller(budget, pages - done)
    requires !s.complete && s.events == [] && s.lastPage == done
    ensures TakePages(s, Answers(list, since, done, saysMore, budget), budget)
         == Fetched(PartFetched(list, budget, saysMore, since, done, n), done + n == pages, done + n + 1)
  {
    AnswersServe(list, budget, saysMore, since, done, pages, n);
    FetchesServed(s, Answers(list, since, done, saysMore, budget), budget, n);
    assert [] + PartFetched(list, budget, saysMore, since, done, n)
      == PartFetched(list, budget, saysMore, since, done, n);
  }

  lemma SyncFetches(list: seq<RemoteEvent>, d: Daemon, budget: nat, saysMore: bool, clock: Clock, since: int, done: nat,
                    pages: nat, n: nat)
    requires EndsAtPage(list, since, saysMore, pages) && done < pages && budget > 0
             && n == Smaller(budget, pages - done)
    requires var s := BeginSync(d.cloud, DaemonMode(d.cloud), clock.began);
             s.startDate == since && s.startPage == done + 1
    ensures var events, mode := PartFetched(list, budget, saysMore, since, done, n), DaemonMode(d.cloud);
            Synced(list, d, budget, saysMore, clock)
            == Daemon(d.posted + EventKeys(events),
                      Some(NextCloud(d.cloud, mode, events, clock.ended, done + n == pages, done + n + 1, since)))
  {
    var events := PartFetched(list, budget, saysMore, since, done, n);
    WalkServed(list, BeginSync(d.cloud, DaemonMode(d.cloud), clock.began), budget, saysMore, since, done, pages, n);
    SyncIs(list, d, budget, saysMore, clock, since, done, events, done + n == pages, done + n + 1);
  }

  /** A sync that goes on after `done` pages of a walk of `pages` pages posts its part of the window and saves
      where to go on, or that the walk is through, and the newest event of the part unless it is truncated. */
  lemma OneSync(list: seq<RemoteEvent>, d: Daemon, budget: nat, saysMore: bool, clock: Clock, since: int,
                done: nat, pages: nat)
    requires Growing(list) && budget > 0 && LastEvent(d.cloud) >= 0
    requires EndsAtPage(list, since, saysMore, pages) && done < pages
    requires var s := BeginSync(d.cloud, DaemonMode(d.cloud), clock.began);
             s.startDate == since && s.startPage == done + 1
    ensures var r, mode, n := Synced(list, d, budget, saysMore, clock), DaemonMode(d.cloud),
                              Smaller(budget, pages - done);
            && r.cloud.Some? && d.posted <= r.posted && PartHeld(list, since, Skip(done), Skip(done + n), r.posted)
            && r.cloud.value.resumePage == (if done + n == pages then None else Some(done + n + 1))
            && r.cloud.value.resumeStartDate == (if done + n == pages then None else Some(since))
            && (r.cloud.value.fullSyncDone <==> done + n == pages || mode == Incremental)
            && if mode == Incremental && done + n < pages then r.cloud.value.lastEventTimestamp == LastEvent(d.cloud)
               else Marks(list, since, Skip(done), Skip(done + n), LastEvent(d.cloud), r.cloud.value.lastEventTimestamp)
  {
    var mode, n := DaemonMode(d.cloud), Smaller(budget, pages - done);
    var events := PartFetched(list, budget, saysMore, since, done, n);
    SyncFetches(list, d, budget, saysMore, clock, since, done, pages, n);
    AnswersArePart(list, since, done, saysMore, budget, n);
    PartIsHeld(list, since, Skip(done), Skip(done + n), events, d.posted);
    PartIsSaved(list, d.cloud, mode, events, clock.ended, done + n == pages, done + n + 1, since,
                Skip(done), Skip(done + n));
  }

  lemma PartIsSaved(list: seq<RemoteEvent>, cloud: Option<Cloud>, mode: Mode, events: seq<TokenEvent>, now: int,
                    complete: bool, nextPage: int, since: int, from: nat, to: nat)
    requires Growing(list) && LastEvent(cloud) >= 0 && PartOf(list, since, from, to, events)
    ensures var c := NextCloud(cloud, mode, events, now, complete, nextPage, since);
            && c.resumePage == (if complete then None else Some(nextPage))
            && c.resumeStartDate == (if complete then None else Some(since))
            && (c.fullSyncDone <==> (mode == Full && complete) || (cloud.Some? && cloud.value.fullSyncDone))
            && if mode == Incremental && !complete then c.lastEventTimestamp == LastEvent(cloud)
               else Marks(list, since, from, to, LastEvent(cloud), c.lastEventTimestamp)
  {
    SavesExactly(cloud, mode, events, now, complete, nextPage, since);
    if mode == Full || complete {
      PartIsMarked(list, since, from, to, events, LastEvent(cloud),
                   NextCloud(cloud, mode, events, now, complete, nextPage, since).lastEventTimestamp);
    }
  }

  // ----- whole walks -----

  /** `done` pages of a walk are through, with the watermark `before` when it began. */
  ghost predicate Underway(list: seq<RemoteEvent>, d: Daemon, mode: Mode, since: int, before: int, done: nat) {
    && d.cloud.Some? && DaemonMode(d.cloud) == mode && LastEvent(d.cloud) >= 0
    && d.cloud.value.resumePage == Some(done + 1) && d.cloud.value.resumeStartDate == Some(since)
    && PartHeld(list, since, 0, Skip(done), d.posted)
    && if mode == Incremental then LastEvent(d.cloud) == before
       else Marks(list, since, 0, Skip(done), before, LastEvent(d.cloud))
  }

  /** A walk is through. A full one has marked the newest event of the window; an incremental one the newest
      of the pages its last sync fetched, after the first `earlier`. */
  ghost predicate Through(list: seq<RemoteEvent>, d: Daemon, mode: Mode, since: int, before: int,
                          earlier: nat, pages: nat) {
    && d.cloud.Some? && d.cloud.value.resumePage.None? && d.cloud.value.resumeStartDate.None?
    && d.cloud.value.fullSyncDone
    && PartHeld(list, since, 0, Skip(pages), d.posted)
    && Marks(list, since, if mode == Full then 0 else Skip(earlier), Skip(pages), before, LastEvent(d.cloud))
  }

  /** No walk is pending, and the next sync begins here. */
  ghost predicate Idle(d: Daemon, since: int, now: int) {
    && LastEvent(d.cloud) >= 0
    && (d.cloud.Some? ==> d.cloud.value.resumePage.None? && d.cloud.value.resumeStartDate.None?)
    && StartDate(d.cloud, DaemonMode(d.cloud), now) == since
  }

  lemma PartsHeld(list: seq<RemoteEvent>, since: int, mid: nat, to: nat, a: set<DedupKey>, b: set<DedupKey>)
    requires PartHeld(list, since, 0, mid, a) && PartHeld(list, since, mid, to, b) && a <= b
    ensures PartHeld(list, since, 0, to, b)
  {
    forall j: nat | j < |list| && list[j].time >= since && |list| - 1 - j < to
      ensures Held(list[j], b, {})
    {
      assert InPart(list, since, 0, mid, j) || InPart(list, since, mid, to, j);
    }
  }

  lemma PartsMarked(list: seq<RemoteEvent>, since: int, mid: nat, to: nat, before: int, m: int, mark: int)
    requires mid <= to && Marks(list, since, 0, mid, before, m) && Marks(list, since, mid, to, m, mark)
    ensures Marks(list, since, 0, to, before, mark)
  {
    forall j: nat | j < |list| && list[j].time >= since && |list| - 1 - j < to && Mappable(list[j])
      ensures list[j].time <= mark
    {
      assert InPart(list, since, 0, mid, j) || InPart(list, since, mid, to, j);
    }
    if mark > m {
      var j: nat :| InPart(list, since, mid, to, j) && Mappable(list[j]) && list[j].time == mark;
      assert InPart(list, since, 0, to, j);
    } else if mark > before {
      var j: nat :| InPart(list, since, 0, mid, j) && Mappable(list[j]) && list[j].time == mark;
      assert InPart(list, since, 0, to, j);
    }
  }

  /** Where the walk stands after its next sync. */
  ghost predicate GoesOn(list: seq<RemoteEvent>, r: Daemon, mode: Mode, since: int, before: int, done: nat, budget: nat,
                         pages: nat)
  {
    if done + budget < pages then Underway(list, r, mode, since, before, done + budget)
    else Through(list, r, mode, since, before, done, pages)
  }

  lemma FirstSync(list: seq<RemoteEvent>, d: Daemon, since: int, budget: nat, saysMore: bool, clock: Clock, pages: nat)
    requires Growing(list) && budget > 0 && EndsAtPage(list, since, saysMore, pages) && Idle(d, since, clock.began)
    ensures GoesOn(list, Synced(list, d, budget, saysMore, clock), DaemonMode(d.cloud), since,
                   LastEvent(d.cloud), 0, budget, pages)
  {
    OneSync(list, d, budget, saysMore, clock, since, 0, pages);
  }

  lemma LaterSync(list: seq<RemoteEvent>, d: Daemon, mode: Mode, since: int, before: int, done: nat, budget: nat,
                  saysMore: bool, clock: Clock, pages: nat)
    requires Growing(list) && budget > 0 && EndsAtPage(list, since, saysMore, pages) && 0 < done < pages
    requires Underway(list, d, mode, since, before, done) && (mode == Full ==> since == 0)
    ensures GoesOn(list, Synced(list, d, budget, saysMore, clock), mode, since, before, done, budget, pages)
  {
    var n, r := Smaller(budget, pages - done), Synced(list, d, budget, saysMore, clock);
    OneSync(list, d, budget, saysMore, clock, since, done, pages);
    PartsHeld(list, since, Skip(done), Skip(done + n), d.posted, r.posted);
    if mode == Full {
      PartsMarked(list, since, Skip(done), Skip(done + n), before, LastEvent(d.cloud), LastEvent(r.cloud));
    }
  }

  /** How many pages these syncs may fetch. */
  function PagesFor(budget: nat, clocks: seq<Clock>): nat {
    if clocks == [] then 0 else PagesFor(budget, clocks[..|clocks| - 1]) + budget
  }

  lemma {:induction false} PagesForAll(budget: nat, clocks: seq<Clock>)
    ensures PagesFor(budget, clocks) == |clocks| * budget
  {
    if clocks != [] {
      PagesForAll(budget, clocks[..|clocks| - 1]);
    }
  }

  lemma {:induction false} WalkGoesOn(list: seq<RemoteEvent>, d: Daemon, budget: nat, saysMore: bool,
                                      clocks: seq<Clock>, since: int, pages: nat)
    requires Growing(list) && budget > 0 && clocks != [] && Idle(d, since, clocks[0].began)
    requires EndsAtPage(list, since, saysMore, pages) && PagesFor(budget, clocks[..|clocks| - 1]) < pages
    ensures var r, mode, n := SyncedAll(list, d, budget, saysMore, clocks), DaemonMode(d.cloud),
                              PagesFor(budget, clocks);
            GoesOn(list, r, mode, since, LastEvent(d.cloud), n - budget, budget, pages)
    decreases |clocks|
  {
    var k, mode := |clocks| - 1, DaemonMode(d.cloud);
    var before := SyncedAll(list, d, budget, saysMore, clocks[..k]);
    if k == 0 {
      FirstSync(list, d, since, budget, saysMore, clocks[0], pages);
    } else {
      WalkGoesOn(list, d, budget, saysMore, clocks[..k], since, pages);
      LaterSync(list, before, mode, since, LastEvent(d.cloud), PagesFor(budget, clocks[..k]), budget,
                saysMore, clocks[k], pages);
    }
  }

  /** A walk of so many pages over a list that stands still takes as many syncs as the budget needs to cover
      them, whatever the clocks say: before that each sync goes on after the pages of the last, and then all
      of the window has been posted. */
  lemma WalkEnds(list: seq<RemoteEvent>, d: Daemon, budget: nat, saysMore: bool, clocks: seq<Clock>,
                 since: int, pages: nat)
    requires Growing(list) && budget > 0 && clocks != [] && Idle(d, since, clocks[0].began)
    requires EndsAtPage(list, since, saysMore, pages) && (|clocks| - 1) * budget < pages
    ensures var r, mode, n := SyncedAll(list, d, budget, saysMore, clocks), DaemonMode(d.cloud), |clocks| * budget;
            if n < pages then Underway(list, r, mode, since, LastEvent(d.cloud), n)
            else Through(list, r, mode, since, LastEvent(d.cloud), n - budget, pages)
  {
    PagesForAll(budget, clocks);
    PagesForAll(budget, clocks[..|clocks| - 1]);
    WalkGoesOn(list, d, budget, saysMore, clocks, since, pages);
  }

  /** The pages of the walk's last sync hold a mappable event that is newer than the watermark. */
  ghost predicate LastPartIsNew(list: seq<RemoteEvent>, since: int, earlier: nat, pages: nat, before: int) {
    exists j: nat :: InPart(list, since, Skip(earlier), Skip(pages), j) && Mappable(list[j]) && list[j].time > before
  }

  /** When an incremental walk is through, its watermark has moved exactly if the pages of its last sync hold an
      event that is newer: what the syncs before it fetched does not count. If it has not moved, the next sync
      begins the same walk again, and so on for ever. */
  lemma WatermarkMovesIff(list: seq<RemoteEvent>, d: Daemon, budget: nat, saysMore: bool, clocks: seq<Clock>,
                          since: int, pages: nat, now: int)
    requires Growing(list) && budget > 0 && clocks != [] && Idle(d, since, clocks[0].began)
    requires EndsAtPage(list, since, saysMore, pages) && (|clocks| - 1) * budget < pages <= |clocks| * budget
    requires DaemonMode(d.cloud) == Incremental && LastEvent(d.cloud) > 0
    ensures var r := SyncedAll(list, d, budget, saysMore, clocks);
            && (LastEvent(r.cloud) > LastEvent(d.cloud) <==>
                  LastPartIsNew(list, since, (|clocks| - 1) * budget, pages, LastEvent(d.cloud)))
            && (LastEvent(r.cloud) == LastEvent(d.cloud) ==> Idle(r, since, now) && DaemonMode(r.cloud) == Incremental)
  {
    WalkEnds(list, d, budget, saysMore, clocks, since, pages);
    var r, earlier := SyncedAll(list, d, budget, saysMore, clocks), (|clocks| - 1) * budget;
    assert earlier == |clocks| * budget - budget;
    assert Marks(list, since, Skip(earlier), Skip(pages), LastEvent(d.cloud), LastEvent(r.cloud));
  }

  // ----- a watermark that never catches up -----

  /** A daemon whose watermark stands at `mark`, with no walk pending. */
  ghost predicate StandsAt(d: Daemon, mark: int) {
    && d.cloud.Some? && d.cloud.value.fullSyncDone && d.cloud.value.lastEventTimestamp == mark
    && d.cloud.value.resumePage.None? && d.cloud.value.resumeStartDate.None?
  }

  /** The walk from this watermark takes `syncs` syncs, and the pages of the last hold nothing newer. */
  ghost predicate Stuck(list: seq<RemoteEvent>, mark: int, budget: nat, saysMore: bool, syncs: nat, pages: nat) {
    var since := AtLeastZero(mark - OVERLAP_MS);
    && syncs >= 1 && mark > 0 && EndsAtPage(list, since, saysMore, pages)
    && (syncs - 1) * budget < pages <= syncs * budget && !LastPartIsNew(list, since, (syncs - 1) * budget, pages, mark)
  }

  lemma StuckWalkStands(list: seq<RemoteEvent>, mark: int, budget: nat, saysMore: bool, clocks: seq<Clock>,
                        pages: nat, d: Daemon)
    requires Growing(list) && budget > 0 && StandsAt(d, mark) && Stuck(list, mark, budget, saysMore, |clocks|, pages)
    ensures StandsAt(SyncedAll(list, d, budget, saysMore, clocks), mark)
  {
    var since := AtLeastZero(mark - OVERLAP_MS);
    WatermarkMovesIff(list, d, budget, saysMore, clocks, since, pages, 0);
    WalkEnds(list, d, budget, saysMore, clocks, since, pages);
  }

  lemma {:induction false} SyncsJoin(list: seq<RemoteEvent>, d: Daemon, budget: nat, saysMore: bool,
                                     a: seq<Clock>, b: seq<Clock>)
    ensures SyncedAll(list, d, budget, saysMore, a + b)
         == SyncedAll(list, SyncedAll(list, d, budget, saysMore, a), budget, saysMore, b)
    decreases |b|
  {
    if b == [] {
      assert a + b == a;
    } else {
      var n := |b| - 1;
      assert (a + b)[..|a| + n] == a + b[..n] && (a + b)[|a| + n] == b[n];
      SyncsJoin(list, d, budget, saysMore, a, b[..n]);
    }
  }

  /** Then the watermark stands for ever, however many walks follow. */
  lemma {:induction false} StandsForEver(list: seq<RemoteEvent>, mark: int, budget: nat, saysMore: bool,
                                         walks: seq<seq<Clock>>, syncs: nat, pages: nat, d: Daemon)
    requires Growing(list) && budget > 0 && StandsAt(d, mark) && Stuck(list, mark, budget, saysMore, syncs, pages)
    requires forall i :: 0 <= i < |walks| ==> |walks[i]| == syncs
    ensures StandsAt(SyncedAll(list, d, budget, saysMore, Joined(walks)), mark)
  {
    if walks != [] {
      var n := |walks| - 1;
      StandsForEver(list, mark, budget, saysMore, walks[..n], syncs, pages, d);
      SyncsJoin(list, d, budget, saysMore, Joined(walks[..n]), walks[n]);
      StuckWalkStands(list, mark, budget, saysMore, walks[n], pages,
                      SyncedAll(list, d, budget, saysMore, Joined(walks[..n])));
    }
  }

  function Joined(walks: seq<seq<Clock>>): seq<Clock> {
    if walks == [] then [] else Joined(walks[..|walks| - 1]) + walks[|walks| - 1]
  }

  /** The page at which a walk ends. */
  function PagesOf(list: seq<RemoteEvent>, since: int, saysMore: bool): nat {
    var found := |Matching(list, since)|;
    if !saysMore then found / PAGE_SIZE + 1
    else if found == 0 then 1
    else (found - 1) / PAGE_SIZE + 1
  }

  lemma LaterWindow(list: seq<RemoteEvent>, since: int, later: int)
    requires Growing(list) && since <= later
    ensures |Matching(list, later)| <= |Matching(list, since)|
  {
    MatchingAt(list, since);
    MatchingAt(list, later);
    var n := |Matching(list, later)|;
    if n > 0 {
      assert list[|list| - n].time >= later;
    }
  }

  /** A walk that took several syncs leaves the daemon stuck. */
  lemma LongWalkGetsStuck(list: seq<RemoteEvent>, before: int, mark: int, budget: nat, saysMore: bool,
                          syncs: nat, pages: nat)
      returns (again: nat)
    requires Growing(list) && budget > 0 && syncs >= 2 && 0 < before <= mark
    requires (syncs - 1) * budget < pages <= syncs * budget
    requires var since := AtLeastZero(before - OVERLAP_MS);
             && EndsAtPage(list, since, saysMore, pages)
             && Marks(list, since, Skip((syncs - 1) * budget), Skip(pages), before, mark)
    ensures Stuck(list, mark, budget, saysMore, syncs, again)
  {
    var since, later, earlier := AtLeastZero(before - OVERLAP_MS), AtLeastZero(mark - OVERLAP_MS), (syncs - 1) * budget;
    again := pages;
    if mark > before {
      again := PagesOf(list, later, saysMore);
      LaterWindow(list, since, later);
      MatchingAt(list, later);
      var j: nat :| InPart(list, since, Skip(earlier), Skip(pages), j) && Mappable(list[j]) && list[j].time == mark;
      assert |Matching(list, later)| > earlier * PAGE_SIZE;
    }
    forall j: nat | j < |list| && InPart(list, later, Skip(earlier), Skip(again), j) && Mappable(list[j])
      ensures list[j].time <= mark
    {
      assert InPart(list, since, Skip(earlier), Skip(pages), j);
    }
  }

  /** Over a list that stands still, an incremental walk that fits one sync has caught up when it is through. One
      that took more has caught up with the pages of its last sync only, and never gets further: however many
      walks follow, the watermark stays. */
  lemma LongWalkNeverCatchesUp(list: seq<RemoteEvent>, d: Daemon, budget: nat, saysMore: bool, clocks: seq<Clock>,
                               since: int, pages: nat, walks: seq<seq<Clock>>)
    requires Growing(list) && budget > 0 && clocks != [] && Idle(d, since, clocks[0].began)
    requires EndsAtPage(list, since, saysMore, pages) && (|clocks| - 1) * budget < pages <= |clocks| * budget
    requires DaemonMode(d.cloud) == Incremental && LastEvent(d.cloud) > 0
    requires forall i :: 0 <= i < |walks| ==> |walks[i]| == |clocks|
    ensures var r := SyncedAll(list, d, budget, saysMore, clocks);
            && (|clocks| == 1 ==> Marks(list, since, 0, Skip(pages), LastEvent(d.cloud), LastEvent(r.cloud)))
            && (|clocks| > 1 ==>
                  && Marks(list, since, Skip((|clocks| - 1) * budget), Skip(pages),
                           LastEvent(d.cloud), LastEvent(r.cloud))
                  && StandsAt(SyncedAll(list, r, budget, saysMore, Joined(walks)), LastEvent(r.cloud)))
  {
    WalkEnds(list, d, budget, saysMore, clocks, since, pages);
    var r, n := SyncedAll(list, d, budget, saysMore, clocks), |clocks|;
    assert n * budget - budget == (n - 1) * budget;
    if n > 1 {
      var again := LongWalkGetsStuck(list, LastEvent(d.cloud), LastEvent(r.cloud), budget, saysMore, n, pages);
      StandsForEver(list, LastEvent(r.cloud), budget, saysMore, walks, n, again, r);
    }
  }

  /** A usage event of this time. */
  function Usage(time: int): RemoteEvent {
    RemoteEvent(time, true, Some(TokenEvent("u", Cursor, "s", "m", None, time, "x", None, 1, 1, 0, 0, None, None)))
  }

  /** The event the watermark stands at, and `budget` full pages of newer ones. */
  function Backlog(mark: int, budget: nat): seq<RemoteEvent> {
    seq(budget * PAGE_SIZE + 1, i requires 0 <= i <= budget * PAGE_SIZE => Usage(mark + i))
  }

  /** Such a backlog exists for every budget: the watermark stands below it for ever. */
  lemma BacklogStandsStill(mark: int, budget: nat, d: Daemon, walks: seq<seq<Clock>>)
    requires mark > OVERLAP_MS && budget > 0 && StandsAt(d, mark) && forall i :: 0 <= i < |walks| ==> |walks[i]| == 2
    ensures Growing(Backlog(mark, budget))
    ensures StandsAt(SyncedAll(Backlog(mark, budget), d, budget, true, Joined(walks)), mark)
  {
    var list, n := Backlog(mark, budget), budget * PAGE_SIZE + 1;
    assert |list| == n && forall i :: 0 <= i < n ==> list[i] == Usage(mark + i);
    MatchingAt(list, mark - OVERLAP_MS);
    assert list[0].time == mark;
    assert Stuck(list, mark, budget, true, 2, budget + 1);
    StandsForEver(list, mark, budget, true, walks, 2, budget + 1, d);
  }
}
