/** Walks of the team mirror that take several ticks: where each goes on, and when they end. */
module MirrorWalks {
  import opened Options
  import opened Events
  import opened Rollup
  import opened PageWalk
  import opened CursorMirrors
  import opened MirrorSafety
  import opened MirrorProgress

  // ----- where a tick goes on -----

  /** The tick is served `n` pages: it stops at its cap, after a last page, or at a failed request. */
  ghost predicate ServedPages(replies: seq<Reply>, maxPages: nat, n: nat) {
    && n <= |replies| && n <= maxPages
    && (forall i :: 0 <= i < n ==> replies[i].Served? && (i < n - 1 ==> replies[i].hasNext))
    && (n == maxPages || n == |replies| || replies[n].Failed? || LastPageIn(replies, n))
  }

  /** The last of these `n` pages has no next one. */
  ghost predicate LastPageIn(replies: seq<Reply>, n: nat)
    requires n <= |replies|
  {
    n > 0 && replies[n - 1].Served? && !replies[n - 1].hasNext
  }

  /** What these pages hold that can be stored. */
  function EventsOn(replies: seq<Reply>, n: nat): seq<TokenEvent>
    requires n <= |replies|
  {
    if n == 0 then []
    else EventsOn(replies, n - 1) + if replies[n - 1].Served? then Mapped(replies[n - 1].page) else []
  }

  lemma {:induction false} EventsOnRest(replies: seq<Reply>, n: nat)
    requires 0 < n <= |replies| && replies[0].Served?
    ensures EventsOn(replies, n) == Mapped(replies[0].page) + EventsOn(replies[1..], n - 1)
  {
    if n == 1 {
      assert EventsOn(replies, 0) == [] && EventsOn(replies[1..], 0) == [];
    } else {
      EventsOnRest(replies, n - 1);
      assert replies[1..][n - 2] == replies[n - 1];
    }
  }

  lemma RestServed(replies: seq<Reply>, maxPages: nat, n: nat)
    requires ServedPages(replies, maxPages, n) && n > 0
    ensures n > 1 ==> ServedPages(replies[1..], maxPages - 1, n - 1)
    ensures n > 1 ==> (LastPageIn(replies[1..], n - 1) <==> LastPageIn(replies, n))
  {
  }

  lemma {:induction false} TakesServed(s: Server, replies: seq<Reply>, maxPages: nat, n: nat)
    requires s.tick.Some? && !s.tick.value.complete && ServedPages(replies, maxPages, n)
    ensures var k, r := s.tick.value, TakeAll(s, replies, maxPages);
            && r.tick == Some(k.(lastPage := k.lastPage + n, events := k.events + EventsOn(replies, n),
                                 complete := LastPageIn(replies, n)))
            && r.mirror == s.mirror.(pendingMax := r.mirror.pendingMax) && r.meta == s.meta && r.tables == s.tables
    decreases n
  {
    var k := s.tick.value;
    if n == 0 {
      assert k.events + EventsOn(replies, 0) == k.events;
    } else {
      EventsOnRest(replies, n);
      RestServed(replies, maxPages, n);
      var next := Take(s, replies[0].page, replies[0].hasNext);
      if n == 1 && !replies[0].hasNext {
        assert Mapped(replies[0].page) + EventsOn(replies[1..], 0) == Mapped(replies[0].page);
      } else {
        TakesServed(next, replies[1..], maxPages - 1, n - 1);
        assert next.tick.value.events + EventsOn(replies[1..], n - 1) == k.events + EventsOn(replies, n);
      }
    }
  }

  /** The next tick would ask for this page of the events since `since` first. */
  ghost predicate AsksNext(s: Server, since: int, page: int) {
    var k := Begin(s).tick.value;
    k.since == since && k.firstPage == page && k.lastPage == page - 1
  }

  /** Whatever was served of a walk that is not through, the next tick goes on with the page after it, over
      the same window, and the watermark stays; unless the store failed to take what was served, and then
      the same pages are asked for again. */
  lemma TruncatedTickResumes(s: Server, replies: seq<Reply>, maxPages: nat, o: Outcome, n: nat)
    requires s.tick.None? && ServedPages(replies, maxPages, n) && !LastPageIn(replies, n)
    ensures var r, since, lost := Ticked(s, replies, maxPages, o), Begin(s).tick.value.since,
                                  o.InsertThrows? && EventsOn(replies, n) != [];
            && AsksNext(r, since, s.mirror.resumePage + if lost then 0 else n) && r.meta == s.meta
            && r.tables == if lost then s.tables else Filled(s.tables, EventsOn(replies, n))
  {
    TakesServed(Begin(s), replies, maxPages, n);
    assert [] + EventsOn(replies, n) == EventsOn(replies, n);
  }

  /** After a walk that is through, the next one asks from page 1 on, for events newer than the watermark. */
  lemma CompleteTickStartsOver(s: Server, replies: seq<Reply>, maxPages: nat, n: nat)
    requires s.tick.None? && ServedPages(replies, maxPages, n) && LastPageIn(replies, n)
    ensures var r := Ticked(s, replies, maxPages, AllStored);
            && r.meta.Some? && AsksNext(r, if r.meta.value > 0 then r.meta.value + 1 else 0, 1)
            && r.tables == Filled(s.tables, EventsOn(replies, n))
  {
    TakesServed(Begin(s), replies, maxPages, n);
    assert [] + EventsOn(replies, n) == EventsOn(replies, n);
  }

  /** A restart loses the walk and keeps the watermark: the next tick asks for what is newer, from page 1 on. */
  lemma RestartKeepsWatermark(w: World)
    ensures var mark := w.server.meta.GetOr(0);
            AsksNext(Next(w, Restart).server, if mark > 0 then mark + 1 else 0, 1)
  {
  }

  // ----- several ticks -----

  /** One tick whose requests are all served, and what it fetched stored. */
  ghost function ServedTick(w: World, budget: nat): World {
    var m := w.server.mirror;
    if m.resumePage < 1 then w
    else
      w.(server := Ticked(w.server, Replies(w.list, Since(m.maxSeen), m.resumePage - 1, budget), budget, AllStored))
  }

  ghost function ServedTicks(w: World, budget: nat, ticks: nat): World {
    if ticks == 0 then w else ServedTick(ServedTicks(w, budget, ticks - 1), budget)
  }

  /** The walk of these events takes this many pages: at least one, and none that is empty but the first. */
  ghost predicate HasPages(list: seq<RemoteEvent>, since: int, pages: nat) {
    var found := |Matching(list, since)|;
    pages >= 1 && found <= pages * PAGE_SIZE && (pages > 1 ==> found > (pages - 1) * PAGE_SIZE)
  }

  /** Between ticks, `done` pages of a walk are through. */
  ghost predicate Underway(w: World, maxSeen: int, meta: Option<int>, done: nat) {
    var s := w.server;
    && Inv(w, {}) && s.tick.None? && s.mirror.loaded && s.mirror.maxSeen == maxSeen && s.meta == meta
    && s.mirror.resumePage == done + 1
    && Seen(w.list, Since(maxSeen), Skip(done), s.mirror.pendingMax)
  }

  lemma TickFetches(w: World, maxSeen: int, meta: Option<int>, done: nat, n: nat, budget: nat, pages: nat)
    requires Underway(w, maxSeen, meta, done) && HasPages(w.list, Since(maxSeen), pages)
    requires 0 < n <= budget && done + n <= pages && (n == budget || done + n == pages)
    ensures var b := Next(w, BeginTick);
            var r := AfterFetches(b, n);
            && TakeAll(b.server, Replies(w.list, Since(maxSeen), done, budget), budget) == r.server
            && Inv(r, {}) && r.list == w.list && r.server.tick.value.since == Since(maxSeen)
            && r.server.tick.value.lastPage == done + n
            && (r.server.tick.value.complete <==> done + n == pages)
            && Seen(w.list, Since(maxSeen), Skip(done + n), r.server.mirror.pendingMax)
            && r.server.meta == meta && r.server.mirror.maxSeen == maxSeen && r.server.mirror.loaded
  {
    var b := Next(w, BeginTick);
    BeginKeeps(w, {});
    OpenBeforeLastPage(b, n);
    FetchesSee(b, n);
    LoopIsFetches(b, n, budget, budget);
    FetchesKeep(b, n);
  }

  lemma FinishedTick(w: World, maxSeen: int, meta: Option<int>, done: nat, budget: nat, s: Server)
    requires Underway(w, maxSeen, meta, done) && s.tick.Some?
    requires TakeAll(Next(w, BeginTick).server, Replies(w.list, Since(maxSeen), done, budget), budget) == s
    ensures ServedTick(w, budget).server == Finish(s, AllStored)
  {
  }

  lemma ShortFinish(s: Server)
    requires s.tick.Some? && !s.tick.value.complete
    ensures var r := Finish(s, AllStored);
            r.mirror == s.mirror.(resumePage := s.tick.value.lastPage + 1) && r.meta == s.meta && r.tick.None?
  {
  }

  /** A tick that does not reach the last page leaves its budget's worth of pages behind. */
  lemma TickGoesFurther(w: World, maxSeen: int, meta: Option<int>, done: nat, budget: nat, pages: nat)
    requires Underway(w, maxSeen, meta, done) && HasPages(w.list, Since(maxSeen), pages)
    requires budget > 0 && done + budget < pages
    ensures ServedTick(w, budget).list == w.list && Underway(ServedTick(w, budget), maxSeen, meta, done + budget)
  {
    TickFetches(w, maxSeen, meta, done, budget, budget, pages);
    var r := AfterFetches(Next(w, BeginTick), budget);
    FinishedTick(w, maxSeen, meta, done, budget, r.server);
    ShortFinish(r.server);
    FinishKeeps(r, AllStored, {});
    assert Next(r, FinishTick(AllStored)) == ServedTick(w, budget);
  }

  lemma TickGetsThrough(w: World, maxSeen: int, meta: Option<int>, done: nat, budget: nat, pages: nat)
    requires Underway(w, maxSeen, meta, done) && HasPages(w.list, Since(maxSeen), pages)
    requires done < pages <= done + budget
    ensures ServedTick(w, budget).list == w.list && UpToDate(w.list, ServedTick(w, budget).server)
  {
    TickFetches(w, maxSeen, meta, done, pages - done, budget, pages);
    var r := AfterFetches(Next(w, BeginTick), pages - done);
    FinishedTick(w, maxSeen, meta, done, budget, r.server);
    CaughtUp(r, pages);
  }

  lemma {:induction false} WalkGoesOn(w: World, maxSeen: int, meta: Option<int>, budget: nat, ticks: nat, pages: nat)
    requires Underway(w, maxSeen, meta, 0) && HasPages(w.list, Since(maxSeen), pages)
    requires budget > 0 && ticks * budget < pages
    ensures ServedTicks(w, budget, ticks).list == w.list
    ensures Underway(ServedTicks(w, budget, ticks), maxSeen, meta, ticks * budget)
  {
    if ticks > 0 {
      var done := (ticks - 1) * budget;
      assert done + budget == ticks * budget;
      WalkGoesOn(w, maxSeen, meta, budget, ticks - 1, pages);
      TickGoesFurther(ServedTicks(w, budget, ticks - 1), maxSeen, meta, done, budget, pages);
    }
  }

  /** With all requests served, a walk of so many pages takes as many ticks as its budget needs to cover
      them: before that the watermark stays and each tick goes on after the last one's pages, and then it
      is up to date. */
  lemma WalkEnds(w: World, budget: nat, ticks: nat, pages: nat)
    requires Inv(w, {}) && w.server.tick.None? && w.server.mirror.loaded && w.server.mirror.resumePage == 1
    requires budget >= 1 && HasPages(w.list, Since(w.server.mirror.maxSeen), pages)
    ensures var r := ServedTicks(w, budget, ticks);
            && (ticks * budget < pages ==>
                  r.server.meta == w.server.meta && r.server.mirror.resumePage == 1 + ticks * budget)
            && (ticks > 0 && (ticks - 1) * budget < pages <= ticks * budget ==> UpToDate(w.list, r.server))
  {
    var m := w.server.mirror;
    if ticks * budget < pages {
      WalkGoesOn(w, m.maxSeen, w.server.meta, budget, ticks, pages);
    } else if ticks > 0 && (ticks - 1) * budget < pages {
      WalkGoesOn(w, m.maxSeen, w.server.meta, budget, ticks - 1, pages);
      assert (ticks - 1) * budget + budget == ticks * budget;
      TickGetsThrough(ServedTicks(w, budget, ticks - 1), m.maxSeen, w.server.meta, (ticks - 1) * budget, budget, pages);
    }
  }
}
