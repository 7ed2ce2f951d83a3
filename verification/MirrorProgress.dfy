/** Whole ticks of the team mirror: how far a complete walk gets. */
module MirrorProgress {
  import opened Options
  import opened Events
  import opened Rollup
  import opened PageWalk
  import opened CursorMirrors
  import opened MirrorSafety

  /** The world after `n` page requests in a row, all served. */
  ghost function AfterFetches(w: World, n: nat): (r: World)
    requires w.server.tick.Some?
    ensures r.server.tick.Some? && r.list == w.list
    ensures r.server.tick.value.since == w.server.tick.value.since
    ensures r.server.tick.value.lastPage == w.server.tick.value.lastPage + n
    ensures r.server.mirror == w.server.mirror.(pendingMax := r.server.mirror.pendingMax)
    ensures r.server.meta == w.server.meta && r.server.tables == w.server.tables
    decreases n
  {
    if n == 0 then w else AfterFetches(Fetched(w), n - 1)
  }

  /** The replies a list gives to `n` page requests from page `lastPage + 1` on. */
  ghost function ReplyTo(list: seq<RemoteEvent>, since: int, lastPage: int): Reply {
    Served(PageAt(list, since, Skip(lastPage)), MoreAfter(list, since, Skip(lastPage)))
  }

  ghost function Replies(list: seq<RemoteEvent>, since: int, lastPage: int, n: nat): seq<Reply>
    decreases n
  {
    if n == 0 then [] else [ReplyTo(list, since, lastPage)] + Replies(list, since, lastPage + 1, n - 1)
  }

  lemma TakeAllStep(s: Server, r: Reply, rest: seq<Reply>, budget: nat)
    requires s.tick.Some? && !s.tick.value.complete && r.Served? && budget > 0
    ensures TakeAll(s, [r] + rest, budget) == TakeAll(Take(s, r.page, r.hasNext), rest, budget - 1)
  {
    assert ([r] + rest)[1..] == rest;
  }

  /** None of the next `n` page requests is made after the last page. */
  ghost predicate StaysOpen(w: World, n: nat)
    requires w.server.tick.Some?
    decreases n
  {
    n > 0 ==> !w.server.tick.value.complete && StaysOpen(Fetched(w), n - 1)
  }

  /** A tick's page loop makes the same requests as single fetch steps, until the last page is in; answers
      beyond that are never asked for. */
  lemma {:induction false} LoopIsFetches(w: World, n: nat, more: nat, budget: nat)
    requires w.server.tick.Some? && n <= more && n <= budget && StaysOpen(w, n)
    requires n == budget || AfterFetches(w, n).server.tick.value.complete
    ensures TakeAll(w.server, Replies(w.list, w.server.tick.value.since, w.server.tick.value.lastPage, more), budget)
         == AfterFetches(w, n).server
    decreases n
  {
    if n > 0 {
      var k := w.server.tick.value;
      var r := ReplyTo(w.list, k.since, k.lastPage);
      TakeAllStep(w.server, r, Replies(w.list, k.since, k.lastPage + 1, more - 1), budget);
      LoopIsFetches(Fetched(w), n - 1, more - 1, budget - 1);
    }
  }

  lemma {:induction false} OpenBeforeLastPage(w: World, n: nat)
    requires w.server.tick.Some? && w.server.tick.value.lastPage >= 0 && !w.server.tick.value.complete
    requires n > 1 ==> Skip(w.server.tick.value.lastPage + n - 1) < |Matching(w.list, w.server.tick.value.since)|
    ensures StaysOpen(w, n)
    decreases n
  {
    if n > 1 {
      OpenBeforeLastPage(Fetched(w), n - 1);
    }
  }

  /** Every usable event among the `skip` newest of the window is at most the pending maximum. */
  ghost predicate Seen(list: seq<RemoteEvent>, since: int, skip: nat, pendingMax: int) {
    forall j :: 0 <= j < |list| && since <= list[j].time && |list| - 1 - j < skip && Usable(list[j]) ==>
      list[j].time <= pendingMax
  }

  lemma FetchSees(list: seq<RemoteEvent>, since: int, skip: nat, bound: int)
    requires Growing(list) && Seen(list, since, skip, bound)
    ensures Seen(list, since, skip + PAGE_SIZE, MaxUsable(PageAt(list, since, skip), bound))
  {
    var page := PageAt(list, since, skip);
    MatchingAt(list, since);
    MaxUsableBound(page, bound);
    forall j | 0 <= j < |list| && since <= list[j].time && |list| - 1 - j < skip + PAGE_SIZE && Usable(list[j])
      ensures list[j].time <= MaxUsable(page, bound)
    {
      if |list| - 1 - j >= skip {
        assert page[|list| - 1 - j - skip] == list[j];
      }
    }
  }

  lemma {:induction false} FetchesSee(w: World, n: nat)
    requires Growing(w.list) && w.server.tick.Some? && w.server.tick.value.lastPage >= 0
    requires Seen(w.list, w.server.tick.value.since, Skip(w.server.tick.value.lastPage), w.server.mirror.pendingMax)
    ensures var k, r := w.server.tick.value, AfterFetches(w, n).server;
            && Seen(w.list, k.since, Skip(k.lastPage + n), r.mirror.pendingMax)
            && (n > 0 ==> (r.tick.value.complete <==> |Matching(w.list, k.since)| <= Skip(k.lastPage + n)))
    decreases n
  {
    if n > 0 {
      var k := w.server.tick.value;
      FetchSees(w.list, k.since, Skip(k.lastPage), w.server.mirror.pendingMax);
      FetchesSee(Fetched(w), n - 1);
    }
  }

  /** The watermark covers every usable remote event, all of it is stored, and the next walk starts at page 1. */
  ghost predicate UpToDate(list: seq<RemoteEvent>, s: Server) {
    && s.meta.Some? && s.mirror == Mirror(s.meta.value, true, 1, 0)
    && (forall j :: 0 <= j < |list| && Usable(list[j]) ==> list[j].time <= s.meta.value)
    && AllHeld(list, s.meta.value, s.tables.events.Keys, {})
  }

  /** A tick that starts at page 1 and reaches the last page within its budget moves the persisted
      watermark up to the newest usable event of the remote list. */
  lemma CompleteWalkCatchesUp(w: World, n: nat, maxPages: nat)
    requires Inv(w, {}) && w.server.tick.None? && w.server.mirror.loaded && w.server.mirror.resumePage == 1
    requires 0 < n <= maxPages
    requires var found := |Matching(w.list, Since(w.server.mirror.maxSeen))|;
             found <= Skip(n) && (n > 1 ==> Skip(n - 1) < found)
    ensures UpToDate(w.list,
                     Ticked(w.server, Replies(w.list, Since(w.server.mirror.maxSeen), 0, n), maxPages, AllStored))
  {
    var b := Next(w, BeginTick);
    BeginKeeps(w, {});
    LastPageReached(b, n, maxPages);
    CaughtUp(AfterFetches(b, n), n);
  }

  lemma LastPageReached(w: World, n: nat, maxPages: nat)
    requires Inv(w, {}) && w.server.tick.Some? && w.server.tick.value.lastPage == 0 && !w.server.tick.value.complete
    requires 0 < n <= maxPages
    requires var found := |Matching(w.list, w.server.tick.value.since)|;
             found <= Skip(n) && (n > 1 ==> Skip(n - 1) < found)
    ensures TakeAll(w.server, Replies(w.list, w.server.tick.value.since, 0, n), maxPages) == AfterFetches(w, n).server
    ensures Inv(AfterFetches(w, n), {}) && AfterFetches(w, n).server.tick.value.complete
    ensures Seen(w.list, w.server.tick.value.since, Skip(n), AfterFetches(w, n).server.mirror.pendingMax)
  {
    OpenBeforeLastPage(w, n);
    FetchesSee(w, n);
    LoopIsFetches(w, n, n, maxPages);
    FetchesKeep(w, n);
  }

  lemma CaughtUp(w: World, n: nat)
    requires Inv(w, {}) && w.server.tick.Some? && w.server.tick.value.complete
    requires Seen(w.list, w.server.tick.value.since, Skip(n), w.server.mirror.pendingMax)
    requires |Matching(w.list, w.server.tick.value.since)| <= Skip(n)
    ensures UpToDate(w.list, Finish(w.server, AllStored))
  {
    FinishKeeps(w, AllStored, {});
    MatchingAt(w.list, w.server.tick.value.since);
  }

  lemma {:induction false} FetchesKeep(w: World, n: nat)
    requires Inv(w, {}) && w.server.tick.Some?
    ensures Inv(AfterFetches(w, n), {})
    decreases n
  {
    if n > 0 {
      FetchedKeeps(w, {});
      FetchesKeep(Fetched(w), n - 1);
    }
  }
}
