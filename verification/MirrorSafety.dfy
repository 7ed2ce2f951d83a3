/** What the team mirror's persisted watermark promises, over every run. */
module MirrorSafety {
  import opened Options
  import opened Events
  import opened Tallies
  import opened Rollup
  import opened RollupProofs
  import opened PageWalk
  import opened CursorMirrors

  datatype World = World(server: Server, list: seq<RemoteEvent>)

  /** Everything that can happen between two awaits: the remote grows, a tick starts, one page
      request succeeds, a tick ends (after its last page, at the page cap, or because a request
      failed), the process restarts, a daemon posts, an admin clears. */
  datatype Step =
    | Arrive(e: RemoteEvent)
    | BeginTick
    | Fetch
    | FinishTick(o: Outcome)
    | Restart
    | Post(batch: seq<TokenEvent>)
    | ClearUser(user: string)
    | ClearAll

  ghost function Fetched(w: World): World
    requires w.server.tick.Some?
  {
    var k := w.server.tick.value;
    w.(server := Take(w.server, PageAt(w.list, k.since, Skip(k.lastPage)),
                      MoreAfter(w.list, k.since, Skip(k.lastPage))))
  }

  /** `exempt` holds the users an admin may clear one by one: that leaves the watermark alone. */
  ghost predicate Enabled(w: World, s: Step, exempt: set<string>) {
    match s
    case Arrive(e) => Growing(w.list + [e])
    case BeginTick => w.server.tick.None?
    case Fetch => w.server.tick.Some? && !w.server.tick.value.complete
    case FinishTick(_) => w.server.tick.Some?
    case Restart => true
    case Post(_) => true
    case ClearUser(user) => user in exempt
    case ClearAll => w.server.tick.Some? ==> w.server.tick.value.since == 0
  }

  ghost function Next(w: World, s: Step): World {
    match s
    case Arrive(e) => w.(list := w.list + [e])
    case BeginTick => w.(server := Begin(w.server))
    case Fetch => if w.server.tick.Some? then Fetched(w) else w
    case FinishTick(o) => if w.server.tick.Some? then w.(server := Finish(w.server, o)) else w
    case Restart => w.(server := w.server.(mirror := FRESH, tick := None))
    case Post(batch) => w.(server := w.server.(tables := Inserted(w.server.tables, batch)))
    case ClearUser(user) => w.(server := w.server.(tables := ClearedUser(w.server.tables, user)))
    case ClearAll => w.(server := Reset(w.server.(tables := EMPTY)))
  }

  ghost function After(w: World, steps: seq<Step>): World {
    if steps == [] then w else Next(After(w, steps[..|steps| - 1]), steps[|steps| - 1])
  }

  ghost predicate Possible(w: World, steps: seq<Step>, exempt: set<string>) {
    forall i :: 0 <= i < |steps| ==> Enabled(After(w, steps[..i]), steps[i], exempt)
  }

  ghost predicate Initial(w: World) {
    Growing(w.list) && WellKeyed(w.server.tables.events) && w.server.mirror == FRESH && w.server.meta == None
      && w.server.tick == None
  }

  /** Every mappable remote event up to the persisted watermark is stored. */
  ghost predicate Safe(w: World, exempt: set<string>) {
    w.server.meta.Some? ==> AllHeld(w.list, w.server.meta.value, w.server.tables.events.Keys, exempt)
  }

  // ----- the invariant -----

  ghost predicate TickInv(list: seq<RemoteEvent>, m: Mirror, got: set<DedupKey>, k: Tick, exempt: set<string>) {
    var all := got + EventKeys(k.events);
    && k.since == Since(m.maxSeen) && k.lastPage >= m.resumePage - 1
    && (forall e :: e in k.events ==> FromList(list, k.since, e))
    && Walked(list, k.since, m.pendingMax, Skip(k.lastPage), all, exempt)
    && (k.complete ==> Walked(list, k.since, m.pendingMax, |list|, all, exempt))
  }

  ghost predicate MirrorInv(list: seq<RemoteEvent>, m: Mirror, got: set<DedupKey>, exempt: set<string>) {
    && m.resumePage >= 1 && 0 <= m.pendingMax <= Newest(list) && 0 <= m.maxSeen <= Newest(list)
    && (m.loaded || m == FRESH)
    && AllHeld(list, m.maxSeen, got, exempt)
    && Walked(list, Since(m.maxSeen), m.pendingMax, Skip(m.resumePage - 1), got, exempt)
  }

  ghost predicate Inv(w: World, exempt: set<string>) {
    var s := w.server;
    && Growing(w.list) && WellKeyed(s.tables.events)
    && (s.meta.Some? ==> s.meta.value <= Newest(w.list)) && Safe(w, exempt)
    && MirrorInv(w.list, s.mirror, s.tables.events.Keys, exempt)
    && (s.tick.Some? ==> s.mirror.loaded && TickInv(w.list, s.mirror, s.tables.events.Keys, s.tick.value, exempt))
  }

  // ----- arrivals -----

  lemma ArriveKeeps(w: World, e: RemoteEvent, exempt: set<string>)
    requires Inv(w, exempt) && Growing(w.list + [e])
    ensures Inv(Next(w, Arrive(e)), exempt)
  {
    var s, got := w.server, w.server.tables.events.Keys;
    ArrivalIsNewer(w.list, e);
    if s.meta.Some? {
      ArrivalKeepsHeld(w.list, e, s.meta.value, got, exempt);
    }
    ArrivalKeepsHeld(w.list, e, s.mirror.maxSeen, got, exempt);
    ArrivalKeepsWalked(w.list, e, Since(s.mirror.maxSeen), s.mirror.pendingMax,
                       Skip(s.mirror.resumePage - 1), got, exempt);
    if s.tick.Some? {
      var k := s.tick.value;
      var all := got + EventKeys(k.events);
      ArrivalKeepsWalked(w.list, e, k.since, s.mirror.pendingMax, Skip(k.lastPage), all, exempt);
      if k.complete {
        ArrivalKeepsDone(w.list, e, k.since, s.mirror.pendingMax, all, exempt);
      }
      forall t | t in k.events {
        ArrivalKeepsFrom(w.list, e, k.since, t);
      }
    }
  }

  // ----- one page -----

  lemma {:induction false} MaxUsableBound(page: seq<RemoteEvent>, bound: int)
    ensures var m := MaxUsable(page, bound);
            m == bound || (m > bound && exists k :: 0 <= k < |page| && Usable(page[k]) && page[k].time == m)
    ensures forall k :: 0 <= k < |page| && Usable(page[k]) ==> page[k].time <= MaxUsable(page, bound)
  {
    if page != [] {
      var n := |page| - 1;
      MaxUsableBound(page[..n], bound);
      var m := MaxUsable(page[..n], bound);
      if m != bound {
        var k :| 0 <= k < n && Usable(page[..n][k]) && page[..n][k].time == m;
        assert page[k] == page[..n][k];
      }
      forall k | 0 <= k < |page| && Usable(page[k])
        ensures page[k].time <= MaxUsable(page, bound)
      {
        if k < n {
          assert page[..n][k] == page[k];
        }
      }
    }
  }

  lemma PageBound(list: seq<RemoteEvent>, since: int, skip: nat, bound: int)
    requires Growing(list) && bound <= Newest(list)
    ensures var page := PageAt(list, since, skip);
            bound <= MaxUsable(page, bound) <= Newest(list) && BoundFrom(page, bound, MaxUsable(page, bound))
  {
    var page := PageAt(list, since, skip);
    MaxUsableBound(page, bound);
    if MaxUsable(page, bound) != bound {
      var k :| 0 <= k < |page| && page[k].time == MaxUsable(page, bound);
      PageTimes(list, since, skip, k);
    }
  }

  lemma FetchedKeeps(w: World, exempt: set<string>)
    requires Inv(w, exempt) && w.server.tick.Some?
    ensures Inv(Fetched(w), exempt)
  {
    var s, got, k := w.server, w.server.tables.events.Keys, w.server.tick.value;
    var skip := Skip(k.lastPage);
    var page := PageAt(w.list, k.since, skip);
    var bound := MaxUsable(page, s.mirror.pendingMax);
    var events := k.events + Mapped(page);
    PageBound(w.list, k.since, skip, s.mirror.pendingMax);
    PageHeld(page, got, k.events, exempt);
    PageFromList(w.list, k.since, skip);
    assert got + EventKeys(k.events) <= got + EventKeys(events);
    FetchAdvances(w.list, k.since, s.mirror.pendingMax, skip, got + EventKeys(k.events), bound,
                  got + EventKeys(events), exempt);
    LaterPageKeepsWalked(w.list, k.since, s.mirror.pendingMax, Skip(s.mirror.resumePage - 1), skip, got, bound, exempt);
  }

  // ----- changes of the tables -----

  /** Keys of cloud Cursor rows of users that are never cleared stay. */
  ghost predicate KeepsCursor(got: set<DedupKey>, more: set<DedupKey>, exempt: set<string>) {
    forall k :: k in got && k.source == Cursor && k.user !in exempt ==> k in more
  }

  lemma KeepsWalked(list: seq<RemoteEvent>, since: int, upTo: int, skip: nat, got: set<DedupKey>, more: set<DedupKey>,
                    exempt: set<string>)
    requires Growing(list) && Walked(list, since, upTo, skip, got, exempt) && KeepsCursor(got, more, exempt)
    ensures Walked(list, since, upTo, skip, more, exempt)
  {
  }

  lemma KeepsHeld(list: seq<RemoteEvent>, upTo: int, got: set<DedupKey>, more: set<DedupKey>, exempt: set<string>)
    requires Growing(list) && AllHeld(list, upTo, got, exempt) && KeepsCursor(got, more, exempt)
    ensures AllHeld(list, upTo, more, exempt)
  {
  }

  lemma TablesKeep(w: World, tables: Tables, exempt: set<string>)
    requires Inv(w, exempt) && WellKeyed(tables.events)
    requires KeepsCursor(w.server.tables.events.Keys, tables.events.Keys, exempt)
    ensures Inv(w.(server := w.server.(tables := tables)), exempt)
  {
    var s, got, more := w.server, w.server.tables.events.Keys, tables.events.Keys;
    if s.meta.Some? {
      KeepsHeld(w.list, s.meta.value, got, more, exempt);
    }
    KeepsHeld(w.list, s.mirror.maxSeen, got, more, exempt);
    KeepsWalked(w.list, Since(s.mirror.maxSeen), s.mirror.pendingMax, Skip(s.mirror.resumePage - 1), got, more, exempt);
    if s.tick.Some? {
      var k := s.tick.value;
      var e := EventKeys(k.events);
      KeepsWalked(w.list, k.since, s.mirror.pendingMax, Skip(k.lastPage), got + e, more + e, exempt);
      if k.complete {
        KeepsWalked(w.list, k.since, s.mirror.pendingMax, |w.list|, got + e, more + e, exempt);
      }
    }
  }

  lemma InsertKeepsCursor(t: Tables, batch: seq<TokenEvent>, exempt: set<string>)
    requires WellKeyed(t.events)
    ensures WellKeyed(Inserted(t, batch).events)
    ensures KeepsCursor(t.events.Keys, Inserted(t, batch).events.Keys, exempt)
    ensures EventKeys(batch) <= Inserted(t, batch).events.Keys
  {
    AcceptAllKeyed(Pending(Reconciled(t.events, batch), map[]), batch);
    InsertStores(t, batch);
    forall k | k in EventKeys(batch)
      ensures k in Inserted(t, batch).events
    {
      var e :| e in batch && KeyOf(RowOf(e)) == k;
      var i :| 0 <= i < |batch| && batch[i] == e;
    }
  }

  lemma ClearUserKeepsOthers(t: Tables, user: string, exempt: set<string>)
    requires WellKeyed(t.events) && user in exempt
    ensures WellKeyed(ClearedUser(t, user).events)
    ensures KeepsCursor(t.events.Keys, ClearedUser(t, user).events.Keys, exempt)
  {
  }

  // ----- the end of a tick -----

  lemma {:induction false} InsertByTimeSame(e: TokenEvent, sorted: seq<TokenEvent>)
    ensures multiset(InsertByTime(e, sorted)) == multiset(sorted) + multiset{e}
  {
    if sorted != [] {
      var n := |sorted| - 1;
      InsertByTimeSame(e, sorted[..n]);
      assert sorted == sorted[..n] + [sorted[n]];
    }
  }

  ghost predicate InOrder(events: seq<TokenEvent>) {
    forall i, j :: 0 <= i < j < |events| ==> events[i].timestamp <= events[j].timestamp
  }

  lemma {:induction false} InsertByTimeSorts(e: TokenEvent, sorted: seq<TokenEvent>)
    requires InOrder(sorted)
    ensures InOrder(InsertByTime(e, sorted))
  {
    if sorted != [] {
      var n := |sorted| - 1;
      InsertByTimeSorts(e, sorted[..n]);
      InsertByTimeSame(e, sorted[..n]);
      var r := InsertByTime(e, sorted[..n]);
      forall i | 0 <= i < |r|
        ensures r[i].timestamp <= sorted[n].timestamp || sorted[n].timestamp <= e.timestamp
      {
        assert r[i] in multiset(r);
        assert r[i] in sorted[..n] || r[i] == e;
      }
    }
  }

  /** The tick inserts what it fetched, oldest first. */
  lemma {:induction false} OldestFirstSorts(events: seq<TokenEvent>)
    ensures multiset(OldestFirst(events)) == multiset(events) && InOrder(OldestFirst(events))
  {
    if events != [] {
      var n := |events| - 1;
      OldestFirstSorts(events[..n]);
      InsertByTimeSame(events[n], OldestFirst(events[..n]));
      InsertByTimeSorts(events[n], OldestFirst(events[..n]));
      assert events == events[..n] + [events[n]];
    }
  }

  lemma SortKeepsKeys(events: seq<TokenEvent>)
    ensures EventKeys(OldestFirst(events)) == EventKeys(events)
  {
    OldestFirstSorts(events);
    forall e
      ensures e in OldestFirst(events) <==> e in events
    {
      assert e in OldestFirst(events) <==> e in multiset(OldestFirst(events));
      assert e in events <==> e in multiset(events);
    }
  }

  lemma FilledHolds(t: Tables, events: seq<TokenEvent>, exempt: set<string>)
    requires WellKeyed(t.events)
    ensures WellKeyed(Filled(t, events).events)
    ensures KeepsCursor(t.events.Keys, Filled(t, events).events.Keys, exempt)
    ensures EventKeys(events) <= Filled(t, events).events.Keys
  {
    if events != [] {
      SortKeepsKeys(events);
      InsertKeepsCursor(t, OldestFirst(events), exempt);
    }
  }

  lemma WatermarkAdvances(list: seq<RemoteEvent>, m: Mirror, got: set<DedupKey>, k: Tick, exempt: set<string>)
    requires MirrorInv(list, m, got, exempt) && m.loaded && TickInv(list, m, got, k, exempt) && k.complete
    requires EventKeys(k.events) <= got
    ensures AllHeld(list, NewWatermark(m), got, exempt)
    ensures MirrorInv(list, m.(maxSeen := NewWatermark(m)), got, exempt)
    ensures MirrorInv(list, Mirror(NewWatermark(m), true, 1, 0), got, exempt)
  {
    assert got + EventKeys(k.events) == got;
    WalkEnds(list, k.since, m.maxSeen, m.pendingMax, got, exempt);
    NoneAhead(list, m, got, exempt);
  }

  lemma ConcludedKeeps(w: World, o: Outcome, exempt: set<string>)
    requires Inv(w, exempt) && w.server.tick.Some?
    requires EventKeys(w.server.tick.value.events) <= w.server.tables.events.Keys
    ensures Inv(w.(server := Concluded(w.server, w.server.tables, o)), exempt)
  {
    var k, m, got := w.server.tick.value, w.server.mirror, w.server.tables.events.Keys;
    if k.complete {
      WatermarkAdvances(w.list, m, got, k, exempt);
    } else {
      assert got + EventKeys(k.events) == got;
    }
  }

  lemma FinishKeeps(w: World, o: Outcome, exempt: set<string>)
    requires Inv(w, exempt) && w.server.tick.Some?
    ensures Inv(Next(w, FinishTick(o)), exempt)
  {
    var events := w.server.tick.value.events;
    if !(o.InsertThrows? && events != []) {
      var tables := Filled(w.server.tables, events);
      FilledHolds(w.server.tables, events, exempt);
      TablesKeep(w, tables, exempt);
      var f := w.(server := w.server.(tables := tables));
      ConcludedKeeps(f, o, exempt);
      assert Concluded(w.server, tables, o) == Concluded(f.server, tables, o);
    }
  }

  /** Once the bound has become the watermark, nothing lies between them. */
  lemma NoneAhead(list: seq<RemoteEvent>, m: Mirror, got: set<DedupKey>, exempt: set<string>)
    requires 0 <= m.maxSeen && 0 <= m.pendingMax
    ensures var seen := NewWatermark(m);
            && (seen > 0 ==> Walked(list, Since(seen), m.pendingMax, Skip(m.resumePage - 1), got, exempt))
            && Walked(list, Since(seen), 0, Skip(0), got, exempt)
  {
  }

  // ----- runs -----

  lemma StepKeeps(w: World, s: Step, exempt: set<string>)
    requires Inv(w, exempt) && Enabled(w, s, exempt)
    ensures Inv(Next(w, s), exempt)
  {
    match s {
      case Arrive(e) => ArriveKeeps(w, e, exempt);
      case BeginTick => BeginKeeps(w, exempt);
      case Fetch => FetchedKeeps(w, exempt);
      case FinishTick(o) => FinishKeeps(w, o, exempt);
      case Restart => NothingBelowZero(w.list, w.server.tables.events.Keys, exempt);
      case Post(batch) =>
        InsertKeepsCursor(w.server.tables, batch, exempt);
        TablesKeep(w, Inserted(w.server.tables, batch), exempt);
      case ClearUser(user) =>
        ClearUserKeepsOthers(w.server.tables, user, exempt);
        TablesKeep(w, ClearedUser(w.server.tables, user), exempt);
      case ClearAll => NothingBelowZero(w.list, {}, exempt);
    }
  }

  lemma BeginKeeps(w: World, exempt: set<string>)
    requires Inv(w, exempt) && w.server.tick.None?
    ensures Inv(Next(w, BeginTick), exempt)
  {
    NothingBelowZero(w.list, w.server.tables.events.Keys, exempt);
    assert EventKeys([]) == {};
    var got := w.server.tables.events.Keys;
    assert got + EventKeys([]) == got;
  }

  lemma {:induction false} RunKeeps(w: World, steps: seq<Step>, exempt: set<string>)
    requires Initial(w) && Possible(w, steps, exempt)
    ensures Inv(After(w, steps), exempt)
  {
    if steps == [] {
      NothingBelowZero(w.list, w.server.tables.events.Keys, exempt);
    } else {
      var n := |steps| - 1;
      assert forall i :: 0 <= i < n ==> steps[..n][..i] == steps[..i];
      RunKeeps(w, steps[..n], exempt);
      StepKeeps(After(w, steps[..n]), steps[n], exempt);
    }
  }

  /** Over any interleaving of arrivals, page fetches, failures, truncated ticks, restarts, posts and
      clears, every mappable remote event up to the persisted watermark is stored. */
  lemma {:induction false} WatermarkIsSafe(w: World, steps: seq<Step>, exempt: set<string>)
    requires Initial(w) && Possible(w, steps, exempt)
    ensures Safe(After(w, steps), exempt)
  {
    RunKeeps(w, steps, exempt);
  }
}
