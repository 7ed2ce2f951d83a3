/** The team mirror: polls a newest-first event list page by page and keeps a persisted watermark. */
module CursorMirrors {
  import opened Options
  import opened Events
  import opened Rollup
  import opened RollupProofs
  import opened PageWalk
  import opened Stores

  const MAX_PAGES_PER_TICK: nat := 60

  /** The mirror's in-memory progress. */
  datatype Mirror = Mirror(maxSeen: int, loaded: bool, resumePage: int, pendingMax: int)

  const FRESH := Mirror(0, false, 1, 0)

  /** The local variables of a running tick. */
  datatype Tick = Tick(since: int, firstPage: int, lastPage: int, events: seq<TokenEvent>, complete: bool)

  /** The mirror, the persisted watermark, the store's tables and the tick in flight, if any. */
  datatype Server = Server(mirror: Mirror, meta: Option<int>, tables: Tables, tick: Option<Tick>)

  /** The outcome of one page request. */
  datatype Reply = Failed | Served(page: seq<RemoteEvent>, hasNext: bool)

  // ----- the pieces of a tick -----

  function LoadWatermark(meta: Option<int>): int {
    if meta.GetOr(0) > 0 then meta.GetOr(0) else 0
  }

  function Loaded(m: Mirror, meta: Option<int>): Mirror {
    if m.loaded then m else m.(maxSeen := LoadWatermark(meta), loaded := true)
  }

  function Since(maxSeen: int): int {
    if maxSeen > 0 then maxSeen + 1 else 0
  }

  function Begin(s: Server): (r: Server)
    ensures r.tick.Some?
  {
    var m := Loaded(s.mirror, s.meta);
    s.(mirror := m, tick := Some(Tick(Since(m.maxSeen), m.resumePage, m.resumePage - 1, [], false)))
  }

  function MaxUsable(page: seq<RemoteEvent>, bound: int): int {
    if page == [] then bound
    else
      var n := |page| - 1;
      var rest := MaxUsable(page[..n], bound);
      if Usable(page[n]) && page[n].time > rest then page[n].time else rest
  }

  /** A served page is folded into the pending maximum and the tick's events. */
  function Take(s: Server, page: seq<RemoteEvent>, hasNext: bool): Server
    requires s.tick.Some?
  {
    var k := s.tick.value;
    s.(mirror := s.mirror.(pendingMax := MaxUsable(page, s.mirror.pendingMax)),
       tick := Some(k.(lastPage := k.lastPage + 1, events := k.events + Mapped(page), complete := !hasNext)))
  }

  /** The page loop: stops on a failed request, after the last page, or at the page cap. */
  function TakeAll(s: Server, replies: seq<Reply>, budget: nat): (r: Server)
    requires s.tick.Some?
    ensures r.tick.Some?
    decreases budget
  {
    if budget == 0 || s.tick.value.complete || replies == [] || replies[0].Failed? then s
    else TakeAll(Take(s, replies[0].page, replies[0].hasNext), replies[1..], budget - 1)
  }

  function InsertByTime(e: TokenEvent, sorted: seq<TokenEvent>): seq<TokenEvent> {
    if sorted == [] then [e]
    else
      var n := |sorted| - 1;
      if sorted[n].timestamp <= e.timestamp then sorted + [e]
      else InsertByTime(e, sorted[..n]) + [sorted[n]]
  }

  /** The stable oldest-first sort. */
  function OldestFirst(events: seq<TokenEvent>): seq<TokenEvent> {
    if events == [] then [] else InsertByTime(events[|events| - 1], OldestFirst(events[..|events| - 1]))
  }

  /** How the store behaves while a tick finishes. */
  datatype Outcome = AllStored | InsertThrows | MetaThrows

  ghost function Filled(tables: Tables, events: seq<TokenEvent>): Tables {
    if events == [] then tables else Inserted(tables, OldestFirst(events))
  }

  /** The watermark a complete walk arrives at. */
  function NewWatermark(m: Mirror): int {
    if m.pendingMax > m.maxSeen then m.pendingMax else m.maxSeen
  }

  /** Once the events are stored: advance and persist the watermark, or note where to resume. */
  function Concluded(s: Server, tables: Tables, o: Outcome): Server
    requires s.tick.Some?
  {
    var k, m := s.tick.value, s.mirror;
    var filled := s.(tables := tables, tick := None);
    if !k.complete then filled.(mirror := m.(resumePage := k.lastPage + 1))
    else if o.MetaThrows? then filled.(mirror := m.(maxSeen := NewWatermark(m)))
    else filled.(meta := Some(NewWatermark(m)), mirror := Mirror(NewWatermark(m), m.loaded, 1, 0))
  }

  /** The end of a tick. A failed insert leaves everything but the pending maximum for the next tick. */
  ghost function Finish(s: Server, o: Outcome): Server
    requires s.tick.Some?
  {
    if o.InsertThrows? && s.tick.value.events != [] then s.(tick := None)
    else Concluded(s, Filled(s.tables, s.tick.value.events), o)
  }

  ghost function Ticked(s: Server, replies: seq<Reply>, maxPages: nat, o: Outcome): Server {
    Finish(TakeAll(Begin(s), replies, maxPages), o)
  }

  function Reset(s: Server): Server {
    s.(mirror := Mirror(0, true, 1, 0), meta := None)
  }

  // ----- the mirror as an object -----

  class CursorMirror {
    const store: Store
    const maxPagesPerTick: nat
    /** server_meta's watermark entry. */
    var persisted: Option<int>
    var maxSeenTimestamp: int
    var watermarkLoaded: bool
    var resumePage: int
    var pendingMaxTs: int

    ghost function State(): Server
      reads this, store
    {
      Server(Mirror(maxSeenTimestamp, watermarkLoaded, resumePage, pendingMaxTs), persisted, store.State(), None)
    }

    constructor (store: Store, persisted: Option<int>, maxPagesPerTick: nat)
      ensures State() == Server(FRESH, persisted, store.State(), None)
      ensures this.store == store && this.maxPagesPerTick == maxPagesPerTick
    {
      this.store, this.persisted, this.maxPagesPerTick := store, persisted, maxPagesPerTick;
      maxSeenTimestamp, watermarkLoaded, resumePage, pendingMaxTs := 0, false, 1, 0;
    }

    /** Folds one page into the tick. */
    method TakePage(page: seq<RemoteEvent>) returns (mapped: seq<TokenEvent>)
      modifies this`pendingMaxTs
      ensures pendingMaxTs == MaxUsable(page, old(pendingMaxTs)) && mapped == Mapped(page)
    {
      mapped := [];
      for i := 0 to |page|
        invariant pendingMaxTs == MaxUsable(page[..i], old(pendingMaxTs)) && mapped == Mapped(page[..i])
      {
        assert page[..i + 1][..i] == page[..i];
        var e := page[i];
        if Usable(e) {
          if e.time > pendingMaxTs {
            pendingMaxTs := e.time;
          }
          if e.token.Some? {
            mapped := mapped + [e.token.value];
          }
        }
      }
      assert page[..|page|] == page;
    }

    /** One polling cycle. `replies` are the answers to its page requests, in order. */
    method RunTick(replies: seq<Reply>, o: Outcome) returns (fetched: nat)
      requires WellKeyed(store.events)
      modifies this, store
      ensures State() == Ticked(old(State()), replies, maxPagesPerTick, o)
    {
      if !watermarkLoaded {
        maxSeenTimestamp := LoadWatermark(persisted);
        watermarkLoaded := true;
      }
      var since := Since(maxSeenTimestamp);
      var events: seq<TokenEvent> := [];
      fetched := 0;
      var complete := false;
      var firstPage := resumePage;
      var lastPage := firstPage - 1;
      ghost var begun := Begin(old(State()));
      var page := firstPage;
      while page < firstPage + maxPagesPerTick
        invariant firstPage <= page <= firstPage + maxPagesPerTick && lastPage == page - 1 && !complete
        invariant maxSeenTimestamp == begun.mirror.maxSeen && watermarkLoaded && resumePage == firstPage
        invariant persisted == old(persisted) && store.State() == old(store.State()) && WellKeyed(store.events)
        invariant page - firstPage <= |replies|
        invariant TakeAll(begun, replies, maxPagesPerTick)
               == TakeAll(State().(tick := Some(Tick(since, firstPage, lastPage, events, complete))),
                          replies[page - firstPage..], maxPagesPerTick - (page - firstPage))
        decreases firstPage + maxPagesPerTick - page
      {
        var i := page - firstPage;
        if i == |replies| || replies[i].Failed? {
          break;
        }
        assert replies[i..][1..] == replies[i + 1..];
        lastPage := page;
        fetched := fetched + |replies[i].page|;
        var mapped := TakePage(replies[i].page);
        events := events + mapped;
        if !replies[i].hasNext {
          complete := true;
          break;
        }
        page := page + 1;
      }
      assert TakeAll(begun, replies, maxPagesPerTick)
        == State().(tick := Some(Tick(since, firstPage, lastPage, events, complete)));
      FinishTick(Tick(since, firstPage, lastPage, events, complete), o);
    }

    method Fill(events: seq<TokenEvent>)
      requires WellKeyed(store.events)
      modifies store
      ensures store.State() == Filled(old(store.State()), events)
    {
      if events != [] {
        var _, _ := store.InsertMany(OldestFirst(events));
      }
    }

    method FinishTick(k: Tick, o: Outcome)
      requires WellKeyed(store.events)
      modifies this, store
      ensures State() == Finish(old(State()).(tick := Some(k)), o)
    {
      if o.InsertThrows? && k.events != [] {
        return;
      }
      Fill(k.events);
      if k.complete {
        if pendingMaxTs > maxSeenTimestamp {
          maxSeenTimestamp := pendingMaxTs;
        }
        if o.MetaThrows? {
          return;
        }
        persisted := Some(maxSeenTimestamp);
        pendingMaxTs := 0;
        resumePage := 1;
      } else {
        resumePage := k.lastPage + 1;
      }
    }

    method ResetWatermark()
      modifies this
      ensures State() == Reset(old(State()))
    {
      maxSeenTimestamp, pendingMaxTs, resumePage, watermarkLoaded := 0, 0, 1, true;
      persisted := None;
    }
  }
}
