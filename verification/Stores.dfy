/** The event store: the tables of db.ts and the methods that change them. */
module Stores {
  import opened Options
  import opened Events
  import opened Tallies
  import opened DeltaKeys
  import opened Rollup
  import opened RollupProofs
  import opened Windows
  import opened Audits

  datatype Span = Span(min: int, max: int)

  /** The batch holds a cloud Cursor event of this user at this time. */
  ghost predicate CursorAt(batch: seq<TokenEvent>, user: string, ts: int) {
    exists i :: 0 <= i < |batch| && batch[i].source == Cursor && batch[i].user == user && batch[i].timestamp == ts
  }

  /** Each span runs from a user's oldest to newest cloud Cursor event, and no such event is left out. */
  ghost predicate SpansOf(spans: map<string, Span>, batch: seq<TokenEvent>) {
    && (forall u :: u in spans ==> CursorAt(batch, u, spans[u].min) && CursorAt(batch, u, spans[u].max))
    && (forall u, ts :: CursorAt(batch, u, ts) ==> WithinSpan(spans, u, ts))
  }

  predicate WithinSpan(spans: map<string, Span>, user: string, ts: int) {
    user in spans && spans[user].min <= ts <= spans[user].max
  }

  /** The spans say of every user and timestamp what the batch says. */
  ghost predicate SpansAnswer(spans: map<string, Span>, batch: seq<TokenEvent>) {
    forall u, ts :: InSpan(batch, u, ts) <==> WithinSpan(spans, u, ts)
  }

  lemma SpansOfAnswer(spans: map<string, Span>, batch: seq<TokenEvent>)
    requires SpansOf(spans, batch)
    ensures SpansAnswer(spans, batch)
  {
    forall u, ts
      ensures InSpan(batch, u, ts) <==> WithinSpan(spans, u, ts)
    {
      if InSpan(batch, u, ts) {
        var i :| 0 <= i < |batch| && batch[i].source == Cursor && batch[i].user == u && batch[i].timestamp <= ts;
        var j :| 0 <= j < |batch| && batch[j].source == Cursor && batch[j].user == u && ts <= batch[j].timestamp;
        assert CursorAt(batch, u, batch[i].timestamp) && CursorAt(batch, u, batch[j].timestamp);
      }
    }
  }

  method ReconcileSpans(batch: seq<TokenEvent>) returns (spans: map<string, Span>)
    ensures SpansAnswer(spans, batch)
  {
    spans := map[];
    for i := 0 to |batch|
      invariant SpansOf(spans, batch[..i])
    {
      var e := batch[i];
      ghost var before := spans;
      if e.source == Cursor {
        if e.user !in spans {
          spans := spans[e.user := Span(e.timestamp, e.timestamp)];
        } else {
          var span := spans[e.user];
          if e.timestamp < span.min {
            span := span.(min := e.timestamp);
          }
          if e.timestamp > span.max {
            span := span.(max := e.timestamp);
          }
          spans := spans[e.user := span];
        }
      }
      SpansGrow(before, spans, batch[..i], e);
      assert batch[..i + 1] == batch[..i] + [e];
    }
    assert batch[..|batch|] == batch;
    SpansOfAnswer(spans, batch);
  }

  lemma CursorAtGrows(seen: seq<TokenEvent>, e: TokenEvent, user: string, ts: int)
    ensures CursorAt(seen + [e], user, ts)
        <==> CursorAt(seen, user, ts) || (e.source == Cursor && e.user == user && e.timestamp == ts)
  {
    assert (seen + [e])[|seen|] == e;
    if CursorAt(seen, user, ts) {
      var i :| 0 <= i < |seen| && seen[i].source == Cursor && seen[i].user == user && seen[i].timestamp == ts;
      assert (seen + [e])[i] == seen[i];
    }
  }

  lemma SpansGrow(before: map<string, Span>, after: map<string, Span>, seen: seq<TokenEvent>, e: TokenEvent)
    requires SpansOf(before, seen)
    requires e.source != Cursor ==> after == before
    requires e.source == Cursor ==> e.user in after && after == before[e.user := after[e.user]]
    requires e.source == Cursor && e.user !in before ==> after[e.user] == Span(e.timestamp, e.timestamp)
    requires e.source == Cursor && e.user in before ==>
               && after[e.user].min == (if e.timestamp < before[e.user].min then e.timestamp else before[e.user].min)
               && after[e.user].max == (if e.timestamp > before[e.user].max then e.timestamp else before[e.user].max)
    ensures SpansOf(after, seen + [e])
  {
    forall u, ts
      ensures CursorAt(seen + [e], u, ts)
          <==> CursorAt(seen, u, ts) || (e.source == Cursor && e.user == u && e.timestamp == ts)
    {
      CursorAtGrows(seen, e, u, ts);
    }
  }

  /** A sum over a table, entry by entry. */
  method SumTable<K(!new)>(m: map<K, Tally>) returns (sum: Tally)
    ensures sum == Total(m)
  {
    sum := ZERO;
    var rest := m;
    while rest != map[]
      invariant Add(sum, Total(rest)) == Total(m)
      decreases |rest|
    {
      var k :| k in rest;
      TotalRemove(rest, k);
      AddSwap(sum, rest[k], Total(rest - {k}));
      sum := Add(sum, rest[k]);
      rest := rest - {k};
    }
    AddZero(sum);
  }

  method SumIntTable<K(!new)>(m: map<K, int>) returns (sum: int)
    ensures sum == IntTotal(m)
  {
    sum := 0;
    var rest := m;
    while rest != map[]
      invariant sum + IntTotal(rest) == IntTotal(m)
      decreases |rest|
    {
      var k :| k in rest;
      IntTotalRemove(rest, k);
      sum := sum + rest[k];
      rest := rest - {k};
    }
  }

  /** SELECT ... GROUP BY day, user, model, messageType, hasStored over the given rows. */
  method GroupBy(rows: map<DedupKey, Row>) returns (groups: map<Cell, Tally>)
    requires WellKeyed(rows)
    ensures groups == Grouped(rows)
  {
    groups := map[];
    var todo := rows.Keys;
    ghost var done := map[];
    while todo != {}
      invariant todo <= rows.Keys && done == rows - todo
      invariant groups == Grouped(done)
      decreases |todo|
    {
      var k :| k in todo;
      var r := rows[k];
      var c := SqlCellOf(r);
      DayExpressionsAgree(r.timestamp);
      GroupedGrows(done, r);
      groups := groups[c := GroupStep(groups, c, r)];
      todo := todo - {k};
      done := done[k := r];
    }
    assert done == rows;
  }

  /** A group's new aggregate once it takes in a row. */
  function GroupStep(groups: map<Cell, Tally>, c: Cell, r: Row): Tally {
    if c in groups then Add(groups[c], RowTally(r)) else RowTally(r)
  }

  lemma GroupedGrows(rows: map<DedupKey, Row>, r: Row)
    requires KeyOf(r) !in rows
    ensures Grouped(rows[KeyOf(r) := r]) == Grouped(rows)[CellOf(r) := GroupStep(Grouped(rows), CellOf(r), r)]
  {
    var after := rows[KeyOf(r) := r];
    forall c
      ensures c in OccupiedCells(after) <==> c in OccupiedCells(rows) || c == CellOf(r)
      ensures CellSum(after, c) == if CellOf(r) == c then Add(CellSum(rows, c), RowTally(r)) else CellSum(rows, c)
    {
      InsertCellSum(rows, r, c);
      OccupiedIffRows(rows, c);
      OccupiedIffRows(after, c);
      if c == CellOf(r) {
        assert KeyOf(r) in RowsOf(after, c);
      } else {
        assert RowsOf(after, c) == RowsOf(rows, c);
      }
    }
    OccupiedIffRows(rows, CellOf(r));
    GroupNonEmpty(rows, CellOf(r));
    AddZero(RowTally(r));
  }

  // ----- one step of each maintenance loop -----

  /** The reconcile delete, done for some users. */
  ghost function KeptFor(events: map<DedupKey, Row>, batch: seq<TokenEvent>, users: set<string>): map<DedupKey, Row> {
    map k | k in events && !(Covered(events[k], batch) && events[k].user in users) :: events[k]
  }

  ghost function DaysFor(events: map<DedupKey, Row>, batch: seq<TokenEvent>, users: set<string>): set<UserDay> {
    set k | k in events && Covered(events[k], batch) && events[k].user in users ::
      UserDay(events[k].user, RollDaySql(events[k].timestamp))
  }

  predicate Doomed(r: Row, user: string, span: Span) {
    r.user == user && Replaceable(r) && span.min <= r.timestamp <= span.max
  }

  function AfterDelete(events: map<DedupKey, Row>, user: string, span: Span): map<DedupKey, Row> {
    map k | k in events && !Doomed(events[k], user, span) :: events[k]
  }

  function DeletedDays(events: map<DedupKey, Row>, user: string, span: Span): set<int> {
    set k | k in events && Doomed(events[k], user, span) :: RollDaySql(events[k].timestamp)
  }

  function UserDays(user: string, days: set<int>): set<UserDay> {
    set day | day in days :: UserDay(user, day)
  }

  lemma ReconcileStep(events: map<DedupKey, Row>, batch: seq<TokenEvent>, spans: map<string, Span>,
                      users: set<string>, user: string)
    requires SpansAnswer(spans, batch) && user in spans && user !in users
    ensures KeptFor(events, batch, users + {user}) == AfterDelete(KeptFor(events, batch, users), user, spans[user])
    ensures DaysFor(events, batch, users + {user})
         == DaysFor(events, batch, users)
           + UserDays(user, DeletedDays(KeptFor(events, batch, users), user, spans[user]))
  {
    forall k | k in events
      ensures Doomed(events[k], user, spans[user]) <==> events[k].user == user && Covered(events[k], batch)
    {
      assert InSpan(batch, events[k].user, events[k].timestamp)
        <==> WithinSpan(spans, events[k].user, events[k].timestamp);
    }
    DaysStep(events, batch, spans, users, user);
  }

  lemma DaysStep(events: map<DedupKey, Row>, batch: seq<TokenEvent>, spans: map<string, Span>,
                 users: set<string>, user: string)
    requires user in spans && user !in users
    requires forall k :: k in events ==>
               (Doomed(events[k], user, spans[user]) <==> events[k].user == user && Covered(events[k], batch))
    ensures DaysFor(events, batch, users + {user})
         == DaysFor(events, batch, users)
           + UserDays(user, DeletedDays(KeptFor(events, batch, users), user, spans[user]))
  {
    var kept := KeptFor(events, batch, users);
    var days := DeletedDays(kept, user, spans[user]);
    forall k | k in events && Covered(events[k], batch) && events[k].user == user
      ensures RollDaySql(events[k].timestamp) in days
    {
      assert k in kept;
    }
    forall d | d in DaysFor(events, batch, users + {user})
      ensures d in DaysFor(events, batch, users) + UserDays(user, days)
    {
    }
    forall day | day in days
      ensures UserDay(user, day) in DaysFor(events, batch, users + {user})
    {
    }
  }

  /** `d` is a new delta, under its own key. */
  ghost predicate FreshDelta(done: map<string, Delta>, x: string, d: Delta) {
    DeltasKeyed(done) && x !in done && KeyText(d.cell) == x
  }

  lemma DeltaStep(done: map<string, Delta>, x: string, d: Delta, c: Cell)
    requires FreshDelta(done, x, d)
    ensures DeltaAt(done[x := d], c) == if c == d.cell then d.sums else DeltaAt(done, c)
    ensures c == d.cell ==> DeltaAt(done, c) == ZERO
  {
  }

  lemma FlushedCells(rollup: map<Cell, Tally>, deltas: map<string, Delta>, c: Cell)
    requires DeltasKeyed(deltas)
    ensures c in Flushed(rollup, deltas) <==> c in rollup || (KeyText(c) in deltas && deltas[KeyText(c)].cell == c)
  {
  }

  lemma FlushStepOther(rollup: map<Cell, Tally>, before: map<string, Delta>,
                       after: map<string, Delta>, d: Delta, c: Cell)
    requires DeltasKeyed(before) && DeltasKeyed(after) && c != d.cell
    requires DeltaAt(before, c) == DeltaAt(after, c)
    requires (KeyText(c) in before && before[KeyText(c)].cell == c)
             <==> (KeyText(c) in after && after[KeyText(c)].cell == c)
    ensures c in Flushed(rollup, after) <==> c in Upsert(Flushed(rollup, before), d)
    ensures c in Flushed(rollup, after) ==> Flushed(rollup, after)[c] == Upsert(Flushed(rollup, before), d)[c]
  {
    FlushedCells(rollup, before, c);
    FlushedCells(rollup, after, c);
  }

  lemma FlushStepSame(rollup: map<Cell, Tally>, before: map<string, Delta>, after: map<string, Delta>, d: Delta)
    requires DeltasKeyed(before) && DeltasKeyed(after)
    requires DeltaAt(before, d.cell) == ZERO && DeltaAt(after, d.cell) == d.sums
    requires KeyText(d.cell) !in before && KeyText(d.cell) in after && after[KeyText(d.cell)].cell == d.cell
    ensures d.cell in Flushed(rollup, after)
    ensures Flushed(rollup, after)[d.cell] == Upsert(Flushed(rollup, before), d)[d.cell]
  {
    FlushedCells(rollup, before, d.cell);
    FlushedCells(rollup, after, d.cell);
    AddZero(CellAt(rollup, d.cell));
    AddZero(d.sums);
  }

  lemma FlushStep(rollup: map<Cell, Tally>, done: map<string, Delta>, x: string, d: Delta)
    requires FreshDelta(done, x, d) && d.sums.n > 0
    ensures Flushed(rollup, done[x := d]) == Upsert(Flushed(rollup, done), d)
  {
    var after, stepped := Flushed(rollup, done[x := d]), Upsert(Flushed(rollup, done), d);
    forall c
      ensures c in after <==> c in stepped
      ensures c in after ==> after[c] == stepped[c]
    {
      DeltaStep(done, x, d, c);
      if c == d.cell {
        FlushStepSame(rollup, done, done[x := d], d);
      } else {
        FlushStepOther(rollup, done, done[x := d], d, c);
      }
    }
  }

  /** The rollup after one user-day's cells were dropped and regrouped. */
  ghost function DayRepaired(rollup: map<Cell, Tally>, events: map<DedupKey, Row>, d: UserDay): map<Cell, Tally> {
    (map c | c in rollup && DayOf(c) != d :: rollup[c]) + Grouped(OnDay(events, d))
  }

  lemma RepairStepCell(rollup: map<Cell, Tally>, done: set<UserDay>, events: map<DedupKey, Row>, d: UserDay, c: Cell)
    ensures c in Repaired(rollup, done + {d}, events) <==> c in DayRepaired(Repaired(rollup, done, events), events, d)
    ensures c in Repaired(rollup, done + {d}, events) ==>
              Repaired(rollup, done + {d}, events)[c] == DayRepaired(Repaired(rollup, done, events), events, d)[c]
  {
    UserDayRows(events, d, c);
    assert c in Grouped(OnDay(events, d)) <==> DayOf(c) == d && c in OccupiedCells(events);
    if DayOf(c) == d {
      assert CellSum(OnDay(events, d), c) == CellSum(events, c);
    } else {
      assert DayOf(c) in done + {d} <==> DayOf(c) in done;
    }
  }

  /** Dropping a user-day's cells and regrouping its raw rows is one step of the drain. */
  lemma RepairStep(rollup: map<Cell, Tally>, done: set<UserDay>, events: map<DedupKey, Row>, d: UserDay)
    ensures Repaired(rollup, done + {d}, events) == DayRepaired(Repaired(rollup, done, events), events, d)
  {
    forall c {
      RepairStepCell(rollup, done, events, d, c);
    }
  }

  /** WHERE user = ? AND timestamp >= ? AND timestamp < ?, for one UTC day. */
  function OnDay(events: map<DedupKey, Row>, d: UserDay): map<DedupKey, Row> {
    map k | k in events && events[k].user == d.user && d.day * DAY_MS <= events[k].timestamp < (d.day + 1) * DAY_MS ::
      events[k]
  }

  lemma UserDayRows(events: map<DedupKey, Row>, d: UserDay, c: Cell)
    ensures RowsOf(OnDay(events, d), c) == if DayOf(c) == d then RowsOf(events, c) else map[]
    ensures c in OccupiedCells(OnDay(events, d)) <==> DayOf(c) == d && c in OccupiedCells(events)
  {
    var rows := OnDay(events, d);
    forall k | k in events
      ensures k in rows <==> DayOf(CellOf(events[k])) == d
    {
      DayRange(events[k].timestamp, d.day);
    }
    OccupiedIffRows(rows, c);
    OccupiedIffRows(events, c);
  }

  /** The groups of every user that is not waiting. */
  ghost function GroupedBut(events: map<DedupKey, Row>, todo: set<string>): map<Cell, Tally> {
    map c | c in Grouped(events) && c.user !in todo :: Grouped(events)[c]
  }

  lemma RegroupStep(events: map<DedupKey, Row>, todo: set<string>, user: string)
    requires user in todo
    ensures GroupedBut(events, todo) + Grouped(EventsOfUser(events, user)) == GroupedBut(events, todo - {user})
  {
    GroupedByUser(events, user);
  }

  /** Whoever has a group has an event. */
  lemma NobodyWaits(events: map<DedupKey, Row>)
    ensures GroupedBut(events, {}) == Grouped(events)
    ensures GroupedBut(events, set k | k in events :: events[k].user) == map[]
  {
    assert forall c :: c in OccupiedCells(events) ==> exists k :: k in events && CellOf(events[k]) == c;
  }

  lemma AcceptNext(p: Pending, batch: seq<TokenEvent>, i: nat)
    requires i < |batch|
    ensures AcceptAll(p, batch[..i + 1]) == Accept(AcceptAll(p, batch[..i]), batch[i])
  {
    assert batch[..i + 1][..i] == batch[..i];
  }

  class Store {
    var events: map<DedupKey, Row>
    var rollup: map<Cell, Tally>
    var dirty: set<UserDay>

    ghost function State(): Tables
      reads this
    {
      Tables(events, rollup, dirty)
    }

    constructor ()
      ensures State() == EMPTY
    {
      events, rollup, dirty := map[], map[], {};
    }

    /** DELETE ... RETURNING day: one user's local Cursor rows inside a span. */
    method DeleteCursorLocalInSpan(user: string, span: Span) returns (days: set<int>)
      modifies this`events
      ensures events == AfterDelete(old(events), user, span) && days == DeletedDays(old(events), user, span)
    {
      days := DeletedDays(events, user, span);
      events := AfterDelete(events, user, span);
    }

    method ReconcileUser(ghost was: Tables, ghost batch: seq<TokenEvent>, spans: map<string, Span>,
                         ghost done: set<string>, user: string)
      requires SpansAnswer(spans, batch) && user in spans && user !in done
      requires State() == Tables(KeptFor(was.events, batch, done), was.rollup,
                                 was.dirty + DaysFor(was.events, batch, done))
      modifies this
      ensures State() == Tables(KeptFor(was.events, batch, done + {user}), was.rollup,
                                was.dirty + DaysFor(was.events, batch, done + {user}))
    {
      ReconcileStep(was.events, batch, spans, done, user);
      var dirtyDays := DeleteCursorLocalInSpan(user, spans[user]);
      dirty := dirty + UserDays(user, dirtyDays);
    }

    /** Deletes the local Cursor rows inside each user's span and queues the days that lost rows. */
    method Reconcile(batch: seq<TokenEvent>)
      modifies this
      ensures State() == Tables(Reconciled(old(events), batch), old(rollup),
                                old(dirty) + ReconciledDays(old(events), batch))
    {
      var spans := ReconcileSpans(batch);
      ghost var was, done := State(), {};
      var todo := spans.Keys;
      assert KeptFor(was.events, batch, {}) == was.events && DaysFor(was.events, batch, {}) == {};
      while todo != {}
        invariant todo <= spans.Keys && done == spans.Keys - todo
        invariant State() == Tables(KeptFor(was.events, batch, done), was.rollup,
                                    was.dirty + DaysFor(was.events, batch, done))
        decreases |todo|
      {
        var user :| user in todo;
        ReconcileUser(was, batch, spans, done, user);
        todo := todo - {user};
        done := done + {user};
      }
      AllUsersDone(was.events, batch, spans, done);
    }

    /** The insert loop: takes rows with new keys and collects their deltas. */
    method InsertRows(batch: seq<TokenEvent>) returns (deltas: map<string, Delta>, inserted: nat)
      modifies this`events
      ensures Pending(events, deltas) == AcceptAll(Pending(old(events), map[]), batch)
      ensures inserted == |events| - |old(events)|
    {
      ghost var p0 := Pending(events, map[]);
      deltas, inserted := map[], 0;
      for i := 0 to |batch|
        invariant Pending(events, deltas) == AcceptAll(p0, batch[..i])
        invariant inserted == |events| - |old(events)|
      {
        AcceptNext(p0, batch, i);
        var r := RowOf(batch[i]);
        if KeyOf(r) !in events {
          events := events[KeyOf(r) := r];
          inserted := inserted + 1;
          var x := KeyText(CellOf(r));
          var g := if x in deltas then deltas[x] else Delta(CellOf(r), ZERO.(maxTs := Some(r.timestamp)));
          deltas := deltas[x := g.(sums := Add(g.sums, RowTally(r)))];
        }
      }
      assert batch[..|batch|] == batch;
    }

    /** One UPSERT per delta. */
    method Flush(deltas: map<string, Delta>)
      requires DeltasKeyed(deltas)
      modifies this`rollup
      ensures rollup == Flushed(old(rollup), deltas)
    {
      ghost var was := rollup;
      var todo, done := deltas.Keys, map[];
      NothingFlushed(was);
      while todo != {}
        invariant todo <= deltas.Keys && done == map x | x in deltas && x !in todo :: deltas[x]
        invariant rollup == Flushed(was, done)
        decreases |todo|
      {
        var x :| x in todo;
        FlushStep(was, done, x, deltas[x]);
        rollup := Upsert(rollup, deltas[x]);
        done := done[x := deltas[x]];
        todo := todo - {x};
      }
      assert done == deltas;
    }

    /** Recomputes one queued user-day from raw events. */
    method RepairDay(d: UserDay)
      requires WellKeyed(events)
      modifies this`rollup
      ensures rollup == DayRepaired(old(rollup), events, d)
    {
      var groups := GroupBy(OnDay(events, d));
      rollup := (map c | c in rollup && DayOf(c) != d :: rollup[c]) + groups;
    }

    /** Drains the dirty queue. */
    method RepairRollup()
      requires WellKeyed(events)
      modifies this
      ensures State() == Drained(old(State()))
    {
      ghost var was, done := State(), {};
      NothingRepaired(was);
      while dirty != {}
        invariant events == was.events && done <= was.dirty && dirty == was.dirty - done
        invariant rollup == Repaired(was.rollup, done, events)
        decreases |dirty|
      {
        var d :| d in dirty;
        RepairStep(was.rollup, done, events, d);
        RepairDay(d);
        dirty := dirty - {d};
        done := done + {d};
      }
      assert done == was.dirty;
    }

    method InsertMany(batch: seq<TokenEvent>) returns (inserted: nat, duplicates: int)
      requires WellKeyed(events)
      modifies this
      ensures State() == Inserted(old(State()), batch)
      ensures inserted == |events| - |Reconciled(old(events), batch)| && duplicates == |batch| - inserted
    {
      ghost var was := State();
      Reconcile(batch);
      AcceptAllKeyed(Pending(events, map[]), batch);
      var deltas;
      deltas, inserted := InsertRows(batch);
      Flush(deltas);
      assert State() == Merged(was, batch);
      RepairRollup();
      duplicates := |batch| - inserted;
    }

    method ClearAllEvents() returns (removed: nat)
      modifies this
      ensures State() == EMPTY && removed == |old(events)|
    {
      removed := |events|;
      events, rollup, dirty := map[], map[], {};
    }

    method ClearUserEvents(user: string) returns (removed: nat)
      modifies this
      ensures State() == ClearedUser(old(State()), user) && removed == |old(events)| - |events|
    {
      ghost var was := events;
      rollup := map c | c in rollup && c.user != user :: rollup[c];
      dirty := set d | d in dirty && d.user != user;
      var gone := set k | k in events && events[k].user == user;
      removed := |gone|;
      events := map k | k in events && events[k].user != user :: events[k];
      assert was.Keys - gone == events.Keys;
    }

    /** Regroups all events, one user at a time. */
    method RebuildRollup()
      requires WellKeyed(events)
      modifies this
      ensures State() == Rebuilt(old(State()))
    {
      rollup, dirty := map[], {};
      NobodyWaits(events);
      var todo := set k | k in events :: events[k].user;
      while todo != {}
        invariant events == old(events) && dirty == {}
        invariant rollup == GroupedBut(events, todo)
        decreases |todo|
      {
        var user :| user in todo;
        RegroupStep(events, todo, user);
        var groups := GroupBy(EventsOfUser(events, user));
        rollup := rollup + groups;
        todo := todo - {user};
      }
    }

    /** One user's row of the audit over raw events. */
    method AuditEvents(user: string) returns (row: AuditRow)
      ensures row == EventAudit(events, user)
    {
      var sums := SumTable(UserRows(events, user));
      var days := SumIntTable(EventWeights(events, user, ByDay));
      var assistant := SumIntTable(EventWeights(events, user, ByAssistant));
      var fingerprint := SumIntTable(EventWeights(events, user, ByFingerprint));
      row := AuditRow(sums.(maxTs := None), days, assistant, fingerprint);
    }

    /** One user's row of the audit over the rollup. */
    method AuditCells(user: string) returns (row: AuditRow)
      ensures row == RollupAudit(rollup, user)
    {
      var sums := SumTable(UserCells(rollup, user));
      var days := SumIntTable(CellWeights(rollup, user, ByDay));
      var assistant := SumIntTable(CellWeights(rollup, user, ByAssistant));
      var fingerprint := SumIntTable(CellWeights(rollup, user, ByFingerprint));
      row := AuditRow(sums.(maxTs := None), days, assistant, fingerprint);
    }

    method AuditUser(user: string, inRollup: bool) returns (differs: bool)
      requires user in EventUsers(events) && (inRollup <==> user in RollupUsers(rollup))
      ensures differs <==> Differs(State(), user)
    {
      var e := AuditEvents(user);
      var r := AuditCells(user);
      differs := !inRollup || r != e;
    }

    /** The comparison loop: users of the events table first, then users only the rollup knows. */
    method CompareUsers() returns (mismatched: set<string>)
      ensures mismatched == Mismatched(State())
    {
      mismatched := {};
      var todo, byUser := EventUsers(events), RollupUsers(rollup);
      ghost var done := {};
      while todo != {}
        invariant Comparing(State(), todo, done, byUser, mismatched)
        decreases |todo|
      {
        var user :| user in todo;
        ComparedOne(State(), todo, done, byUser, mismatched, user);
        var differs := AuditUser(user, user in byUser);
        if differs {
          mismatched := mismatched + {user};
        }
        byUser := byUser - {user};
        todo := todo - {user};
        done := done + {user};
      }
      mismatched := mismatched + byUser;
      AllCompared(State());
    }

    method AuditRollup(repair: bool, force: bool) returns (ok: bool, rebuilt: bool, mismatched: set<string>)
      requires WellKeyed(events)
      modifies this
      ensures State() == Audited(old(State()), repair, force)
      ensures mismatched == if force then {} else Mismatched(Drained(old(State())))
      ensures ok <==> mismatched == {}
      ensures rebuilt <==> force || (!ok && repair)
    {
      if force {
        RebuildRollup();
        return true, true, {};
      }
      RepairRollup();
      mismatched := CompareUsers();
      ok := mismatched == {};
      rebuilt := !ok && repair;
      if rebuilt {
        RebuildRollup();
      }
    }

    /** A rollup-backed read: the queue is drained first, then whole days come from the rollup. */
    method QueryTotal(since: int, until: int, sel: Cell -> bool) returns (total: Tally)
      requires ExactOffDirty(State())
      modifies this
      ensures Exact(State()) && events == old(events)
      ensures total == Total(Scan(events, since, until, sel))
    {
      DrainIsExact(State());
      RepairRollup();
      var w := RollWindow(since, until);
      var days := SumTable(Interior(rollup, w, sel));
      var lead := SumTable(Sliver(events, w.leadFrom, w.leadTo, sel));
      var tail := SumTable(Sliver(events, w.tailFrom, w.tailTo, sel));
      total := Add(days, Add(lead, tail));
      SourceIsScan(State(), since, until, sel);
    }
  }

  ghost function DiffersAmong(t: Tables, users: set<string>): set<string> {
    set u | u in users && Differs(t, u)
  }

  /** Where the comparison loop stands: `byUser` holds the rollup's users that were not met yet. */
  ghost predicate Comparing(t: Tables, todo: set<string>, done: set<string>, byUser: set<string>,
                            mismatched: set<string>) {
    && done == EventUsers(t.events) - todo && todo <= EventUsers(t.events)
    && byUser == RollupUsers(t.rollup) - done && mismatched == DiffersAmong(t, done)
  }

  lemma ComparedOne(t: Tables, todo: set<string>, done: set<string>, byUser: set<string>,
                    mismatched: set<string>, user: string)
    requires Comparing(t, todo, done, byUser, mismatched) && user in todo
    ensures user in EventUsers(t.events) && (user in byUser <==> user in RollupUsers(t.rollup))
    ensures Comparing(t, todo - {user}, done + {user}, byUser - {user},
                      if Differs(t, user) then mismatched + {user} else mismatched)
  {
  }

  lemma AllCompared(t: Tables)
    ensures Mismatched(t) == DiffersAmong(t, EventUsers(t.events)) + (RollupUsers(t.rollup) - EventUsers(t.events))
  {
  }

  lemma NothingFlushed(rollup: map<Cell, Tally>)
    ensures Flushed(rollup, map[]) == rollup
  {
    forall c | c in rollup
      ensures Add(CellAt(rollup, c), DeltaAt(map[], c)) == rollup[c]
    {
      NoDelta(c);
      AddZero(rollup[c]);
    }
  }

  lemma NothingRepaired(t: Tables)
    ensures Repaired(t.rollup, {}, t.events) == t.rollup
  {
  }

  lemma AllUsersDone(events: map<DedupKey, Row>, batch: seq<TokenEvent>, spans: map<string, Span>, users: set<string>)
    requires SpansAnswer(spans, batch) && users == spans.Keys
    ensures KeptFor(events, batch, users) == Reconciled(events, batch)
    ensures DaysFor(events, batch, users) == ReconciledDays(events, batch)
  {
    forall k | k in events && Covered(events[k], batch)
      ensures events[k].user in users
    {
      assert InSpan(batch, events[k].user, events[k].timestamp)
        <==> WithinSpan(spans, events[k].user, events[k].timestamp);
    }
  }
}
