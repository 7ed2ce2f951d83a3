/** Every maintenance step keeps the rollup equal to a GROUP BY over raw events. */
module RollupProofs {
  import opened Options
  import opened Events
  import opened Tallies
  import opened DeltaKeys
  import opened Rollup

  ghost predicate PlainHandles(batch: seq<TokenEvent>) {
    forall i :: 0 <= i < |batch| ==> NulFree(batch[i].user)
  }

  lemma InsertCellSum(events: map<DedupKey, Row>, r: Row, c: Cell)
    requires KeyOf(r) !in events
    ensures CellSum(events[KeyOf(r) := r], c)
         == if CellOf(r) == c then Add(CellSum(events, c), RowTally(r)) else CellSum(events, c)
  {
    var after := RowsOf(events[KeyOf(r) := r], c);
    if CellOf(r) == c {
      TotalInsert(RowsOf(events, c), KeyOf(r), RowTally(r));
      assert after == RowsOf(events, c)[KeyOf(r) := RowTally(r)];
    } else {
      assert after == RowsOf(events, c);
    }
  }

  /** The row's delta key is fresh or filed under the row's own cell; failing that, both cells'
      days are queued for repair. */
  ghost predicate FiledRight(deltas: map<string, Delta>, r: Row, dirty: set<UserDay>) {
    var x := KeyText(CellOf(r));
    x in deltas ==> deltas[x].cell == CellOf(r) || (DayOf(CellOf(r)) in dirty && DayOf(deltas[x].cell) in dirty)
  }

  lemma AddDeltaAt(deltas: map<string, Delta>, r: Row, c: Cell, dirty: set<UserDay>)
    requires DeltasKeyed(deltas) && FiledRight(deltas, r, dirty) && DayOf(c) !in dirty
    ensures DeltaAt(AddDelta(deltas, r), c)
         == if CellOf(r) == c then Add(DeltaAt(deltas, c), RowTally(r)) else DeltaAt(deltas, c)
  {
  }

  /** Mid-batch: a clean cell plus its pending delta is the group's sum over the rows so far. */
  ghost predicate PendingExact(rollup: map<Cell, Tally>, dirty: set<UserDay>, p: Pending) {
    && WellKeyed(p.events) && DeltasKeyed(p.deltas)
    && forall c :: DayOf(c) !in dirty ==> Add(CellAt(rollup, c), DeltaAt(p.deltas, c)) == CellSum(p.events, c)
  }

  lemma AcceptKeepsPending(rollup: map<Cell, Tally>, dirty: set<UserDay>, p: Pending, e: TokenEvent)
    requires PendingExact(rollup, dirty, p)
    requires KeyOf(RowOf(e)) !in p.events ==> FiledRight(p.deltas, RowOf(e), dirty)
    ensures PendingExact(rollup, dirty, Accept(p, e))
  {
    var r := RowOf(e);
    if KeyOf(r) !in p.events {
      var q := Accept(p, e);
      forall c | DayOf(c) !in dirty
        ensures Add(CellAt(rollup, c), DeltaAt(q.deltas, c)) == CellSum(q.events, c)
      {
        InsertCellSum(p.events, r, c);
        AddDeltaAt(p.deltas, r, c, dirty);
        AddSwap(CellAt(rollup, c), DeltaAt(p.deltas, c), RowTally(r));
      }
    }
  }

  lemma AddDeltaKeyed(deltas: map<string, Delta>, r: Row)
    requires DeltasKeyed(deltas)
    ensures DeltasKeyed(AddDelta(deltas, r))
  {
  }

  lemma {:induction false} AcceptAllKeyed(p: Pending, batch: seq<TokenEvent>)
    requires WellKeyed(p.events) && DeltasKeyed(p.deltas)
    ensures WellKeyed(AcceptAll(p, batch).events) && DeltasKeyed(AcceptAll(p, batch).deltas)
  {
    if batch != [] {
      AcceptAllKeyed(p, batch[..|batch| - 1]);
      AddDeltaKeyed(AcceptAll(p, batch[..|batch| - 1]).deltas, RowOf(batch[|batch| - 1]));
    }
  }

  /** Every row the batch adds is filed right when its turn comes. */
  ghost predicate AllFiledRight(p: Pending, batch: seq<TokenEvent>, dirty: set<UserDay>) {
    forall i :: 0 <= i < |batch| && KeyOf(RowOf(batch[i])) !in AcceptAll(p, batch[..i]).events ==>
      FiledRight(AcceptAll(p, batch[..i]).deltas, RowOf(batch[i]), dirty)
  }

  lemma FiledRightPrefix(p: Pending, batch: seq<TokenEvent>, dirty: set<UserDay>, n: nat)
    requires AllFiledRight(p, batch, dirty) && n <= |batch|
    ensures AllFiledRight(p, batch[..n], dirty)
  {
    forall i | 0 <= i < n
      ensures batch[..n][..i] == batch[..i]
    {
    }
  }

  lemma {:induction false} AcceptAllKeepsPending(rollup: map<Cell, Tally>, dirty: set<UserDay>, p: Pending,
                                                 batch: seq<TokenEvent>)
    requires PendingExact(rollup, dirty, p) && AllFiledRight(p, batch, dirty)
    ensures PendingExact(rollup, dirty, AcceptAll(p, batch))
  {
    if batch != [] {
      var n := |batch| - 1;
      FiledRightPrefix(p, batch, dirty, n);
      AcceptAllKeepsPending(rollup, dirty, p, batch[..n]);
      AcceptKeepsPending(rollup, dirty, AcceptAll(p, batch[..n]), batch[n]);
    }
  }

  /** With NUL-free handles every delta is filed under the cell of all its rows. */
  lemma {:induction false} PlainDeltas(p: Pending, batch: seq<TokenEvent>)
    requires p.deltas == map[] && PlainHandles(batch)
    ensures forall x :: x in AcceptAll(p, batch).deltas ==>
              var c := AcceptAll(p, batch).deltas[x].cell; KeyText(c) == x && NulFree(c.user)
  {
    if batch != [] {
      PlainDeltas(p, batch[..|batch| - 1]);
    }
  }

  lemma PlainHandlesFileRight(p: Pending, batch: seq<TokenEvent>, dirty: set<UserDay>)
    requires p.deltas == map[] && PlainHandles(batch)
    ensures AllFiledRight(p, batch, dirty)
  {
    forall i | 0 <= i < |batch|
      ensures FiledRight(AcceptAll(p, batch[..i]).deltas, RowOf(batch[i]), dirty)
    {
      PlainDeltas(p, batch[..i]);
      var deltas, c := AcceptAll(p, batch[..i]).deltas, CellOf(RowOf(batch[i]));
      if KeyText(c) in deltas {
        KeyTextInjective(deltas[KeyText(c)].cell, c);
      }
    }
  }

  /** The reconcile delete touches no cell outside the days it queues. */
  lemma ReconcileKeepsCell(events: map<DedupKey, Row>, batch: seq<TokenEvent>, c: Cell)
    requires DayOf(c) !in ReconciledDays(events, batch)
    ensures CellSum(Reconciled(events, batch), c) == CellSum(events, c)
  {
    forall k | k in events && CellOf(events[k]) == c
      ensures !Covered(events[k], batch)
    {
      DayExpressionsAgree(events[k].timestamp);
      assert DayOf(c) == UserDay(events[k].user, RollDaySql(events[k].timestamp));
    }
    assert RowsOf(Reconciled(events, batch), c) == RowsOf(events, c);
  }

  lemma ReconcileStartsPending(t: Tables, batch: seq<TokenEvent>)
    requires ExactOffDirty(t)
    ensures PendingExact(t.rollup, t.dirty + ReconciledDays(t.events, batch),
                         Pending(Reconciled(t.events, batch), map[]))
  {
    var days, kept := ReconciledDays(t.events, batch), Reconciled(t.events, batch);
    assert WellKeyed(kept);
    forall c | DayOf(c) !in t.dirty + days
      ensures CellAt(t.rollup, c) == CellSum(kept, c)
    {
      ReconcileKeepsCell(t.events, batch, c);
    }
    EmptyDeltas(t.rollup, t.dirty + days, Pending(kept, map[]));
  }

  lemma NoDelta(c: Cell)
    ensures DeltaAt(map[], c) == ZERO
  {
  }

  lemma NothingPending(rollup: map<Cell, Tally>, events: map<DedupKey, Row>, c: Cell)
    requires CellAt(rollup, c) == CellSum(events, c)
    ensures Add(CellAt(rollup, c), ZERO) == CellSum(events, c)
  {
    AddZero(CellAt(rollup, c));
  }

  lemma EmptyDeltas(rollup: map<Cell, Tally>, dirty: set<UserDay>, p: Pending)
    requires WellKeyed(p.events) && p.deltas == map[]
    requires forall c :: DayOf(c) !in dirty ==> CellAt(rollup, c) == CellSum(p.events, c)
    ensures PendingExact(rollup, dirty, p)
  {
    assert DeltasKeyed(p.deltas);
    forall c | DayOf(c) !in dirty
      ensures Add(CellAt(rollup, c), DeltaAt(p.deltas, c)) == CellSum(p.events, c)
    {
      NoDelta(c);
      NothingPending(rollup, p.events, c);
    }
  }

  lemma FlushAddsDeltas(rollup: map<Cell, Tally>, deltas: map<string, Delta>, c: Cell)
    requires DeltasKeyed(deltas)
    requires forall x :: x in rollup ==> rollup[x].n > 0
    ensures CellAt(Flushed(rollup, deltas), c) == Add(CellAt(rollup, c), DeltaAt(deltas, c))
    ensures c in Flushed(rollup, deltas) ==> Flushed(rollup, deltas)[c].n > 0
  {
  }

  /** Draining the queue turns "exact off the queue" into exact. */
  lemma DrainIsExact(t: Tables)
    requires ExactOffDirty(t)
    ensures Exact(Drained(t))
  {
    var r := Repaired(t.rollup, t.dirty, t.events);
    forall c
      ensures CellAt(r, c) == CellSum(t.events, c)
      ensures c in r ==> r[c].n > 0
    {
      GroupNonEmpty(t.events, c);
      OccupiedIffRows(t.events, c);
    }
  }

  /** A group's row count tells whether it has rows. */
  lemma GroupNonEmpty(events: map<DedupKey, Row>, c: Cell)
    ensures RowsOf(events, c) == map[] ==> CellSum(events, c) == ZERO
    ensures RowsOf(events, c) != map[] ==> CellSum(events, c).n > 0
  {
    TotalCounts(RowsOf(events, c));
  }

  lemma OccupiedIffRows(events: map<DedupKey, Row>, c: Cell)
    ensures c in OccupiedCells(events) <==> RowsOf(events, c) != map[]
  {
    if c in OccupiedCells(events) {
      var k :| k in events && CellOf(events[k]) == c;
      assert k in RowsOf(events, c);
    }
    if RowsOf(events, c) != map[] {
      var k :| k in RowsOf(events, c);
    }
  }

  lemma MergeIsExactOffDirty(t: Tables, batch: seq<TokenEvent>)
    requires ExactOffDirty(t)
    requires AllFiledRight(Pending(Reconciled(t.events, batch), map[]), batch,
                           t.dirty + ReconciledDays(t.events, batch))
    ensures ExactOffDirty(Merged(t, batch))
  {
    var p0 := Pending(Reconciled(t.events, batch), map[]);
    ReconcileStartsPending(t, batch);
    var dirty := t.dirty + ReconciledDays(t.events, batch);
    AcceptAllKeepsPending(t.rollup, dirty, p0, batch);
    var p := AcceptAll(p0, batch);
    forall c
      ensures DayOf(c) !in dirty ==> CellAt(Flushed(t.rollup, p.deltas), c) == CellSum(p.events, c)
      ensures c in Flushed(t.rollup, p.deltas) ==> Flushed(t.rollup, p.deltas)[c].n > 0
    {
      FlushAddsDeltas(t.rollup, p.deltas, c);
    }
  }

  /** With handles as ingest validation admits them, insertMany leaves the rollup exact and the
      queue empty, whatever the queue held before. */
  lemma InsertIsExact(t: Tables, batch: seq<TokenEvent>)
    requires ExactOffDirty(t) && PlainHandles(batch)
    ensures Exact(Inserted(t, batch))
  {
    PlainHandlesFileRight(Pending(Reconciled(t.events, batch), map[]), batch,
                          t.dirty + ReconciledDays(t.events, batch));
    MergeIsExactOffDirty(t, batch);
    DrainIsExact(Merged(t, batch));
  }

  lemma EmptyIsExact()
    ensures Exact(EMPTY)
  {
    forall c
      ensures CellSum(EMPTY.events, c) == ZERO
    {
      assert RowsOf(EMPTY.events, c) == map[];
    }
  }

  lemma ClearUserIsExact(t: Tables, user: string)
    requires ExactOffDirty(t)
    ensures ExactOffDirty(ClearedUser(t, user))
  {
    var s := ClearedUser(t, user);
    forall c | DayOf(c) !in s.dirty
      ensures CellAt(s.rollup, c) == CellSum(s.events, c)
    {
      if c.user == user {
        assert RowsOf(s.events, c) == map[];
      } else {
        assert DayOf(c) !in t.dirty;
        assert RowsOf(s.events, c) == RowsOf(t.events, c);
      }
    }
  }

  /** A rebuild is exact from any rollup, however wrong. */
  lemma RebuildIsExact(t: Tables)
    requires WellKeyed(t.events)
    ensures Exact(Rebuilt(t))
  {
    forall c
      ensures CellAt(Grouped(t.events), c) == CellSum(t.events, c)
      ensures c in Grouped(t.events) ==> Grouped(t.events)[c].n > 0
    {
      GroupNonEmpty(t.events, c);
      OccupiedIffRows(t.events, c);
    }
  }

  /** There is only one exact rollup for given events. */
  lemma ExactIsGrouped(t: Tables)
    requires Exact(t)
    ensures t.rollup == Grouped(t.events)
  {
    var g := Grouped(t.events);
    forall c
      ensures c in t.rollup <==> c in g
      ensures c in t.rollup ==> t.rollup[c] == g[c]
    {
      assert CellAt(t.rollup, c) == CellSum(t.events, c);
      GroupNonEmpty(t.events, c);
      OccupiedIffRows(t.events, c);
    }
  }

  // ----- what exactness means for a reader -----

  datatype Column = Input | Output | CacheCreation | CacheRead | Reasoning | StoredCost

  function RowColumn(col: Column, r: Row): int {
    match col
    case Input => r.inputTokens
    case Output => r.outputTokens
    case CacheCreation => r.cacheCreationTokens
    case CacheRead => r.cacheReadTokens
    case Reasoning => r.reasoningTokens.GetOr(0)
    case StoredCost => r.costUsdMicros.GetOr(0)
  }

  function TallyColumn(col: Column, t: Tally): int {
    match col
    case Input => t.input
    case Output => t.output
    case CacheCreation => t.cacheCreation
    case CacheRead => t.cacheRead
    case Reasoning => t.reasoning
    case StoredCost => t.cost
  }

  /** The rows of one (UTC day, user, model, message type, stored-cost) group. */
  ghost function Members(events: map<DedupKey, Row>, c: Cell): set<DedupKey> {
    set k | k in events && CellOf(events[k]) == c
  }

  ghost function ColumnSum(events: map<DedupKey, Row>, keys: set<DedupKey>, col: Column): int
    requires keys <= events.Keys
  {
    if keys == {} then 0
    else
      var k :| k in keys;
      RowColumn(col, events[k]) + ColumnSum(events, keys - {k}, col)
  }

  ghost predicate IsNewest(events: map<DedupKey, Row>, keys: set<DedupKey>, ts: int)
    requires keys <= events.Keys
  {
    && (exists k :: k in keys && events[k].timestamp == ts)
    && (forall k :: k in keys ==> events[k].timestamp <= ts)
  }

  ghost function TalliesOf(events: map<DedupKey, Row>, keys: set<DedupKey>): map<DedupKey, Tally>
    requires keys <= events.Keys
  {
    map k | k in keys :: RowTally(events[k])
  }

  lemma ColumnAdds(col: Column, r: Row, t: Tally)
    ensures TallyColumn(col, Add(RowTally(r), t)) == RowColumn(col, r) + TallyColumn(col, t)
  {
  }

  lemma {:induction false} TotalColumn(events: map<DedupKey, Row>, keys: set<DedupKey>, col: Column)
    requires keys <= events.Keys
    ensures TallyColumn(col, Total(TalliesOf(events, keys))) == ColumnSum(events, keys, col)
  {
    if keys != {} {
      var k :| k in keys
        && ColumnSum(events, keys, col) == RowColumn(col, events[k]) + ColumnSum(events, keys - {k}, col);
      TotalRemove(TalliesOf(events, keys), k);
      assert TalliesOf(events, keys) - {k} == TalliesOf(events, keys - {k});
      TotalColumn(events, keys - {k}, col);
      ColumnAdds(col, events[k], Total(TalliesOf(events, keys - {k})));
    }
  }

  lemma {:induction false} TotalNewest(events: map<DedupKey, Row>, keys: set<DedupKey>)
    requires keys <= events.Keys
    ensures Total(TalliesOf(events, keys)).n == |keys|
    ensures var newest := Total(TalliesOf(events, keys)).maxTs;
            if keys == {} then newest == None else newest.Some? && IsNewest(events, keys, newest.value)
  {
    if keys != {} {
      var k :| k in keys;
      TotalRemove(TalliesOf(events, keys), k);
      assert TalliesOf(events, keys) - {k} == TalliesOf(events, keys - {k});
      TotalNewest(events, keys - {k});
      NewestExtends(events, keys, k, Total(TalliesOf(events, keys - {k})).maxTs);
    }
  }

  /** A group's row count is the number of its rows. */
  lemma CellCount(events: map<DedupKey, Row>, c: Cell)
    ensures CellSum(events, c).n == |Members(events, c)|
  {
    TotalNewest(events, Members(events, c));
    assert RowsOf(events, c) == TalliesOf(events, Members(events, c));
  }

  lemma NewestExtends(events: map<DedupKey, Row>, keys: set<DedupKey>, k: DedupKey, rest: Option<int>)
    requires keys <= events.Keys && k in keys
    requires if keys - {k} == {} then rest == None else rest.Some? && IsNewest(events, keys - {k}, rest.value)
    ensures Later(Some(events[k].timestamp), rest).Some?
    ensures IsNewest(events, keys, Later(Some(events[k].timestamp), rest).value)
  {
    if keys - {k} == {} {
      assert keys == {k};
    } else {
      var j :| j in keys - {k} && events[j].timestamp == rest.value;
      assert j in keys;
    }
  }

  /** An exact rollup has one row for each non-empty group and no other, holding the group's
      row count, column sums and newest timestamp. */
  lemma ExactSpelledOut(t: Tables, c: Cell)
    requires Exact(t)
    ensures c in t.rollup <==> Members(t.events, c) != {}
    ensures c in t.rollup ==>
              && t.rollup[c].n == |Members(t.events, c)|
              && (forall col :: TallyColumn(col, t.rollup[c]) == ColumnSum(t.events, Members(t.events, c), col))
              && t.rollup[c].maxTs.Some? && IsNewest(t.events, Members(t.events, c), t.rollup[c].maxTs.value)
  {
    var keys := Members(t.events, c);
    assert CellAt(t.rollup, c) == CellSum(t.events, c);
    assert RowsOf(t.events, c) == TalliesOf(t.events, keys);
    forall col {
      TotalColumn(t.events, keys, col);
    }
    TotalNewest(t.events, keys);
    GroupNonEmpty(t.events, c);
  }

  // ----- posting a batch twice -----

  /** The first event of a batch with a given dedup key: the one a fresh key stores. */
  function FirstWith(batch: seq<TokenEvent>, k: DedupKey): Option<TokenEvent> {
    if batch == [] then None
    else
      var n := |batch| - 1;
      var before := FirstWith(batch[..n], k);
      if before.Some? then before
      else if KeyOf(RowOf(batch[n])) == k then Some(batch[n])
      else None
  }

  /** The rows after a batch: old rows stay, and each new key stores its first event. */
  lemma {:induction false} AcceptedRows(p: Pending, batch: seq<TokenEvent>, k: DedupKey)
    ensures var after := AcceptAll(p, batch).events;
            && (k in after <==> k in p.events || FirstWith(batch, k).Some?)
            && (k in p.events ==> after[k] == p.events[k])
            && (k !in p.events && k in after ==> after[k] == RowOf(FirstWith(batch, k).value))
  {
    if batch != [] {
      AcceptedRows(p, batch[..|batch| - 1], k);
    }
  }

  /** Posting a batch again changes no row, even when its span deletes rows it re-inserts. */
  lemma PostTwiceKeepsRows(t: Tables, batch: seq<TokenEvent>)
    ensures Inserted(Inserted(t, batch), batch).events == Inserted(t, batch).events
  {
    var once := Inserted(t, batch).events;
    var twice := Inserted(Inserted(t, batch), batch).events;
    forall k
      ensures k in once <==> k in twice
      ensures k in once ==> once[k] == twice[k]
    {
      AcceptedRows(Pending(Reconciled(t.events, batch), map[]), batch, k);
      AcceptedRows(Pending(Reconciled(once, batch), map[]), batch, k);
    }
  }

  /** Posting a batch twice leaves the tables as posting it once. */
  lemma PostTwice(t: Tables, batch: seq<TokenEvent>)
    requires ExactOffDirty(t) && PlainHandles(batch)
    ensures Inserted(Inserted(t, batch), batch) == Inserted(t, batch)
  {
    PostTwiceKeepsRows(t, batch);
    InsertIsExact(t, batch);
    InsertIsExact(Inserted(t, batch), batch);
    ExactIsGrouped(Inserted(t, batch));
    ExactIsGrouped(Inserted(Inserted(t, batch), batch));
  }

  /** Every posted event's key is stored afterwards, and only covered rows ever leave. */
  lemma InsertStores(t: Tables, batch: seq<TokenEvent>)
    ensures forall i :: 0 <= i < |batch| ==> KeyOf(RowOf(batch[i])) in Inserted(t, batch).events
    ensures forall k :: k in t.events && !Covered(t.events[k], batch) ==>
              k in Inserted(t, batch).events && Inserted(t, batch).events[k] == t.events[k]
  {
    var p := Pending(Reconciled(t.events, batch), map[]);
    forall i | 0 <= i < |batch|
      ensures KeyOf(RowOf(batch[i])) in Inserted(t, batch).events
    {
      FirstWithFinds(batch, i);
      AcceptedRows(p, batch, KeyOf(RowOf(batch[i])));
    }
    forall k | k in t.events && !Covered(t.events[k], batch)
      ensures k in Inserted(t, batch).events && Inserted(t, batch).events[k] == t.events[k]
    {
      AcceptedRows(p, batch, k);
    }
  }

  lemma {:induction false} FirstWithFinds(batch: seq<TokenEvent>, i: nat)
    requires i < |batch|
    ensures FirstWith(batch, KeyOf(RowOf(batch[i]))).Some?
  {
    if i < |batch| - 1 {
      FirstWithFinds(batch[..|batch| - 1], i);
    }
  }
}
