/** What insertMany stores and adds up, in the columns of the events that were posted. */
module StoredColumns {
  import opened Options
  import opened Events
  import opened Tallies
  import opened DeltaKeys
  import opened Rollup
  import opened RollupProofs

  // ----- rows -----

  /** The dedup key in the event's own columns. */
  function EventKey(e: TokenEvent): DedupKey {
    DedupKey(e.user, e.source, e.messageId, e.requestId.GetOr(""), e.messageType.GetOr(Assistant))
  }

  /** Every column of the row is the event's; an event without a message type is an assistant's. */
  ghost predicate HoldsColumns(r: Row, e: TokenEvent) {
    && r.user == e.user && r.source == e.source && r.sessionId == e.sessionId && r.messageId == e.messageId
    && r.requestId == e.requestId && r.timestamp == e.timestamp && r.model == e.model
    && r.messageType == (if e.messageType.Some? then e.messageType.value else Assistant)
    && r.inputTokens == e.inputTokens && r.outputTokens == e.outputTokens
    && r.cacheCreationTokens == e.cacheCreationTokens && r.cacheReadTokens == e.cacheReadTokens
    && r.reasoningTokens == e.reasoningTokens && r.costUsdMicros == e.costUsdMicros
  }

  lemma RowColumns(e: TokenEvent)
    ensures HoldsColumns(RowOf(e), e) && KeyOf(RowOf(e)) == EventKey(e)
  {
  }

  /** The stored row is a local Cursor estimate that cloud events of its user in the batch enclose. */
  ghost predicate Replaced(r: Row, batch: seq<TokenEvent>) {
    && r.source == CursorLocal && r.messageType == Assistant
    && exists i, j :: && 0 <= i < |batch| && batch[i].source == Cursor && batch[i].user == r.user
                      && 0 <= j < |batch| && batch[j].source == Cursor && batch[j].user == r.user
                      && batch[i].timestamp <= r.timestamp <= batch[j].timestamp
  }

  lemma ReplacedIsCovered(r: Row, batch: seq<TokenEvent>)
    ensures Replaced(r, batch) <==> Covered(r, batch)
  {
    if Covered(r, batch) {
      var i :| 0 <= i < |batch| && batch[i].source == Cursor && batch[i].user == r.user
        && batch[i].timestamp <= r.timestamp;
      var j :| 0 <= j < |batch| && batch[j].source == Cursor && batch[j].user == r.user
        && r.timestamp <= batch[j].timestamp;
    }
  }

  /** The table keeps a row under this key. */
  ghost predicate Keeps(events: map<DedupKey, Row>, batch: seq<TokenEvent>, k: DedupKey) {
    k in events && !Replaced(events[k], batch)
  }

  /** The batch's event `i` is the first with its key, and the table keeps none under it. */
  ghost predicate Adds(events: map<DedupKey, Row>, batch: seq<TokenEvent>, i: nat)
    requires i < |batch|
  {
    !Keeps(events, batch, EventKey(batch[i])) && forall j :: 0 <= j < i ==> EventKey(batch[j]) != EventKey(batch[i])
  }

  lemma {:induction false} FirstWithIs(batch: seq<TokenEvent>, k: DedupKey, i: nat)
    requires i < |batch| && EventKey(batch[i]) == k && forall j :: 0 <= j < i ==> EventKey(batch[j]) != k
    ensures FirstWith(batch, k) == Some(batch[i])
  {
    var n := |batch| - 1;
    if i < n {
      FirstWithIs(batch[..n], k, i);
    } else {
      NoneWith(batch[..n], k);
    }
  }

  lemma {:induction false} NoneWith(batch: seq<TokenEvent>, k: DedupKey)
    requires forall j :: 0 <= j < |batch| ==> EventKey(batch[j]) != k
    ensures FirstWith(batch, k) == None
  {
    if batch != [] {
      NoneWith(batch[..|batch| - 1], k);
    }
  }

  /** After insertMany the table holds under each key the row it kept, or else the columns of the first
      event of the batch with that key; and nothing else. */
  lemma InsertHoldsColumns(t: Tables, batch: seq<TokenEvent>)
    ensures var after := Inserted(t, batch).events;
            && (forall k :: Keeps(t.events, batch, k) ==> k in after && after[k] == t.events[k])
            && (forall i :: 0 <= i < |batch| && Adds(t.events, batch, i) ==>
                  EventKey(batch[i]) in after && HoldsColumns(after[EventKey(batch[i])], batch[i]))
            && (forall k :: k in after ==>
                  Keeps(t.events, batch, k) || exists i :: 0 <= i < |batch| && EventKey(batch[i]) == k)
  {
    var p := Pending(Reconciled(t.events, batch), map[]);
    KeptAreReconciled(t.events, batch);
    forall k
      ensures Keeps(t.events, batch, k) ==>
                k in Inserted(t, batch).events && Inserted(t, batch).events[k] == t.events[k]
      ensures k in Inserted(t, batch).events ==>
                Keeps(t.events, batch, k) || exists i :: 0 <= i < |batch| && EventKey(batch[i]) == k
    {
      AcceptedRows(p, batch, k);
      if forall i :: 0 <= i < |batch| ==> EventKey(batch[i]) != k {
        NoneWith(batch, k);
      }
    }
    forall i | 0 <= i < |batch| && Adds(t.events, batch, i)
      ensures EventKey(batch[i]) in Inserted(t, batch).events
      ensures HoldsColumns(Inserted(t, batch).events[EventKey(batch[i])], batch[i])
    {
      FirstWithIs(batch, EventKey(batch[i]), i);
      AcceptedRows(p, batch, EventKey(batch[i]));
      RowColumns(batch[i]);
    }
  }

  lemma KeptAreReconciled(events: map<DedupKey, Row>, batch: seq<TokenEvent>)
    ensures forall k :: Keeps(events, batch, k) <==> k in Reconciled(events, batch)
  {
    forall k | k in events {
      ReplacedIsCovered(events[k], batch);
    }
  }

  // ----- sums -----

  /** The event belongs to the group: its UTC day, user, model, message type and whether its cost is stored. */
  ghost predicate InGroup(e: TokenEvent, c: Cell) {
    && c.day * 86_400_000 <= e.timestamp < (c.day + 1) * 86_400_000
    && c.user == e.user && c.model == e.model && c.messageType == e.messageType.GetOr(Assistant)
    && (c.hasStored <==> e.costUsdMicros.Some? && e.costUsdMicros.value > 0)
  }

  function EventColumn(col: Column, e: TokenEvent): int {
    match col
    case Input => e.inputTokens
    case Output => e.outputTokens
    case CacheCreation => e.cacheCreationTokens
    case CacheRead => e.cacheReadTokens
    case Reasoning => if e.reasoningTokens.Some? then e.reasoningTokens.value else 0
    case StoredCost => if e.costUsdMicros.Some? then e.costUsdMicros.value else 0
  }

  /** How many of the first `n` events of the batch the table takes into a group. */
  ghost function Taken(events: map<DedupKey, Row>, batch: seq<TokenEvent>, n: nat, c: Cell): nat
    requires n <= |batch|
  {
    if n == 0 then 0
    else Taken(events, batch, n - 1, c) + if Adds(events, batch, n - 1) && InGroup(batch[n - 1], c) then 1 else 0
  }

  /** The sum of one column of theirs. */
  ghost function Growth(events: map<DedupKey, Row>, batch: seq<TokenEvent>, n: nat, c: Cell, col: Column): int
    requires n <= |batch|
  {
    if n == 0 then 0
    else Growth(events, batch, n - 1, c, col)
         + if Adds(events, batch, n - 1) && InGroup(batch[n - 1], c) then EventColumn(col, batch[n - 1]) else 0
  }

  lemma GroupOfEvent(e: TokenEvent, c: Cell)
    ensures InGroup(e, c) <==> CellOf(RowOf(e)) == c
  {
    DayRange(e.timestamp, c.day);
  }

  lemma ColumnsAdd(col: Column, a: Tally, b: Tally)
    ensures TallyColumn(col, Add(a, b)) == TallyColumn(col, a) + TallyColumn(col, b) && Add(a, b).n == a.n + b.n
  {
  }

  lemma EventTally(e: TokenEvent, col: Column)
    ensures TallyColumn(col, RowTally(RowOf(e))) == EventColumn(col, e) && RowTally(RowOf(e)).n == 1
  {
  }

  /** The events after the first `n` of the batch. */
  ghost function RowsAfter(events: map<DedupKey, Row>, batch: seq<TokenEvent>, n: nat): map<DedupKey, Row>
    requires n <= |batch|
  {
    AcceptAll(Pending(Reconciled(events, batch), map[]), batch[..n]).events
  }

  lemma {:induction false} NewIffAdds(events: map<DedupKey, Row>, batch: seq<TokenEvent>, i: nat)
    requires i < |batch|
    ensures EventKey(batch[i]) !in RowsAfter(events, batch, i) <==> Adds(events, batch, i)
  {
    var p, k := Pending(Reconciled(events, batch), map[]), EventKey(batch[i]);
    KeptAreReconciled(events, batch);
    AcceptedRows(p, batch[..i], k);
    if forall j :: 0 <= j < i ==> EventKey(batch[j]) != k {
      NoneWith(batch[..i], k);
    } else {
      var j :| 0 <= j < i && EventKey(batch[j]) == k;
      FirstWithFinds(batch[..i], j);
      assert batch[..i][j] == batch[j];
    }
  }

  lemma OneMoreRow(events: map<DedupKey, Row>, batch: seq<TokenEvent>, n: nat)
    requires 0 < n <= |batch|
    ensures var r, before := RowOf(batch[n - 1]), RowsAfter(events, batch, n - 1);
            RowsAfter(events, batch, n) == if KeyOf(r) in before then before else before[KeyOf(r) := r]
  {
    assert batch[..n][..n - 1] == batch[..n - 1];
  }

  lemma OneEventGrows(events: map<DedupKey, Row>, batch: seq<TokenEvent>, n: nat, c: Cell, col: Column)
    requires 0 < n <= |batch|
    ensures var e, before, after := batch[n - 1], CellSum(RowsAfter(events, batch, n - 1), c),
                                    CellSum(RowsAfter(events, batch, n), c);
            if Adds(events, batch, n - 1) && InGroup(e, c)
            then TallyColumn(col, after) == TallyColumn(col, before) + EventColumn(col, e) && after.n == before.n + 1
            else after == before
  {
    var e, before := batch[n - 1], RowsAfter(events, batch, n - 1);
    OneMoreRow(events, batch, n);
    NewIffAdds(events, batch, n - 1);
    RowColumns(e);
    GroupOfEvent(e, c);
    if KeyOf(RowOf(e)) !in before {
      InsertCellSum(before, RowOf(e), c);
      ColumnsAdd(col, CellSum(before, c), RowTally(RowOf(e)));
      EventTally(e, col);
    }
  }

  lemma {:induction false} SumGrows(events: map<DedupKey, Row>, batch: seq<TokenEvent>, n: nat, c: Cell, col: Column)
    requires n <= |batch|
    ensures var before, after := CellSum(Reconciled(events, batch), c), CellSum(RowsAfter(events, batch, n), c);
            && TallyColumn(col, after) == TallyColumn(col, before) + Growth(events, batch, n, c, col)
            && after.n == before.n + Taken(events, batch, n, c)
  {
    if n > 0 {
      SumGrows(events, batch, n - 1, c, col);
      OneEventGrows(events, batch, n, c, col);
    } else {
      assert batch[..0] == [];
    }
  }

  /** In an exact store, insertMany raises each column of each group by what the events it takes carry in
      that column, and the row count by their number, once the rows the batch replaces are gone. */
  lemma InsertGrows(t: Tables, batch: seq<TokenEvent>, c: Cell, col: Column)
    requires Exact(t) && PlainHandles(batch)
    ensures var after, left := CellAt(Inserted(t, batch).rollup, c), CellSum(Reconciled(t.events, batch), c);
            && TallyColumn(col, after) == TallyColumn(col, left) + Growth(t.events, batch, |batch|, c, col)
            && after.n == left.n + Taken(t.events, batch, |batch|, c)
            && ((forall k :: k in t.events && CellOf(t.events[k]) == c ==> !Replaced(t.events[k], batch)) ==>
                  left == CellAt(t.rollup, c))
  {
    InsertIsExact(t, batch);
    SumGrows(t.events, batch, |batch|, c, col);
    assert batch[..|batch|] == batch;
    if forall k :: k in t.events && CellOf(t.events[k]) == c ==> !Replaced(t.events[k], batch) {
      NothingReplaced(t.events, batch, c);
    }
  }

  lemma NothingReplaced(events: map<DedupKey, Row>, batch: seq<TokenEvent>, c: Cell)
    requires forall k :: k in events && CellOf(events[k]) == c ==> !Replaced(events[k], batch)
    ensures CellSum(Reconciled(events, batch), c) == CellSum(events, c)
  {
    KeptAreReconciled(events, batch);
    assert RowsOf(Reconciled(events, batch), c) == RowsOf(events, c);
  }
}
