/** What the audit compares, column by column, and what it leaves behind. */
module AuditColumns {
  import opened Options
  import opened Events
  import opened Tallies
  import opened DeltaKeys
  import opened Rollup
  import opened RollupProofs
  import opened Audits

  /** The sum over a table's entries. */
  ghost function SumBy<K(!new), V(!new)>(m: map<K, V>, f: (K, V) -> int): int
    decreases |m|
  {
    if m == map[] then 0
    else
      var k :| k in m;
      f(k, m[k]) + SumBy(m - {k}, f)
  }

  lemma {:induction false} SumByRemove<K(!new), V(!new)>(m: map<K, V>, f: (K, V) -> int, k: K)
    requires k in m
    ensures SumBy(m, f) == f(k, m[k]) + SumBy(m - {k}, f)
    decreases |m|
  {
    var j :| j in m && SumBy(m, f) == f(j, m[j]) + SumBy(m - {j}, f);
    if j != k {
      SumByRemove(m - {j}, f, k);
      SumByRemove(m - {k}, f, j);
      assert m - {j} - {k} == m - {k} - {j};
    }
  }

  lemma {:induction false} TotalIsSumBy<K(!new), V(!new)>(all: map<K, V>, tallies: map<K, Tally>, col: Column,
                                                          f: (K, V) -> int, n: (K, V) -> int)
    requires all.Keys == tallies.Keys
    requires forall k :: k in all ==> TallyColumn(col, tallies[k]) == f(k, all[k]) && tallies[k].n == n(k, all[k])
    ensures TallyColumn(col, Total(tallies)) == SumBy(all, f) && Total(tallies).n == SumBy(all, n)
    decreases |all|
  {
    if all == map[] {
      assert tallies == map[];
    } else {
      var k :| k in all;
      SumByRemove(all, f, k);
      SumByRemove(all, n, k);
      TotalRemove(tallies, k);
      TotalIsSumBy(all - {k}, tallies - {k}, col, f, n);
    }
  }

  lemma {:induction false} IntTotalIsSumBy<K(!new), V(!new)>(all: map<K, V>, weights: map<K, int>, f: (K, V) -> int)
    requires all.Keys == weights.Keys && forall k :: k in all ==> weights[k] == f(k, all[k])
    ensures IntTotal(weights) == SumBy(all, f)
    decreases |all|
  {
    if all == map[] {
      assert weights == map[];
    } else {
      var k :| k in all;
      SumByRemove(all, f, k);
      IntTotalRemove(weights, k);
      IntTotalIsSumBy(all - {k}, weights - {k}, f);
    }
  }

  // ----- the columns -----

  /** What the audit compares of a user. */
  datatype Compared = Rows | Of(col: Column) | Days | Answers | Models

  /** The weight of a model name: 131 times its length, 17 times its first code point, and its last. */
  function ModelWeight(model: string): int {
    if |model| == 0 then 0 else 131 * |model| + 17 * (model[0] as int) + (model[|model| - 1] as int)
  }

  /** What a row of the events table contributes. */
  function OfRow(x: Compared, r: Row): int {
    match x
    case Rows => 1
    case Of(col) => RowColumn(col, r)
    case Days => RollDayOf(r.timestamp)
    case Answers => if r.messageType == Assistant then 1 else 0
    case Models => ModelWeight(r.model)
  }

  /** What a cell of the rollup contributes: its sums, and its key's weight once for each of its rows. */
  function OfCell(x: Compared, c: Cell, t: Tally): int {
    match x
    case Rows => t.n
    case Of(col) => TallyColumn(col, t)
    case Days => c.day * t.n
    case Answers => if c.messageType == Assistant then t.n else 0
    case Models => ModelWeight(c.model) * t.n
  }

  function ColumnOf(x: Compared, row: AuditRow): int {
    match x
    case Rows => row.sums.n
    case Of(col) => TallyColumn(col, row.sums)
    case Days => row.daySum
    case Answers => row.assistant
    case Models => row.fingerprint
  }

  /** The column over the user's events. */
  ghost function RowsSum(events: map<DedupKey, Row>, user: string, x: Compared): int {
    SumBy(EventsOfUser(events, user), (k: DedupKey, r: Row) => OfRow(x, r))
  }

  /** The column over the user's cells. */
  ghost function CellsSum(rollup: map<Cell, Tally>, user: string, x: Compared): int {
    SumBy(UserCells(rollup, user), (c: Cell, t: Tally) => OfCell(x, c, t))
  }

  lemma EventSums(events: map<DedupKey, Row>, user: string, col: Column)
    ensures var sums := EventAudit(events, user).sums;
            TallyColumn(col, sums) == RowsSum(events, user, Of(col)) && sums.n == RowsSum(events, user, Rows)
  {
    TotalIsSumBy(EventsOfUser(events, user), UserRows(events, user), col,
                 (k: DedupKey, r: Row) => OfRow(Of(col), r), (k: DedupKey, r: Row) => OfRow(Rows, r));
  }

  lemma EventWeightsSum(events: map<DedupKey, Row>, user: string, w: Weight, x: Compared)
    requires forall r :: WeightOf(w, SqlCellOf(r)) == OfRow(x, r)
    ensures IntTotal(EventWeights(events, user, w)) == RowsSum(events, user, x)
  {
    IntTotalIsSumBy(EventsOfUser(events, user), EventWeights(events, user, w), (k: DedupKey, r: Row) => OfRow(x, r));
  }

  lemma WeightsOfRows(r: Row)
    ensures WeightOf(ByDay, SqlCellOf(r)) == OfRow(Days, r) && WeightOf(ByAssistant, SqlCellOf(r)) == OfRow(Answers, r)
    ensures WeightOf(ByFingerprint, SqlCellOf(r)) == OfRow(Models, r)
  {
    DayExpressionsAgree(r.timestamp);
  }

  lemma EventColumns(events: map<DedupKey, Row>, user: string, x: Compared)
    ensures ColumnOf(x, EventAudit(events, user)) == RowsSum(events, user, x)
  {
    forall r {
      WeightsOfRows(r);
    }
    match x {
      case Rows => EventSums(events, user, Input);
      case Of(col) => EventSums(events, user, col);
      case Days => EventWeightsSum(events, user, ByDay, x);
      case Answers => EventWeightsSum(events, user, ByAssistant, x);
      case Models => EventWeightsSum(events, user, ByFingerprint, x);
    }
  }

  lemma CellSums(rollup: map<Cell, Tally>, user: string, col: Column)
    ensures var sums := RollupAudit(rollup, user).sums;
            TallyColumn(col, sums) == CellsSum(rollup, user, Of(col)) && sums.n == CellsSum(rollup, user, Rows)
  {
    TotalIsSumBy(UserCells(rollup, user), UserCells(rollup, user), col,
                 (c: Cell, t: Tally) => OfCell(Of(col), c, t), (c: Cell, t: Tally) => OfCell(Rows, c, t));
  }

  lemma CellWeightsSum(rollup: map<Cell, Tally>, user: string, w: Weight, x: Compared)
    requires forall c, t: Tally :: WeightOf(w, c) * t.n == OfCell(x, c, t)
    ensures IntTotal(CellWeights(rollup, user, w)) == CellsSum(rollup, user, x)
  {
    IntTotalIsSumBy(UserCells(rollup, user), CellWeights(rollup, user, w), (c: Cell, t: Tally) => OfCell(x, c, t));
  }

  lemma CellColumns(rollup: map<Cell, Tally>, user: string, x: Compared)
    ensures ColumnOf(x, RollupAudit(rollup, user)) == CellsSum(rollup, user, x)
  {
    match x {
      case Rows => CellSums(rollup, user, Input);
      case Of(col) => CellSums(rollup, user, col);
      case Days => CellWeightsSum(rollup, user, ByDay, x);
      case Answers => CellWeightsSum(rollup, user, ByAssistant, x);
      case Models => CellWeightsSum(rollup, user, ByFingerprint, x);
    }
  }

  lemma SameColumnsSameRow(a: AuditRow, b: AuditRow)
    requires a.sums.maxTs == b.sums.maxTs
    ensures a == b <==> forall x :: ColumnOf(x, a) == ColumnOf(x, b)
  {
    if forall x :: ColumnOf(x, a) == ColumnOf(x, b) {
      assert ColumnOf(Rows, a) == ColumnOf(Rows, b) && ColumnOf(Days, a) == ColumnOf(Days, b);
      assert ColumnOf(Answers, a) == ColumnOf(Answers, b) && ColumnOf(Models, a) == ColumnOf(Models, b);
      SumsFromColumns(a, b);
    }
  }

  lemma SumsFromColumns(a: AuditRow, b: AuditRow)
    requires forall x :: ColumnOf(x, a) == ColumnOf(x, b)
    ensures a.sums.input == b.sums.input && a.sums.output == b.sums.output && a.sums.cost == b.sums.cost
    ensures a.sums.cacheCreation == b.sums.cacheCreation && a.sums.cacheRead == b.sums.cacheRead
    ensures a.sums.reasoning == b.sums.reasoning
  {
    assert ColumnOf(Of(Input), a) == ColumnOf(Of(Input), b) && ColumnOf(Of(Output), a) == ColumnOf(Of(Output), b);
    assert ColumnOf(Of(CacheCreation), a) == ColumnOf(Of(CacheCreation), b);
    assert ColumnOf(Of(CacheRead), a) == ColumnOf(Of(CacheRead), b);
    assert ColumnOf(Of(Reasoning), a) == ColumnOf(Of(Reasoning), b);
    assert ColumnOf(Of(StoredCost), a) == ColumnOf(Of(StoredCost), b);
  }

  /** The audit reports exactly the users that have rows on one side only, or for whom one of the ten columns adds up
      to another value over the user's events than over the user's cells. */
  lemma MismatchedIff(t: Tables, user: string)
    ensures user in Mismatched(t) <==>
            || !(EventsOfUser(t.events, user) == map[] <==> UserCells(t.rollup, user) == map[])
            || (EventsOfUser(t.events, user) != map[]
                && exists x :: RowsSum(t.events, user, x) != CellsSum(t.rollup, user, x))
  {
    HasRows(t, user);
    RowsDifferIff(t, user);
  }

  lemma RowsDifferIff(t: Tables, user: string)
    ensures EventAudit(t.events, user) == RollupAudit(t.rollup, user) <==>
            forall x :: RowsSum(t.events, user, x) == CellsSum(t.rollup, user, x)
  {
    var a, b := EventAudit(t.events, user), RollupAudit(t.rollup, user);
    SameColumnsSameRow(a, b);
    forall x
      ensures ColumnOf(x, a) == RowsSum(t.events, user, x) && ColumnOf(x, b) == CellsSum(t.rollup, user, x)
    {
      EventColumns(t.events, user, x);
      CellColumns(t.rollup, user, x);
    }
  }

  lemma HasRows(t: Tables, user: string)
    ensures user in EventUsers(t.events) <==> EventsOfUser(t.events, user) != map[]
    ensures user in RollupUsers(t.rollup) <==> UserCells(t.rollup, user) != map[]
  {
    if user in EventUsers(t.events) {
      var k :| k in t.events && t.events[k].user == user;
      assert k in EventsOfUser(t.events, user);
    }
    if user in RollupUsers(t.rollup) {
      var c :| c in t.rollup && c.user == user;
      assert c in UserCells(t.rollup, user);
    }
  }

  /** An audit changes no event and empties the queue; it groups the events anew if it was forced, or was to repair
      and found a mismatch once the queue was drained, and otherwise leaves the drained rollup. */
  lemma AuditsExactly(t: Tables, repair: bool, force: bool)
    ensures var r := Audited(t, repair, force);
            && r.events == t.events && r.dirty == {}
            && r.rollup == if force || (repair && Mismatched(Drained(t)) != {}) then Grouped(t.events)
                           else Repaired(t.rollup, t.dirty, t.events)
  {
  }

  /** Clearing a user removes that user's events, cells and queued days, and nothing of anyone else. */
  lemma ClearsExactly(t: Tables, user: string)
    ensures var r := ClearedUser(t, user);
            && (forall k :: k in r.events <==> k in t.events && t.events[k].user != user)
            && (forall k :: k in r.events ==> r.events[k] == t.events[k])
            && (forall c :: c in r.rollup <==> c in t.rollup && c.user != user)
            && (forall c :: c in r.rollup ==> r.rollup[c] == t.rollup[c])
            && (forall d :: d in r.dirty <==> d in t.dirty && d.user != user)
  {
  }
}
