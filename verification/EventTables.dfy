/** The events table as rows in the order they were written, under its unique index. */
module EventTables {
  import opened Options
  import opened Events
  import opened Rollup
  import opened RollupProofs
  import opened Audits

  /** The unique index: user, source, message id, request id with NULL as the empty text, message type. */
  predicate Conflicts(a: Row, b: Row) {
    && a.user == b.user && a.source == b.source && a.messageId == b.messageId
    && a.requestId.GetOr("") == b.requestId.GetOr("") && a.messageType == b.messageType
  }

  /** INSERT ... ON CONFLICT DO NOTHING. */
  function Offered(rows: seq<Row>, r: Row): seq<Row> {
    if exists i :: 0 <= i < |rows| && Conflicts(rows[i], r) then rows else rows + [r]
  }

  method InsertOrIgnore(rows: seq<Row>, r: Row) returns (next: seq<Row>, changes: nat)
    ensures next == Offered(rows, r) && changes == |next| - |rows|
  {
    for i := 0 to |rows|
      invariant forall k :: 0 <= k < i ==> !Conflicts(rows[k], r)
    {
      if Conflicts(rows[i], r) {
        return rows, 0;
      }
    }
    return rows + [r], 1;
  }

  ghost function OfferedAll(rows: seq<Row>, batch: seq<TokenEvent>): seq<Row> {
    if batch == [] then rows else Offered(OfferedAll(rows, batch[..|batch| - 1]), RowOf(batch[|batch| - 1]))
  }

  /** DELETE ... WHERE: the rows to keep stay in order. */
  function Filtered(rows: seq<Row>, keep: Row -> bool): seq<Row> {
    if rows == [] then []
    else
      var n := |rows| - 1;
      Filtered(rows[..n], keep) + if keep(rows[n]) then [rows[n]] else []
  }

  /** What each operation on the store does to the rows. */
  ghost function ApplyToRows(rows: seq<Row>, op: Op): seq<Row> {
    match op
    case Insert(batch) => OfferedAll(Filtered(rows, (r: Row) => !Covered(r, batch)), batch)
    case ClearAll => []
    case ClearUser(user) => Filtered(rows, (r: Row) => r.user != user)
    case Rebuild => rows
    case Audit(_, _) => rows
  }

  ghost function RunOnRows(ops: seq<Op>): seq<Row> {
    if ops == [] then [] else ApplyToRows(RunOnRows(ops[..|ops| - 1]), ops[|ops| - 1])
  }

  ghost predicate NoConflicts(rows: seq<Row>) {
    forall i, j :: 0 <= i < j < |rows| ==> !Conflicts(rows[i], rows[j])
  }

  ghost predicate HasKey(rows: seq<Row>, k: DedupKey) {
    exists i :: 0 <= i < |rows| && KeyOf(rows[i]) == k
  }

  /** The rows are those of the keyed table, each exactly once. */
  ghost predicate Represents(rows: seq<Row>, events: map<DedupKey, Row>) {
    && NoConflicts(rows)
    && (forall i :: 0 <= i < |rows| ==> KeyOf(rows[i]) in events && events[KeyOf(rows[i])] == rows[i])
    && (forall k :: k in events ==> HasKey(rows, k))
  }

  lemma OfferRepresents(rows: seq<Row>, p: Pending, e: TokenEvent)
    requires Represents(rows, p.events)
    ensures Represents(Offered(rows, RowOf(e)), Accept(p, e).events)
  {
    var r, next := RowOf(e), Offered(rows, RowOf(e));
    if i :| 0 <= i < |rows| && Conflicts(rows[i], r) {
      assert KeyOf(rows[i]) == KeyOf(r);
    } else {
      assert KeyOf(r) !in p.events;
      forall k | k in Accept(p, e).events
        ensures HasKey(next, k)
      {
        if k == KeyOf(r) {
          assert next[|rows|] == r;
        } else {
          var i :| 0 <= i < |rows| && KeyOf(rows[i]) == k;
          assert next[i] == rows[i];
        }
      }
    }
  }

  lemma {:induction false} OffersRepresent(rows: seq<Row>, p: Pending, batch: seq<TokenEvent>)
    requires Represents(rows, p.events)
    ensures Represents(OfferedAll(rows, batch), AcceptAll(p, batch).events)
  {
    if batch != [] {
      var n := |batch| - 1;
      OffersRepresent(rows, p, batch[..n]);
      OfferRepresents(OfferedAll(rows, batch[..n]), AcceptAll(p, batch[..n]), batch[n]);
    }
  }

  lemma {:induction false} FilteredAre(rows: seq<Row>, keep: Row -> bool, r: Row)
    ensures r in Filtered(rows, keep) <==> r in rows && keep(r)
  {
    if rows != [] {
      var n := |rows| - 1;
      FilteredAre(rows[..n], keep, r);
      assert rows == rows[..n] + [rows[n]];
    }
  }

  lemma {:induction false} FilteredKeepsApart(rows: seq<Row>, keep: Row -> bool)
    requires NoConflicts(rows)
    ensures NoConflicts(Filtered(rows, keep))
  {
    if rows != [] {
      var n := |rows| - 1;
      FilteredKeepsApart(rows[..n], keep);
      forall r | r in Filtered(rows[..n], keep)
        ensures !Conflicts(r, rows[n])
      {
        FilteredAre(rows[..n], keep, r);
      }
    }
  }

  lemma FilterRepresents(rows: seq<Row>, events: map<DedupKey, Row>, keep: Row -> bool)
    requires Represents(rows, events)
    ensures Represents(Filtered(rows, keep), map k | k in events && keep(events[k]) :: events[k])
  {
    var kept, left := Filtered(rows, keep), map k | k in events && keep(events[k]) :: events[k];
    FilteredKeepsApart(rows, keep);
    forall i | 0 <= i < |kept|
      ensures KeyOf(kept[i]) in left && left[KeyOf(kept[i])] == kept[i]
    {
      FilteredAre(rows, keep, kept[i]);
    }
    forall k | k in left
      ensures HasKey(kept, k)
    {
      var i :| 0 <= i < |rows| && KeyOf(rows[i]) == k;
      FilteredAre(rows, keep, rows[i]);
    }
  }

  lemma ApplyRepresents(rows: seq<Row>, t: Tables, op: Op)
    requires Represents(rows, t.events)
    ensures Represents(ApplyToRows(rows, op), Apply(t, op).events)
  {
    match op {
      case Insert(batch) =>
        FilterRepresents(rows, t.events, (r: Row) => !Covered(r, batch));
        OffersRepresent(Filtered(rows, (r: Row) => !Covered(r, batch)),
                        Pending(Reconciled(t.events, batch), map[]), batch);
      case ClearUser(user) => FilterRepresents(rows, t.events, (r: Row) => r.user != user);
      case _ =>
    }
  }

  /** Over any run of inserts, clears, rebuilds and audits no two rows of the events table agree on the
      columns of the unique index, and the table holds exactly the rows the rollup is computed from. */
  lemma {:induction false} RowsNeverConflict(ops: seq<Op>)
    ensures NoConflicts(RunOnRows(ops)) && Represents(RunOnRows(ops), Run(EMPTY, ops).events)
  {
    if ops != [] {
      var n := |ops| - 1;
      RowsNeverConflict(ops[..n]);
      ApplyRepresents(RunOnRows(ops[..n]), Run(EMPTY, ops[..n]), ops[n]);
    }
  }
}
