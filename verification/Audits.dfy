/** The per-user audit of the rollup, and whole runs of store operations. */
module Audits {
  import opened Options
  import opened Events
  import opened Tallies
  import opened DeltaKeys
  import opened Rollup
  import opened RollupProofs
  import opened Windows

  function EventUsers(events: map<DedupKey, Row>): set<string> {
    set k | k in events :: events[k].user
  }

  function RollupUsers(rollup: map<Cell, Tally>): set<string> {
    set c | c in rollup :: c.user
  }

  /** Length, first and last code point of a model name, weighted as the audit weighs them. */
  function Fingerprint(model: string): int {
    if model == "" then 0
    else |model| * 131 + (model[0] as int) * 17 + (model[|model| - 1] as int)
  }

  /** The columns the audit compares: row count, token and cost sums, and three weighted counts. */
  datatype AuditRow = AuditRow(sums: Tally, daySum: int, assistant: int, fingerprint: int)

  datatype Weight = ByDay | ByAssistant | ByFingerprint

  /** What one row of a cell adds to a weighted count. */
  function WeightOf(w: Weight, c: Cell): int {
    match w
    case ByDay => c.day
    case ByAssistant => if c.messageType.Assistant? then 1 else 0
    case ByFingerprint => Fingerprint(c.model)
  }

  /** The sum of a table of integers. */
  ghost function IntTotal<K>(m: map<K, int>): int {
    if m == map[] then 0
    else
      var k :| k in m;
      m[k] + IntTotal(m - {k})
  }

  function EventWeights(events: map<DedupKey, Row>, user: string, w: Weight): map<DedupKey, int> {
    map k | k in events && events[k].user == user :: WeightOf(w, SqlCellOf(events[k]))
  }

  /** On the rollup side a cell stands for `n` rows, so its weight counts `n` times. */
  function CellWeights(rollup: map<Cell, Tally>, user: string, w: Weight): map<Cell, int> {
    map c | c in rollup && c.user == user :: WeightOf(w, c) * rollup[c].n
  }

  function UserRows(events: map<DedupKey, Row>, user: string): map<DedupKey, Tally> {
    map k | k in events && events[k].user == user :: RowTally(events[k])
  }

  function UserCells(rollup: map<Cell, Tally>, user: string): map<Cell, Tally> {
    map c | c in rollup && c.user == user :: rollup[c]
  }

  /** One row of the audit over raw events: GROUP BY user. */
  ghost function EventAudit(events: map<DedupKey, Row>, user: string): AuditRow {
    AuditRow(Total(UserRows(events, user)).(maxTs := None),
             IntTotal(EventWeights(events, user, ByDay)),
             IntTotal(EventWeights(events, user, ByAssistant)),
             IntTotal(EventWeights(events, user, ByFingerprint)))
  }

  /** One row of the audit over the rollup. */
  ghost function RollupAudit(rollup: map<Cell, Tally>, user: string): AuditRow {
    AuditRow(Total(UserCells(rollup, user)).(maxTs := None),
             IntTotal(CellWeights(rollup, user, ByDay)),
             IntTotal(CellWeights(rollup, user, ByAssistant)),
             IntTotal(CellWeights(rollup, user, ByFingerprint)))
  }

  /** The user's rows exist on one side only, or their audited columns differ. */
  ghost predicate Differs(t: Tables, user: string) {
    || !(user in EventUsers(t.events) <==> user in RollupUsers(t.rollup))
    || EventAudit(t.events, user) != RollupAudit(t.rollup, user)
  }

  ghost function Mismatched(t: Tables): set<string> {
    set u | u in EventUsers(t.events) + RollupUsers(t.rollup) && Differs(t, u)
  }

  /** The tables after auditRollup. */
  ghost function Audited(t: Tables, repair: bool, force: bool): Tables {
    if force then Rebuilt(t)
    else if Mismatched(Drained(t)) != {} && repair then Rebuilt(Drained(t))
    else Drained(t)
  }

  lemma {:induction false} IntTotalRemove<K>(m: map<K, int>, k: K)
    requires k in m
    ensures IntTotal(m) == m[k] + IntTotal(m - {k})
    decreases |m|
  {
    var j :| j in m && IntTotal(m) == m[j] + IntTotal(m - {j});
    if j != k {
      IntTotalRemove(m - {j}, k);
      IntTotalRemove(m - {k}, j);
      assert m - {j} - {k} == m - {k} - {j};
    }
  }

  lemma {:induction false} IntTotalSplits<K(!new)>(m: map<K, int>, a: map<K, int>, b: map<K, int>)
    requires forall k :: k in m <==> k in a || k in b
    requires forall k :: k in a ==> k !in b && m[k] == a[k]
    requires forall k :: k in b ==> m[k] == b[k]
    ensures IntTotal(m) == IntTotal(a) + IntTotal(b)
    decreases |a|
  {
    if a == map[] {
      assert m == b;
    } else {
      var k :| k in a;
      IntTotalRemove(a, k);
      IntTotalRemove(m, k);
      IntTotalSplits(m - {k}, a - {k}, b);
    }
  }

  /** Equal weights add up to weight times count. */
  lemma {:induction false} EqualWeights<K(!new)>(m: map<K, int>, w: int)
    requires forall k :: k in m ==> m[k] == w
    ensures IntTotal(m) == w * |m|
    decreases |m|
  {
    if m != map[] {
      var k :| k in m;
      IntTotalRemove(m, k);
      EqualWeights(m - {k}, w);
      OneMore(w, |m|, |m - {k}|);
    }
  }

  lemma OneMore(w: int, n: int, fewer: int)
    requires n == fewer + 1
    ensures w * n == w + w * fewer
  {
  }

  ghost function WeightsBehind(events: map<DedupKey, Row>, cells: set<Cell>, w: Weight): map<DedupKey, int> {
    map k | k in events && CellOf(events[k]) in cells :: WeightOf(w, CellOf(events[k]))
  }

  ghost function WeightsOf(rollup: map<Cell, Tally>, cells: set<Cell>, w: Weight): map<Cell, int>
    requires cells <= rollup.Keys
  {
    map c | c in cells :: WeightOf(w, c) * rollup[c].n
  }

  lemma CellCounts(t: Tables, c: Cell)
    requires Exact(t) && c in t.rollup
    ensures t.rollup[c].n == |RowsOf(t.events, c)|
  {
    assert CellAt(t.rollup, c) == CellSum(t.events, c);
    TotalCounts(RowsOf(t.events, c));
  }

  lemma OneCellWeight(t: Tables, c: Cell, w: Weight)
    requires Exact(t) && c in t.rollup
    ensures IntTotal(WeightsBehind(t.events, {c}, w)) == WeightOf(w, c) * t.rollup[c].n
  {
    EqualWeights(WeightsBehind(t.events, {c}, w), WeightOf(w, c));
    CellCounts(t, c);
    assert WeightsBehind(t.events, {c}, w).Keys == RowsOf(t.events, c).Keys;
  }

  /** A cell's weight times its row count is the weight of its rows, whatever cells are added up. */
  lemma {:induction false} CellWeightsAreRowWeights(t: Tables, cells: set<Cell>, w: Weight)
    requires Exact(t) && cells <= t.rollup.Keys
    ensures IntTotal(WeightsOf(t.rollup, cells, w)) == IntTotal(WeightsBehind(t.events, cells, w))
  {
    if cells == {} {
      assert WeightsOf(t.rollup, cells, w) == map[] && WeightsBehind(t.events, cells, w) == map[];
    } else {
      var c :| c in cells;
      CellWeightsAreRowWeights(t, cells - {c}, w);
      IntTotalRemove(WeightsOf(t.rollup, cells, w), c);
      assert WeightsOf(t.rollup, cells, w) - {c} == WeightsOf(t.rollup, cells - {c}, w);
      OneCellWeight(t, c, w);
      IntTotalSplits(WeightsBehind(t.events, cells, w), WeightsBehind(t.events, {c}, w),
                     WeightsBehind(t.events, cells - {c}, w));
    }
  }

  /** The rows of one user are the rows behind that user's cells. */
  lemma UserRowsBehind(t: Tables, user: string, cells: set<Cell>, w: Weight)
    requires Exact(t) && cells == set c | c in t.rollup && c.user == user
    ensures EventWeights(t.events, user, w) == WeightsBehind(t.events, cells, w)
    ensures UserRows(t.events, user) == RowsBehind(t.events, cells)
  {
    forall k | k in t.events
      ensures CellOf(t.events[k]) in t.rollup && SqlCellOf(t.events[k]) == CellOf(t.events[k])
    {
      RowHasCell(t, k);
      DayExpressionsAgree(t.events[k].timestamp);
    }
  }

  lemma UserWeightsEqual(t: Tables, user: string, w: Weight)
    requires Exact(t)
    ensures IntTotal(EventWeights(t.events, user, w)) == IntTotal(CellWeights(t.rollup, user, w))
  {
    var cells := set c | c in t.rollup && c.user == user;
    CellWeightsAreRowWeights(t, cells, w);
    UserRowsBehind(t, user, cells, w);
    assert CellWeights(t.rollup, user, w) == WeightsOf(t.rollup, cells, w);
  }

  lemma UserSumsEqual(t: Tables, user: string)
    requires Exact(t)
    ensures Total(UserRows(t.events, user)) == Total(UserCells(t.rollup, user))
  {
    var cells := set c | c in t.rollup && c.user == user;
    CellsAreRows(t, cells);
    UserRowsBehind(t, user, cells, ByDay);
    assert Picked(t.rollup, cells) == UserCells(t.rollup, user);
  }

  lemma AuditsEqual(t: Tables, user: string)
    requires Exact(t)
    ensures EventAudit(t.events, user) == RollupAudit(t.rollup, user)
    ensures user in EventUsers(t.events) <==> user in RollupUsers(t.rollup)
  {
    UserSumsEqual(t, user);
    UserWeightsEqual(t, user, ByDay);
    UserWeightsEqual(t, user, ByAssistant);
    UserWeightsEqual(t, user, ByFingerprint);
    if user in EventUsers(t.events) {
      var k :| k in t.events && t.events[k].user == user;
      RowHasCell(t, k);
    }
    if user in RollupUsers(t.rollup) {
      var c :| c in t.rollup && c.user == user;
      CellHasRow(t, c);
    }
  }

  /** An exact rollup always passes the audit, so a failing audit always means a wrong rollup. */
  lemma ExactPassesAudit(t: Tables)
    requires Exact(t)
    ensures Mismatched(t) == {}
  {
    forall u {
      AuditsEqual(t, u);
    }
  }

  /** A repairing audit that reports a mismatch, and any forced one, ends exact. */
  lemma AuditRepairs(t: Tables, force: bool)
    requires WellKeyed(t.events)
    requires force || Mismatched(Drained(t)) != {}
    ensures Exact(Audited(t, true, force))
  {
    RebuildIsExact(t);
    RebuildIsExact(Drained(t));
  }

  /** The audit rebuilds nothing when the queue accounts for every wrong cell. */
  lemma AuditKeepsExact(t: Tables, repair: bool, force: bool)
    requires ExactOffDirty(t)
    ensures Exact(Audited(t, repair, force))
    ensures !force ==> Audited(t, repair, force) == Drained(t)
  {
    DrainIsExact(t);
    ExactPassesAudit(Drained(t));
    RebuildIsExact(t);
  }

  // ----- renames behind the rollup's back -----

  /** The events table after some rows got another model name. */
  ghost function Relabelled(events: map<DedupKey, Row>, names: map<DedupKey, string>): map<DedupKey, Row> {
    map k | k in events :: if k in names then events[k].(model := names[k]) else events[k]
  }

  /** The rollup still names the models the rows had before. */
  ghost function Renamed(t: Tables, names: map<DedupKey, string>): Tables {
    t.(events := Relabelled(t.events, names))
  }

  ghost function FingerprintSum(events: map<DedupKey, Row>, user: string): int {
    IntTotal(EventWeights(events, user, ByFingerprint))
  }

  /** The rows differ in their models at most. */
  ghost predicate SameButModels(a: map<DedupKey, Row>, b: map<DedupKey, Row>) {
    && a.Keys == b.Keys
    && forall k :: k in a ==>
      && a[k].user == b[k].user && a[k].timestamp == b[k].timestamp && a[k].messageType == b[k].messageType
      && RowTally(a[k]) == RowTally(b[k])
  }

  lemma ModelsAreFingerprints(a: map<DedupKey, Row>, b: map<DedupKey, Row>, user: string)
    requires SameButModels(a, b)
    ensures EventAudit(b, user) == EventAudit(a, user).(fingerprint := FingerprintSum(b, user))
    ensures user in EventUsers(a) <==> user in EventUsers(b)
  {
    assert UserRows(a, user) == UserRows(b, user);
    assert EventWeights(a, user, ByDay) == EventWeights(b, user, ByDay);
    assert EventWeights(a, user, ByAssistant) == EventWeights(b, user, ByAssistant);
  }

  lemma RenameKeepsRest(events: map<DedupKey, Row>, names: map<DedupKey, string>)
    ensures SameButModels(events, Relabelled(events, names))
  {
  }

  /** Only the fingerprint column sees a model name. */
  lemma RenameChangesFingerprint(t: Tables, names: map<DedupKey, string>, user: string)
    ensures var r := Relabelled(t.events, names);
            && EventAudit(r, user) == EventAudit(t.events, user).(fingerprint := FingerprintSum(r, user))
            && (user in EventUsers(r) <==> user in EventUsers(t.events))
  {
    RenameKeepsRest(t.events, names);
    ModelsAreFingerprints(t.events, Relabelled(t.events, names), user);
  }

  lemma RenameDiffersIff(t: Tables, names: map<DedupKey, string>, user: string)
    requires Exact(t)
    ensures var r := Renamed(t, names);
            Differs(r, user) <==> FingerprintSum(r.events, user) != FingerprintSum(t.events, user)
  {
    AuditsEqual(t, user);
    RenameChangesFingerprint(t, names, user);
  }

  lemma NoRowsNoSum(events: map<DedupKey, Row>, user: string)
    requires user !in EventUsers(events)
    ensures FingerprintSum(events, user) == 0
  {
    assert EventWeights(events, user, ByFingerprint) == map[];
  }

  /** The converse fails, and only through the fingerprint: after any renames in the events table the
      audit passes exactly when no user's fingerprint sum moved, while the rollup is still exact only
      if the renames left the GROUP BY as it was. */
  lemma AuditMissesRename(t: Tables, names: map<DedupKey, string>)
    requires Exact(t)
    ensures var r := Renamed(t, names);
            && (Mismatched(r) == {} <==> forall u :: FingerprintSum(r.events, u) == FingerprintSum(t.events, u))
            && (Exact(r) <==> Grouped(r.events) == Grouped(t.events))
  {
    var r := Renamed(t, names);
    forall u
      ensures u in Mismatched(r) <==> FingerprintSum(r.events, u) != FingerprintSum(t.events, u)
    {
      RenameDiffersIff(t, names, u);
      RenameChangesFingerprint(t, names, u);
      if u !in EventUsers(t.events) {
        NoRowsNoSum(t.events, u);
        NoRowsNoSum(r.events, u);
      }
    }
    ExactIsGrouped(t);
    if Grouped(r.events) == Grouped(t.events) {
      RebuildIsExact(r);
      assert r == Rebuilt(r);
    }
    if Exact(r) {
      ExactIsGrouped(r);
    }
  }

  function WithModel(events: map<DedupKey, Row>, k: DedupKey, model: string): map<DedupKey, Row>
    requires k in events
  {
    events[k := events[k].(model := model)]
  }

  lemma OneRename(events: map<DedupKey, Row>, k: DedupKey, model: string)
    requires k in events
    ensures Relabelled(events, map[k := model]) == WithModel(events, k, model)
  {
  }

  lemma OneRenameMoves(events: map<DedupKey, Row>, k: DedupKey, model: string, user: string)
    requires k in events
    ensures FingerprintSum(WithModel(events, k, model), user) - FingerprintSum(events, user)
         == if events[k].user == user then Fingerprint(model) - Fingerprint(events[k].model) else 0
  {
    var before, after := EventWeights(events, user, ByFingerprint),
                         EventWeights(WithModel(events, k, model), user, ByFingerprint);
    if events[k].user == user {
      assert after == before[k := Fingerprint(model)];
      IntTotalUpdate(before, k, Fingerprint(model));
    } else {
      assert before == after;
    }
  }

  lemma IntTotalUpdate<K>(m: map<K, int>, k: K, n: int)
    requires k in m
    ensures IntTotal(m[k := n]) == IntTotal(m) - m[k] + n
  {
    IntTotalRemove(m, k);
    IntTotalRemove(m[k := n], k);
    assert m[k := n] - {k} == m - {k};
  }

  /** The new group has one row more. */
  lemma OneRenameGrows(events: map<DedupKey, Row>, k: DedupKey, model: string)
    requires k in events && model != events[k].model
    ensures var after := WithModel(events, k, model);
            CellSum(after, CellOf(after[k])).n == CellSum(events, CellOf(after[k])).n + 1
  {
    var after := WithModel(events, k, model);
    var c := CellOf(after[k]);
    assert Members(after, c) == Members(events, c) + {k} && k !in Members(events, c);
    CellCount(events, c);
    CellCount(after, c);
  }

  /** For one renamed row of any store: the rollup is wrong, and the audit passes iff the two names
      share their fingerprint. */
  lemma AuditMissesOneRename(t: Tables, k: DedupKey, model: string)
    requires Exact(t) && k in t.events && model != t.events[k].model
    ensures var r := Renamed(t, map[k := model]);
            !Exact(r) && (Mismatched(r) == {} <==> Fingerprint(model) == Fingerprint(t.events[k].model))
  {
    OneRename(t.events, k, model);
    AuditMissesRename(t, map[k := model]);
    OneRenameGrows(t.events, k, model);
    var r := t.(events := WithModel(t.events, k, model));
    var c := CellOf(r.events[k]);
    assert CellAt(r.rollup, c) == CellSum(t.events, c) != CellSum(r.events, c);
    OneRenameMoves(t.events, k, model, t.events[k].user);
    forall u {
      OneRenameMoves(t.events, k, model, u);
    }
  }

  /** Such names exist: the audit then passes a wrong rollup. */
  lemma RenameGoesUnseen(t: Tables, k: DedupKey)
    requires Exact(t) && k in t.events && t.events[k].model == "axb"
    ensures var r := Renamed(t, map[k := "ayb"]); !Exact(r) && Mismatched(r) == {}
  {
    assert "axb"[1] != "ayb"[1] && Fingerprint("axb") == Fingerprint("ayb");
    AuditMissesOneRename(t, k, "ayb");
  }

  // ----- the per-user rebuild -----

  function EventsOfUser(events: map<DedupKey, Row>, user: string): map<DedupKey, Row> {
    map k | k in events && events[k].user == user :: events[k]
  }

  /** Regrouping one user's events gives that user's part of one GROUP BY over all events. */
  lemma GroupedByUser(events: map<DedupKey, Row>, user: string)
    ensures Grouped(EventsOfUser(events, user)) == map c | c in Grouped(events) && c.user == user :: Grouped(events)[c]
  {
    var own := EventsOfUser(events, user);
    forall c
      ensures c in Grouped(own) <==> c in Grouped(events) && c.user == user
      ensures c in Grouped(own) ==> Grouped(own)[c] == Grouped(events)[c]
    {
      OccupiedIffRows(own, c);
      OccupiedIffRows(events, c);
      if c.user == user {
        assert RowsOf(own, c) == RowsOf(events, c);
      } else {
        assert RowsOf(own, c) == map[];
      }
    }
  }

  // ----- whole runs -----

  datatype Op =
    | Insert(batch: seq<TokenEvent>)
    | ClearAll
    | ClearUser(user: string)
    | Rebuild
    | Audit(repair: bool, force: bool)

  ghost function Apply(t: Tables, op: Op): Tables {
    match op
    case Insert(batch) => Inserted(t, batch)
    case ClearAll => EMPTY
    case ClearUser(user) => ClearedUser(t, user)
    case Rebuild => Rebuilt(t)
    case Audit(repair, force) => Audited(t, repair, force)
  }

  ghost function Run(t: Tables, ops: seq<Op>): Tables {
    if ops == [] then t else Apply(Run(t, ops[..|ops| - 1]), ops[|ops| - 1])
  }

  ghost predicate PlainRun(ops: seq<Op>) {
    forall i :: 0 <= i < |ops| && ops[i].Insert? ==> PlainHandles(ops[i].batch)
  }

  lemma ApplyKeepsExact(t: Tables, op: Op)
    requires Exact(t)
    requires op.Insert? ==> PlainHandles(op.batch)
    ensures Exact(Apply(t, op))
  {
    match op {
      case Insert(batch) => InsertIsExact(t, batch);
      case ClearAll => EmptyIsExact();
      case ClearUser(user) => ClearUserIsExact(t, user);
      case Rebuild => RebuildIsExact(t);
      case Audit(repair, force) => AuditKeepsExact(t, repair, force);
    }
  }

  /** Over any run from an empty store, the rollup is exact and nothing is left queued. */
  lemma {:induction false} RunIsExact(ops: seq<Op>)
    requires PlainRun(ops)
    ensures Exact(Run(EMPTY, ops))
  {
    if ops == [] {
      EmptyIsExact();
    } else {
      var n := |ops| - 1;
      RunIsExact(ops[..n]);
      ApplyKeepsExact(Run(EMPTY, ops[..n]), ops[n]);
    }
  }
}
