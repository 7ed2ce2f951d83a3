/** Rollup-backed queries over a half-open millisecond window, against a scan of raw events. */
module Windows {
  import opened Numbers
  import opened Options
  import opened Events
  import opened Tallies
  import opened DeltaKeys
  import opened Rollup
  import opened RollupProofs

  /** The six positional parameters of every rollup statement. */
  datatype Window = Window(dayLo: int, dayHi: int, leadFrom: int, leadTo: int, tailFrom: int, tailTo: int)

  function RollWindow(since: int, until: int): Window {
    var dayLo, dayHi := CeilDiv(since, DAY_MS), until / DAY_MS;
    if dayHi <= dayLo then
      Window(0, 0, since, if until >= since then until else since, 0, 0)
    else
      Window(dayLo, dayHi, since, dayLo * DAY_MS, dayHi * DAY_MS, until)
  }

  /** The statement's first branch: whole days from the rollup. `sel` is its WHERE clause. */
  function Interior(rollup: map<Cell, Tally>, w: Window, sel: Cell -> bool): map<Cell, Tally> {
    map c | c in rollup && w.dayLo <= c.day < w.dayHi && sel(c) :: rollup[c]
  }

  /** The other two branches: raw events of a partial day. */
  function Sliver(events: map<DedupKey, Row>, from: int, to: int, sel: Cell -> bool): map<DedupKey, Tally> {
    map k | k in events && from <= events[k].timestamp < to && sel(SqlCellOf(events[k])) :: RowTally(events[k])
  }

  /** What the three-branch FROM clause adds up to. */
  ghost function SourceTotal(t: Tables, w: Window, sel: Cell -> bool): Tally {
    Add(Total(Interior(t.rollup, w, sel)),
        Add(Total(Sliver(t.events, w.leadFrom, w.leadTo, sel)), Total(Sliver(t.events, w.tailFrom, w.tailTo, sel))))
  }

  ghost function SourceModels(t: Tables, w: Window, sel: Cell -> bool): set<string> {
    (set c | c in Interior(t.rollup, w, sel) :: c.model)
    + (set k | k in Sliver(t.events, w.leadFrom, w.leadTo, sel) :: t.events[k].model)
    + (set k | k in Sliver(t.events, w.tailFrom, w.tailTo, sel) :: t.events[k].model)
  }

  /** The reference answer: every event with since <= timestamp < until. */
  ghost function Scan(events: map<DedupKey, Row>, since: int, until: int, sel: Cell -> bool): map<DedupKey, Tally> {
    map k | k in events && since <= events[k].timestamp < until && sel(CellOf(events[k])) :: RowTally(events[k])
  }

  ghost function ScanModels(events: map<DedupKey, Row>, since: int, until: int, sel: Cell -> bool): set<string> {
    set k | k in Scan(events, since, until, sel) :: events[k].model
  }

  function Count(b: bool): nat {
    if b then 1 else 0
  }

  /** Each timestamp of the window falls into exactly one of the three branches, any other into none. */
  lemma CountedOnce(ts: int, since: int, until: int)
    ensures var w := RollWindow(since, until);
            Count(w.dayLo <= RollDayOf(ts) < w.dayHi) + Count(w.leadFrom <= ts < w.leadTo)
              + Count(w.tailFrom <= ts < w.tailTo)
            == Count(since <= ts < until)
  {
    var w := RollWindow(since, until);
    var day := RollDayOf(ts);
    assert day * DAY_MS <= ts < (day + 1) * DAY_MS;
    assert (w.dayLo <= day) == (w.dayLo * DAY_MS <= ts);
    assert (day < w.dayHi) == (ts < w.dayHi * DAY_MS);
  }

  /** The events behind a set of cells. */
  ghost function RowsBehind(events: map<DedupKey, Row>, cells: set<Cell>): map<DedupKey, Tally> {
    map k | k in events && CellOf(events[k]) in cells :: RowTally(events[k])
  }

  ghost function Picked(rollup: map<Cell, Tally>, cells: set<Cell>): map<Cell, Tally>
    requires cells <= rollup.Keys
  {
    map c | c in cells :: rollup[c]
  }

  /** Pre-adding rows into cells loses nothing, whatever cells are then added up. */
  lemma {:induction false} CellsAreRows(t: Tables, cells: set<Cell>)
    requires Exact(t) && cells <= t.rollup.Keys
    ensures Total(Picked(t.rollup, cells)) == Total(RowsBehind(t.events, cells))
  {
    if cells == {} {
      assert Picked(t.rollup, cells) == map[] && RowsBehind(t.events, cells) == map[];
    } else {
      var c :| c in cells;
      CellsAreRows(t, cells - {c});
      TotalRemove(Picked(t.rollup, cells), c);
      assert Picked(t.rollup, cells) - {c} == Picked(t.rollup, cells - {c});
      TotalSplits(RowsBehind(t.events, cells), RowsOf(t.events, c), RowsBehind(t.events, cells - {c}));
      assert CellAt(t.rollup, c) == CellSum(t.events, c);
    }
  }

  /** The events of the whole days of a window. */
  ghost function WholeDays(events: map<DedupKey, Row>, w: Window, sel: Cell -> bool): map<DedupKey, Tally> {
    map k | k in events && w.dayLo <= RollDayOf(events[k].timestamp) < w.dayHi && sel(CellOf(events[k])) ::
      RowTally(events[k])
  }

  lemma InteriorIsRows(t: Tables, w: Window, sel: Cell -> bool)
    requires Exact(t)
    ensures Total(Interior(t.rollup, w, sel)) == Total(WholeDays(t.events, w, sel))
  {
    var cells := set c | c in t.rollup && w.dayLo <= c.day < w.dayHi && sel(c);
    CellsAreRows(t, cells);
    assert Interior(t.rollup, w, sel) == Picked(t.rollup, cells);
    forall k | k in t.events
      ensures CellOf(t.events[k]) in t.rollup
    {
      RowHasCell(t, k);
    }
    assert WholeDays(t.events, w, sel) == RowsBehind(t.events, cells);
  }

  lemma RowHasCell(t: Tables, k: DedupKey)
    requires Exact(t) && k in t.events
    ensures CellOf(t.events[k]) in t.rollup
  {
    var c := CellOf(t.events[k]);
    assert k in RowsOf(t.events, c);
    GroupNonEmpty(t.events, c);
    assert CellAt(t.rollup, c) == CellSum(t.events, c);
  }

  lemma InOneBranch(events: map<DedupKey, Row>, k: DedupKey, since: int, until: int, sel: Cell -> bool)
    ensures var w := RollWindow(since, until);
            Count(k in WholeDays(events, w, sel)) + Count(k in Sliver(events, w.leadFrom, w.leadTo, sel))
              + Count(k in Sliver(events, w.tailFrom, w.tailTo, sel))
            == Count(k in Scan(events, since, until, sel))
  {
    if k in events {
      DayExpressionsAgree(events[k].timestamp);
      CountedOnce(events[k].timestamp, since, until);
      assert SqlCellOf(events[k]) == CellOf(events[k]);
    }
  }

  /** Reading the rollup gives exactly what scanning events gives, for every window, selection
      and exact store: row counts, token and cost sums, newest timestamp. */
  lemma SourceIsScan(t: Tables, since: int, until: int, sel: Cell -> bool)
    requires Exact(t)
    ensures SourceTotal(t, RollWindow(since, until), sel) == Total(Scan(t.events, since, until, sel))
  {
    var w := RollWindow(since, until);
    forall k {
      InOneBranch(t.events, k, since, until, sel);
    }
    InteriorIsRows(t, w, sel);
    SlicesAdd(Scan(t.events, since, until, sel), WholeDays(t.events, w, sel),
              Sliver(t.events, w.leadFrom, w.leadTo, sel), Sliver(t.events, w.tailFrom, w.tailTo, sel), t.events);
  }

  lemma {:induction false} SlicesAdd(all: map<DedupKey, Tally>, a: map<DedupKey, Tally>, b: map<DedupKey, Tally>,
                                     c: map<DedupKey, Tally>, events: map<DedupKey, Row>)
    requires all.Keys + a.Keys + b.Keys + c.Keys <= events.Keys
    requires forall k :: k in events ==> Count(k in a) + Count(k in b) + Count(k in c) == Count(k in all)
    requires forall k :: k in all ==> all[k] == RowTally(events[k])
    requires forall k :: k in a ==> a[k] == RowTally(events[k])
    requires forall k :: k in b ==> b[k] == RowTally(events[k])
    requires forall k :: k in c ==> c[k] == RowTally(events[k])
    ensures Total(all) == Add(Total(a), Add(Total(b), Total(c)))
  {
    forall k
      ensures k in all <==> k in a || k in b || k in c
      ensures !(k in a && k in b) && !(k in a && k in c) && !(k in b && k in c)
    {
      if k in events {
        assert Count(k in a) + Count(k in b) + Count(k in c) == Count(k in all);
      }
    }
    var rest := map k | k in events && (k in b || k in c) :: RowTally(events[k]);
    assert Splits(rest, b, c);
    TotalSplits(rest, b, c);
    assert Splits(all, a, rest);
    TotalSplits(all, a, rest);
  }

  lemma ScannedModelIsRead(t: Tables, since: int, until: int, sel: Cell -> bool, k: DedupKey)
    requires Exact(t) && k in Scan(t.events, since, until, sel)
    ensures t.events[k].model in SourceModels(t, RollWindow(since, until), sel)
  {
    var w := RollWindow(since, until);
    RowHasCell(t, k);
    InOneBranch(t.events, k, since, until, sel);
    if k in WholeDays(t.events, w, sel) {
      assert CellOf(t.events[k]) in Interior(t.rollup, w, sel);
    }
  }

  lemma ReadModelIsScanned(t: Tables, since: int, until: int, sel: Cell -> bool, m: string)
    requires Exact(t) && m in SourceModels(t, RollWindow(since, until), sel)
    ensures m in ScanModels(t.events, since, until, sel)
  {
    var w := RollWindow(since, until);
    if c :| c in Interior(t.rollup, w, sel) && c.model == m {
      CellHasRow(t, c);
      var k :| k in t.events && CellOf(t.events[k]) == c;
      InOneBranch(t.events, k, since, until, sel);
      assert k in WholeDays(t.events, w, sel);
    } else {
      var k :| k in t.events && t.events[k].model == m
               && (k in Sliver(t.events, w.leadFrom, w.leadTo, sel)
                   || k in Sliver(t.events, w.tailFrom, w.tailTo, sel));
      InOneBranch(t.events, k, since, until, sel);
    }
  }

  /** COUNT(DISTINCT model) survives pre-aggregation because the model is part of the cell. */
  lemma SourceModelsAreScanModels(t: Tables, since: int, until: int, sel: Cell -> bool)
    requires Exact(t)
    ensures SourceModels(t, RollWindow(since, until), sel) == ScanModels(t.events, since, until, sel)
  {
    forall k | k in Scan(t.events, since, until, sel) {
      ScannedModelIsRead(t, since, until, sel, k);
    }
    forall m | m in SourceModels(t, RollWindow(since, until), sel) {
      ReadModelIsScanned(t, since, until, sel, m);
    }
  }

  lemma CellHasRow(t: Tables, c: Cell)
    requires Exact(t) && c in t.rollup
    ensures exists k :: k in t.events && CellOf(t.events[k]) == c
  {
    GroupNonEmpty(t.events, c);
    assert CellAt(t.rollup, c) == CellSum(t.events, c);
    var k :| k in RowsOf(t.events, c);
  }

  // ----- the leaderboard row, column by column -----

  /** One row of the admin leaderboard. */
  datatype LeaderRow = LeaderRow(
    totalInput: int, totalOutput: int, totalCacheCreation: int, totalCacheRead: int, totalReasoning: int,
    eventCount: int, userMessages: int, assistantMessages: int, lastEventAt: int, modelCount: nat)

  function OfUser(user: string): Cell -> bool {
    (c: Cell) => c.user == user
  }

  function OfUserAndType(user: string, t: MessageType): Cell -> bool {
    (c: Cell) => c.user == user && c.messageType == t
  }

  ghost function LeaderboardRow(t: Tables, w: Window, user: string): LeaderRow {
    var all, answers := SourceTotal(t, w, OfUser(user)), SourceTotal(t, w, OfUserAndType(user, Assistant));
    var prompts, models := SourceTotal(t, w, OfUserAndType(user, User)),
                           SourceModels(t, w, OfUserAndType(user, Assistant));
    LeaderRow(answers.input, answers.output, answers.cacheCreation, answers.cacheRead, answers.reasoning,
              answers.n, prompts.n, answers.n, all.maxTs.GetOr(0), |models|)
  }

  /** The rows of a window that a condition selects. */
  ghost function Selected(events: map<DedupKey, Row>, since: int, until: int, cond: Row -> bool): set<DedupKey> {
    set k | k in events && since <= events[k].timestamp < until && cond(events[k])
  }

  /** `sel` on the group columns is the condition on the rows. */
  ghost predicate Selects(sel: Cell -> bool, cond: Row -> bool) {
    forall r :: sel(CellOf(r)) <==> cond(r)
  }

  lemma ScanIsSelected(events: map<DedupKey, Row>, since: int, until: int, sel: Cell -> bool, cond: Row -> bool)
    requires Selects(sel, cond)
    ensures Scan(events, since, until, sel) == TalliesOf(events, Selected(events, since, until, cond))
  {
  }

  lemma SumsOf(events: map<DedupKey, Row>, keys: set<DedupKey>)
    requires keys <= events.Keys
    ensures var r := Total(TalliesOf(events, keys));
            && r.n == |keys| && (forall col :: TallyColumn(col, r) == ColumnSum(events, keys, col))
            && if keys == {} then r.maxTs == None else r.maxTs.Some? && IsNewest(events, keys, r.maxTs.value)
  {
    forall col {
      TotalColumn(events, keys, col);
    }
    TotalNewest(events, keys);
  }

  /** For any selection, the rollup source gives the number, the column sums and the newest timestamp of the
      selected rows of the window. */
  lemma SourceIsSums(t: Tables, since: int, until: int, sel: Cell -> bool, cond: Row -> bool)
    requires Exact(t) && Selects(sel, cond)
    ensures var r, keys := SourceTotal(t, RollWindow(since, until), sel), Selected(t.events, since, until, cond);
            && r.n == |keys| && (forall col :: TallyColumn(col, r) == ColumnSum(t.events, keys, col))
            && if keys == {} then r.maxTs == None else r.maxTs.Some? && IsNewest(t.events, keys, r.maxTs.value)
  {
    SourceIsScan(t, since, until, sel);
    ScanIsSelected(t.events, since, until, sel, cond);
    SumsOf(t.events, Selected(t.events, since, until, cond));
  }

  /** The rows a leaderboard row is about: the user's in the window, and of these each type's. */
  ghost function UserRowsIn(t: Tables, since: int, until: int, user: string): set<DedupKey> {
    Selected(t.events, since, until, (r: Row) => r.user == user)
  }

  ghost function TypeRowsIn(t: Tables, since: int, until: int, user: string, messageType: MessageType): set<DedupKey> {
    Selected(t.events, since, until, (r: Row) => r.user == user && r.messageType == messageType)
  }

  lemma TypeColumns(t: Tables, since: int, until: int, user: string, messageType: MessageType)
    requires Exact(t)
    ensures var r := SourceTotal(t, RollWindow(since, until), OfUserAndType(user, messageType));
            var keys := TypeRowsIn(t, since, until, user, messageType);
            && r.input == ColumnSum(t.events, keys, Input) && r.output == ColumnSum(t.events, keys, Output)
            && r.cacheCreation == ColumnSum(t.events, keys, CacheCreation)
            && r.cacheRead == ColumnSum(t.events, keys, CacheRead)
            && r.reasoning == ColumnSum(t.events, keys, Reasoning) && r.n == |keys|
  {
    SourceIsSums(t, since, until, OfUserAndType(user, messageType),
                 (r: Row) => r.user == user && r.messageType == messageType);
    ColumnsOf(SourceTotal(t, RollWindow(since, until), OfUserAndType(user, messageType)));
  }

  lemma NewestOfUser(t: Tables, since: int, until: int, user: string)
    requires Exact(t)
    ensures var newest, keys := SourceTotal(t, RollWindow(since, until), OfUser(user)).maxTs,
                                UserRowsIn(t, since, until, user);
            if keys == {} then newest == None else newest.Some? && IsNewest(t.events, keys, newest.value)
  {
    SourceIsSums(t, since, until, OfUser(user), (r: Row) => r.user == user);
  }

  /** Each column of the admin leaderboard over the user's rows of the window: token sums, event and model
      counts over assistant rows, messages by type, and the newest timestamp over all of them. */
  lemma LeaderboardRowIsScan(t: Tables, since: int, until: int, user: string)
    requires Exact(t)
    ensures var row, all := LeaderboardRow(t, RollWindow(since, until), user), UserRowsIn(t, since, until, user);
            var answers := TypeRowsIn(t, since, until, user, Assistant);
            && row.totalInput == ColumnSum(t.events, answers, Input)
            && row.totalOutput == ColumnSum(t.events, answers, Output)
            && row.totalCacheCreation == ColumnSum(t.events, answers, CacheCreation)
            && row.totalCacheRead == ColumnSum(t.events, answers, CacheRead)
            && row.totalReasoning == ColumnSum(t.events, answers, Reasoning)
            && row.eventCount == |answers| && row.assistantMessages == |answers|
            && row.userMessages == |TypeRowsIn(t, since, until, user, User)|
            && row.modelCount == |set k | k in answers :: t.events[k].model|
            && if all == {} then row.lastEventAt == 0 else IsNewest(t.events, all, row.lastEventAt)
  {
    NewestOfUser(t, since, until, user);
    TypeColumns(t, since, until, user, Assistant);
    TypeColumns(t, since, until, user, User);
    AssistantModels(t, since, until, user);
  }

  lemma ColumnsOf(r: Tally)
    ensures r.input == TallyColumn(Input, r) && r.output == TallyColumn(Output, r)
    ensures r.cacheCreation == TallyColumn(CacheCreation, r) && r.cacheRead == TallyColumn(CacheRead, r)
    ensures r.reasoning == TallyColumn(Reasoning, r) && r.cost == TallyColumn(StoredCost, r)
  {
  }

  lemma AssistantModels(t: Tables, since: int, until: int, user: string)
    requires Exact(t)
    ensures var answers := TypeRowsIn(t, since, until, user, Assistant);
            SourceModels(t, RollWindow(since, until), OfUserAndType(user, Assistant))
            == set k | k in answers :: t.events[k].model
  {
    SourceModelsAreScanModels(t, since, until, OfUserAndType(user, Assistant));
  }

  /** One row of the per-user, per-model aggregates: the derived columns cover rows without a stored cost. */
  datatype ModelRow = ModelRow(
    count: int, input: int, output: int, cacheCreation: int, cacheRead: int, reasoning: int, storedCost: int,
    derivedInput: int, derivedOutput: int, derivedCacheCreation: int, derivedCacheRead: int, derivedReasoning: int)

  ghost function UserModelRow(t: Tables, w: Window, user: string, model: string): ModelRow {
    var all := SourceTotal(t, w, (c: Cell) => c.user == user && c.messageType == Assistant && c.model == model);
    var derived := SourceTotal(t, w, (c: Cell) => c.user == user && c.messageType == Assistant && c.model == model
                                                  && !c.hasStored);
    ModelRow(all.n, all.input, all.output, all.cacheCreation, all.cacheRead, all.reasoning, all.cost,
             derived.input, derived.output, derived.cacheCreation, derived.cacheRead, derived.reasoning)
  }

  /** Its columns over the user's assistant rows of the model, the derived ones over those that carry no
      positive cost of their own. */
  lemma UserModelRowIsScan(t: Tables, since: int, until: int, user: string, model: string)
    requires Exact(t)
    ensures var row := UserModelRow(t, RollWindow(since, until), user, model);
            var all := Selected(t.events, since, until, (r: Row) => r.user == user && r.messageType == Assistant
                                                                    && r.model == model);
            var derived := Selected(t.events, since, until, (r: Row) => r.user == user && r.messageType == Assistant
                                                                        && r.model == model
                                                                        && r.costUsdMicros.GetOr(0) <= 0);
            && row.count == |all| && row.input == ColumnSum(t.events, all, Input)
            && row.output == ColumnSum(t.events, all, Output)
            && row.cacheCreation == ColumnSum(t.events, all, CacheCreation)
            && row.cacheRead == ColumnSum(t.events, all, CacheRead)
            && row.reasoning == ColumnSum(t.events, all, Reasoning)
            && row.storedCost == ColumnSum(t.events, all, StoredCost)
            && row.derivedInput == ColumnSum(t.events, derived, Input)
            && row.derivedOutput == ColumnSum(t.events, derived, Output)
            && row.derivedCacheCreation == ColumnSum(t.events, derived, CacheCreation)
            && row.derivedCacheRead == ColumnSum(t.events, derived, CacheRead)
            && row.derivedReasoning == ColumnSum(t.events, derived, Reasoning)
  {
    var all := (c: Cell) => c.user == user && c.messageType == Assistant && c.model == model;
    var derived := (c: Cell) => c.user == user && c.messageType == Assistant && c.model == model && !c.hasStored;
    SourceIsSums(t, since, until, all, (r: Row) => r.user == user && r.messageType == Assistant && r.model == model);
    SourceIsSums(t, since, until, derived, (r: Row) => r.user == user && r.messageType == Assistant && r.model == model
                                                       && r.costUsdMicros.GetOr(0) <= 0);
    ColumnsOf(SourceTotal(t, RollWindow(since, until), all));
    ColumnsOf(SourceTotal(t, RollWindow(since, until), derived));
  }

  function InBucket(sel: Cell -> bool, labelOf: int -> string, bucket: string): Cell -> bool {
    (c: Cell) => sel(c) && labelOf(c.day) == bucket
  }

  /** The reference answer for one bucket: each event is labelled by its own day. */
  ghost function BucketScan(events: map<DedupKey, Row>, since: int, until: int, sel: Cell -> bool,
                            labelOf: int -> string, bucket: string)
    : map<DedupKey, Tally>
  {
    map k | k in events && since <= events[k].timestamp < until && sel(CellOf(events[k]))
            && labelOf(RollDayOf(events[k].timestamp)) == bucket :: RowTally(events[k])
  }

  /** A bucketed series: `labelOf` names a day's bucket (day, ISO week or month), and both raw
      branches label a row by its own floored day. */
  lemma BucketIsScan(t: Tables, since: int, until: int, labelOf: int -> string, bucket: string, sel: Cell -> bool)
    requires Exact(t)
    ensures SourceTotal(t, RollWindow(since, until), InBucket(sel, labelOf, bucket))
         == Total(BucketScan(t.events, since, until, sel, labelOf, bucket))
  {
    SourceIsScan(t, since, until, InBucket(sel, labelOf, bucket));
    BucketScanIsScan(t.events, since, until, labelOf, bucket, sel);
  }

  lemma BucketScanIsScan(events: map<DedupKey, Row>, since: int, until: int, labelOf: int -> string,
                         bucket: string, sel: Cell -> bool)
    ensures Scan(events, since, until, InBucket(sel, labelOf, bucket))
            == BucketScan(events, since, until, sel, labelOf, bucket)
  {
  }
}
