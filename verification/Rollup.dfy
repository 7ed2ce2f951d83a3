/** The events table, its day-grain rollup, and what each maintenance step does to them. */
module Rollup {
  import opened Options
  import opened Events
  import opened Tallies
  import opened DeltaKeys

  datatype UserDay = UserDay(user: string, day: int)

  /** One group's pending sums in an ingest batch. */
  datatype Delta = Delta(cell: Cell, sums: Tally)

  datatype Tables = Tables(events: map<DedupKey, Row>, rollup: map<Cell, Tally>, dirty: set<UserDay>)

  const EMPTY := Tables(map[], map[], {})

  // ----- rows, cells and their summaries -----

  function HasStored(r: Row): bool {
    r.costUsdMicros.GetOr(0) > 0
  }

  /** The group of a row as insertMany computes it. */
  function CellOf(r: Row): Cell {
    Cell(RollDayOf(r.timestamp), r.user, r.model, r.messageType, HasStored(r))
  }

  /** The group of a row as the SQL statements compute it. */
  function SqlCellOf(r: Row): Cell {
    Cell(RollDaySql(r.timestamp), r.user, r.model, r.messageType, HasStored(r))
  }

  function DayOf(c: Cell): UserDay {
    UserDay(c.user, c.day)
  }

  function RowTally(r: Row): Tally {
    Tally(1, r.inputTokens, r.outputTokens, r.cacheCreationTokens, r.cacheReadTokens,
          r.reasoningTokens.GetOr(0), r.costUsdMicros.GetOr(0), Some(r.timestamp))
  }

  /** The summaries of the rows of one group. */
  ghost function RowsOf(events: map<DedupKey, Row>, c: Cell): map<DedupKey, Tally> {
    map k | k in events && CellOf(events[k]) == c :: RowTally(events[k])
  }

  /** What a GROUP BY over raw events reports for one group. */
  ghost function CellSum(events: map<DedupKey, Row>, c: Cell): Tally {
    Total(RowsOf(events, c))
  }

  ghost function CellAt(rollup: map<Cell, Tally>, c: Cell): Tally {
    if c in rollup then rollup[c] else ZERO
  }

  // ----- the invariants -----

  ghost predicate WellKeyed(events: map<DedupKey, Row>) {
    forall k :: k in events ==> KeyOf(events[k]) == k
  }

  /** Every cell that is not queued for repair holds its group's exact sums. */
  ghost predicate ExactOffDirty(t: Tables) {
    && WellKeyed(t.events)
    && (forall c :: DayOf(c) !in t.dirty ==> CellAt(t.rollup, c) == CellSum(t.events, c))
    && (forall c :: c in t.rollup ==> t.rollup[c].n > 0)
  }

  ghost predicate Exact(t: Tables) {
    ExactOffDirty(t) && t.dirty == {}
  }

  // ----- insertMany, phase by phase -----

  /** `ts` lies between the oldest and the newest cloud Cursor event of the user in the batch. */
  ghost predicate InSpan(batch: seq<TokenEvent>, user: string, ts: int) {
    && (exists i :: 0 <= i < |batch| && batch[i].source == Cursor && batch[i].user == user && batch[i].timestamp <= ts)
    && (exists i :: 0 <= i < |batch| && batch[i].source == Cursor && batch[i].user == user && ts <= batch[i].timestamp)
  }

  predicate Replaceable(r: Row) {
    r.source == CursorLocal && r.messageType == Assistant
  }

  /** A stored row that the batch's cloud Cursor events replace. */
  ghost predicate Covered(r: Row, batch: seq<TokenEvent>) {
    Replaceable(r) && InSpan(batch, r.user, r.timestamp)
  }

  ghost function Reconciled(events: map<DedupKey, Row>, batch: seq<TokenEvent>): map<DedupKey, Row> {
    map k | k in events && !Covered(events[k], batch) :: events[k]
  }

  ghost function ReconciledDays(events: map<DedupKey, Row>, batch: seq<TokenEvent>): set<UserDay> {
    set k | k in events && Covered(events[k], batch) :: UserDay(events[k].user, RollDaySql(events[k].timestamp))
  }

  function AddDelta(deltas: map<string, Delta>, r: Row): map<string, Delta> {
    var t := KeyText(CellOf(r));
    if t in deltas then deltas[t := Delta(deltas[t].cell, Add(deltas[t].sums, RowTally(r)))]
    else deltas[t := Delta(CellOf(r), RowTally(r))]
  }

  datatype Pending = Pending(events: map<DedupKey, Row>, deltas: map<string, Delta>)

  /** INSERT ... ON CONFLICT DO NOTHING, with a delta only for a row that was taken. */
  function Accept(p: Pending, e: TokenEvent): Pending {
    var r := RowOf(e);
    if KeyOf(r) in p.events then p
    else Pending(p.events[KeyOf(r) := r], AddDelta(p.deltas, r))
  }

  function AcceptAll(p: Pending, batch: seq<TokenEvent>): Pending {
    if batch == [] then p
    else Accept(AcceptAll(p, batch[..|batch| - 1]), batch[|batch| - 1])
  }

  ghost function DeltaAt(deltas: map<string, Delta>, c: Cell): Tally {
    var t := KeyText(c);
    if t in deltas && deltas[t].cell == c then deltas[t].sums else ZERO
  }

  ghost predicate DeltasKeyed(deltas: map<string, Delta>) {
    forall t :: t in deltas ==> KeyText(deltas[t].cell) == t && deltas[t].sums.n > 0
  }

  function Upsert(rollup: map<Cell, Tally>, d: Delta): map<Cell, Tally> {
    rollup[d.cell := if d.cell in rollup then Add(rollup[d.cell], d.sums) else d.sums]
  }

  /** The rollup after every delta was upserted, in any order. */
  ghost function Flushed(rollup: map<Cell, Tally>, deltas: map<string, Delta>): map<Cell, Tally> {
    map c | c in rollup.Keys + (set t | t in deltas :: deltas[t].cell) :: Add(CellAt(rollup, c), DeltaAt(deltas, c))
  }

  ghost function OccupiedCells(events: map<DedupKey, Row>): set<Cell> {
    set k | k in events :: CellOf(events[k])
  }

  /** The rollup after the queued user-days were recomputed from raw events. */
  ghost function Repaired(rollup: map<Cell, Tally>, dirty: set<UserDay>, events: map<DedupKey, Row>): map<Cell, Tally> {
    map c | c in rollup.Keys + OccupiedCells(events)
              && (if DayOf(c) in dirty then c in OccupiedCells(events) else c in rollup) ::
      if DayOf(c) in dirty then CellSum(events, c) else rollup[c]
  }

  ghost function Drained(t: Tables): Tables {
    Tables(t.events, Repaired(t.rollup, t.dirty, t.events), {})
  }

  /** The tables just before the final drain. */
  ghost function Merged(t: Tables, batch: seq<TokenEvent>): Tables {
    var p := AcceptAll(Pending(Reconciled(t.events, batch), map[]), batch);
    Tables(p.events, Flushed(t.rollup, p.deltas), t.dirty + ReconciledDays(t.events, batch))
  }

  /** The tables after insertMany. */
  ghost function Inserted(t: Tables, batch: seq<TokenEvent>): Tables {
    Drained(Merged(t, batch))
  }

  // ----- clears, rebuild -----

  function ClearedUser(t: Tables, user: string): Tables {
    Tables(map k | k in t.events && t.events[k].user != user :: t.events[k],
           map c | c in t.rollup && c.user != user :: t.rollup[c],
           set d | d in t.dirty && d.user != user)
  }

  /** One GROUP BY over all events. */
  ghost function Grouped(events: map<DedupKey, Row>): map<Cell, Tally> {
    map c | c in OccupiedCells(events) :: CellSum(events, c)
  }

  ghost function Rebuilt(t: Tables): Tables {
    Tables(t.events, Grouped(t.events), {})
  }
}
