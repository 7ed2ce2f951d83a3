/** No loss from log file to event store, over every run of ticks, failures and restarts. */
module IngestSafety {
  import opened Options
  import opened Events
  import opened Rollup
  import opened RollupProofs
  import opened ReadSlices
  import opened Audits
  import opened EventTables
  import opened Transports
  import opened Ticks

  /** One read of a log whose end offset was recorded: the file had `length` bytes, `records` were
      handed to the parser together with the memo `before`, and it made `events` and the memo `after` of
      them; `all` is everything its tick offered. */
  datatype Read = Read(
    path: string, from: nat, end: nat, length: nat, before: Memo, after: Memo,
    records: seq<LineRead>, events: seq<TokenEvent>, all: seq<TokenEvent>)

  /** What reading a file on from an offset with a memo yields. */
  type Parser = (string, seq<byte>, nat, Memo) -> Parse

  /** The server's tables, the daemon's state, the reads it recorded, the log files and their parsers. */
  datatype World = World(tables: Tables, saved: Saved, recorded: set<Read>,
                         logs: map<string, seq<byte>>, parser: Parser)

  datatype Step =
    | Append(path: string, bytes: seq<byte>)
    | TickRuns(items: seq<Item>, handled: nat, cloud: seq<TokenEvent>, batches: seq<seq<TokenEvent>>,
               wires: seq<seq<Attempt>>, saveOk: bool)
    | Restart(readable: bool)
    | Rescan(saveOk: bool)
    | OtherPost(batch: seq<TokenEvent>)

  function ScanOf(w: World, items: seq<Item>, handled: nat, cloud: seq<TokenEvent>): Scan
    requires handled <= |items|
  {
    ScannedAll(Scan(cloud, []), w.saved.memory, items[..handled])
  }

  function LogOf(logs: map<string, seq<byte>>, path: string): seq<byte> {
    if path in logs then logs[path] else []
  }

  function ReadOfUpdate(u: Update, all: seq<TokenEvent>, logs: map<string, seq<byte>>): Read {
    var log := LogOf(logs, u.path);
    Read(u.path, u.from, u.state.byteOffset, |log|, u.memo, u.state.memo,
         Records(log, u.from, MAX_READ_BYTES), u.events, all)
  }

  function ReadsOf(scan: Scan, logs: map<string, seq<byte>>): set<Read> {
    set u | u in scan.updates :: ReadOfUpdate(u, scan.all, logs)
  }

  /** A parser reads its file as it stands, from the saved offset and memo to the last newline. */
  ghost predicate ReadsLog(w: World, item: Item) {
    ReadDue(w.saved.memory, item) ==>
      && item.path in w.logs
      && item.parse.newOffset == Committed(w.logs[item.path], OffsetOf(w.saved.memory, item.path))
      && item.parse == w.parser(item.path, w.logs[item.path], OffsetOf(w.saved.memory, item.path),
                                MemoOf(w.saved.memory, item.path))
  }

  /** The one-time rescan: every offset back to 0, every file eligible again, carried totals dropped.
      The line index and the model are kept. */
  function Reset(files: Files): Files {
    map p | p in files :: FileState(0, 0, files[p].memo.(totals := None))
  }

  ghost predicate Enabled(w: World, s: Step) {
    s.TickRuns? ==>
      && s.handled <= |s.items| && Flatten(s.batches) == FirstOnly(ScanOf(w, s.items, s.handled, s.cloud).all)
      && forall i :: 0 <= i < s.handled ==> ReadsLog(w, s.items[i])
  }

  ghost function Next(w: World, s: Step): World
    requires Enabled(w, s)
  {
    match s
    case Append(path, bytes) => w.(logs := w.logs[path := LogOf(w.logs, path) + bytes])
    case TickRuns(items, handled, cloud, batches, wires, saveOk) =>
      var scan, sent := ScanOf(w, items, handled, cloud), PostedBatches(w.tables, batches, wires);
      w.(tables := sent.tables, saved := Advanced(w.saved, scan.updates, Paths(items), sent.ok, saveOk),
         recorded := if sent.ok then w.recorded + ReadsOf(scan, w.logs) else w.recorded)
    case Restart(readable) => w.(saved := w.saved.(memory := if readable then w.saved.disk else map[]))
    case Rescan(saveOk) =>
      w.(saved := Saved(Reset(w.saved.memory), if saveOk then Reset(w.saved.memory) else w.saved.disk))
    case OtherPost(batch) => w.(tables := Ingested(w.tables, batch))
  }

  ghost predicate Possible(w: World, steps: seq<Step>)
    decreases |steps|
  {
    steps == [] || (Enabled(w, steps[0]) && Possible(Next(w, steps[0]), steps[1..]))
  }

  ghost function After(w: World, steps: seq<Step>): World
    requires Possible(w, steps)
    decreases |steps|
  {
    if steps == [] then w else After(Next(w, steps[0]), steps[1..])
  }

  // ----- what is promised -----

  /** The tick's first event with the key of `e`, which is the one it posts, passes validation. */
  ghost predicate Postable(all: seq<TokenEvent>, e: TokenEvent) {
    var f := FirstOf(all, DaemonKey(e));
    f.Some? && ServerValid(f.value) && f.value.source != CursorLocal
  }

  /** Each event of the read that was postable is stored: the row of the first event of its key is in
      the table, or one with the same dedup key. */
  ghost predicate Delivered(t: Tables, r: Read) {
    forall e :: e in r.events && Postable(r.all, e) ==> KeyOf(RowOf(FirstOf(r.all, DaemonKey(e)).value)) in t.events
  }

  /** The read took a version of the file that the file still starts with. */
  ghost predicate Witnessed(logs: map<string, seq<byte>>, parser: Parser, r: Read) {
    && r.from <= r.length <= |LogOf(logs, r.path)|
    && var version := LogOf(logs, r.path)[..r.length];
       && r.records == Records(version, r.from, MAX_READ_BYTES) && r.end == Committed(version, r.from)
       && parser(r.path, version, r.from, r.before) == Parsed(r.events, r.end, r.after)
  }

  /** Recorded reads that follow one another, each with the memo of the one before, from the start of the
      file with the memo `start` up to `offset` and `memo`. */
  ghost predicate Chain(recorded: set<Read>, path: string, start: Memo, offset: nat, memo: Memo, chain: seq<Read>)
    decreases |chain|
  {
    if chain == [] then offset == 0 && memo == start
    else
      var r := chain[|chain| - 1];
      && r in recorded && r.path == path && r.end == offset && r.after == memo
      && Chain(recorded, path, start, r.from, r.before, chain[..|chain| - 1])
  }

  /** Everything a chain of reads handed to the parser, in order. */
  function HandedOver(chain: seq<Read>): seq<LineRead> {
    if chain == [] then [] else HandedOver(chain[..|chain| - 1]) + chain[|chain| - 1].records
  }

  /** Reading a file from its start first reports what the chain handed over, and goes on at `offset`:
      each record below the offset was handed over exactly once, in order. */
  ghost predicate CoversFile(log: seq<byte>, chain: seq<Read>, offset: nat) {
    offset <= |log| && Leads(log, MAX_READ_BYTES, 0, HandedOver(chain), offset)
  }

  /** `unreset` says that no rescan has happened, which alone starts a file over with a memo. */
  ghost predicate Backed(recorded: set<Read>, path: string, unreset: bool, offset: nat, memo: Memo) {
    exists start, chain :: Chain(recorded, path, start, offset, memo, chain) && (unreset ==> start == NO_MEMO)
  }

  ghost predicate AllBacked(recorded: set<Read>, files: Files, unreset: bool) {
    forall p :: p in files ==> Backed(recorded, p, unreset, files[p].byteOffset, files[p].memo)
  }

  ghost predicate AllWitnessed(w: World) {
    forall r :: r in w.recorded ==> Witnessed(w.logs, w.parser, r)
  }

  ghost predicate Inv(w: World, unreset: bool) {
    && WellKeyed(w.tables.events) && AllBacked(w.recorded, w.saved.memory, unreset)
    && AllBacked(w.recorded, w.saved.disk, unreset)
    && AllWitnessed(w) && forall r :: r in w.recorded ==> Delivered(w.tables, r)
  }

  // ----- deduplication within a tick -----

  /** The events a tick posts are the first of their keys. */
  lemma {:induction false} FirstOnlyIsFirst(all: seq<TokenEvent>, e: TokenEvent)
    ensures e in FirstOnly(all) <==> FirstOf(all, DaemonKey(e)) == Some(e)
    ensures FirstOf(all, DaemonKey(e)).Some? <==> DaemonKey(e) in DaemonKeys(all)
  {
    if all != [] {
      var n := |all| - 1;
      FirstOnlyIsFirst(all[..n], e);
      assert all == all[..n] + [all[n]];
      OneMoreOffered(all[..n], all[n]);
    }
  }

  lemma {:induction false} FirstOfKey(all: seq<TokenEvent>, k: string)
    ensures FirstOf(all, k).Some? ==> DaemonKey(FirstOf(all, k).value) == k
  {
    if all != [] {
      FirstOfKey(all[..|all| - 1], k);
    }
  }

  /** A key reaches the server as a valid event exactly if its first event of the tick is valid: a
      valid event behind an invalid one with the same key is never sent. */
  lemma PostedIffFirstValid(all: seq<TokenEvent>, k: string)
    ensures (exists e :: e in FirstOnly(all) && DaemonKey(e) == k && ServerValid(e))
        <==> FirstOf(all, k).Some? && ServerValid(FirstOf(all, k).value)
  {
    FirstOfKey(all, k);
    if FirstOf(all, k).Some? {
      FirstOnlyIsFirst(all, FirstOf(all, k).value);
    }
    if e :| e in FirstOnly(all) && DaemonKey(e) == k && ServerValid(e) {
      FirstOnlyIsFirst(all, e);
    }
  }

  lemma FirstOfTwo(a: TokenEvent, b: TokenEvent)
    ensures FirstOf([a, b], DaemonKey(a)) == Some(a)
  {
    assert [a, b][..1] == [a] && [a][..0] == [];
    assert FirstOf([a], DaemonKey(a)) == Some(a);
  }

  /** Such keys exist: an event that fails validation hides a valid one of the same key behind it. */
  lemma ValidBehindInvalid(bad: TokenEvent, good: TokenEvent)
    requires DaemonKey(bad) == DaemonKey(good) && !ServerValid(bad) && ServerValid(good)
    ensures good in [bad, good] && !exists e ::
              e in FirstOnly([bad, good]) && DaemonKey(e) == DaemonKey(good) && ServerValid(e)
  {
    FirstOfTwo(bad, good);
    PostedIffFirstValid([bad, good], DaemonKey(good));
  }

  // ----- bytes -----

  /** A recorded read reports what the file as it is now has between its offsets. */
  lemma ReadLeads(logs: map<string, seq<byte>>, parser: Parser, r: Read)
    requires Witnessed(logs, parser, r)
    ensures Leads(LogOf(logs, r.path), MAX_READ_BYTES, r.from, r.records, r.end) && r.end <= |LogOf(logs, r.path)|
  {
    var log := LogOf(logs, r.path);
    assert log[..r.length] + log[r.length..] == log;
    ReadsCompose(log[..r.length], log[r.length..], r.from, MAX_READ_BYTES);
    CommittedIsLast(log[..r.length], r.from);
  }

  lemma {:induction false} ChainCovers(w: World, path: string, start: Memo, offset: nat, memo: Memo, chain: seq<Read>)
    requires Chain(w.recorded, path, start, offset, memo, chain) && AllWitnessed(w)
    ensures CoversFile(LogOf(w.logs, path), chain, offset)
    decreases |chain|
  {
    if chain != [] {
      var r, before := chain[|chain| - 1], chain[..|chain| - 1];
      ChainCovers(w, path, start, r.from, r.before, before);
      ReadLeads(w.logs, w.parser, r);
      LeadsOn(LogOf(w.logs, path), MAX_READ_BYTES, 0, HandedOver(before), r.from, r.records, r.end);
    }
  }

  lemma AppendKeepsWitnessed(logs: map<string, seq<byte>>, parser: Parser, path: string, bytes: seq<byte>, r: Read)
    requires Witnessed(logs, parser, r)
    ensures Witnessed(logs[path := LogOf(logs, path) + bytes], parser, r)
  {
    assert (LogOf(logs, path) + bytes)[..|LogOf(logs, path)|] == LogOf(logs, path);
    if r.path == path {
      assert (LogOf(logs, path) + bytes)[..r.length] == LogOf(logs, path)[..r.length];
    }
  }

  // ----- one tick -----

  /** The update is one read of the file as it stands. */
  ghost predicate UpdateReads(w: World, u: Update) {
    && u.from == OffsetOf(w.saved.memory, u.path) && u.memo == MemoOf(w.saved.memory, u.path)
    && u.state.byteOffset == Committed(LogOf(w.logs, u.path), u.from)
    && w.parser(u.path, LogOf(w.logs, u.path), u.from, u.memo) == Parsed(u.events, u.state.byteOffset, u.state.memo)
  }

  lemma {:induction false} ScanUpdates(w: World, s: Scan, items: seq<Item>)
    requires s.updates == [] && forall i :: 0 <= i < |items| ==> ReadsLog(w, items[i])
    ensures var scan := ScannedAll(s, w.saved.memory, items);
            forall u :: u in scan.updates ==> UpdateReads(w, u) && forall e :: e in u.events ==> e in scan.all
  {
    if items != [] {
      ScanUpdates(w, s, items[..|items| - 1]);
      assert ReadsLog(w, items[|items| - 1]);
    }
  }

  lemma UpdateWitnessed(w: World, unreset: bool, u: Update, all: seq<TokenEvent>)
    requires Inv(w, unreset) && UpdateReads(w, u)
    ensures Witnessed(w.logs, w.parser, ReadOfUpdate(u, all, w.logs))
  {
    var log := LogOf(w.logs, u.path);
    assert log[..|log|] == log;
    if u.path in w.saved.memory {
      var start, chain :| Chain(w.recorded, u.path, start, u.from, u.memo, chain);
      ChainCovers(w, u.path, start, u.from, u.memo, chain);
    }
  }

  lemma {:induction false} MergedStates(files: Files, updates: seq<Update>, p: string)
    requires p in WithUpdates(files, updates)
    ensures (p in files && WithUpdates(files, updates)[p] == files[p]) || exists u ::
              u in updates && u.path == p && u.state == WithUpdates(files, updates)[p]
  {
    if updates != [] {
      var n := |updates| - 1;
      if p != updates[n].path {
        MergedStates(files, updates[..n], p);
      } else {
        assert updates[n] in updates;
      }
    }
  }

  lemma {:induction false} ChainGrows(recorded: set<Read>, more: set<Read>, path: string, start: Memo, offset: nat,
                                      memo: Memo, chain: seq<Read>)
    requires Chain(recorded, path, start, offset, memo, chain) && recorded <= more
    ensures Chain(more, path, start, offset, memo, chain)
    decreases |chain|
  {
    if chain != [] {
      var r := chain[|chain| - 1];
      ChainGrows(recorded, more, path, start, r.from, r.before, chain[..|chain| - 1]);
    }
  }

  lemma BackedGrows(recorded: set<Read>, more: set<Read>, files: Files, unreset: bool)
    requires AllBacked(recorded, files, unreset) && recorded <= more
    ensures AllBacked(more, files, unreset)
  {
    forall p | p in files
      ensures Backed(more, p, unreset, files[p].byteOffset, files[p].memo)
    {
      var start, chain :| Chain(recorded, p, start, files[p].byteOffset, files[p].memo, chain)
        && (unreset ==> start == NO_MEMO);
      ChainGrows(recorded, more, p, start, files[p].byteOffset, files[p].memo, chain);
    }
  }

  lemma StartIsBacked(recorded: set<Read>, p: string, unreset: bool, start: Memo)
    requires unreset ==> start == NO_MEMO
    ensures Backed(recorded, p, unreset, 0, start)
  {
    assert Chain(recorded, p, start, 0, start, []);
  }

  lemma LinkIsBacked(recorded: set<Read>, unreset: bool, r: Read)
    requires r in recorded && Backed(recorded, r.path, unreset, r.from, r.before)
    ensures Backed(recorded, r.path, unreset, r.end, r.after)
  {
    var start, chain :| Chain(recorded, r.path, start, r.from, r.before, chain) && (unreset ==> start == NO_MEMO);
    var longer := chain + [r];
    assert longer[..|chain|] == chain;
    assert Chain(recorded, r.path, start, r.end, r.after, longer);
  }

  /** Every offset a tick saves continues the chain of the offset it read from. */
  lemma MergedBacked(w: World, recorded: set<Read>, scan: Scan, unreset: bool)
    requires AllBacked(recorded, w.saved.memory, unreset) && ReadsOf(scan, w.logs) <= recorded
    requires forall u :: u in scan.updates ==> UpdateReads(w, u)
    ensures AllBacked(recorded, WithUpdates(w.saved.memory, scan.updates), unreset)
  {
    var files := w.saved.memory;
    var merged := WithUpdates(files, scan.updates);
    forall p | p in merged
      ensures Backed(recorded, p, unreset, merged[p].byteOffset, merged[p].memo)
    {
      MergedStates(files, scan.updates, p);
      if !(p in files && merged[p] == files[p]) {
        var u :| u in scan.updates && u.path == p && u.state == merged[p];
        var r := ReadOfUpdate(u, scan.all, w.logs);
        assert r in ReadsOf(scan, w.logs);
        StartIsBacked(recorded, p, unreset, NO_MEMO);
        LinkIsBacked(recorded, unreset, r);
      }
    }
  }

  lemma StoredStays(t: Tables, u: Tables, r: Read)
    requires KeepsKeys(t.events, u.events) && Delivered(t, r)
    ensures Delivered(u, r)
  {
  }

  lemma PostedReadDelivered(t: Tables, r: Read)
    requires forall e :: e in FirstOnly(r.all) && ServerValid(e) && e.source != CursorLocal ==>
               KeyOf(RowOf(e)) in t.events
    ensures Delivered(t, r)
  {
    forall e | e in r.events && Postable(r.all, e)
      ensures KeyOf(RowOf(FirstOf(r.all, DaemonKey(e)).value)) in t.events
    {
      var f := FirstOf(r.all, DaemonKey(e)).value;
      FirstOfKey(r.all, DaemonKey(e));
      FirstOnlyIsFirst(r.all, f);
    }
  }

  lemma TickKeeps(w: World, unreset: bool, items: seq<Item>, handled: nat, cloud: seq<TokenEvent>,
                  batches: seq<seq<TokenEvent>>, wires: seq<seq<Attempt>>, saveOk: bool)
    requires Inv(w, unreset) && Enabled(w, TickRuns(items, handled, cloud, batches, wires, saveOk))
    ensures Inv(Next(w, TickRuns(items, handled, cloud, batches, wires, saveOk)), unreset)
  {
    var scan, sent := ScanOf(w, items, handled, cloud), PostedBatches(w.tables, batches, wires);
    PostDelivers(w.tables, batches, wires);
    forall r | r in w.recorded {
      StoredStays(w.tables, sent.tables, r);
    }
    if sent.ok {
      ScanUpdates(w, Scan(cloud, []), items[..handled]);
      var recorded := w.recorded + ReadsOf(scan, w.logs);
      BackedGrows(w.recorded, recorded, w.saved.memory, unreset);
      BackedGrows(w.recorded, recorded, w.saved.disk, unreset);
      MergedBacked(w, recorded, scan, unreset);
      forall r | r in ReadsOf(scan, w.logs)
        ensures Delivered(sent.tables, r) && Witnessed(w.logs, w.parser, r)
      {
        var u :| u in scan.updates && r == ReadOfUpdate(u, scan.all, w.logs);
        PostedReadDelivered(sent.tables, r);
        UpdateWitnessed(w, unreset, u, scan.all);
      }
    }
  }

  lemma StepKeeps(w: World, unreset: bool, s: Step)
    requires Inv(w, unreset) && Enabled(w, s) && (unreset ==> !s.Rescan?)
    ensures Inv(Next(w, s), unreset)
  {
    match s {
      case Append(path, bytes) =>
        forall r | r in w.recorded {
          AppendKeepsWitnessed(w.logs, w.parser, path, bytes, r);
        }
      case TickRuns(items, handled, cloud, batches, wires, saveOk) =>
        TickKeeps(w, unreset, items, handled, cloud, batches, wires, saveOk);
      case Restart(readable) =>
      case Rescan(saveOk) =>
        forall p | p in w.saved.memory {
          StartIsBacked(w.recorded, p, false, w.saved.memory[p].memo.(totals := None));
        }
      case OtherPost(batch) =>
        IngestKeepsKeys(w.tables, batch);
        forall r | r in w.recorded {
          StoredStays(w.tables, Ingested(w.tables, batch), r);
        }
    }
  }

  ghost predicate NoRescan(steps: seq<Step>) {
    forall i :: 0 <= i < |steps| ==> !steps[i].Rescan?
  }

  lemma {:induction false} RunKeeps(w: World, unreset: bool, steps: seq<Step>)
    requires Inv(w, unreset) && Possible(w, steps) && (unreset ==> NoRescan(steps))
    ensures Inv(After(w, steps), unreset)
    decreases |steps|
  {
    if steps != [] {
      StepKeeps(w, unreset, steps[0]);
      RunKeeps(Next(w, steps[0]), unreset, steps[1..]);
    }
  }

  ghost predicate Initial(w: World) {
    WellKeyed(w.tables.events) && w.saved == Saved(map[], map[]) && w.recorded == {}
  }

  /** The file's saved offset and memo are where a chain of recorded reads got to, which handed over
      every record below that offset. */
  ghost predicate Recounts(w: World, path: string, state: FileState, unreset: bool, start: Memo, chain: seq<Read>) {
    && Chain(w.recorded, path, start, state.byteOffset, state.memo, chain) && (unreset ==> start == NO_MEMO)
    && CoversFile(LogOf(w.logs, path), chain, state.byteOffset)
  }

  ghost predicate Recounted(w: World, files: Files, path: string, unreset: bool) {
    path in files ==> exists start, chain :: Recounts(w, path, files[path], unreset, start, chain)
  }

  /** Nothing a saved offset has passed is lost. Over any run of appends, ticks with failing batches,
      lost answers, failed saves, vanished listings, restarts and rescans: each offset in memory or on
      disk is reached by recorded reads that follow one another from the start of the file and handed
      each terminated record below the offset to the parser exactly once, in order, each with the memo
      of the read before; what they recorded is what the parser makes of the file as it stood; and each
      event of those reads whose key its tick posted as a valid event is stored. Without a rescan the
      chain begins with an empty memo. */
  lemma NoLoss(w: World, steps: seq<Step>, path: string)
    requires Initial(w) && Possible(w, steps)
    ensures var r, unreset := After(w, steps), NoRescan(steps);
            && Recounted(r, r.saved.memory, path, unreset) && Recounted(r, r.saved.disk, path, unreset)
            && AllWitnessed(r) && (forall x :: x in r.recorded ==> Delivered(r.tables, x))
  {
    var unreset := NoRescan(steps);
    RunKeeps(w, unreset, steps);
    var r := After(w, steps);
    FileRecounted(r, r.saved.memory, path, unreset);
    FileRecounted(r, r.saved.disk, path, unreset);
  }

  lemma FileRecounted(w: World, files: Files, path: string, unreset: bool)
    requires AllBacked(w.recorded, files, unreset) && AllWitnessed(w)
    ensures Recounted(w, files, path, unreset)
  {
    if path in files {
      var f := files[path];
      var start, chain :| Chain(w.recorded, path, start, f.byteOffset, f.memo, chain) && (unreset ==> start == NO_MEMO);
      ChainCovers(w, path, start, f.byteOffset, f.memo, chain);
      assert Recounts(w, path, f, unreset, start, chain);
    }
  }

  // ----- and nothing is stored twice -----

  lemma OneMoreOp(t: Tables, ops: seq<Op>, op: Op)
    ensures Run(t, ops + [op]) == Apply(Run(t, ops), op)
  {
    assert (ops + [op])[..|ops|] == ops;
  }

  lemma OneInsert(t: Tables, ops: seq<Op>, batch: seq<TokenEvent>) returns (more: seq<Op>)
    ensures Run(t, more) == Ingested(Run(t, ops), batch)
  {
    more := ops;
    if Reaches(batch) {
      OneMoreOp(t, ops, Insert(Validated(batch)));
      more := ops + [Insert(Validated(batch))];
    }
  }

  /** The inserts a batch's attempts amount to, after `ops`. */
  lemma {:induction false} BatchIsRun(t: Tables, ops: seq<Op>, batch: seq<TokenEvent>, attempts: seq<Attempt>)
      returns (more: seq<Op>)
    ensures Run(t, more) == PostedBatch(Run(t, ops), batch, attempts).tables
    decreases |attempts|
  {
    more := ops;
    if attempts != [] {
      match attempts[0] {
        case Unreachable => more := BatchIsRun(t, ops, batch, attempts[1..]);
        case Refused =>
        case Answered => more := OneInsert(t, ops, batch);
        case AnswerLost =>
          more := OneInsert(t, ops, batch);
          more := BatchIsRun(t, more, batch, attempts[1..]);
      }
    }
  }

  lemma {:induction false} PostIsRun(t: Tables, ops: seq<Op>, batches: seq<seq<TokenEvent>>, wires: seq<seq<Attempt>>)
      returns (more: seq<Op>)
    ensures Run(t, more) == PostedBatches(Run(t, ops), batches, wires).tables
    decreases |batches|
  {
    more := ops;
    if batches != [] && wires != [] {
      more := BatchIsRun(t, ops, batches[0], wires[0]);
      if PostedBatch(Run(t, ops), batches[0], wires[0]).ok {
        more := PostIsRun(t, more, batches[1..], wires[1..]);
      }
    }
  }

  lemma {:induction false} StepsAreRun(t: Tables, ops: seq<Op>, w: World, steps: seq<Step>) returns (more: seq<Op>)
    requires Possible(w, steps) && w.tables == Run(t, ops)
    ensures Run(t, more) == After(w, steps).tables
    decreases |steps|
  {
    more := ops;
    if steps != [] {
      match steps[0] {
        case TickRuns(items, handled, cloud, batches, wires, saveOk) => more := PostIsRun(t, ops, batches, wires);
        case OtherPost(batch) => more := OneInsert(t, ops, batch);
        case _ =>
      }
      more := StepsAreRun(t, more, Next(w, steps[0]), steps[1..]);
    }
  }

  /** However often batches are sent again, the events table is the outcome of a run of insertMany
      calls, so no two of its rows agree on the columns of the unique index. */
  lemma {:induction false} NothingStoredTwice(w: World, steps: seq<Step>) returns (ops: seq<Op>)
    requires Initial(w) && w.tables == EMPTY && Possible(w, steps)
    ensures NoConflicts(RunOnRows(ops)) && Represents(RunOnRows(ops), After(w, steps).tables.events)
  {
    ops := StepsAreRun(EMPTY, [], w, steps);
    RowsNeverConflict(ops);
  }
}
