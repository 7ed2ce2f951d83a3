/** The Codex rollout parser: a cumulative token ledger over the lines of a session file. */
module CodexLedgers {
  import opened Numbers
  import opened Options
  import opened Events
  import opened ReadSlices

  const LEGACY_FALLBACK_MODEL := "gpt-5"
  const SEED_GAP_MS: int := 1500
  const LOOKAHEAD_MAX_BYTES: nat := 32 * 1024 * 1024
  const LOOKAHEAD_WINDOW_BYTES: nat := 1024 * 1024

  /** The five counters of a usage record, missing ones read as 0. */
  datatype Usage = Usage(input: int, output: int, cached: int, cacheWrite: int, reasoning: int)

  const NO_USAGE := Usage(0, 0, 0, 0, 0)

  /** What a line says. A token count without usage, and any other kind of line, is Other. */
  datatype Body =
    | NotJson
    | SessionMeta(forked: bool)
    | TurnContext(model: Option<string>)
    | UserPrompt
    | TokenCount(last: Option<Usage>, total: Option<Usage>, eventModel: Option<string>)
    | Other

  /** A timestamp text: never empty, the clock's text stands in for a missing one. */
  type Stamp = s: string | s != "" witness "-"

  /** `ms` is the timestamp as a time, None when it is missing or no date. */
  datatype CodexLine = CodexLine(stamp: Stamp, ms: Option<int>, body: Body)

  /** What JSON decoding makes of a line. */
  type Decoder = seq<byte> -> CodexLine

  /** `${session}:${stamp}:${ix}`, with a `user` tag for prompts. */
  datatype CodexId = CodexId(stamp: string, prompt: bool, ix: nat)

  datatype CodexEvent = CodexEvent(
    id: CodexId, ms: Option<int>, model: string, messageType: MessageType,
    input: int, output: int, cacheWrite: int, cacheRead: int, reasoning: Option<int>)

  /** The local state of one read. */
  datatype Ledger = Ledger(
    totals: Usage, seenCumulative: bool, model: Option<string>, peeked: bool,
    lastStamp: string, ix: nat, seedActive: bool, prevMs: Option<int>,
    events: seq<CodexEvent>, replayed: nat)

  // ----- one line -----

  /** A gap of more than SEED_GAP_MS between lines ends a fork seed. */
  function Watched(s: Ledger, l: CodexLine): Ledger {
    if l.ms.None? then s
    else
      s.(seedActive := s.seedActive && !(s.prevMs.Some? && l.ms.value - s.prevMs.value > SEED_GAP_MS), prevMs := l.ms)
  }

  function Stamped(s: Ledger, stamp: string): Ledger {
    if stamp == s.lastStamp then s.(ix := s.ix + 1) else s.(lastStamp := stamp, ix := 0)
  }

  /** The look-ahead answers at most once, and only when no model is known. */
  function Resolved(s: Ledger, peek: Option<string>): Ledger {
    if s.model.None? && !s.peeked then s.(model := peek, peeked := true) else s
  }

  function ModelName(s: Ledger): string {
    s.model.GetOr(LEGACY_FALLBACK_MODEL)
  }

  function Prompted(s: Ledger, l: CodexLine, peek: Option<string>): Ledger {
    var r := Resolved(Stamped(s, l.stamp), peek);
    r.(events := r.events + [CodexEvent(CodexId(l.stamp, true, r.ix), l.ms, ModelName(r), User, 0, 0, 0, 0, None)])
  }

  /** The cumulative did not move. Cache writes are not compared. */
  predicate Unmoved(a: Usage, b: Usage) {
    a.input == b.input && a.output == b.output && a.cached == b.cached && a.reasoning == b.reasoning
  }

  function Minus(a: Usage, b: Usage): Usage {
    Usage(a.input - b.input, a.output - b.output, a.cached - b.cached, a.cacheWrite - b.cacheWrite,
          a.reasoning - b.reasoning)
  }

  function Plus(a: Usage, b: Usage): Usage {
    Usage(a.input + b.input, a.output + b.output, a.cached + b.cached, a.cacheWrite + b.cacheWrite,
          a.reasoning + b.reasoning)
  }

  predicate Regressed(total: Usage, totals: Usage) {
    total.input < totals.input || total.output < totals.output || total.cached < totals.cached
      || total.reasoning < totals.reasoning
  }

  /** A cumulative's step over the last one, or itself after a reset. */
  function CumulativeStep(total: Usage, totals: Usage): Usage {
    if Regressed(total, totals) then total
    else if total.cacheWrite < totals.cacheWrite then Minus(total, totals).(cacheWrite := total.cacheWrite)
    else Minus(total, totals)
  }

  /** The usage a token count bills. */
  function Billed(totals: Usage, last: Option<Usage>, total: Option<Usage>): Usage
    requires last.Some? || total.Some?
  {
    if last.Some? then last.value else CumulativeStep(total.value, totals)
  }

  /** Splits inclusive input into plain, cache-read and cache-write portions. */
  function Bucketed(id: CodexId, ms: Option<int>, model: string, d: Usage): CodexEvent {
    var cached := Smaller(d.cached, d.input);
    var write := Smaller(d.cacheWrite, Larger(0, d.input - cached));
    CodexEvent(id, ms, model, Assistant, Larger(0, d.input - cached - write), d.output, write,
               cached, Some(d.reasoning))
  }

  function Emit(s: Ledger, l: CodexLine, d: Usage, eventModel: Option<string>, peek: Option<string>): Ledger {
    var named := if eventModel.Some? then Stamped(s, l.stamp).(model := eventModel) else Stamped(s, l.stamp);
    var r := Resolved(named, peek);
    r.(events := r.events + [Bucketed(CodexId(l.stamp, false, r.ix), l.ms, ModelName(r), d)])
  }

  function Counted(s: Ledger, l: CodexLine, peek: Option<string>): Ledger
    requires l.body.TokenCount?
  {
    var last, total := l.body.last, l.body.total;
    if last.None? && total.None? then s
    else if total.Some? && s.seenCumulative && Unmoved(total.value, s.totals) then s.(replayed := s.replayed + 1)
    else
      var d := Billed(s.totals, last, total);
      var r := s.(seenCumulative := s.seenCumulative || total.Some?,
                  totals := if total.Some? then total.value else Plus(s.totals, d));
      if r.seedActive || d == NO_USAGE then r else Emit(r, l, d, l.body.eventModel, peek)
  }

  function Step(s: Ledger, l: CodexLine, peek: Option<string>, fromZero: bool): Ledger {
    match l.body
    case NotJson => s
    case SessionMeta(forked) => if fromZero && forked then Watched(s, l).(seedActive := true) else Watched(s, l)
    case TurnContext(model) => if model.Some? then Watched(s, l).(model := model) else Watched(s, l)
    case UserPrompt => if Watched(s, l).seedActive then Watched(s, l) else Prompted(Watched(s, l), l, peek)
    case TokenCount(_, _, _) => Counted(Watched(s, l), l, peek)
    case Other => Watched(s, l)
  }

  function Steps(s: Ledger, lines: seq<CodexLine>, peek: Option<string>, fromZero: bool): Ledger {
    if lines == [] then s
    else Step(Steps(s, lines[..|lines| - 1], peek, fromZero), lines[|lines| - 1], peek, fromZero)
  }

  // ----- one read -----

  datatype SessionTotals = SessionTotals(sessionId: string, usage: Usage)

  datatype Result = Result(
    events: seq<CodexEvent>, newOffset: nat, totals: SessionTotals, lastModel: Option<string>,
    oversizeSkipped: nat, replayedSkipped: nat)

  function Carried(prev: Option<SessionTotals>, sessionId: string): bool {
    prev.Some? && prev.value.sessionId == sessionId
  }

  function StartTotals(prev: Option<SessionTotals>, sessionId: string): Usage {
    if Carried(prev, sessionId) then prev.value.usage else NO_USAGE
  }

  function Start(byteOffset: nat, prev: Option<SessionTotals>, sessionId: string, prevModel: Option<string>): Ledger {
    Ledger(StartTotals(prev, sessionId), Carried(prev, sessionId),
           if byteOffset > 0 then prevModel else None, byteOffset > 0,
           "", 0, false, None, [], 0)
  }

  /** The decoded lines among the records of a read. */
  function Decoded(records: seq<LineRead>, decode: Decoder): seq<CodexLine> {
    if records == [] then []
    else
      var n := |records| - 1;
      Decoded(records[..n], decode) + if records[n].Line? then [decode(records[n].text)] else []
  }

  function Oversized(records: seq<LineRead>): nat {
    if records == [] then 0
    else Oversized(records[..|records| - 1]) + if records[|records| - 1].Line? then 0 else 1
  }

  /** The first turn_context among some lines: None when there is none. */
  function FirstTurn(lines: seq<CodexLine>): Option<Option<string>> {
    if lines == [] then None
    else
      var n := |lines| - 1;
      var before := FirstTurn(lines[..n]);
      if before.Some? then before
      else if lines[n].body.TurnContext? then Some(lines[n].body.model)
      else None
  }

  /** The lines the look-ahead can see. */
  function Head(data: seq<byte>, cap: nat): seq<byte> {
    data[..if cap <= |data| then cap else |data|]
  }

  function HeadTurn(data: seq<byte>, cap: nat, decode: Decoder): Option<Option<string>> {
    FirstTurn(Decoded(Records(Head(data, cap), 0, LOOKAHEAD_WINDOW_BYTES), decode))
  }

  function LookAheadModel(data: seq<byte>, cap: nat, decode: Decoder): Option<string> {
    HeadTurn(data, cap, decode).GetOr(None)
  }

  function Parsed(data: seq<byte>, byteOffset: nat, sessionId: string, prev: Option<SessionTotals>,
                  prevModel: Option<string>, cap: nat, decode: Decoder): Result
  {
    if byteOffset >= |data|
    then Result([], |data|, SessionTotals(sessionId, StartTotals(prev, sessionId)), prevModel, 0, 0)
    else
      var records := Records(data, byteOffset, MAX_READ_BYTES);
      var s := Steps(Start(byteOffset, prev, sessionId, prevModel), Decoded(records, decode),
                     LookAheadModel(data, cap, decode), byteOffset == 0);
      Result(s.events, Committed(data, byteOffset), SessionTotals(sessionId, s.totals), s.model,
             Oversized(records), s.replayed)
  }
}
