/** Codex rollouts read many times while they grow, and files on which the reads disagree. */
module CodexRereads {
  import opened Options
  import opened Events
  import opened ReadSlices
  import opened CodexLedgers
  import opened CodexParsers
  import opened CodexSplits
  import opened CodexPasses
  import opened CodexCuts

  // ----- any number of reads -----

  /** The file after it grew by `more`, piece by piece. */
  function File(first: seq<byte>, more: seq<seq<byte>>): seq<byte> {
    if more == [] then first else File(first, more[..|more| - 1]) + more[|more| - 1]
  }

  function ReadAll(data: seq<byte>, sessionId: string, cap: nat, decode: Decoder): Result {
    Parsed(data, 0, sessionId, None, None, cap, decode)
  }

  /** One more read, from the offset, totals and model the reads before left. */
  function ThenRead(r: Result, data: seq<byte>, sessionId: string, cap: nat, decode: Decoder): Result {
    Together(r, Parsed(data, r.newOffset, sessionId, Some(r.totals), r.lastModel, cap, decode))
  }

  /** One read of the first version, and one after each piece. */
  function ReadEach(first: seq<byte>, more: seq<seq<byte>>, sessionId: string, cap: nat, decode: Decoder): Result {
    if more == [] then ReadAll(first, sessionId, cap, decode)
    else ThenRead(ReadEach(first, more[..|more| - 1], sessionId, cap, decode), File(first, more),
                  sessionId, cap, decode)
  }

  /** After each read, the reads so far together say what one read of the file says. */
  ghost predicate AlwaysOneRead(first: seq<byte>, more: seq<seq<byte>>, sessionId: string, cap: nat, decode: Decoder) {
    more != [] ==>
      && AlwaysOneRead(first, more[..|more| - 1], sessionId, cap, decode)
      && ReadEach(first, more, sessionId, cap, decode) == ReadAll(File(first, more), sessionId, cap, decode)
  }

  ghost predicate HarmlessCuts(first: seq<byte>, more: seq<seq<byte>>, sessionId: string, cap: nat, decode: Decoder) {
    more != [] ==>
      var n := |more| - 1;
      && HarmlessCuts(first, more[..n], sessionId, cap, decode)
      && HarmlessCut(File(first, more[..n]), more[n], 0, sessionId, None, None, cap, decode)
  }

  lemma ThenReadIff(data: seq<byte>, more: seq<byte>, sessionId: string, cap: nat, decode: Decoder)
    requires Unforked(LinesFrom(data + more, 0, decode))
    ensures ThenRead(ReadAll(data, sessionId, cap, decode), data + more, sessionId, cap, decode)
         == ReadAll(data + more, sessionId, cap, decode)
       <==> HarmlessCut(data, more, 0, sessionId, None, None, cap, decode)
  {
    SplitReadsAgreeIff(data, more, 0, sessionId, None, None, cap, decode);
  }

  /** However often an unforked rollout is read while it grows: after each read the reads so far say
      what one read of the file says if and only if every cut was harmless. */
  lemma {:induction false} ReadsAreOneReadIff(first: seq<byte>, more: seq<seq<byte>>, sessionId: string, cap: nat,
                                              decode: Decoder)
    requires Unforked(LinesFrom(File(first, more), 0, decode))
    ensures AlwaysOneRead(first, more, sessionId, cap, decode) <==> HarmlessCuts(first, more, sessionId, cap, decode)
    ensures AlwaysOneRead(first, more, sessionId, cap, decode) ==>
              ReadEach(first, more, sessionId, cap, decode) == ReadAll(File(first, more), sessionId, cap, decode)
    decreases |more|
  {
    if more != [] {
      var n := |more| - 1;
      LinesSplit(File(first, more[..n]), more[n], 0, decode);
      ReadsAreOneReadIff(first, more[..n], sessionId, cap, decode);
      ThenReadIff(File(first, more[..n]), more[n], sessionId, cap, decode);
    }
  }

  // ----- each of the three goes wrong somewhere -----

  /** A file of two one-byte records, read before and after the second was written. */
  lemma TwoRecords(x: byte, y: byte, maxBytes: nat)
    requires x != NEWLINE && y != NEWLINE && maxBytes > 0
    ensures var one, both := [x, NEWLINE], [x, NEWLINE, y, NEWLINE];
            && one + [y, NEWLINE] == both && Committed(one, 0) == 2
            && Records(one, 0, maxBytes) == [Line([x], 2)] && Records(both, 2, maxBytes) == [Line([y], 4)]
            && Records(both, 0, maxBytes) == [Line([x], 2), Line([y], 4)]
  {
    var one, both := [x, NEWLINE], [x, NEWLINE, y, NEWLINE];
    FirstIsUnique(one, 0, 1);
    FirstIsUnique(both, 0, 1);
    FirstIsUnique(both, 2, 3);
    assert NextNewline(one, 2) == -1 && NextNewline(both, 4) == -1;
    assert one[0..1] == [x] && both[0..1] == [x] && both[2..3] == [y];
    assert Records(one, 2, maxBytes) == [] && Records(both, 4, maxBytes) == [];
    assert Records(both, 2, maxBytes) == Report(both, 2, 3, maxBytes) + [];
    assert Records(one, 0, maxBytes) == Report(one, 0, 1, maxBytes) + [];
    assert Records(both, 0, maxBytes) == Report(both, 0, 1, maxBytes) + Records(both, 2, maxBytes);
    assert Committed(one, 0) == Committed(one, 2) == 2;
  }

  lemma DecodedTwo(a: LineRead, b: LineRead, decode: Decoder)
    requires a.Line? && b.Line?
    ensures Decoded([a], decode) == [decode(a.text)] && Decoded([a, b], decode) == [decode(a.text), decode(b.text)]
  {
    assert [a][..0] == [] && [a, b][..1] == [a];
    assert [] + [decode(a.text)] == [decode(a.text)]
      && [decode(a.text)] + [decode(b.text)] == [decode(a.text), decode(b.text)];
  }

  lemma OneStep(s: Ledger, a: CodexLine, b: CodexLine, peek: Option<string>, fromZero: bool)
    ensures Steps(s, [a], peek, fromZero) == Step(s, a, peek, fromZero)
    ensures Steps(s, [a, b], peek, fromZero) == Step(Step(s, a, peek, fromZero), b, peek, fromZero)
  {
    assert [a][..0] == [] && [a, b][..1] == [a];
  }

  /** What the reads of such a file come to, in ledgers. */
  lemma TwoReads(x: byte, y: byte, sessionId: string, cap: nat, decode: Decoder)
    requires x != NEWLINE && y != NEWLINE
    ensures var data, more, a, b := [x, NEWLINE], [y, NEWLINE], decode([x]), decode([y]);
            var before, after := LookAheadModel(data, cap, decode), LookAheadModel(data + more, cap, decode);
            var start := Start(0, None, sessionId, None);
            var s := Step(start, a, before, true);
            var first := ReadAll(data, sessionId, cap, decode);
            && first.events == s.events && first.newOffset == 2 && first.totals == SessionTotals(sessionId, s.totals)
            && first.lastModel == s.model
            && Parsed(data + more, 2, sessionId, Some(first.totals), first.lastModel, cap, decode).events
               == Step(SecondStart(s, 2, sessionId), b, after, false).events
            && ReadAll(data + more, sessionId, cap, decode).events
               == Step(Step(start, a, after, true), b, after, true).events
            && LinesFrom(data + more, 0, decode) == [a, b]
  {
    var data, more, a, b := [x, NEWLINE], [y, NEWLINE], decode([x]), decode([y]);
    TwoRecords(x, y, MAX_READ_BYTES);
    DecodedTwo(Line([x], 2), Line([y], 4), decode);
    DecodedTwo(Line([y], 4), Line([y], 4), decode);
    var before, after := LookAheadModel(data, cap, decode), LookAheadModel(data + more, cap, decode);
    OneStep(Start(0, None, sessionId, None), a, b, before, true);
    OneStep(Start(0, None, sessionId, None), a, b, after, true);
    ParsedInside(data, 0, sessionId, None, None, cap, decode);
    ParsedInside(data + more, 0, sessionId, None, None, cap, decode);
    var s := Step(Start(0, None, sessionId, None), a, before, true);
    OneStep(SecondStart(s, 2, sessionId), b, b, after, false);
    ParsedInside(data + more, 2, sessionId, Some(SessionTotals(sessionId, s.totals)), s.model, cap, decode);
  }

  lemma LedgerDrops(a: CodexLine, b: CodexLine, used: Usage, sessionId: string, before: Option<string>,
                    after: Option<string>)
    requires used != NO_USAGE
    requires a.body == TokenCount(Some(used), None, None) && b.body == TokenCount(Some(used), Some(used), None)
    ensures var start := Start(0, None, sessionId, None);
            var s := Step(start, a, before, true);
            && |s.events| == 1 && |Step(SecondStart(s, 2, sessionId), b, after, false).events| == 0
            && |Step(Step(start, a, after, true), b, after, true).events| == 2
  {
    var start := Start(0, None, sessionId, None);
    var s, u := Step(start, a, before, true), Step(start, a, after, true);
    assert s.totals == used && |s.events| == 1;
    assert u.totals == used && |u.events| == 1 && !u.seenCumulative;
  }

  /** Reads whose events differ were cut harmfully. */
  lemma EventsDiffer(data: seq<byte>, more: seq<byte>, sessionId: string, cap: nat, decode: Decoder)
    requires Unforked(LinesFrom(data + more, 0, decode))
    ensures var first, both := ReadAll(data, sessionId, cap, decode), ReadAll(data + more, sessionId, cap, decode);
            var second := Parsed(data + more, first.newOffset, sessionId, Some(first.totals),
                                 first.lastModel, cap, decode);
            both.events != first.events + second.events ==>
              !HarmlessCut(data, more, 0, sessionId, None, None, cap, decode)
  {
    ThenReadIff(data, more, sessionId, cap, decode);
  }

  /** Without a cumulative in the first read the second takes its first one for a replay: of two
      billed records only one survives the cut. */
  lemma CumulativeIsNeeded(x: byte, y: byte, used: Usage, sessionId: string, cap: nat, decode: Decoder)
    requires x != NEWLINE && y != NEWLINE && used != NO_USAGE
    requires decode([x]).body == TokenCount(Some(used), None, None)
             && decode([y]).body == TokenCount(Some(used), Some(used), None)
    ensures var data, more := [x, NEWLINE], [y, NEWLINE];
            var first := ReadAll(data, sessionId, cap, decode);
            var second := Parsed(data + more, first.newOffset, sessionId, Some(first.totals),
                                 first.lastModel, cap, decode);
            && |ReadAll(data + more, sessionId, cap, decode).events| == 2 && |first.events| == 1 && |second.events| == 0
            && !HarmlessCut(data, more, 0, sessionId, None, None, cap, decode)
  {
    var data, more := [x, NEWLINE], [y, NEWLINE];
    TwoReads(x, y, sessionId, cap, decode);
    LedgerDrops(decode([x]), decode([y]), used, sessionId, LookAheadModel(data, cap, decode),
                LookAheadModel(data + more, cap, decode));
    EventsDiffer(data, more, sessionId, cap, decode);
  }

  lemma LedgerCollides(a: CodexLine, b: CodexLine, sessionId: string, before: Option<string>, after: Option<string>)
    requires a.body == b.body == UserPrompt && a.stamp == b.stamp
    ensures var start := Start(0, None, sessionId, None);
            var s := Step(start, a, before, true);
            Collide(s.events, Step(SecondStart(s, 2, sessionId), b, after, false).events,
                    Step(Step(start, a, after, true), b, after, true).events)
  {
  }

  /** The first read's event, the second read's, and those of one read. */
  ghost predicate Collide(first: seq<CodexEvent>, second: seq<CodexEvent>, both: seq<CodexEvent>) {
    && |both| == 2 && both[0].id != both[1].id
    && |first| == 1 && |second| == 1 && first[0].id == second[0].id
  }

  lemma CollidingReads(x: byte, y: byte, sessionId: string, cap: nat, decode: Decoder)
    requires x != NEWLINE && y != NEWLINE
    requires decode([x]).body == decode([y]).body == UserPrompt && decode([x]).stamp == decode([y]).stamp
    ensures var data, more := [x, NEWLINE], [y, NEWLINE];
            var first, both := ReadAll(data, sessionId, cap, decode), ReadAll(data + more, sessionId, cap, decode);
            var second := Parsed(data + more, first.newOffset, sessionId, Some(first.totals),
                                 first.lastModel, cap, decode);
            Collide(first.events, second.events, both.events) && Unforked(LinesFrom(data + more, 0, decode))
  {
    var before := LookAheadModel([x, NEWLINE], cap, decode);
    var after := LookAheadModel([x, NEWLINE] + [y, NEWLINE], cap, decode);
    TwoReads(x, y, sessionId, cap, decode);
    LedgerCollides(decode([x]), decode([y]), sessionId, before, after);
  }

  /** Two prompts with one timestamp get two ids in one read, but the same id when the cut falls
      between them. */
  lemma SharedStampCollides(x: byte, y: byte, sessionId: string, cap: nat, decode: Decoder)
    requires x != NEWLINE && y != NEWLINE
    requires decode([x]).body == decode([y]).body == UserPrompt && decode([x]).stamp == decode([y]).stamp
    ensures var data, more := [x, NEWLINE], [y, NEWLINE];
            var first, both := ReadAll(data, sessionId, cap, decode), ReadAll(data + more, sessionId, cap, decode);
            var second := Parsed(data + more, first.newOffset, sessionId, Some(first.totals),
                                 first.lastModel, cap, decode);
            && Collide(first.events, second.events, both.events)
            && !HarmlessCut(data, more, 0, sessionId, None, None, cap, decode)
  {
    CollidingReads(x, y, sessionId, cap, decode);
    EventsDiffer([x, NEWLINE], [y, NEWLINE], sessionId, cap, decode);
  }

  lemma TurnAhead(x: byte, y: byte, model: string, cap: nat, decode: Decoder)
    requires x != NEWLINE && y != NEWLINE && cap >= 4
    requires decode([x]).body == UserPrompt && decode([y]).body == TurnContext(Some(model))
    ensures var data, more := [x, NEWLINE], [y, NEWLINE];
            LookAheadModel(data, cap, decode) == None && LookAheadModel(data + more, cap, decode) == Some(model)
  {
    var data, more := [x, NEWLINE], [y, NEWLINE];
    TwoRecords(x, y, LOOKAHEAD_WINDOW_BYTES);
    DecodedTwo(Line([x], 2), Line([y], 4), decode);
    assert Head(data, cap) == data && Head(data + more, cap) == data + more;
    TurnAppend([], decode([x]));
    TurnAppend([decode([x])], decode([y]));
    assert [] + [decode([x])] == [decode([x])] && [decode([x])] + [decode([y])] == [decode([x]), decode([y])];
  }

  /** A prompt before the first turn_context is labelled with the fallback if the file ends between
      the two when it is first read, and with the turn's model if it does not. */
  lemma LookAheadIsNeeded(x: byte, y: byte, model: string, sessionId: string, cap: nat, decode: Decoder)
    requires x != NEWLINE && y != NEWLINE && cap >= 4 && model != LEGACY_FALLBACK_MODEL
    requires decode([x]).body == UserPrompt && decode([y]).body == TurnContext(Some(model))
    ensures var data, more := [x, NEWLINE], [y, NEWLINE];
            var first, one := ReadAll(data, sessionId, cap, decode).events,
                              ReadAll(data + more, sessionId, cap, decode).events;
            && |first| == |one| == 1 && first[0].model == LEGACY_FALLBACK_MODEL && one[0].model == model
            && !HarmlessCut(data, more, 0, sessionId, None, None, cap, decode)
  {
    TurnAhead(x, y, model, cap, decode);
    TwoReads(x, y, sessionId, cap, decode);
    EventsDiffer([x, NEWLINE], [y, NEWLINE], sessionId, cap, decode);
  }
}
