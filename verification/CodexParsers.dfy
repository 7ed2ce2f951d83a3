/** The Codex parser as it runs: a line loop over local variables, with a lazy look-ahead. */
module CodexParsers {
  import opened Options
  import opened Events
  import opened ReadSlices
  import opened CodexLedgers

  /** Stops at the first turn_context, whether or not it names a model. */
  method FirstTurnModel(records: seq<LineRead>, cap: nat, decode: Decoder) returns (model: Option<string>)
    requires forall r :: r in records ==> r.newOffset <= cap
    ensures model == FirstTurn(Decoded(records, decode)).GetOr(None)
  {
    for i := 0 to |records|
      invariant FirstTurn(Decoded(records[..i], decode)) == None
    {
      DecodedNext(records, i, decode);
      var part := records[i];
      if part.newOffset > cap {
        return None;
      }
      if part.Line? {
        var raw := decode(part.text);
        TurnAppend(Decoded(records[..i], decode), raw);
        if raw.body.TurnContext? {
          TurnStays(records, i + 1, decode);
          return raw.body.model;
        }
      }
    }
    assert records[..|records|] == records;
    return None;
  }

  lemma TurnAppend(lines: seq<CodexLine>, l: CodexLine)
    ensures FirstTurn(lines + [l])
         == if FirstTurn(lines).Some? then FirstTurn(lines)
           else if l.body.TurnContext? then Some(l.body.model) else None
  {
    assert (lines + [l])[..|lines|] == lines;
  }

  lemma {:induction false} TurnStays(records: seq<LineRead>, i: nat, decode: Decoder)
    requires i <= |records| && FirstTurn(Decoded(records[..i], decode)).Some?
    ensures FirstTurn(Decoded(records, decode)) == FirstTurn(Decoded(records[..i], decode))
  {
    if i == |records| {
      assert records[..i] == records;
    } else {
      var n := |records| - 1;
      assert records[..n][..i] == records[..i];
      TurnStays(records[..n], i, decode);
      if records[n].Line? {
        TurnAppend(Decoded(records[..n], decode), decode(records[n].text));
      } else {
        assert Decoded(records[..n], decode) + [] == Decoded(records[..n], decode);
      }
    }
  }

  /** The reader never gets past the slice it was handed, so the offset check cannot fire. */
  method LookAhead(data: seq<byte>, cap: nat, decode: Decoder) returns (model: Option<string>)
    ensures model == LookAheadModel(data, cap, decode)
  {
    var head := Head(data, cap);
    var lines := ReadNewlineLines(head, 0, LOOKAHEAD_WINDOW_BYTES);
    forall r | r in lines.records
      ensures r.newOffset <= cap
    {
      RecordsAreExactly(head, 0, LOOKAHEAD_WINDOW_BYTES, r);
    }
    model := FirstTurnModel(lines.records, cap, decode);
  }

  method ResolveModel(s: Ledger, data: seq<byte>, cap: nat, decode: Decoder) returns (r: Ledger)
    ensures r == Resolved(s, LookAheadModel(data, cap, decode))
  {
    r := s;
    if s.model.None? && !s.peeked {
      r := r.(peeked := true);
      var found := LookAhead(data, cap, decode);
      r := r.(model := found);
    }
  }

  method WatchSeed(s: Ledger, l: CodexLine) returns (r: Ledger)
    ensures r == Watched(s, l)
  {
    r := s;
    if r.seedActive && r.prevMs.Some? && l.ms.Some? && l.ms.value - r.prevMs.value > SEED_GAP_MS {
      r := r.(seedActive := false);
    }
    if l.ms.Some? {
      r := r.(prevMs := l.ms);
    }
  }

  method CountIx(s: Ledger, stamp: string) returns (r: Ledger)
    ensures r == Stamped(s, stamp)
  {
    if stamp == s.lastStamp {
      r := s.(ix := s.ix + 1);
    } else {
      r := s.(lastStamp := stamp, ix := 0);
    }
  }

  /** What a token count bills, with the reset rules spelled out bucket by bucket. */
  method BillUsage(totals: Usage, last: Option<Usage>, total: Option<Usage>) returns (d: Usage)
    requires last.Some? || total.Some?
    ensures d == Billed(totals, last, total)
  {
    if last.Some? {
      return last.value;
    }
    var cum := total.value;
    var dInput, dOutput, dCached := cum.input - totals.input, cum.output - totals.output, cum.cached - totals.cached;
    var dCacheWrite, dReasoning := cum.cacheWrite - totals.cacheWrite, cum.reasoning - totals.reasoning;
    if dInput < 0 || dOutput < 0 || dCached < 0 || dReasoning < 0 {
      dInput, dOutput, dCached, dCacheWrite, dReasoning := cum.input, cum.output, cum.cached,
        cum.cacheWrite, cum.reasoning;
    } else if dCacheWrite < 0 {
      dCacheWrite := cum.cacheWrite;
    }
    return Usage(dInput, dOutput, dCached, dCacheWrite, dReasoning);
  }

  method TakeTokenCount(s: Ledger, l: CodexLine, data: seq<byte>, cap: nat, decode: Decoder) returns (r: Ledger)
    requires l.body.TokenCount?
    ensures r == Counted(s, l, LookAheadModel(data, cap, decode))
  {
    r := s;
    var last, total := l.body.last, l.body.total;
    if last.None? && total.None? {
      return;
    }
    if total.Some? && s.seenCumulative && Unmoved(total.value, s.totals) {
      return s.(replayed := s.replayed + 1);
    }
    if total.Some? {
      r := r.(seenCumulative := true);
    }
    var d := BillUsage(r.totals, last, total);
    if total.Some? {
      r := r.(totals := total.value);
    } else {
      r := r.(totals := Plus(r.totals, d));
    }
    if r.seedActive || d == NO_USAGE {
      return;
    }
    r := CountIx(r, l.stamp);
    if l.body.eventModel.Some? {
      r := r.(model := l.body.eventModel);
    }
    r := ResolveModel(r, data, cap, decode);
    r := r.(events := r.events + [Bucketed(CodexId(l.stamp, false, r.ix), l.ms, ModelName(r), d)]);
  }

  method TakePrompt(s: Ledger, l: CodexLine, data: seq<byte>, cap: nat, decode: Decoder) returns (r: Ledger)
    ensures r == Prompted(s, l, LookAheadModel(data, cap, decode))
  {
    r := CountIx(s, l.stamp);
    r := ResolveModel(r, data, cap, decode);
    r := r.(events := r.events
            + [CodexEvent(CodexId(l.stamp, true, r.ix), l.ms, ModelName(r), User, 0, 0, 0, 0, None)]);
  }

  /** One decoded line. */
  method TakeLine(s: Ledger, l: CodexLine, byteOffset: nat, data: seq<byte>, cap: nat, decode: Decoder)
      returns (r: Ledger)
    ensures r == Step(s, l, LookAheadModel(data, cap, decode), byteOffset == 0)
  {
    if l.body.NotJson? {
      return s;
    }
    r := WatchSeed(s, l);
    match l.body {
      case SessionMeta(forked) =>
        if byteOffset == 0 && forked {
          r := r.(seedActive := true);
        }
      case TurnContext(model) =>
        if model.Some? {
          r := r.(model := model);
        }
      case UserPrompt =>
        if !r.seedActive {
          r := TakePrompt(r, l, data, cap, decode);
        }
      case TokenCount(_, _, _) => r := TakeTokenCount(r, l, data, cap, decode);
      case Other =>
      case NotJson =>
    }
  }

  method TakeRecords(start: Ledger, records: seq<LineRead>, byteOffset: nat, data: seq<byte>, cap: nat, decode: Decoder)
    returns (s: Ledger, oversizeSkipped: nat)
    ensures s == Steps(start, Decoded(records, decode), LookAheadModel(data, cap, decode), byteOffset == 0)
    ensures oversizeSkipped == Oversized(records)
  {
    s, oversizeSkipped := start, 0;
    ghost var peek := LookAheadModel(data, cap, decode);
    for i := 0 to |records|
      invariant s == Steps(start, Decoded(records[..i], decode), peek, byteOffset == 0)
      invariant oversizeSkipped == Oversized(records[..i])
    {
      DecodedNext(records, i, decode);
      match records[i] {
        case Oversize(_, _) => oversizeSkipped := oversizeSkipped + 1;
        case Line(text, _) =>
          StepsAppend(start, Decoded(records[..i], decode), decode(text), peek, byteOffset == 0);
          s := TakeLine(s, decode(text), byteOffset, data, cap, decode);
      }
    }
    assert records[..|records|] == records;
  }

  lemma DecodedNext(records: seq<LineRead>, i: nat, decode: Decoder)
    requires i < |records|
    ensures Decoded(records[..i + 1], decode) == Decoded(records[..i], decode) + if records[i].Line?
            then [decode(records[i].text)] else []
    ensures !records[i].Line? ==> Decoded(records[..i + 1], decode) == Decoded(records[..i], decode)
    ensures Oversized(records[..i + 1]) == Oversized(records[..i]) + if records[i].Line? then 0 else 1
  {
    assert records[..i + 1][..i] == records[..i];
    assert Decoded(records[..i], decode) + [] == Decoded(records[..i], decode);
  }

  lemma StepsAppend(s: Ledger, lines: seq<CodexLine>, l: CodexLine, peek: Option<string>, fromZero: bool)
    ensures Steps(s, lines + [l], peek, fromZero) == Step(Steps(s, lines, peek, fromZero), l, peek, fromZero)
  {
    assert (lines + [l])[..|lines|] == lines;
  }

  method ParseCodexFile(data: seq<byte>, byteOffset: nat, sessionId: string, prev: Option<SessionTotals>,
                        prevModel: Option<string>, cap: nat, decode: Decoder)
    returns (r: Result)
    ensures r == Parsed(data, byteOffset, sessionId, prev, prevModel, cap, decode)
  {
    var totals := if prev.Some? && prev.value.sessionId == sessionId then prev.value
      else SessionTotals(sessionId, NO_USAGE);
    if byteOffset >= |data| {
      return Result([], |data|, totals, prevModel, 0, 0);
    }
    var seenCumulative := prev.Some? && prev.value.sessionId == sessionId;
    var currentModel := if byteOffset > 0 then prevModel else None;
    var lines := ReadNewlineLines(data, byteOffset, MAX_READ_BYTES);
    var s, oversizeSkipped := TakeRecords(
      Ledger(totals.usage, seenCumulative, currentModel, byteOffset > 0, "", 0, false, None, [], 0),
      lines.records, byteOffset, data, cap, decode);
    return Result(s.events, lines.newOffset, SessionTotals(sessionId, s.totals), s.model, oversizeSkipped, s.replayed);
  }
}
