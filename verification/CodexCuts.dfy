/** Exactly when reading a Codex rollout in two passes equals reading it in one. */
module CodexCuts {
  import opened Options
  import opened Events
  import opened ReadSlices
  import opened CodexLedgers
  import opened CodexParsers
  import opened CodexSplits
  import opened CodexPasses

  function LinesFrom(data: seq<byte>, from: nat, decode: Decoder): seq<CodexLine> {
    Decoded(Records(data, from, MAX_READ_BYTES), decode)
  }

  /** The lines of the grown file are those of the first read and those of the second. */
  lemma LinesSplit(data: seq<byte>, more: seq<byte>, from: nat, decode: Decoder)
    requires Unforked(LinesFrom(data + more, from, decode))
    ensures var da, db := LinesFrom(data, from, decode), LinesFrom(data + more, Committed(data, from), decode);
            LinesFrom(data + more, from, decode) == da + db && Unforked(da) && Unforked(db)
  {
    var a, b := Records(data, from, MAX_READ_BYTES), Records(data + more, Committed(data, from), MAX_READ_BYTES);
    ReadsCompose(data, more, from, MAX_READ_BYTES);
    DecodedConcat(a, b, decode);
    var da, db := Decoded(a, decode), Decoded(b, decode);
    assert forall i :: 0 <= i < |da| ==> (da + db)[i] == da[i];
    assert forall i :: 0 <= i < |db| ==> (da + db)[|da| + i] == db[i];
  }

  lemma NamesModelSplit(a: seq<CodexLine>, b: seq<CodexLine>)
    ensures NamesModel(a + b) <==> NamesModel(a) || NamesModel(b)
  {
    assert forall i :: 0 <= i < |a| ==> (a + b)[i] == a[i];
    assert forall i :: 0 <= i < |b| ==> (a + b)[|a| + i] == b[i];
  }

  /** Nothing committed means nothing read, and the second read starts over. */
  lemma NothingCommitted(data: seq<byte>, decode: Decoder)
    requires Committed(data, 0) == 0
    ensures LinesFrom(data, 0, decode) == [] && Records(data, 0, MAX_READ_BYTES) == []
  {
    CommittedIsLast(data, 0);
    NothingAhead(data, MAX_READ_BYTES, 0);
  }

  /** Where the second read begins. */
  function SecondStart(s: Ledger, committed: nat, sessionId: string): Ledger {
    Start(committed, Some(SessionTotals(sessionId, s.totals)), sessionId, s.model)
  }

  /** What the look-ahead is good for at the cut: the first pass's answer, or none of its own. */
  function AnswerBehind(data: seq<byte>, more: seq<byte>, from: nat, cap: nat, decode: Decoder): Option<string> {
    if from == 0 && Committed(data, from) > 0 then LookAheadModel(data, cap, decode)
    else LookAheadModel(data + more, cap, decode)
  }

  lemma LedgersAgreeIff(data: seq<byte>, more: seq<byte>, from: nat, sessionId: string, prev: Option<SessionTotals>,
                        prevModel: Option<string>, cap: nat, decode: Decoder, t0: Ledger)
    requires from <= |data| && Unforked(LinesFrom(data + more, from, decode))
    requires t0 == SecondStart(EndOf(data, from, sessionId, prev, prevModel, cap, decode),
                               Committed(data, from), sessionId)
    ensures var s, c := EndOf(data, from, sessionId, prev, prevModel, cap, decode), Committed(data, from);
            var ahead, db := LookAheadModel(data + more, cap, decode), LinesFrom(data + more, c, decode);
            var one, t := EndOf(data + more, from, sessionId, prev, prevModel, cap, decode),
                          Steps(t0, db, ahead, c == 0);
            PassesAgree(one, s, t) <==> CutIsHarmless(one, s, t, db, ahead, AnswerBehind(data, more, from, cap, decode))
  {
    var c, start, fz := Committed(data, from), Start(from, prev, sessionId, prevModel), from == 0;
    var da, db := LinesFrom(data, from, decode), LinesFrom(data + more, c, decode);
    var ahead, behind := LookAheadModel(data + more, cap, decode), AnswerBehind(data, more, from, cap, decode);
    LinesSplit(data, more, from, decode);
    CommittedIsLast(data, from);
    FirstPassEnds(data, more, from, sessionId, prev, prevModel, cap, decode);
    var u, s := Steps(start, da, ahead, fz), Steps(start, da, behind, fz);
    StartAlike(start, da, ahead, behind, fz);
    StepsCount(start, da, ahead, fz);
    StepsCount(start, da, behind, fz);
    StepsRemember(start, da, ahead, fz);
    StepsRemember(start, da, behind, fz);
    StepsConcat(start, da, db, ahead, fz);
    CutKnows(data, more, from, start, t0, cap, decode);
    AlikeAtCut(u, s, t0, ahead, behind);
    CutEnds(u, s, t0, db, ahead, behind, fz, c == 0);
  }

  /** The first pass as it ran, and as it runs with the answer behind the cut. */
  lemma FirstPassEnds(data: seq<byte>, more: seq<byte>, from: nat, sessionId: string, prev: Option<SessionTotals>,
                      prevModel: Option<string>, cap: nat, decode: Decoder)
    requires from <= |data|
    ensures EndOf(data, from, sessionId, prev, prevModel, cap, decode)
         == Steps(Start(from, prev, sessionId, prevModel), LinesFrom(data, from, decode),
                  AnswerBehind(data, more, from, cap, decode), from == 0)
  {
    if from > 0 {
      StepsIgnorePeek(Start(from, prev, sessionId, prevModel), LinesFrom(data, from, decode),
                      LookAheadModel(data, cap, decode), LookAheadModel(data + more, cap, decode), false);
    } else if Committed(data, from) == 0 {
      NothingCommitted(data, decode);
    }
  }

  /** What is known of models at the cut: a look-ahead that answered found a model the first pass
      met, and one that answers on the grown file only, a model met by the end. */
  lemma CutKnows(data: seq<byte>, more: seq<byte>, from: nat, start: Ledger, t0: Ledger, cap: nat, decode: Decoder)
    requires from <= |data| && Unforked(LinesFrom(data + more, from, decode))
    requires (start.peeked <==> from > 0) && (from == 0 ==> start.model.None?)
    requires var s := Steps(start, LinesFrom(data, from, decode),
                            AnswerBehind(data, more, from, cap, decode), from == 0);
             (t0.peeked <==> Committed(data, from) > 0) && t0.model == if t0.peeked then s.model else None
    ensures var ahead, behind := LookAheadModel(data + more, cap, decode), AnswerBehind(data, more, from, cap, decode);
            var da, db := LinesFrom(data, from, decode), LinesFrom(data + more, Committed(data, from), decode);
            var u, s := Steps(start, da, ahead, from == 0), Steps(start, da, behind, from == 0);
            var one, t := Steps(start, da + db, ahead, from == 0), Steps(t0, db, ahead, Committed(data, from) == 0);
            && t0.model == s.model && (s.peeked || u.peeked ==> t0.peeked)
            && (!u.peeked && t0.peeked && s.model.None? ==> behind.None?) && (t0.peeked || ahead == behind)
            && (ahead != behind ==> !start.peeked && one.model.Some? && t.model.Some?)
  {
    var ahead, behind := LookAheadModel(data + more, cap, decode), AnswerBehind(data, more, from, cap, decode);
    var da, db := LinesFrom(data, from, decode), LinesFrom(data + more, Committed(data, from), decode);
    LinesSplit(data, more, from, decode);
    CommittedIsLast(data, from);
    StepsRemember(start, da, behind, from == 0);
    StepsRemember(start, da + db, ahead, from == 0);
    StepsRemember(t0, db, ahead, Committed(data, from) == 0);
    NamesModelSplit(da, db);
    if from > 0 {
      AlwaysPeeked(start, da, ahead, false);
    } else if !t0.peeked {
      NothingCommitted(data, decode);
    } else {
      LookAheadGrows(data, more, cap, decode);
      if behind.Some? {
        PeekIsMet(data, cap, decode);
      }
      if ahead.Some? {
        PeekIsMet(data + more, cap, decode);
      }
    }
  }

  lemma LookAheadGrows(data: seq<byte>, more: seq<byte>, cap: nat, decode: Decoder)
    ensures var before, after := LookAheadModel(data, cap, decode), LookAheadModel(data + more, cap, decode);
            before != after ==> before.None? && after.Some?
  {
    if HeadTurn(data, cap, decode).Some? {
      PeekSettles(data, more, cap, decode);
    }
  }

  /** The first cumulative of the second read is no replay of what the first read left, or the first
      read, or one before it, has already met a cumulative. */
  ghost predicate BaselineHolds(data: seq<byte>, more: seq<byte>, from: nat, sessionId: string,
                                prev: Option<SessionTotals>, decode: Decoder, carried: Usage)
  {
    || Carried(prev, sessionId) || HasCumulative(LinesFrom(data, from, decode))
    || FirstTotalMoves(carried, LinesFrom(data + more, Committed(data, from), decode))
  }

  /** The first event of the file comes before any line has named a model, and names none itself. */
  ghost predicate FirstUnnamed(start: Ledger, lines: seq<CodexLine>, i: nat, peek: Option<string>, fromZero: bool) {
    && i < |lines| && Steps(start, lines[..i], peek, fromZero).events == []
    && Emits(Steps(start, lines[..i], peek, fromZero), lines[i])
    && !NamesModel(lines[..i]) && !(lines[i].body.TokenCount? && lines[i].body.eventModel.Some?)
  }

  ghost predicate ComesUnnamed(start: Ledger, lines: seq<CodexLine>, peek: Option<string>, fromZero: bool) {
    exists i: nat :: FirstUnnamed(start, lines, i, peek, fromZero)
  }

  lemma UnnamedPrefix(start: Ledger, lines: seq<CodexLine>, n: nat, i: nat, peek: Option<string>, fromZero: bool)
    requires i < n <= |lines|
    ensures FirstUnnamed(start, lines[..n], i, peek, fromZero) <==> FirstUnnamed(start, lines, i, peek, fromZero)
  {
    assert lines[..n][..i] == lines[..i];
  }

  /** While nothing was asked: with no event yet a model is known iff one was named, and with an event it is known. */
  ghost predicate NamedSoFar(s: Ledger, lines: seq<CodexLine>) {
    !s.peeked ==> if s.events == [] then s.model.Some? <==> NamesModel(lines) else s.model.Some?
  }

  lemma AsksMove(s: Ledger, r: Ledger, lines: seq<CodexLine>, peek: Option<string>, e: CodexEvent)
    requires lines != [] && NamedSoFar(s, lines[..|lines| - 1]) && Moves(s, r, lines[|lines| - 1], peek, e)
    ensures NamedSoFar(r, lines)
    ensures var n := |lines| - 1;
            !s.peeked ==>
              (r.peeked <==> && s.events == [] && Emits(s, lines[n]) && !NamesModel(lines[..n])
                             && !(lines[n].body.TokenCount? && lines[n].body.eventModel.Some?))
  {
    LastOrBefore(lines);
  }

  /** The look-ahead is asked exactly if the first event comes unnamed. */
  lemma {:induction false} AsksIff(start: Ledger, lines: seq<CodexLine>, peek: Option<string>, fromZero: bool)
    requires start.events == [] && start.model.None? && !start.peeked && !start.seedActive && Unforked(lines)
    ensures var r := Steps(start, lines, peek, fromZero);
            (r.peeked <==> ComesUnnamed(start, lines, peek, fromZero)) && !r.seedActive && NamedSoFar(r, lines)
  {
    if lines != [] {
      var n := |lines| - 1;
      LastOrBefore(lines);
      AsksIff(start, lines[..n], peek, fromZero);
      var s := Steps(start, lines[..n], peek, fromZero);
      var e := StepMoves(s, lines[n], peek, fromZero);
      AsksMove(s, Steps(start, lines, peek, fromZero), lines, peek, e);
      ComesLater(start, lines, peek, fromZero);
    }
  }

  lemma ComesLater(start: Ledger, lines: seq<CodexLine>, peek: Option<string>, fromZero: bool)
    requires lines != []
    ensures ComesUnnamed(start, lines, peek, fromZero)
       <==> || ComesUnnamed(start, lines[..|lines| - 1], peek, fromZero)
            || FirstUnnamed(start, lines, |lines| - 1, peek, fromZero)
  {
    forall i: nat | i < |lines| - 1 {
      UnnamedPrefix(start, lines, |lines| - 1, i, peek, fromZero);
    }
    if ComesUnnamed(start, lines[..|lines| - 1], peek, fromZero) {
      var i: nat :| FirstUnnamed(start, lines[..|lines| - 1], i, peek, fromZero);
      assert FirstUnnamed(start, lines, i, peek, fromZero);
    }
  }

  /** The first read starts the file, its first event comes unnamed, and the model looked up ahead
      depends on whether the file has grown; no answer counts as the fallback. */
  ghost predicate LabelsDrift(data: seq<byte>, more: seq<byte>, sessionId: string, prev: Option<SessionTotals>,
                              cap: nat, decode: Decoder) {
    && Committed(data, 0) > 0
    && ComesUnnamed(Start(0, prev, sessionId, None), LinesFrom(data + more, 0, decode),
                    LookAheadModel(data + more, cap, decode), true)
    && Fallback(LookAheadModel(data, cap, decode)) != Fallback(LookAheadModel(data + more, cap, decode))
  }

  /** The first cumulative of the second read is certain not to be taken for a replay, the events on
      either side of the cut carry different timestamps, and no label depends on how far the file had
      grown. */
  ghost predicate HarmlessCut(data: seq<byte>, more: seq<byte>, from: nat, sessionId: string,
                              prev: Option<SessionTotals>, prevModel: Option<string>, cap: nat, decode: Decoder)
  {
    var first := Parsed(data, from, sessionId, prev, prevModel, cap, decode);
    var second := Parsed(data + more, first.newOffset, sessionId, Some(first.totals), first.lastModel, cap, decode);
    && BaselineHolds(data, more, from, sessionId, prev, decode, first.totals.usage)
    && !SharesStamp(first.events, second.events)
    && !(from == 0 && LabelsDrift(data, more, sessionId, prev, cap, decode))
  }

  /** An unforked rollout read in two passes gives the events, ids, models, ledger, offset and drop
      counts of one pass if and only if the cut is harmless. */
  lemma SplitReadsAgreeIff(data: seq<byte>, more: seq<byte>, from: nat, sessionId: string, prev: Option<SessionTotals>,
                           prevModel: Option<string>, cap: nat, decode: Decoder)
    requires from <= |data| && Unforked(LinesFrom(data + more, from, decode))
    ensures var first := Parsed(data, from, sessionId, prev, prevModel, cap, decode);
            var second := Parsed(data + more, first.newOffset, sessionId, Some(first.totals),
                                 first.lastModel, cap, decode);
            Parsed(data + more, from, sessionId, prev, prevModel, cap, decode) == Together(first, second)
            <==> HarmlessCut(data, more, from, sessionId, prev, prevModel, cap, decode)
  {
    ResultsAreLedgers(data, more, from, sessionId, prev, prevModel, cap, decode);
    var s, c := EndOf(data, from, sessionId, prev, prevModel, cap, decode), Committed(data, from);
    LedgersAgreeIff(data, more, from, sessionId, prev, prevModel, cap, decode, SecondStart(s, c, sessionId));
    StepsRemember(Start(from, prev, sessionId, prevModel), LinesFrom(data, from, decode),
                  LookAheadModel(data, cap, decode), from == 0);
    CommittedIsLast(data, from);
    if from == 0 {
      AsksIff(Start(0, prev, sessionId, None), LinesFrom(data + more, 0, decode),
              LookAheadModel(data + more, cap, decode), true);
    }
  }

  /** A result reports a ledger. */
  ghost predicate Reports(r: Result, s: Ledger, newOffset: nat, sessionId: string, oversized: nat) {
    r == Result(s.events, newOffset, SessionTotals(sessionId, s.totals), s.model, oversized, s.replayed)
  }

  lemma TogetherIff(first: Result, second: Result, whole: Result, s: Ledger, t: Ledger, one: Ledger, end: nat,
                    sessionId: string, a: nat, b: nat)
    requires first.events == s.events && first.oversizeSkipped == a && first.replayedSkipped == s.replayed
    requires Reports(second, t, end, sessionId, b) && Reports(whole, one, end, sessionId, a + b)
    ensures whole == Together(first, second) <==> PassesAgree(one, s, t)
  {
  }

  /** The ledger the second read ends with. */
  ghost function SecondEnd(data: seq<byte>, s: Ledger, c: nat, sessionId: string, cap: nat, decode: Decoder): Ledger {
    Steps(SecondStart(s, c, sessionId), LinesFrom(data, c, decode), LookAheadModel(data, cap, decode), c == 0)
  }

  lemma SecondParsed(data: seq<byte>, first: Result, s: Ledger, c: nat, sessionId: string, cap: nat, decode: Decoder)
    requires c <= |data| && data != [] && first.totals == SessionTotals(sessionId, s.totals)
             && (c > 0 ==> first.lastModel == s.model)
    ensures Reports(Parsed(data, c, sessionId, Some(first.totals), first.lastModel, cap, decode),
                    SecondEnd(data, s, c, sessionId, cap, decode),
                    Committed(data, c), sessionId, Oversized(Records(data, c, MAX_READ_BYTES)))
  {
    ParsedInside(data, c, sessionId, Some(first.totals), first.lastModel, cap, decode);
    assert Start(c, Some(first.totals), sessionId, first.lastModel) == SecondStart(s, c, sessionId);
  }

  /** Comparing results is comparing the ledgers the passes end with. */
  lemma ResultsAreLedgers(data: seq<byte>, more: seq<byte>, from: nat, sessionId: string, prev: Option<SessionTotals>,
                          prevModel: Option<string>, cap: nat, decode: Decoder)
    requires from <= |data|
    ensures var first := Parsed(data, from, sessionId, prev, prevModel, cap, decode);
            var second := Parsed(data + more, first.newOffset, sessionId, Some(first.totals),
                                 first.lastModel, cap, decode);
            var s, c := EndOf(data, from, sessionId, prev, prevModel, cap, decode), Committed(data, from);
            var one, t := EndOf(data + more, from, sessionId, prev, prevModel, cap, decode),
                          SecondEnd(data + more, s, c, sessionId, cap, decode);
            && first.newOffset == c && first.events == s.events && first.totals.usage == s.totals
            && second.events == t.events
            && (Parsed(data + more, from, sessionId, prev, prevModel, cap, decode) == Together(first, second)
                <==> PassesAgree(one, s, t))
  {
    var s, c := EndOf(data, from, sessionId, prev, prevModel, cap, decode), Committed(data, from);
    var first := Parsed(data, from, sessionId, prev, prevModel, cap, decode);
    CommittedIsLast(data, from);
    FirstParsed(data, from, sessionId, prev, prevModel, cap, decode);
    if data + more == [] {
      NothingCommitted(data, decode);
      assert Parsed(data + more, c, sessionId, Some(first.totals), first.lastModel, cap, decode).events == [];
    } else {
      ReadsCompose(data, more, from, MAX_READ_BYTES);
      var a, b := Records(data, from, MAX_READ_BYTES), Records(data + more, c, MAX_READ_BYTES);
      DecodedConcat(a, b, decode);
      ParsedInside(data + more, from, sessionId, prev, prevModel, cap, decode);
      SecondParsed(data + more, first, s, c, sessionId, cap, decode);
      TogetherIff(first, Parsed(data + more, c, sessionId, Some(first.totals), first.lastModel, cap, decode),
                  Parsed(data + more, from, sessionId, prev, prevModel, cap, decode), s,
                  SecondEnd(data + more, s, c, sessionId, cap, decode),
                  EndOf(data + more, from, sessionId, prev, prevModel, cap, decode),
                  Committed(data + more, c), sessionId, Oversized(a), Oversized(b));
    }
  }

  /** What the first read hands on; an empty file echoes the model, which a read from 0 ignores. */
  lemma FirstParsed(data: seq<byte>, from: nat, sessionId: string, prev: Option<SessionTotals>,
                    prevModel: Option<string>, cap: nat, decode: Decoder)
    requires from <= |data|
    ensures var first, s := Parsed(data, from, sessionId, prev, prevModel, cap, decode),
                            EndOf(data, from, sessionId, prev, prevModel, cap, decode);
            && first == Result(s.events, Committed(data, from), SessionTotals(sessionId, s.totals), first.lastModel,
                               Oversized(Records(data, from, MAX_READ_BYTES)), s.replayed)
            && (Committed(data, from) > 0 ==> first.lastModel == s.model)
  {
    if from == 0 && data == [] {
      NothingAhead(data, MAX_READ_BYTES, 0);
    } else {
      ParsedInside(data, from, sessionId, prev, prevModel, cap, decode);
    }
  }

  /** Once a cumulative was met, and a turn_context in reach of the look-ahead or its cap filled, only
      a timestamp shared across the cut can tear the reads apart. */
  lemma SettledReadsAgreeIff(data: seq<byte>, more: seq<byte>, from: nat, sessionId: string,
                             prev: Option<SessionTotals>, prevModel: Option<string>, cap: nat, decode: Decoder)
    requires from <= |data| && Unforked(LinesFrom(data + more, from, decode))
    requires Carried(prev, sessionId) || HasCumulative(LinesFrom(data, from, decode))
    requires from > 0 || HeadTurn(data, cap, decode).Some? || |data| >= cap
    ensures var first := Parsed(data, from, sessionId, prev, prevModel, cap, decode);
            var second := Parsed(data + more, first.newOffset, sessionId, Some(first.totals),
                                 first.lastModel, cap, decode);
            Parsed(data + more, from, sessionId, prev, prevModel, cap, decode) == Together(first, second)
            <==> !SharesStamp(first.events, second.events)
  {
    SplitReadsAgreeIff(data, more, from, sessionId, prev, prevModel, cap, decode);
    if from == 0 {
      PeekSettles(data, more, cap, decode);
    }
  }
}
