/** What a Codex pass remembers, what its look-ahead finds, and two reads in a row. */
module CodexSplits {
  import opened Options
  import opened Events
  import opened ReadSlices
  import opened CodexLedgers
  import opened CodexParsers

  ghost predicate Unforked(lines: seq<CodexLine>) {
    forall i :: 0 <= i < |lines| ==> lines[i].body != SessionMeta(true)
  }

  ghost predicate HasCumulative(lines: seq<CodexLine>) {
    exists i :: 0 <= i < |lines| && lines[i].body.TokenCount? && lines[i].body.total.Some?
  }

  ghost predicate NamesModel(lines: seq<CodexLine>) {
    exists i :: 0 <= i < |lines| && lines[i].body.TurnContext? && lines[i].body.model.Some?
  }

  // ----- lines and records append -----

  lemma {:induction false} StepsConcat(s: Ledger, a: seq<CodexLine>, b: seq<CodexLine>,
                                       peek: Option<string>, fromZero: bool)
    ensures Steps(s, a + b, peek, fromZero) == Steps(Steps(s, a, peek, fromZero), b, peek, fromZero)
  {
    if b == [] {
      assert a + b == a;
    } else {
      var n := |b| - 1;
      assert (a + b)[..|a| + n] == a + b[..n];
      StepsConcat(s, a, b[..n], peek, fromZero);
    }
  }

  lemma {:induction false} DecodedConcat(a: seq<LineRead>, b: seq<LineRead>, decode: Decoder)
    ensures Decoded(a + b, decode) == Decoded(a, decode) + Decoded(b, decode)
    ensures Oversized(a + b) == Oversized(a) + Oversized(b)
  {
    if b == [] {
      assert a + b == a;
      assert Decoded(a, decode) + [] == Decoded(a, decode);
    } else {
      var n := |b| - 1;
      assert (a + b)[..|a| + n] == a + b[..n];
      DecodedConcat(a, b[..n], decode);
      Reassociate(Decoded(a, decode), Decoded(b[..n], decode), if b[n].Line? then [decode(b[n].text)] else []);
    }
  }

  lemma {:induction false} DecodedFrom(records: seq<LineRead>, decode: Decoder, text: seq<byte>, off: nat)
    requires Line(text, off) in records
    ensures decode(text) in Decoded(records, decode)
  {
    var n := |records| - 1;
    if records[n] != Line(text, off) {
      DecodedFrom(records[..n], decode, text, off);
    }
  }

  // ----- what a pass remembers -----

  lemma EmitKeeps(s: Ledger, l: CodexLine, d: Usage, eventModel: Option<string>, peek: Option<string>)
    ensures var r := Emit(s, l, d, eventModel, peek);
            && r.seenCumulative == s.seenCumulative && r.totals == s.totals && r.seedActive == s.seedActive
            && r.replayed == s.replayed
            && (s.model.Some? ==> r.model.Some?) && (s.peeked ==> r.peeked)
    ensures var r := Prompted(s, l, peek);
            && r.seenCumulative == s.seenCumulative && r.totals == s.totals && r.seedActive == s.seedActive
            && r.replayed == s.replayed
            && (s.model.Some? ==> r.model.Some?) && (s.peeked ==> r.peeked)
  {
  }

  lemma CountedKeeps(s: Ledger, l: CodexLine, peek: Option<string>)
    requires l.body.TokenCount?
    ensures var r := Counted(s, l, peek);
            && (r.seenCumulative <==> s.seenCumulative || l.body.total.Some?) && r.seedActive == s.seedActive
            && (s.model.Some? ==> r.model.Some?) && (s.peeked ==> r.peeked)
  {
    var last, total := l.body.last, l.body.total;
    if (last.Some? || total.Some?) && !(total.Some? && s.seenCumulative && Unmoved(total.value, s.totals)) {
      var d := Billed(s.totals, last, total);
      EmitKeeps(s.(seenCumulative := s.seenCumulative || total.Some?,
                   totals := if total.Some? then total.value else Plus(s.totals, d)),
                l, d, l.body.eventModel, peek);
    }
  }

  lemma StepRemembers(s: Ledger, l: CodexLine, peek: Option<string>, fromZero: bool)
    ensures var r := Step(s, l, peek, fromZero);
            && (s.seenCumulative || (l.body.TokenCount? && l.body.total.Some?) <==> r.seenCumulative)
            && (s.model.Some? || (l.body.TurnContext? && l.body.model.Some?) ==> r.model.Some?)
            && (l.body != SessionMeta(true) && !s.seedActive ==> !r.seedActive)
            && (s.peeked ==> r.peeked)
  {
    if l.body.UserPrompt? {
      EmitKeeps(Watched(s, l), l, NO_USAGE, None, peek);
    } else if l.body.TokenCount? {
      CountedKeeps(Watched(s, l), l, peek);
    }
  }

  /** A cumulative once seen, and a model once known, stay so. */
  lemma {:induction false} StepsRemember(s: Ledger, lines: seq<CodexLine>, peek: Option<string>, fromZero: bool)
    ensures s.seenCumulative || HasCumulative(lines) <==> Steps(s, lines, peek, fromZero).seenCumulative
    ensures s.model.Some? || NamesModel(lines) ==> Steps(s, lines, peek, fromZero).model.Some?
    ensures Unforked(lines) && !s.seedActive ==> !Steps(s, lines, peek, fromZero).seedActive
  {
    if lines != [] {
      var n := |lines| - 1;
      StepsRemember(s, lines[..n], peek, fromZero);
      StepRemembers(Steps(s, lines[..n], peek, fromZero), lines[n], peek, fromZero);
      LastOrBefore(lines);
    }
  }

  lemma LastOrBefore(lines: seq<CodexLine>)
    requires lines != []
    ensures var n := |lines| - 1;
            && (HasCumulative(lines)
                <==> HasCumulative(lines[..n]) || (lines[n].body.TokenCount? && lines[n].body.total.Some?))
            && (NamesModel(lines)
                <==> NamesModel(lines[..n]) || (lines[n].body.TurnContext? && lines[n].body.model.Some?))
            && (Unforked(lines) ==> Unforked(lines[..n]))
  {
    var n := |lines| - 1;
    assert forall i :: 0 <= i < n ==> lines[..n][i] == lines[i];
  }

  // ----- the look-ahead -----

  lemma {:induction false} FirstTurnConcat(a: seq<CodexLine>, b: seq<CodexLine>)
    ensures FirstTurn(a).Some? ==> FirstTurn(a + b) == FirstTurn(a)
  {
    if b == [] {
      assert a + b == a;
    } else {
      var n := |b| - 1;
      FirstTurnConcat(a, b[..n]);
      assert a + b == (a + b[..n]) + [b[n]];
      TurnAppend(a + b[..n], b[n]);
    }
  }

  lemma {:induction false} FirstTurnIsLine(lines: seq<CodexLine>)
    ensures FirstTurn(lines).Some? ==>
              exists i :: 0 <= i < |lines| && lines[i].body.TurnContext?
                && lines[i].body.model == FirstTurn(lines).value
  {
    if lines != [] {
      var n := |lines| - 1;
      FirstTurnIsLine(lines[..n]);
      if FirstTurn(lines[..n]).Some? {
        var i :| 0 <= i < n && lines[..n][i].body.TurnContext?
          && lines[..n][i].body.model == FirstTurn(lines[..n]).value;
        assert lines[i].body.TurnContext?;
      }
    }
  }

  /** The look-ahead gives the same answer on the grown file, once it found a turn_context or filled its cap. */
  lemma PeekSettles(data: seq<byte>, more: seq<byte>, cap: nat, decode: Decoder)
    requires HeadTurn(data, cap, decode).Some? || |data| >= cap
    ensures LookAheadModel(data + more, cap, decode) == LookAheadModel(data, cap, decode)
  {
    if |data| >= cap {
      assert Head(data + more, cap) == Head(data, cap);
    } else {
      var grown := Head(data + more, cap);
      var tail := grown[|data|..];
      assert Head(data, cap) == data && grown == data + tail;
      ReadsCompose(data, tail, 0, LOOKAHEAD_WINDOW_BYTES);
      DecodedConcat(Records(data, 0, LOOKAHEAD_WINDOW_BYTES),
                    Records(grown, Committed(data, 0), LOOKAHEAD_WINDOW_BYTES), decode);
      FirstTurnConcat(Decoded(Records(data, 0, LOOKAHEAD_WINDOW_BYTES), decode),
                      Decoded(Records(grown, Committed(data, 0), LOOKAHEAD_WINDOW_BYTES), decode));
    }
  }

  lemma HeadRecordIsRecord(data: seq<byte>, cap: nat, text: seq<byte>, off: nat)
    requires Line(text, off) in Records(Head(data, cap), 0, LOOKAHEAD_WINDOW_BYTES)
    ensures Line(text, off) in Records(data, 0, MAX_READ_BYTES)
  {
    var head := Head(data, cap);
    RecordsAreExactly(head, 0, LOOKAHEAD_WINDOW_BYTES, Line(text, off));
    var a: nat, b: nat :| IsRecord(head, 0, a, b) && Line(text, off) == ReadOf(head, a, b, LOOKAHEAD_WINDOW_BYTES);
    assert forall i :: 0 <= i < |head| ==> head[i] == data[i];
    assert IsRecord(data, 0, a, b);
    assert head[a..b] == data[a..b];
    assert Line(text, off) == ReadOf(data, a, b, MAX_READ_BYTES);
    RecordsAreExactly(data, 0, MAX_READ_BYTES, Line(text, off));
  }

  lemma {:induction false} DecodedHasRecord(records: seq<LineRead>, decode: Decoder, l: CodexLine)
    requires l in Decoded(records, decode)
    ensures exists text, off :: Line(text, off) in records && decode(text) == l
  {
    var n := |records| - 1;
    if l in Decoded(records[..n], decode) {
      DecodedHasRecord(records[..n], decode, l);
      var text, off :| Line(text, off) in records[..n] && decode(text) == l;
      assert Line(text, off) in records;
    } else {
      assert Line(records[n].text, records[n].newOffset) in records;
    }
  }

  /** A model the look-ahead finds is one the main pass meets too. */
  lemma PeekIsMet(data: seq<byte>, cap: nat, decode: Decoder)
    requires LookAheadModel(data, cap, decode).Some?
    ensures NamesModel(Decoded(Records(data, 0, MAX_READ_BYTES), decode))
  {
    var seen := Decoded(Records(Head(data, cap), 0, LOOKAHEAD_WINDOW_BYTES), decode);
    FirstTurnIsLine(seen);
    var i :| 0 <= i < |seen| && seen[i].body.TurnContext? && seen[i].body.model == FirstTurn(seen).value;
    DecodedHasRecord(Records(Head(data, cap), 0, LOOKAHEAD_WINDOW_BYTES), decode, seen[i]);
    var text, off :| Line(text, off) in Records(Head(data, cap), 0, LOOKAHEAD_WINDOW_BYTES) && decode(text) == seen[i];
    HeadRecordIsRecord(data, cap, text, off);
    DecodedFrom(Records(data, 0, MAX_READ_BYTES), decode, text, off);
    var lines := Decoded(Records(data, 0, MAX_READ_BYTES), decode);
    var j :| 0 <= j < |lines| && lines[j] == decode(text);
  }

  // ----- two reads in a row -----

  /** The outcome of two reads in a row, taken together. */
  function Together(first: Result, second: Result): Result {
    Result(first.events + second.events, second.newOffset, second.totals, second.lastModel,
           first.oversizeSkipped + second.oversizeSkipped, first.replayedSkipped + second.replayedSkipped)
  }

  /** The state in which the first of two reads ends. */
  function EndOf(data: seq<byte>, from: nat, sessionId: string, prev: Option<SessionTotals>, prevModel: Option<string>,
                 cap: nat, decode: Decoder): Ledger
  {
    Steps(Start(from, prev, sessionId, prevModel), Decoded(Records(data, from, MAX_READ_BYTES), decode),
          LookAheadModel(data, cap, decode), from == 0)
  }

  lemma ParsedInside(data: seq<byte>, from: nat, sessionId: string, prev: Option<SessionTotals>,
                     prevModel: Option<string>, cap: nat, decode: Decoder)
    requires 0 < from <= |data| || (from == 0 && data != [])
    ensures var s := EndOf(data, from, sessionId, prev, prevModel, cap, decode);
            Parsed(data, from, sessionId, prev, prevModel, cap, decode)
            == Result(s.events, Committed(data, from), SessionTotals(sessionId, s.totals), s.model,
                      Oversized(Records(data, from, MAX_READ_BYTES)), s.replayed)
  {
    if from == |data| {
      NothingAhead(data, MAX_READ_BYTES, from);
    }
  }

  lemma {:induction false} AlwaysPeeked(s: Ledger, lines: seq<CodexLine>, peek: Option<string>, fromZero: bool)
    requires s.peeked
    ensures Steps(s, lines, peek, fromZero).peeked
  {
    if lines != [] {
      var n := |lines| - 1;
      AlwaysPeeked(s, lines[..n], peek, fromZero);
      StepRemembers(Steps(s, lines[..n], peek, fromZero), lines[n], peek, fromZero);
    }
  }

  lemma StepIgnoresPeek(s: Ledger, l: CodexLine, a: Option<string>, b: Option<string>, fromZero: bool)
    requires s.peeked
    ensures Step(s, l, a, fromZero) == Step(s, l, b, fromZero)
  {
  }

  lemma {:induction false} StepsIgnorePeek(s: Ledger, lines: seq<CodexLine>, a: Option<string>,
                                           b: Option<string>, fromZero: bool)
    requires s.peeked
    ensures Steps(s, lines, a, fromZero) == Steps(s, lines, b, fromZero)
  {
    if lines != [] {
      var n := |lines| - 1;
      StepsIgnorePeek(s, lines[..n], a, b, fromZero);
      AlwaysPeeked(s, lines[..n], a, fromZero);
      StepIgnoresPeek(Steps(s, lines[..n], a, fromZero), lines[n], a, b, fromZero);
    }
  }
}
