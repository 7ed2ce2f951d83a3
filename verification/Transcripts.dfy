/** Cursor agent transcripts: events identified by the line they came from, read incrementally. */
module Transcripts {
  import opened Events
  import opened ReadSlices

  /** What JSON decoding makes of a line: nothing, a role that is not counted, or a message with the
      estimated length of its text. */
  datatype Decoded = NotJson | OtherRole | Message(messageType: MessageType, textLength: nat)

  type Decoder = seq<byte> -> Decoded

  /** The message id is a hash of path and line number. */
  datatype LineId = LineId(path: string, line: nat)

  datatype TranscriptEvent = TranscriptEvent(id: LineId, messageType: MessageType, outputTokens: nat)

  datatype Result = Result(events: seq<TranscriptEvent>, newOffset: nat, nextLineIndex: nat, oversizeSkipped: nat)

  function OutputTokens(m: Decoded): nat
    requires m.Message?
  {
    if m.messageType == Assistant then (m.textLength + 3) / 4 else 0
  }

  /** An assistant message without text is not reported, a user message always is. */
  function Emitted(m: Decoded, id: LineId): seq<TranscriptEvent> {
    if !m.Message? || (m.messageType == Assistant && OutputTokens(m) == 0) then []
    else [TranscriptEvent(id, m.messageType, OutputTokens(m))]
  }

  /** How far a read has got. */
  datatype Progress = Progress(events: seq<TranscriptEvent>, line: nat, dropped: nat)

  /** One more record: a drop keeps the line index, any line moves it, decodable or not. */
  function Take(p: Progress, r: LineRead, path: string, decode: Decoder): Progress {
    match r
    case Oversize(_, _) => p.(dropped := p.dropped + 1)
    case Line(text, _) => Progress(p.events + Emitted(decode(text), LineId(path, p.line + 1)), p.line + 1, p.dropped)
  }

  function TakeAll(p: Progress, records: seq<LineRead>, path: string, decode: Decoder): Progress {
    if records == [] then p
    else Take(TakeAll(p, records[..|records| - 1], path, decode), records[|records| - 1], path, decode)
  }

  function Parsed(data: seq<byte>, from: nat, path: string, line: nat, decode: Decoder): Result {
    if from >= |data| then Result([], |data|, line, 0)
    else
      var p := TakeAll(Progress([], line, 0), Records(data, from, MAX_READ_BYTES), path, decode);
      Result(p.events, Committed(data, from), p.line, p.dropped)
  }

  /** The body of the line loop, with its in-file duplicate check, which never fires. */
  method TakeLine(p: Progress, text: seq<byte>, path: string, decode: Decoder, localSeen: set<LineId>)
    returns (q: Progress, seen: set<LineId>)
    requires forall id :: id in localSeen ==> id.line <= p.line
    ensures q == Progress(p.events + Emitted(decode(text), LineId(path, p.line + 1)), p.line + 1, p.dropped)
    ensures forall id :: id in seen ==> id.line <= q.line
  {
    q, seen := p.(line := p.line + 1), localSeen;
    assert p.events + [] == p.events;
    var raw := decode(text);
    if !raw.Message? {
      return;
    }
    var messageId := LineId(path, q.line);
    if messageId in seen {
      return;
    }
    seen := seen + {messageId};
    if raw.messageType == Assistant && OutputTokens(raw) == 0 {
      return;
    }
    q := q.(events := q.events + [TranscriptEvent(messageId, raw.messageType, OutputTokens(raw))]);
  }

  /** The line loop. */
  method TakeLines(records: seq<LineRead>, path: string, startingLineIndex: nat, decode: Decoder) returns (p: Progress)
    ensures p == TakeAll(Progress([], startingLineIndex, 0), records, path, decode)
  {
    p := Progress([], startingLineIndex, 0);
    ghost var begun := p;
    var localSeen: set<LineId> := {};
    for i := 0 to |records|
      invariant forall id :: id in localSeen ==> id.line <= p.line
      invariant p == TakeAll(begun, records[..i], path, decode)
    {
      assert records[..i + 1][..i] == records[..i];
      match records[i] {
        case Oversize(_, _) => p := p.(dropped := p.dropped + 1);
        case Line(text, _) => p, localSeen := TakeLine(p, text, path, decode, localSeen);
      }
    }
    assert records[..|records|] == records;
  }

  /** Reads on from a saved offset and line index. */
  method ParseCursorTranscriptFile(data: seq<byte>, byteOffset: nat, path: string,
                                   startingLineIndex: nat, decode: Decoder)
    returns (r: Result)
    ensures r == Parsed(data, byteOffset, path, startingLineIndex, decode)
  {
    if byteOffset >= |data| {
      return Result([], |data|, startingLineIndex, 0);
    }
    var lines := ReadNewlineLines(data, byteOffset, MAX_READ_BYTES);
    var p := TakeLines(lines.records, path, startingLineIndex, decode);
    return Result(p.events, lines.newOffset, p.line, p.dropped);
  }

  lemma {:induction false} TakeAllAppends(p: Progress, a: seq<LineRead>, b: seq<LineRead>,
                                          path: string, decode: Decoder)
    ensures TakeAll(p, a + b, path, decode) == TakeAll(TakeAll(p, a, path, decode), b, path, decode)
  {
    if b == [] {
      assert a + b == a;
    } else {
      var n := |b| - 1;
      assert (a + b)[..|a| + n] == a + b[..n];
      TakeAllAppends(p, a, b[..n], path, decode);
    }
  }

  /** What came before only stands in front. */
  lemma {:induction false} TakeAllAfter(p: Progress, records: seq<LineRead>, path: string, decode: Decoder)
    ensures var q := TakeAll(Progress([], p.line, 0), records, path, decode);
            TakeAll(p, records, path, decode) == Progress(p.events + q.events, q.line, p.dropped + q.dropped)
  {
    if records == [] {
      assert p.events + [] == p.events;
    } else {
      var n := |records| - 1;
      TakeAllAfter(p, records[..n], path, decode);
      var q := TakeAll(Progress([], p.line, 0), records[..n], path, decode);
      if records[n].Line? {
        Reassociate(p.events, q.events, Emitted(decode(records[n].text), LineId(path, q.line + 1)));
      }
    }
  }

  /** A read of the file so far, followed by a read of the grown file from the saved state. */
  function ThenParsed(r: Result, data: seq<byte>, path: string, decode: Decoder): Result {
    var next := Parsed(data, r.newOffset, path, r.nextLineIndex, decode);
    Result(r.events + next.events, next.newOffset, next.nextLineIndex, r.oversizeSkipped + next.oversizeSkipped)
  }

  lemma ParsedInside(data: seq<byte>, from: nat, path: string, line: nat, decode: Decoder)
    requires from <= |data|
    ensures var r := Parsed(data, from, path, line, decode);
            && Progress(r.events, r.nextLineIndex, r.oversizeSkipped)
               == TakeAll(Progress([], line, 0), Records(data, from, MAX_READ_BYTES), path, decode)
            && r.newOffset == Committed(data, from) && from <= r.newOffset <= |data|
  {
    CommittedIsLast(data, from);
    if from == |data| {
      NothingAhead(data, MAX_READ_BYTES, from);
    }
  }

  /** Where a growing transcript is cut between two reads changes no event, no message id, no saved
      offset, no saved line index and no drop count. */
  lemma TranscriptReadsCompose(data: seq<byte>, more: seq<byte>, from: nat, path: string, line: nat, decode: Decoder)
    requires from <= |data|
    ensures ThenParsed(Parsed(data, from, path, line, decode), data + more, path, decode)
            == Parsed(data + more, from, path, line, decode)
  {
    var r := Parsed(data, from, path, line, decode);
    ParsedInside(data, from, path, line, decode);
    ParsedInside(data + more, from, path, line, decode);
    ParsedInside(data + more, r.newOffset, path, r.nextLineIndex, decode);
    ReadsCompose(data, more, from, MAX_READ_BYTES);
    var a, b := Records(data, from, MAX_READ_BYTES), Records(data + more, Committed(data, from), MAX_READ_BYTES);
    TakeAllAppends(Progress([], line, 0), a, b, path, decode);
    TakeAllAfter(TakeAll(Progress([], line, 0), a, path, decode), b, path, decode);
  }

  /** The file as it stood at each read: every version extends the one before. */
  ghost predicate Growing(versions: seq<seq<byte>>) {
    forall i, j :: 0 <= i <= j < |versions| ==> versions[i] <= versions[j]
  }

  /** One read per version, each from the state the previous one saved. */
  function ParsedEach(versions: seq<seq<byte>>, path: string, decode: Decoder): Result {
    if versions == [] then Result([], 0, 0, 0)
    else
      var n := |versions| - 1;
      ThenParsed(ParsedEach(versions[..n], path, decode), versions[n], path, decode)
  }

  /** However often and wherever a growing transcript is read, the reads together say what one read
      of its last version says. */
  lemma {:induction false} ReadsAreOneRead(versions: seq<seq<byte>>, path: string, decode: Decoder)
    requires Growing(versions) && versions != []
    ensures ParsedEach(versions, path, decode) == Parsed(versions[|versions| - 1], 0, path, 0, decode)
  {
    var n := |versions| - 1;
    var last := versions[n];
    if n == 0 {
      assert versions[..0] == [];
      var p := Parsed(last, 0, path, 0, decode);
      assert [] + p.events == p.events;
    } else {
      ReadsAreOneRead(versions[..n], path, decode);
      var before := versions[n - 1];
      assert last == before + last[|before|..];
      TranscriptReadsCompose(before, last[|before|..], 0, path, 0, decode);
    }
  }

  // ----- a rescan with a kept line index -----

  /** The same events, their lines counted from `n` on. */
  function Shifted(events: seq<TranscriptEvent>, n: nat): seq<TranscriptEvent> {
    if events == [] then []
    else
      var k := |events| - 1;
      Shifted(events[..k], n) + [events[k].(id := LineId(events[k].id.path, events[k].id.line + n))]
  }

  lemma {:induction false} ShiftedConcat(a: seq<TranscriptEvent>, b: seq<TranscriptEvent>, n: nat)
    ensures Shifted(a + b, n) == Shifted(a, n) + Shifted(b, n)
  {
    if b == [] {
      assert a + b == a && Shifted(a, n) + [] == Shifted(a, n);
    } else {
      var k := |b| - 1;
      assert (a + b)[..|a| + k] == a + b[..k];
      ShiftedConcat(a, b[..k], n);
    }
  }

  lemma EmittedShifts(m: Decoded, path: string, line: nat, n: nat)
    ensures Emitted(m, LineId(path, line + n)) == Shifted(Emitted(m, LineId(path, line)), n)
  {
    if Emitted(m, LineId(path, line)) != [] {
      var e := Emitted(m, LineId(path, line))[0];
      assert [e][..0] == [] && Shifted([e], n) == [e.(id := LineId(path, line + n))];
    }
  }

  lemma {:induction false} ShiftedAt(events: seq<TranscriptEvent>, n: nat)
    ensures |Shifted(events, n)| == |events|
    ensures forall i :: 0 <= i < |events| ==>
              Shifted(events, n)[i].id == LineId(events[i].id.path, events[i].id.line + n)
    ensures n == 0 ==> Shifted(events, n) == events
  {
    if events != [] {
      ShiftedAt(events[..|events| - 1], n);
    }
  }

  lemma TakeShifts(p: Progress, q: Progress, r: LineRead, path: string, decode: Decoder, n: nat)
    requires q.events == Shifted(p.events, n) && q.line == p.line + n
    ensures Take(q, r, path, decode).events == Shifted(Take(p, r, path, decode).events, n)
    ensures Take(q, r, path, decode).line == Take(p, r, path, decode).line + n
  {
    if r.Line? {
      EmittedShifts(decode(r.text), path, p.line + 1, n);
      ShiftedConcat(p.events, Emitted(decode(r.text), LineId(path, p.line + 1)), n);
    }
  }

  lemma {:induction false} TakeAllShifts(records: seq<LineRead>, path: string, decode: Decoder, n: nat)
    ensures var p, q := TakeAll(Progress([], 0, 0), records, path, decode),
                        TakeAll(Progress([], n, 0), records, path, decode);
            q.events == Shifted(p.events, n) && q.line == p.line + n
  {
    if records != [] {
      var k := |records| - 1;
      TakeAllShifts(records[..k], path, decode, n);
      TakeShifts(TakeAll(Progress([], 0, 0), records[..k], path, decode),
                 TakeAll(Progress([], n, 0), records[..k], path, decode),
                 records[k], path, decode, n);
    }
  }

  lemma {:induction false} LinesBelow(p: Progress, records: seq<LineRead>, path: string, decode: Decoder)
    requires forall e :: e in p.events ==> e.id.line <= p.line
    ensures var q := TakeAll(p, records, path, decode); forall e :: e in q.events ==> e.id.line <= q.line
  {
    if records != [] {
      LinesBelow(p, records[..|records| - 1], path, decode);
    }
  }

  lemma {:induction false} LinesAbove(n: nat, records: seq<LineRead>, path: string, decode: Decoder)
    ensures var q := TakeAll(Progress([], n, 0), records, path, decode);
            q.line >= n && forall e :: e in q.events ==> e.id.line > n
  {
    if records != [] {
      LinesAbove(n, records[..|records| - 1], path, decode);
    }
  }

  /** A rescan reads a transcript from its start but counts its lines on from the saved index: the
      events get the ids they had if and only if that index is 0 or there are none. */
  lemma RescanKeepsIdsIff(data: seq<byte>, path: string, line: nat, decode: Decoder)
    ensures Parsed(data, 0, path, line, decode).events == Parsed(data, 0, path, 0, decode).events
       <==> line == 0 || Parsed(data, 0, path, 0, decode).events == []
  {
    ParsedInside(data, 0, path, 0, decode);
    ParsedInside(data, 0, path, line, decode);
    TakeAllShifts(Records(data, 0, MAX_READ_BYTES), path, decode, line);
    var events := Parsed(data, 0, path, 0, decode).events;
    ShiftedAt(events, line);
    if events != [] && Shifted(events, line) == events {
      assert events[0].id.line == events[0].id.line + line;
    }
  }

  /** Whatever the file has grown to by then, no event the rescan reports has an id that the reads
      before it used: everything is reported anew. */
  lemma RescanRepeats(data: seq<byte>, more: seq<byte>, path: string, decode: Decoder)
    ensures var before := Parsed(data, 0, path, 0, decode);
            var again := Parsed(data + more, 0, path, before.nextLineIndex, decode);
            forall a, b :: a in before.events && b in again.events ==> a.id != b.id
  {
    ParsedInside(data, 0, path, 0, decode);
    LinesBelow(Progress([], 0, 0), Records(data, 0, MAX_READ_BYTES), path, decode);
    var n := Parsed(data, 0, path, 0, decode).nextLineIndex;
    ParsedInside(data + more, 0, path, n, decode);
    LinesAbove(n, Records(data + more, 0, MAX_READ_BYTES), path, decode);
  }
}
