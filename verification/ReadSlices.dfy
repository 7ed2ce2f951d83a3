/** Bounded, newline-aligned reads of a log that is still being written. */
module ReadSlices {

  newtype byte = b: int | 0 <= b < 256

  const NEWLINE: byte := 0x0a
  const MAX_READ_BYTES: nat := 64 * 1024 * 1024

  datatype LineRead =
    | Line(text: seq<byte>, newOffset: nat)
    | Oversize(bytes: nat, newOffset: nat)

  /** Everything one read yields, and the offset of its last yield. A read that only moves the
      offset, as at the end of a window, yields no record. */
  datatype Reads = RangeError | Yielded(records: seq<LineRead>, newOffset: nat)

  // ----- the specification: plain splitting -----

  ghost predicate NoNewline(data: seq<byte>, from: nat, end: nat) {
    forall i :: from <= i < end && i < |data| ==> data[i] != NEWLINE
  }

  /** The first newline at or after `from`, or -1. */
  function NextNewline(data: seq<byte>, from: nat): (i: int)
    ensures i == -1 || from <= i < |data|
    decreases if from <= |data| then |data| - from else 0
  {
    if from >= |data| then -1
    else if data[from] == NEWLINE then from
    else NextNewline(data, from + 1)
  }

  lemma {:induction false} NextNewlineFirst(data: seq<byte>, from: nat)
    ensures var i := NextNewline(data, from);
            if i == -1 then NoNewline(data, from, |data|) else IsFirst(data, from, i)
    decreases if from <= |data| then |data| - from else 0
  {
    if from < |data| && data[from] != NEWLINE {
      NextNewlineFirst(data, from + 1);
    }
  }

  ghost predicate IsFirst(data: seq<byte>, from: nat, i: int) {
    from <= i < |data| && data[i] == NEWLINE && NoNewline(data, from, i)
  }

  /** What one terminated record, with its newline at `nl`, is reported as. Blank ones are not. */
  function Report(data: seq<byte>, from: nat, nl: nat, maxBytes: nat): seq<LineRead>
    requires from <= nl < |data|
  {
    if nl == from then []
    else if nl - from > maxBytes then [Oversize(nl + 1 - from, nl + 1)]
    else [Line(data[from..nl], nl + 1)]
  }

  function Records(data: seq<byte>, from: nat, maxBytes: nat): seq<LineRead>
    decreases if from <= |data| then |data| - from else 0
  {
    var nl := NextNewline(data, from);
    if nl == -1 then [] else Report(data, from, nl, maxBytes) + Records(data, nl + 1, maxBytes)
  }

  /** The byte after the last newline, or `from` when there is none. */
  function Committed(data: seq<byte>, from: nat): nat
    decreases if from <= |data| then |data| - from else 0
  {
    var nl := NextNewline(data, from);
    if nl == -1 then from else Committed(data, nl + 1)
  }

  // ----- the windowed reader -----

  /** Where the pending record starts: at the offset, or further back when discarding. */
  function PendingStart(discardStart: int, offset: nat): nat {
    if discardStart < 0 then offset else discardStart
  }

  /** Reading on from `at` first reports `out` and is then at `next`. */
  ghost predicate Leads(data: seq<byte>, maxBytes: nat, at: nat, out: seq<LineRead>, next: nat) {
    && Records(data, at, maxBytes) == out + Records(data, next, maxBytes)
    && Committed(data, at) == Committed(data, next)
  }

  lemma LeadsOn(data: seq<byte>, maxBytes: nat, at: nat, out: seq<LineRead>, mid: nat, more: seq<LineRead>, next: nat)
    requires Leads(data, maxBytes, at, out, mid) && Leads(data, maxBytes, mid, more, next)
    ensures Leads(data, maxBytes, at, out + more, next)
  {
    Reassociate(out, more, Records(data, next, maxBytes));
  }

  lemma LeadsOverOne(data: seq<byte>, maxBytes: nat, at: nat, nl: nat)
    requires NextNewline(data, at) == nl
    ensures Leads(data, maxBytes, at, Report(data, at, nl, maxBytes), nl + 1)
  {
  }

  lemma Reassociate<T>(a: seq<T>, b: seq<T>, c: seq<T>)
    ensures a + (b + c) == (a + b) + c
  {
  }

  lemma FirstIsUnique(data: seq<byte>, from: nat, i: int)
    requires IsFirst(data, from, i)
    ensures NextNewline(data, from) == i
  {
    NextNewlineFirst(data, from);
  }

  /** bytes.indexOf(NEWLINE, start) within a window. */
  method IndexOf(data: seq<byte>, from: nat, end: nat) returns (i: int)
    requires from <= end <= |data|
    ensures if i == -1 then NoNewline(data, from, end) else IsFirst(data, from, i) && i < end
  {
    i := from;
    while i < end
      invariant from <= i <= end && NoNewline(data, from, i)
    {
      if data[i] == NEWLINE {
        return;
      }
      i := i + 1;
    }
    i := -1;
  }

  /** bytes.lastIndexOf(NEWLINE) within a window. */
  method LastIndexOf(data: seq<byte>, from: nat, end: nat) returns (i: int)
    requires from <= end <= |data|
    ensures if i == -1 then NoNewline(data, from, end)
            else from <= i < end && data[i] == NEWLINE && NoNewline(data, i + 1, end)
  {
    i := end - 1;
    while i >= from
      invariant from - 1 <= i < end && NoNewline(data, i + 1, end)
    {
      if data[i] == NEWLINE {
        return;
      }
      i := i - 1;
    }
    i := -1;
  }

  /** What the newline at `nl` makes the reader yield. */
  function Piece(data: seq<byte>, discardStart: int, start: nat, nl: nat): seq<LineRead>
    requires start <= nl < |data| && discardStart < nl
  {
    if discardStart >= 0 then [Oversize(nl + 1 - discardStart, nl + 1)]
    else if nl > start then [Line(data[start..nl], nl + 1)]
    else []
  }

  /** The window [offset, end) starts at a record, or inside one that is being discarded. */
  ghost predicate WindowAt(data: seq<byte>, maxBytes: nat, offset: nat, end: nat, discardStart: int) {
    && offset < end <= |data| && end - offset <= maxBytes + 1 && discardStart < offset
    && (discardStart >= 0 ==> offset - discardStart > maxBytes && NoNewline(data, discardStart, offset))
  }

  lemma PieceIsReport(data: seq<byte>, maxBytes: nat, offset: nat, end: nat, discardStart: int, start: nat, nl: nat)
    requires WindowAt(data, maxBytes, offset, end, discardStart) && (discardStart >= 0 ==> start == offset)
    requires offset <= start && nl < end && IsFirst(data, start, nl)
    ensures NextNewline(data, PendingStart(discardStart, start)) == nl
    ensures Report(data, PendingStart(discardStart, start), nl, maxBytes) == Piece(data, discardStart, start, nl)
  {
    FirstIsUnique(data, PendingStart(discardStart, start), nl);
  }

  /** The search goes on as long as the window's last newline lies ahead. */
  method NextIn(data: seq<byte>, start: nat, lastNewline: nat, end: nat) returns (nl: int)
    requires start <= lastNewline + 1 <= end <= |data| && data[lastNewline] == NEWLINE
    ensures if start > lastNewline then nl == -1 else IsFirst(data, start, nl) && nl <= lastNewline
  {
    if start > lastNewline {
      return -1;
    }
    nl := IndexOf(data, start, end);
  }

  /** The reader's three branches at a newline, and the search for the next one. */
  method YieldRecord(data: seq<byte>, maxBytes: nat, offset: nat, end: nat, lastNewline: nat, discardStart: int,
                     start: nat, nl: nat, ghost from: nat, out: seq<LineRead>)
    returns (more: seq<LineRead>, next: int)
    requires nl <= lastNewline < end <= |data| && data[lastNewline] == NEWLINE
    requires WindowAt(data, maxBytes, offset, end, discardStart) && (discardStart >= 0 ==> start == offset)
    requires offset <= start && nl < end && IsFirst(data, start, nl)
    requires Leads(data, maxBytes, from, out, PendingStart(discardStart, start))
    ensures Leads(data, maxBytes, from, more, nl + 1)
    ensures if nl == lastNewline then next == -1 else IsFirst(data, nl + 1, next) && next <= lastNewline
  {
    PieceIsReport(data, maxBytes, offset, end, discardStart, start, nl);
    LeadsOverOne(data, maxBytes, PendingStart(discardStart, start), nl);
    LeadsOn(data, maxBytes, from, out, PendingStart(discardStart, start), Piece(data, discardStart, start, nl), nl + 1);
    var lineEnd := nl + 1;
    if discardStart >= 0 {
      more := out + [Oversize(lineEnd - discardStart, lineEnd)];
    } else if nl > start {
      more := out + [Line(data[start..nl], lineEnd)];
    } else {
      more := out;
      assert out + [] == out;
    }
    next := NextIn(data, lineEnd, lastNewline, end);
  }

  /** Reports, after `before`, the records of the window [offset, end) up to its last newline. */
  method ReadRecords(data: seq<byte>, maxBytes: nat, offset: nat, end: nat, discarding: int, lastNewline: nat,
                     ghost from: nat, before: seq<LineRead>)
    returns (out: seq<LineRead>)
    requires Leads(data, maxBytes, from, before, PendingStart(discarding, offset))
    requires WindowAt(data, maxBytes, offset, end, discarding)
    requires offset <= lastNewline < end && data[lastNewline] == NEWLINE
    ensures Leads(data, maxBytes, from, out, lastNewline + 1)
  {
    out := before;
    var discardStart, start := discarding, offset;
    var nl := NextIn(data, start, lastNewline, end);
    while nl != -1
      invariant offset <= start <= lastNewline + 1
      invariant if start > lastNewline then nl == -1 else IsFirst(data, start, nl) && nl <= lastNewline
      invariant WindowAt(data, maxBytes, offset, end, discardStart)
      invariant discardStart >= 0 ==> start == offset && nl != -1
      invariant Leads(data, maxBytes, from, out, PendingStart(discardStart, start))
      decreases end - start
    {
      var next;
      out, next := YieldRecord(data, maxBytes, offset, end, lastNewline, discardStart, start, nl, from, out);
      discardStart, start, nl := -1, nl + 1, next;
    }
  }

  /** Reads in windows of at most maxBytes + 1 bytes, yet reports what plain splitting reports. */
  method ReadNewlineLines(data: seq<byte>, byteOffset: nat, maxBytes: int) returns (r: Reads)
    ensures r.RangeError? <==> maxBytes <= 0
    ensures r.Yielded? ==>
              r.records == Records(data, byteOffset, maxBytes) && r.newOffset == Committed(data, byteOffset)
  {
    if !(maxBytes > 0) {
      return RangeError;
    }
    var records, newOffset := [], byteOffset;
    var totalSize, offset := |data|, byteOffset;
    var discardStart := -1;
    while offset < totalSize
      invariant byteOffset <= offset && -1 <= discardStart
      invariant discardStart < 0
                || (offset <= totalSize && discardStart < offset && offset - discardStart > maxBytes
                    && NoNewline(data, discardStart, offset))
      invariant newOffset == PendingStart(discardStart, offset) && Leads(data, maxBytes, byteOffset, records, newOffset)
    {
      var end := if totalSize <= offset + maxBytes + 1 then totalSize else offset + maxBytes + 1;
      var lastNewline := LastIndexOf(data, offset, end);
      if lastNewline == -1 {
        if end >= totalSize {
          NothingAhead(data, maxBytes, newOffset);
          return Yielded(records, newOffset);
        }
        if discardStart == -1 {
          discardStart := offset;
        }
        offset := end;
        continue;
      }
      records := ReadRecords(data, maxBytes, offset, end, discardStart, lastNewline, byteOffset, records);
      offset := lastNewline + 1;
      newOffset, discardStart := offset, -1;
    }
    NothingAhead(data, maxBytes, newOffset);
    return Yielded(records, newOffset);
  }

  lemma NothingAhead(data: seq<byte>, maxBytes: nat, at: nat)
    requires NoNewline(data, at, |data|)
    ensures Records(data, at, maxBytes) == [] && Committed(data, at) == at
  {
    NextNewlineFirst(data, at);
  }

  // ----- what the specification says -----

  /** A terminated, non-blank record of the file from `from` on: bytes a up to the newline at b. */
  ghost predicate IsRecord(data: seq<byte>, from: nat, a: nat, b: nat) {
    && from <= a < b < |data| && data[b] == NEWLINE && NoNewline(data, a, b)
    && (a == from || data[a - 1] == NEWLINE)
  }

  function ReadOf(data: seq<byte>, a: nat, b: nat, maxBytes: nat): LineRead
    requires a < b < |data|
  {
    if b - a <= maxBytes then Line(data[a..b], b + 1) else Oversize(b + 1 - a, b + 1)
  }

  lemma RecordsFromNext(data: seq<byte>, from: nat, nl: nat, a: nat, b: nat)
    requires NextNewline(data, from) == nl
    ensures IsRecord(data, from, a, b) <==> (a == from && b == nl && nl > from) || IsRecord(data, nl + 1, a, b)
  {
    NextNewlineFirst(data, from);
    if IsRecord(data, from, a, b) {
      if a == from {
        FirstIsUnique(data, from, b);
      }
    }
  }

  ghost predicate Recorded(data: seq<byte>, from: nat, maxBytes: nat, r: LineRead) {
    exists a, b :: IsRecord(data, from, a, b) && r == ReadOf(data, a, b, maxBytes)
  }

  /** Exactly the terminated non-blank records are reported, each as a line when it has at most
      maxBytes bytes and as an oversize drop when it has more. */
  lemma {:induction false} RecordsAreExactly(data: seq<byte>, from: nat, maxBytes: nat, r: LineRead)
    ensures r in Records(data, from, maxBytes) <==> Recorded(data, from, maxBytes, r)
    decreases if from <= |data| then |data| - from else 0
  {
    NextNewlineFirst(data, from);
    var nl := NextNewline(data, from);
    if nl == -1 {
      assert Records(data, from, maxBytes) == [];
    } else {
      RecordsAreExactly(data, nl + 1, maxBytes, r);
      OneMoreRecord(data, from, nl, maxBytes, r);
    }
  }

  /** They are reported in file order. */
  lemma {:induction false} RecordsInOrder(data: seq<byte>, from: nat, maxBytes: nat)
    ensures forall i, j :: 0 <= i < j < |Records(data, from, maxBytes)| ==>
              Records(data, from, maxBytes)[i].newOffset < Records(data, from, maxBytes)[j].newOffset
    ensures forall r :: r in Records(data, from, maxBytes) ==> from < r.newOffset
    decreases if from <= |data| then |data| - from else 0
  {
    var nl := NextNewline(data, from);
    if nl != -1 {
      RecordsInOrder(data, nl + 1, maxBytes);
    }
  }

  lemma OneMoreRecord(data: seq<byte>, from: nat, nl: nat, maxBytes: nat, r: LineRead)
    requires NextNewline(data, from) == nl
    requires r in Records(data, nl + 1, maxBytes) <==> Recorded(data, nl + 1, maxBytes, r)
    ensures r in Records(data, from, maxBytes) <==> Recorded(data, from, maxBytes, r)
  {
    RecordsFromNext(data, from, nl, from, nl);
    if Recorded(data, nl + 1, maxBytes, r) {
      var a, b :| IsRecord(data, nl + 1, a, b) && r == ReadOf(data, a, b, maxBytes);
      RecordsFromNext(data, from, nl, a, b);
    }
    if Recorded(data, from, maxBytes, r) {
      var a, b :| IsRecord(data, from, a, b) && r == ReadOf(data, a, b, maxBytes);
      RecordsFromNext(data, from, nl, a, b);
    }
    if nl > from {
      assert Report(data, from, nl, maxBytes) == [ReadOf(data, from, nl, maxBytes)];
    }
    assert Records(data, from, maxBytes) == Report(data, from, nl, maxBytes) + Records(data, nl + 1, maxBytes);
  }

  /** The committed offset is the byte after the last newline: nothing before it is left, nothing
      after it is a complete record. */
  lemma {:induction false} CommittedIsLast(data: seq<byte>, from: nat)
    requires from <= |data|
    ensures from <= Committed(data, from) <= |data| && NoNewline(data, Committed(data, from), |data|)
    ensures Committed(data, from) == from || data[Committed(data, from) - 1] == NEWLINE
    decreases if from <= |data| then |data| - from else 0
  {
    NextNewlineFirst(data, from);
    var nl := NextNewline(data, from);
    if nl != -1 {
      CommittedIsLast(data, nl + 1);
    }
  }

  lemma IndexInPrefix(data: seq<byte>, more: seq<byte>, from: nat)
    ensures NextNewline(data, from) != -1 ==> NextNewline(data + more, from) == NextNewline(data, from)
  {
    NextNewlineFirst(data, from);
    var nl := NextNewline(data, from);
    if nl != -1 {
      assert forall i :: 0 <= i < |data| ==> (data + more)[i] == data[i];
      FirstIsUnique(data + more, from, nl);
    }
  }

  lemma ReportInPrefix(data: seq<byte>, more: seq<byte>, from: nat, nl: nat, maxBytes: nat)
    requires from <= nl < |data|
    ensures Report(data + more, from, nl, maxBytes) == Report(data, from, nl, maxBytes)
  {
    assert (data + more)[from..nl] == data[from..nl];
  }

  /** Reading a prefix and later the grown file from the committed offset reports what one read of
      the grown file reports, even if the prefix ends inside an oversized record. */
  lemma {:induction false} ReadsCompose(data: seq<byte>, more: seq<byte>, from: nat, maxBytes: nat)
    ensures Leads(data + more, maxBytes, from, Records(data, from, maxBytes), Committed(data, from))
    decreases if from <= |data| then |data| - from else 0
  {
    var nl := NextNewline(data, from);
    if nl != -1 {
      IndexInPrefix(data, more, from);
      ReportInPrefix(data, more, from, nl, maxBytes);
      LeadsOverOne(data + more, maxBytes, from, nl);
      ReadsCompose(data, more, nl + 1, maxBytes);
      LeadsOn(data + more, maxBytes, from, Report(data, from, nl, maxBytes), nl + 1, Records(data, nl + 1, maxBytes),
              Committed(data, from));
    }
  }
}
