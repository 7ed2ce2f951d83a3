/** Which events a transcript read reports, line by line. */
module TranscriptLines {
  import opened Options
  import opened Events
  import opened ReadSlices
  import opened Transcripts

  /** How many of the first `n` records are lines; the others are too long and were dropped. */
  function LinesIn(records: seq<LineRead>, n: nat): nat
    requires n <= |records|
  {
    if n == 0 then 0 else LinesIn(records, n - 1) + if records[n - 1].Line? then 1 else 0
  }

  /** A prompt, or an answer of some length; of an answer's tokens, four characters make one. */
  predicate Reports(m: Decoded, e: TranscriptEvent) {
    && m.Message? && e.messageType == m.messageType
    && if m.messageType == User then e.outputTokens == 0
       else m.textLength > 0 && 4 * e.outputTokens - 4 < m.textLength <= 4 * e.outputTokens
  }

  /** Record `i` is a line that reports `e`, under its number in the file. */
  ghost predicate ReportedBy(records: seq<LineRead>, i: nat, path: string, before: nat, decode: Decoder,
                             e: TranscriptEvent) {
    && i < |records| && records[i].Line? && Reports(decode(records[i].text), e)
    && e.id == LineId(path, before + LinesIn(records, i) + 1)
  }

  lemma PrefixLines(records: seq<LineRead>, n: nat, i: nat)
    requires i <= n <= |records|
    ensures LinesIn(records[..n], i) == LinesIn(records, i)
  {
    if i > 0 {
      PrefixLines(records, n, i - 1);
    }
  }

  lemma PrefixReported(records: seq<LineRead>, n: nat, i: nat, path: string, before: nat,
                       decode: Decoder, e: TranscriptEvent)
    requires i < n <= |records|
    ensures ReportedBy(records[..n], i, path, before, decode, e) <==> ReportedBy(records, i, path, before, decode, e)
  {
    PrefixLines(records, n, i);
  }

  lemma EmittedReports(m: Decoded, id: LineId, e: TranscriptEvent)
    ensures e in Emitted(m, id) <==> Reports(m, e) && e.id == id
  {
  }

  /** A read counts its lines and its drops, and reports exactly the prompts and non-empty answers among the lines,
      each under its line number. */
  lemma {:induction false} EventsAreLines(records: seq<LineRead>, path: string, before: nat, decode: Decoder)
    ensures var p := TakeAll(Progress([], before, 0), records, path, decode);
            && p.line == before + LinesIn(records, |records|) && p.dropped == |records| - LinesIn(records, |records|)
            && forall e :: e in p.events <==> exists i: nat :: ReportedBy(records, i, path, before, decode, e)
  {
    if records != [] {
      var n := |records| - 1;
      EventsAreLines(records[..n], path, before, decode);
      PrefixLines(records, n, n);
      var q, p := TakeAll(Progress([], before, 0), records[..n], path, decode),
                  TakeAll(Progress([], before, 0), records, path, decode);
      forall e
        ensures e in p.events <==> exists i: nat :: ReportedBy(records, i, path, before, decode, e)
      {
        LastRecord(records, path, before, decode, e);
        if i: nat :| ReportedBy(records[..n], i, path, before, decode, e) {
          PrefixReported(records, n, i, path, before, decode, e);
        }
        if i: nat :| ReportedBy(records, i, path, before, decode, e) && i < n {
          PrefixReported(records, n, i, path, before, decode, e);
        }
      }
    }
  }

  lemma LastRecord(records: seq<LineRead>, path: string, before: nat, decode: Decoder, e: TranscriptEvent)
    requires records != []
    requires var n := |records| - 1;
             TakeAll(Progress([], before, 0), records[..n], path, decode).line == before + LinesIn(records, n)
    ensures var n := |records| - 1;
            e in TakeAll(Progress([], before, 0), records, path, decode).events <==>
            || e in TakeAll(Progress([], before, 0), records[..n], path, decode).events
            || ReportedBy(records, n, path, before, decode, e)
  {
    var n := |records| - 1;
    if records[n].Line? {
      EmittedReports(decode(records[n].text), LineId(path, before + LinesIn(records, n) + 1), e);
    }
  }

  /** Events come in the order of their lines, so no two have one id. */
  lemma {:induction false} IdsRise(records: seq<LineRead>, path: string, before: nat, decode: Decoder)
    ensures var events := TakeAll(Progress([], before, 0), records, path, decode).events;
            forall i, j :: 0 <= i < j < |events| ==> events[i].id.line < events[j].id.line
  {
    if records != [] {
      var n := |records| - 1;
      IdsRise(records[..n], path, before, decode);
      LinesBelow(Progress([], before, 0), records[..n], path, decode);
    }
  }
}
