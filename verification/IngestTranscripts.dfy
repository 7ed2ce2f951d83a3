/** Transcripts through whole runs of the daemon: what its reads add up to, whatever failed in between. */
module IngestTranscripts {
  import opened Options
  import opened Events
  import opened ReadSlices
  import opened Ticks
  import opened IngestSafety
  import T = Transcripts

  /** The columns the daemon adds to a transcript event. */
  type Tag = T.TranscriptEvent -> TokenEvent

  function Tagged(events: seq<T.TranscriptEvent>, tag: Tag): seq<TokenEvent> {
    seq(|events|, i requires 0 <= i < |events| => tag(events[i]))
  }

  /** What the tick makes of a transcript read: its events and the next line index. */
  function AsParse(r: T.Result, tag: Tag): Parse {
    Parsed(Tagged(r.events, tag), r.newOffset, Memo(r.nextLineIndex, None, None))
  }

  /** The daemon parses this path as a Cursor transcript. */
  ghost predicate ReadsTranscript(parser: Parser, path: string, decode: T.Decoder, tag: Tag) {
    forall data, from: nat, memo :: from <= |data| ==>
      parser(path, data, from, memo) == AsParse(T.Parsed(data, from, path, memo.lineIndex, decode), tag)
  }

  /** What a chain of reads emitted, in order. */
  function EventsOf(chain: seq<Read>): seq<TokenEvent> {
    if chain == [] then [] else EventsOf(chain[..|chain| - 1]) + chain[|chain| - 1].events
  }

  lemma TaggedAppend(a: seq<T.TranscriptEvent>, b: seq<T.TranscriptEvent>, tag: Tag)
    ensures Tagged(a + b, tag) == Tagged(a, tag) + Tagged(b, tag)
  {
  }

  /** The progress a chain of reads has made is that of its records taken at once. */
  lemma {:induction false} ChainIsProgress(w: World, path: string, offset: nat, memo: Memo, chain: seq<Read>,
                                           decode: T.Decoder, tag: Tag)
    requires Chain(w.recorded, path, NO_MEMO, offset, memo, chain) && AllWitnessed(w)
             && ReadsTranscript(w.parser, path, decode, tag)
    ensures var p := T.TakeAll(T.Progress([], 0, 0), HandedOver(chain), path, decode);
            EventsOf(chain) == Tagged(p.events, tag) && memo.lineIndex == p.line
    decreases |chain|
  {
    if chain != [] {
      var r, before := chain[|chain| - 1], chain[..|chain| - 1];
      ChainIsProgress(w, path, r.from, r.before, before, decode, tag);
      var version, p := LogOf(w.logs, path)[..r.length],
                        T.TakeAll(T.Progress([], 0, 0), HandedOver(before), path, decode);
      T.ParsedInside(version, r.from, path, r.before.lineIndex, decode);
      T.TakeAllAppends(T.Progress([], 0, 0), HandedOver(before), r.records, path, decode);
      T.TakeAllAfter(p, r.records, path, decode);
      TaggedAppend(p.events, T.Parsed(version, r.from, path, r.before.lineIndex, decode).events, tag);
    }
  }

  /** Reading on from a saved state completes one read of the whole file. */
  ghost predicate CompletesOneRead(log: seq<byte>, path: string, state: FileState, chain: seq<Read>,
                                   decode: T.Decoder, tag: Tag)
  {
    Tagged(T.Parsed(log, 0, path, 0, decode).events, tag)
    == EventsOf(chain) + Tagged(T.Parsed(log, state.byteOffset, path, state.memo.lineIndex, decode).events, tag)
  }

  lemma ChainCompletes(w: World, path: string, state: FileState, chain: seq<Read>,
                       decode: T.Decoder, tag: Tag)
    requires Recounts(w, path, state, true, NO_MEMO, chain) && AllWitnessed(w)
             && ReadsTranscript(w.parser, path, decode, tag)
    ensures CompletesOneRead(LogOf(w.logs, path), path, state, chain, decode, tag)
  {
    var log := LogOf(w.logs, path);
    var rest, begun := Records(log, state.byteOffset, MAX_READ_BYTES), T.Progress([], 0, 0);
    ChainIsProgress(w, path, state.byteOffset, state.memo, chain, decode, tag);
    T.ParsedInside(log, 0, path, 0, decode);
    T.ParsedInside(log, state.byteOffset, path, state.memo.lineIndex, decode);
    T.TakeAllAppends(begun, HandedOver(chain), rest, path, decode);
    var p := T.TakeAll(begun, HandedOver(chain), path, decode);
    T.TakeAllAfter(p, rest, path, decode);
    TaggedAppend(p.events, T.Parsed(log, state.byteOffset, path, state.memo.lineIndex, decode).events, tag);
  }

  lemma {:induction false} ParserStays(w: World, steps: seq<Step>)
    requires Possible(w, steps)
    ensures After(w, steps).parser == w.parser
    decreases |steps|
  {
    if steps != [] {
      ParserStays(Next(w, steps[0]), steps[1..]);
    }
  }

  ghost predicate OneRead(w: World, files: Files, path: string, decode: T.Decoder, tag: Tag) {
    path in files ==>
      exists chain :: Recounts(w, path, files[path], true, NO_MEMO, chain)
        && CompletesOneRead(LogOf(w.logs, path), path, files[path], chain, decode, tag)
  }

  lemma FileIsOneRead(w: World, files: Files, path: string, decode: T.Decoder, tag: Tag)
    requires Recounted(w, files, path, true) && AllWitnessed(w) && ReadsTranscript(w.parser, path, decode, tag)
    ensures OneRead(w, files, path, decode, tag)
  {
    if path in files {
      var start, chain :| Recounts(w, path, files[path], true, start, chain);
      ChainCompletes(w, path, files[path], chain, decode, tag);
    }
  }

  /** Over any run without a rescan, whatever failed, was lost or restarted in between: the recorded
      reads of a transcript, followed by reading on from its saved offset and line index, give the
      events and the message ids of one read of the whole file. */
  lemma TranscriptsAreOneRead(w: World, steps: seq<Step>, path: string, decode: T.Decoder, tag: Tag)
    requires Initial(w) && Possible(w, steps) && NoRescan(steps) && ReadsTranscript(w.parser, path, decode, tag)
    ensures var r := After(w, steps);
            OneRead(r, r.saved.memory, path, decode, tag) && OneRead(r, r.saved.disk, path, decode, tag)
  {
    NoLoss(w, steps, path);
    ParserStays(w, steps);
    FileIsOneRead(After(w, steps), After(w, steps).saved.memory, path, decode, tag);
    FileIsOneRead(After(w, steps), After(w, steps).saved.disk, path, decode, tag);
  }
}
