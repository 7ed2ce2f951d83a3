/** What a tick that posted has read: every touched file, to its last newline. */
module IngestReach {
  import opened Options
  import opened Events
  import opened Rollup
  import opened ReadSlices
  import opened Transports
  import opened Ticks
  import opened IngestSafety

  /** A tick that posts what it collected, and reads its `i`-th item, which is listed once. */
  ghost predicate PostsAfterReading(w: World, s: Step, i: nat) {
    && s.TickRuns? && Enabled(w, s) && PostedBatches(w.tables, s.batches, s.wires).ok
    && i < s.handled && ReadDue(w.saved.memory, s.items[i])
    && forall j :: 0 <= j < |s.items| && j != i ==> s.items[j].path != s.items[i].path
  }

  lemma ReadStateIsSaved(w: World, s: Step, i: nat)
    requires PostsAfterReading(w, s, i)
    ensures StateIn(Next(w, s).saved.memory, s.items[i].path) == Some(ReadState(s.items[i]))
  {
    TickReads(w.saved, s.items, s.handled, s.cloud, s.saveOk);
    assert s.items[..s.handled][i] == s.items[i];
    LastReadIsKnown(w.saved.memory, s.items[..s.handled], i);
    assert s.items[i].path in Paths(s.items);
  }

  /** The read went on where the chain of reads before it ended, so it ends where a read of the whole file
      does. */
  lemma ReadsToTheEnd(w: World, s: Step, i: nat, unreset: bool)
    requires Inv(w, unreset) && PostsAfterReading(w, s, i)
    ensures s.items[i].parse.newOffset == Committed(LogOf(w.logs, s.items[i].path), 0)
  {
    var path, files := s.items[i].path, w.saved.memory;
    assert ReadsLog(w, s.items[i]);
    if path in files {
      var start, chain :| Chain(w.recorded, path, start, files[path].byteOffset, files[path].memo, chain);
      ChainCovers(w, path, start, files[path].byteOffset, files[path].memo, chain);
    }
  }

  lemma NothingLeft(log: seq<byte>)
    ensures Records(log, Committed(log, 0), MAX_READ_BYTES) == []
  {
    CommittedIsLast(log, 0);
    NothingAhead(log, MAX_READ_BYTES, Committed(log, 0));
  }

  /** Over any run with whatever failures before: after a tick that posted, the saved offset of each file that
      was new or touched is the byte after the file's last newline, and reads that follow one another have
      handed every terminated record of the file to its parser. */
  lemma TouchedFilesAreRead(w: World, steps: seq<Step>, s: Step, i: nat)
    requires Initial(w) && Possible(w, steps) && PostsAfterReading(After(w, steps), s, i)
    ensures var r, path := Next(After(w, steps), s), s.items[i].path;
            var log := LogOf(r.logs, path);
            && path in r.saved.memory && r.saved.memory[path] == ReadState(s.items[i])
            && r.saved.memory[path].byteOffset == Committed(log, 0)
            && exists start, chain :: && Recounts(r, path, r.saved.memory[path], NoRescan(steps), start, chain)
                                      && HandedOver(chain) == Records(log, 0, MAX_READ_BYTES)
  {
    var v, path, unreset := After(w, steps), s.items[i].path, NoRescan(steps);
    RunKeeps(w, unreset, steps);
    ReadStateIsSaved(v, s, i);
    ReadsToTheEnd(v, s, i, unreset);
    StepKeeps(v, unreset, s);
    var r := Next(v, s);
    FileRecounted(r, r.saved.memory, path, unreset);
    var start, chain :| Recounts(r, path, r.saved.memory[path], unreset, start, chain);
    NothingLeft(LogOf(r.logs, path));
    assert HandedOver(chain) + [] == HandedOver(chain);
  }
}
