/** One daemon tick: list, parse from saved offsets, post, and only then advance the saved offsets. */
module Ticks {
  import opened Options
  import opened Events
  import opened Rollup
  import opened Stores
  import C = CodexLedgers
  import opened Transports

  /** What one read of a file hands to the next: transcripts carry a line index, rollouts their
      cumulative totals and the model. */
  datatype Memo = Memo(lineIndex: nat, totals: Option<C.SessionTotals>, model: Option<string>)

  const NO_MEMO := Memo(0, None, None)

  /** What state.json keeps for one file. */
  datatype FileState = FileState(mtimeMs: int, byteOffset: nat, memo: Memo)

  type Files = map<string, FileState>

  datatype Parse = Threw | Parsed(events: seq<TokenEvent>, newOffset: nat, memo: Memo)

  /** A listed file as the scan finds it: gone, or with its mtime and what parsing it from its saved
      offset would yield. `skip` marks transcripts that a cloud fetch already covered. */
  datatype Item = Item(path: string, skip: bool, mtime: Option<int>, parse: Parse)

  /** A pending file update: the read that justifies it, and the state to save. */
  datatype Update = Update(path: string, from: nat, memo: Memo, events: seq<TokenEvent>, state: FileState)

  /** `messageId:requestId`, the key under which a tick drops repeats. */
  function DaemonKey(e: TokenEvent): string {
    e.messageId + ":" + e.requestId.GetOr("")
  }

  function DaemonKeys(events: seq<TokenEvent>): set<string> {
    set e | e in events :: DaemonKey(e)
  }

  /** The first event of each key, in order. */
  function FirstOnly(events: seq<TokenEvent>): seq<TokenEvent> {
    if events == [] then []
    else
      var n := |events| - 1;
      FirstOnly(events[..n]) + if DaemonKey(events[n]) in DaemonKeys(events[..n]) then [] else [events[n]]
  }

  /** The first event of a key. */
  function FirstOf(events: seq<TokenEvent>, k: string): Option<TokenEvent> {
    if events == [] then None
    else
      var n := |events| - 1;
      var before := FirstOf(events[..n], k);
      if before.Some? then before else if DaemonKey(events[n]) == k then Some(events[n]) else None
  }

  /** Appends what was not seen yet this tick. `all` is everything offered so far. */
  method CollectDeduped(events: seq<TokenEvent>, collected: seq<TokenEvent>, seen: set<string>,
                        ghost all: seq<TokenEvent>)
    returns (out: seq<TokenEvent>, now: set<string>)
    requires collected == FirstOnly(all) && seen == DaemonKeys(all)
    ensures out == FirstOnly(all + events) && now == DaemonKeys(all + events)
  {
    out, now := collected, seen;
    assert all + events[..0] == all;
    for i := 0 to |events|
      invariant out == FirstOnly(all + events[..i]) && now == DaemonKeys(all + events[..i])
    {
      NextOffered(all, events, i);
      var k := DaemonKey(events[i]);
      if k in now {
        continue;
      }
      now := now + {k};
      out := out + [events[i]];
    }
    assert events[..|events|] == events;
  }

  lemma OneMoreOffered(all: seq<TokenEvent>, e: TokenEvent)
    ensures FirstOnly(all + [e]) == FirstOnly(all) + if DaemonKey(e) in DaemonKeys(all) then [] else [e]
    ensures DaemonKey(e) in DaemonKeys(all) ==> FirstOnly(all + [e]) == FirstOnly(all)
    ensures DaemonKeys(all + [e]) == DaemonKeys(all) + {DaemonKey(e)}
  {
    assert (all + [e])[..|all|] == all;
    assert forall x :: x in all + [e] <==> x in all || x == e;
  }

  lemma NextOffered(all: seq<TokenEvent>, events: seq<TokenEvent>, i: nat)
    requires i < |events|
    ensures var before, after := all + events[..i], all + events[..i + 1];
            && FirstOnly(after)
               == (if DaemonKey(events[i]) in DaemonKeys(before) then FirstOnly(before)
                   else FirstOnly(before) + [events[i]])
            && DaemonKeys(after) == DaemonKeys(before) + {DaemonKey(events[i])}
  {
    OneMoreOffered(all + events[..i], events[i]);
    assert all + events[..i + 1] == (all + events[..i]) + [events[i]];
  }

  // ----- the scan -----

  function OffsetOf(files: Files, path: string): nat {
    if path in files then files[path].byteOffset else 0
  }

  function MemoOf(files: Files, path: string): Memo {
    if path in files then files[path].memo else NO_MEMO
  }

  /** Parsed this tick: present, not covered by the cloud, and new or touched since the last read. */
  predicate Eligible(files: Files, item: Item) {
    !item.skip && item.mtime.Some? && (item.path !in files || item.mtime.value > files[item.path].mtimeMs)
  }

  /** Everything a scan offers and the updates it would save. */
  datatype Scan = Scan(all: seq<TokenEvent>, updates: seq<Update>)

  function Scanned(s: Scan, files: Files, item: Item): Scan {
    if !Eligible(files, item) || item.parse.Threw? then s
    else
      Scan(s.all + item.parse.events,
           s.updates + [Update(item.path, OffsetOf(files, item.path), MemoOf(files, item.path), item.parse.events,
                               FileState(item.mtime.value, item.parse.newOffset, item.parse.memo))])
  }

  function ScannedAll(s: Scan, files: Files, items: seq<Item>): Scan {
    if items == [] then s else Scanned(ScannedAll(s, files, items[..|items| - 1]), files, items[|items| - 1])
  }

  lemma ScannedNext(s: Scan, files: Files, items: seq<Item>, i: nat)
    requires i < |items|
    ensures ScannedAll(s, files, items[..i + 1]) == Scanned(ScannedAll(s, files, items[..i]), files, items[i])
  {
    assert items[..i + 1][..i] == items[..i];
  }

  /** The file loop. It reads the saved offsets and changes nothing but its own collections. */
  method ScanFiles(files: Files, items: seq<Item>, cloud: seq<TokenEvent>)
    returns (collected: seq<TokenEvent>, updates: seq<Update>)
    ensures var s := ScannedAll(Scan(cloud, []), files, items);
            collected == FirstOnly(s.all) && updates == s.updates
  {
    ghost var s := Scan(cloud, []);
    var seen: set<string>;
    assert [] + cloud == cloud;
    collected, seen := CollectDeduped(cloud, [], {}, []);
    updates := [];
    for i := 0 to |items|
      invariant s == ScannedAll(Scan(cloud, []), files, items[..i])
      invariant collected == FirstOnly(s.all) && seen == DaemonKeys(s.all) && updates == s.updates
    {
      ScannedNext(Scan(cloud, []), files, items, i);
      var item := items[i];
      ghost var before := s.all;
      s := Scanned(s, files, item);
      if item.skip || item.mtime.None? {
        continue;
      }
      if item.path in files && item.mtime.value <= files[item.path].mtimeMs {
        continue;
      }
      var byteOffset := OffsetOf(files, item.path);
      if item.parse.Threw? {
        continue;
      }
      collected, seen := CollectDeduped(item.parse.events, collected, seen, before);
      var state := FileState(item.mtime.value, item.parse.newOffset, item.parse.memo);
      updates := updates + [Update(item.path, byteOffset, MemoOf(files, item.path), item.parse.events, state)];
    }
    assert items[..|items|] == items;
  }

  // ----- the new state -----

  function WithUpdates(files: Files, updates: seq<Update>): Files {
    if updates == [] then files
    else WithUpdates(files, updates[..|updates| - 1])[updates[|updates| - 1].path := updates[|updates| - 1].state]
  }

  method MergeUpdates(files: Files, updates: seq<Update>) returns (merged: Files)
    ensures merged == WithUpdates(files, updates)
  {
    merged := files;
    for i := 0 to |updates|
      invariant merged == WithUpdates(files, updates[..i])
    {
      assert updates[..i + 1][..i] == updates[..i];
      merged := merged[updates[i].path := updates[i].state];
    }
    assert updates[..|updates|] == updates;
  }

  function Pruned(files: Files, present: set<string>): Files {
    map p | p in files && p in present :: files[p]
  }

  method PruneMissingFiles(files: Files, present: set<string>) returns (kept: Files)
    ensures kept == Pruned(files, present)
  {
    kept := map[];
    var todo := files.Keys;
    while todo != {}
      invariant todo <= files.Keys
      invariant kept == map p | p in files && p !in todo && p in present :: files[p]
      decreases |todo|
    {
      var p :| p in todo;
      if p in present {
        kept := kept[p := files[p]];
      }
      todo := todo - {p};
    }
  }

  function Paths(items: seq<Item>): set<string> {
    set i | i in items :: i.path
  }

  /** The daemon's state in memory, and the copy on disk. */
  datatype Saved = Saved(memory: Files, disk: Files)

  /** A tick's end: nothing moves unless the post went through; a failed save moves memory only. */
  function Advanced(s: Saved, updates: seq<Update>, present: set<string>, posted: bool, saveOk: bool): Saved {
    if !posted then s
    else
      var next := Pruned(WithUpdates(s.memory, updates), present);
      Saved(next, if saveOk then next else s.disk)
  }

  // ----- what a tick reads and saves -----

  /** The file is read: it is not covered by the cloud, is there, parses, and is new or was touched since it
      was last read. */
  predicate ReadDue(files: Files, item: Item) {
    && !item.skip && item.mtime.Some? && item.parse.Parsed?
    && (item.path in files ==> item.mtime.value > files[item.path].mtimeMs)
  }

  /** What the files that are read yield, in listing order. */
  function Offered(files: Files, items: seq<Item>): seq<TokenEvent> {
    if items == [] then []
    else
      var n := |items| - 1;
      Offered(files, items[..n]) + if ReadDue(files, items[n]) then items[n].parse.events else []
  }

  /** The state that reading the file leads to. */
  function ReadState(item: Item): FileState
    requires item.mtime.Some? && item.parse.Parsed?
  {
    FileState(item.mtime.value, item.parse.newOffset, item.parse.memo)
  }

  /** What is known of a file once these were looked at: the state its last read led to, or the old one. */
  function KnownOf(files: Files, items: seq<Item>, p: string): Option<FileState> {
    if items == [] then if p in files then Some(files[p]) else None
    else
      var n := |items| - 1;
      if items[n].path == p && ReadDue(files, items[n]) then Some(ReadState(items[n]))
      else KnownOf(files, items[..n], p)
  }

  lemma {:induction false} LastReadIsKnown(files: Files, items: seq<Item>, i: nat)
    requires i < |items| && ReadDue(files, items[i])
    requires forall j :: i < j < |items| ==> items[j].path != items[i].path
    ensures KnownOf(files, items, items[i].path) == Some(ReadState(items[i]))
  {
    var n := |items| - 1;
    if i < n {
      LastReadIsKnown(files, items[..n], i);
    }
  }

  function StateIn(files: Files, p: string): Option<FileState> {
    if p in files then Some(files[p]) else None
  }

  lemma {:induction false} ScanReads(files: Files, items: seq<Item>, cloud: seq<TokenEvent>, p: string)
    ensures var s := ScannedAll(Scan(cloud, []), files, items);
            s.all == cloud + Offered(files, items)
              && StateIn(WithUpdates(files, s.updates), p) == KnownOf(files, items, p)
  {
    if items == [] {
      assert cloud + [] == cloud;
    } else {
      var n := |items| - 1;
      ScanReads(files, items[..n], cloud, p);
      ScanReadsOne(files, ScannedAll(Scan(cloud, []), files, items[..n]), items[n], p);
      var before, more := Offered(files, items[..n]), if ReadDue(files, items[n]) then items[n].parse.events else [];
      assert (cloud + before) + more == cloud + (before + more);
    }
  }

  lemma ScanReadsOne(files: Files, before: Scan, item: Item, p: string)
    ensures var s, was := Scanned(before, files, item), StateIn(WithUpdates(files, before.updates), p);
            if ReadDue(files, item)
            then && s.all == before.all + item.parse.events
                 && StateIn(WithUpdates(files, s.updates), p) == if item.path == p then Some(ReadState(item)) else was
            else s == before
  {
    if ReadDue(files, item) {
      assert Scanned(before, files, item).updates[..|before.updates|] == before.updates;
    }
  }

  /** The memory after a tick that posted: what is known of each listed file, nothing of any other. */
  ghost predicate Saves(files: Files, items: seq<Item>, handled: nat, after: Files)
    requires handled <= |items|
  {
    forall p :: StateIn(after, p) == if p in Paths(items) then KnownOf(files, items[..handled], p) else None
  }

  lemma TickReads(s: Saved, items: seq<Item>, handled: nat, cloud: seq<TokenEvent>, saveOk: bool)
    requires handled <= |items|
    ensures var scan := ScannedAll(Scan(cloud, []), s.memory, items[..handled]);
            var next := Advanced(s, scan.updates, Paths(items), true, saveOk);
            && scan.all == cloud + Offered(s.memory, items[..handled])
            && Saves(s.memory, items, handled, next.memory) && next.disk == if saveOk then next.memory else s.disk
  {
    forall p {
      ScanReads(s.memory, items[..handled], cloud, p);
    }
    ScanReads(s.memory, items[..handled], cloud, "");
  }

  /** One tick over the listed files, of which the first `handled` are reached before an abort. */
  method Tick(store: Store, s: Saved, items: seq<Item>, handled: nat, cloud: seq<TokenEvent>, size: int,
              wires: seq<seq<Attempt>>, saveOk: bool)
    returns (next: Saved, posted: bool, ghost batches: seq<seq<TokenEvent>>)
    requires WellKeyed(store.events) && handled <= |items|
    modifies store
    ensures WellKeyed(store.events)
    ensures var scan := ScannedAll(Scan(cloud, []), s.memory, items[..handled]);
            && Flatten(batches) == FirstOnly(scan.all)
            && Sent(store.State(), posted) == PostedBatches(old(store.State()), batches, wires)
            && next == Advanced(s, scan.updates, Paths(items), posted, saveOk)
    ensures Flatten(batches) == FirstOnly(cloud + Offered(s.memory, items[..handled]))
    ensures if posted
            then Saves(s.memory, items, handled, next.memory) && next.disk == (if saveOk then next.memory else s.disk)
            else next == s
  {
    TickReads(s, items, handled, cloud, saveOk);
    var collected, pendingUpdates := ScanFiles(s.memory, items[..handled], cloud);
    if collected == [] {
      posted, batches := true, [];
    } else {
      posted, batches := PostEvents(store, collected, size, wires);
    }
    if !posted {
      return s, posted, batches;
    }
    var merged := MergeUpdates(s.memory, pendingUpdates);
    merged := PruneMissingFiles(merged, Paths(items));
    next := Saved(merged, if saveOk then merged else s.disk);
  }
}
