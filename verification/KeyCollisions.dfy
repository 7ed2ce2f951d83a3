/** insertMany for arbitrary handles: exactly when its delta keys mislead it. Ingest validation
    admits only NUL-free handles, but the team mirror's handle map merely warns about others. */
module KeyCollisions {
  import opened Options
  import opened Events
  import opened Tallies
  import opened DeltaKeys
  import opened Rollup
  import opened RollupProofs

  /** The rows taken since `base` whose group has delta key `x`. */
  ghost function TakenKeys(base: map<DedupKey, Row>, events: map<DedupKey, Row>, x: string): set<DedupKey> {
    set k | k in events && k !in base && KeyText(CellOf(events[k])) == x
  }

  ghost predicate Extends(base: map<DedupKey, Row>, events: map<DedupKey, Row>) {
    forall k :: k in base ==> k in events && events[k] == base[k]
  }

  /** Mid-batch, for any handles: rows are only added, a delta counts the rows that share its key,
      and it stays filed under the cell it was created for. */
  ghost predicate DeltasCount(base: map<DedupKey, Row>, p: Pending) {
    && Extends(base, p.events) && DeltasKeyed(p.deltas)
    && (forall x :: CountsTaken(base, p.events, p.deltas, x))
  }

  lemma TakenGrows(base: map<DedupKey, Row>, events: map<DedupKey, Row>, r: Row, x: string)
    requires KeyOf(r) !in events && KeyOf(r) !in base
    ensures TakenKeys(base, events[KeyOf(r) := r], x)
         == TakenKeys(base, events, x) + if KeyText(CellOf(r)) == x then {KeyOf(r)} else {}
    ensures KeyOf(r) !in TakenKeys(base, events, x)
  {
  }

  ghost predicate CountsTaken(base: map<DedupKey, Row>, events: map<DedupKey, Row>,
                              deltas: map<string, Delta>, x: string) {
    && (x in deltas ==> deltas[x].sums.n == |TakenKeys(base, events, x)|)
    && (x !in deltas ==> TakenKeys(base, events, x) == {})
  }

  lemma TakenCounted(base: map<DedupKey, Row>, events: map<DedupKey, Row>,
                     deltas: map<string, Delta>, r: Row, x: string)
    requires KeyOf(r) !in events && KeyOf(r) !in base
    requires CountsTaken(base, events, deltas, x)
    ensures CountsTaken(base, events[KeyOf(r) := r], AddDelta(deltas, r), x)
  {
    TakenGrows(base, events, r, x);
  }

  lemma AcceptKeepsCount(base: map<DedupKey, Row>, p: Pending, e: TokenEvent)
    requires DeltasCount(base, p)
    ensures DeltasCount(base, Accept(p, e))
  {
    if KeyOf(RowOf(e)) !in p.events {
      forall x
        ensures CountsTaken(base, Accept(p, e).events, Accept(p, e).deltas, x)
      {
        TakenCounted(base, p.events, p.deltas, RowOf(e), x);
      }
      AddDeltaKeyed(p.deltas, RowOf(e));
    }
  }

  lemma {:induction false} AcceptAllKeepsCount(base: map<DedupKey, Row>, batch: seq<TokenEvent>)
    ensures DeltasCount(base, AcceptAll(Pending(base, map[]), batch))
  {
    if batch != [] {
      var n := |batch| - 1;
      AcceptAllKeepsCount(base, batch[..n]);
      AcceptKeepsCount(base, AcceptAll(Pending(base, map[]), batch[..n]), batch[n]);
    } else {
      forall x
        ensures CountsTaken(base, base, map[], x)
      {
      }
    }
  }

  /** Rows and deltas, once there, stay: later events only add. */
  lemma {:induction false} LaterOnlyAdds(p: Pending, batch: seq<TokenEvent>, i: nat)
    requires i <= |batch|
    ensures var early, late := AcceptAll(p, batch[..i]), AcceptAll(p, batch);
            && (forall k :: k in early.events ==> k in late.events && late.events[k] == early.events[k])
            && (forall x :: x in early.deltas ==> x in late.deltas && late.deltas[x].cell == early.deltas[x].cell)
  {
    if i < |batch| {
      LaterOnlyAdds(p, batch[..|batch| - 1], i);
      assert batch[..|batch| - 1][..i] == batch[..i];
    } else {
      assert batch[..i] == batch;
    }
  }

  /** A row filed under another cell's delta is missing from its own cell. */
  lemma OwnCellMisses(base: map<DedupKey, Row>, events: map<DedupKey, Row>, k: DedupKey)
    requires Extends(base, events) && k in events && k !in base
    ensures |Members(base, CellOf(events[k]))| < |Members(events, CellOf(events[k]))|
  {
    var own := CellOf(events[k]);
    SubsetSizes(Members(base, own) + {k}, Members(events, own));
  }

  /** The cell its delta is filed under counts it although it is none of its rows. */
  lemma HomeCellOvercounts(base: map<DedupKey, Row>, events: map<DedupKey, Row>, k: DedupKey, home: Cell)
    requires Extends(base, events) && k in events && k !in base
    requires home != CellOf(events[k]) && KeyText(home) == KeyText(CellOf(events[k]))
    ensures |Members(events, home)| < |Members(base, home)| + |TakenKeys(base, events, KeyText(home))|
  {
    var before, shared := Members(base, home), TakenKeys(base, events, KeyText(home)) - {k};
    forall j | j in Members(events, home)
      ensures j in before + shared
    {
      assert j in base ==> j in before;
    }
    SubsetSizes(Members(events, home), before + shared);
    assert k in TakenKeys(base, events, KeyText(home));
  }

  lemma {:induction false} SubsetSizes<T>(a: set<T>, b: set<T>)
    requires a <= b
    ensures |a| <= |b|
    decreases |a|
  {
    if a != {} {
      var x :| x in a;
      SubsetSizes(a - {x}, b - {x});
    }
  }

  /** The misfiled row of a batch, seen from the end of the batch. */
  lemma {:induction false} MisfiledAtEnd(base: map<DedupKey, Row>, batch: seq<TokenEvent>, i: nat, dirty: set<UserDay>)
      returns (home: Cell)
    requires i < |batch|
    requires KeyOf(RowOf(batch[i])) !in AcceptAll(Pending(base, map[]), batch[..i]).events
    requires !FiledRight(AcceptAll(Pending(base, map[]), batch[..i]).deltas, RowOf(batch[i]), dirty)
    ensures var p, r := AcceptAll(Pending(base, map[]), batch), RowOf(batch[i]);
            && KeyOf(r) in p.events && p.events[KeyOf(r)] == r && KeyOf(r) !in base
            && home != CellOf(r) && KeyText(home) == KeyText(CellOf(r))
            && KeyText(home) in p.deltas && p.deltas[KeyText(home)].cell == home
            && (DayOf(CellOf(r)) !in dirty || DayOf(home) !in dirty)
  {
    var p0 := Pending(base, map[]);
    home := AcceptAll(p0, batch[..i]).deltas[KeyText(CellOf(RowOf(batch[i])))].cell;
    AcceptAllKeepsCount(base, batch[..i]);
    LaterOnlyAdds(p0, batch, i);
    LaterOnlyAdds(p0, batch, i + 1);
    assert batch[..i + 1][..i] == batch[..i];
  }

  lemma WrongCell(t: Tables, c: Cell)
    requires DayOf(c) !in t.dirty && CellAt(t.rollup, c).n != CellSum(t.events, c).n
    ensures !ExactOffDirty(t)
  {
  }

  /** The tables before the drain have a wrong unqueued cell if old sums plus delta miss the row count. */
  lemma MergedCellWrong(t: Tables, batch: seq<TokenEvent>, p: Pending, c: Cell)
    requires ExactOffDirty(t) && DayOf(c) !in t.dirty + ReconciledDays(t.events, batch)
    requires p == AcceptAll(Pending(Reconciled(t.events, batch), map[]), batch) && DeltasKeyed(p.deltas)
    requires CellSum(Reconciled(t.events, batch), c).n + DeltaAt(p.deltas, c).n != CellSum(p.events, c).n
    ensures !ExactOffDirty(Merged(t, batch))
  {
    assert CellAt(t.rollup, c).n == CellSum(Reconciled(t.events, batch), c).n by {
      ReconcileKeepsCell(t.events, batch, c);
    }
    FlushAddsDeltas(t.rollup, p.deltas, c);
    WrongCell(Merged(t, batch), c);
  }

  lemma HomeCountWrong(base: map<DedupKey, Row>, p: Pending, k: DedupKey, home: Cell)
    requires DeltasCount(base, p) && k in p.events && k !in base
    requires home != CellOf(p.events[k]) && KeyText(home) == KeyText(CellOf(p.events[k]))
    requires KeyText(home) in p.deltas && p.deltas[KeyText(home)].cell == home
    ensures CellSum(base, home).n + DeltaAt(p.deltas, home).n != CellSum(p.events, home).n
  {
    CellCount(base, home);
    CellCount(p.events, home);
    HomeCellOvercounts(base, p.events, k, home);
    assert CountsTaken(base, p.events, p.deltas, KeyText(home));
  }

  lemma OwnCountWrong(base: map<DedupKey, Row>, p: Pending, k: DedupKey, home: Cell)
    requires DeltasCount(base, p) && k in p.events && k !in base
    requires home != CellOf(p.events[k]) && KeyText(home) == KeyText(CellOf(p.events[k]))
    requires KeyText(home) in p.deltas && p.deltas[KeyText(home)].cell == home
    ensures CellSum(base, CellOf(p.events[k])).n + DeltaAt(p.deltas, CellOf(p.events[k])).n
            != CellSum(p.events, CellOf(p.events[k])).n
  {
    var own := CellOf(p.events[k]);
    CellCount(base, own);
    CellCount(p.events, own);
    OwnCellMisses(base, p.events, k);
    assert DeltaAt(p.deltas, own) == ZERO;
  }

  lemma MisfiledBreaksMerge(t: Tables, batch: seq<TokenEvent>, i: nat)
    requires ExactOffDirty(t) && i < |batch|
    requires KeyOf(RowOf(batch[i])) !in AcceptAll(Pending(Reconciled(t.events, batch), map[]), batch[..i]).events
    requires !FiledRight(AcceptAll(Pending(Reconciled(t.events, batch), map[]), batch[..i]).deltas, RowOf(batch[i]),
                         t.dirty + ReconciledDays(t.events, batch))
    ensures !ExactOffDirty(Merged(t, batch))
  {
    var base, dirty := Reconciled(t.events, batch), t.dirty + ReconciledDays(t.events, batch);
    var p, r := AcceptAll(Pending(base, map[]), batch), RowOf(batch[i]);
    AcceptAllKeepsCount(base, batch);
    var home := MisfiledAtEnd(base, batch, i, dirty);
    if DayOf(home) !in dirty {
      HomeCountWrong(base, p, KeyOf(r), home);
      MergedCellWrong(t, batch, p, home);
    } else {
      OwnCountWrong(base, p, KeyOf(r), home);
      MergedCellWrong(t, batch, p, CellOf(r));
    }
  }

  // ----- what a caller holds before the call: the store and the batch -----

  /** The event's row is stored: its key is neither in the store nor that of an earlier event of the batch. */
  ghost predicate Taken(base: map<DedupKey, Row>, batch: seq<TokenEvent>, i: nat)
    requires i < |batch|
  {
    KeyOf(RowOf(batch[i])) !in base && forall j :: 0 <= j < i ==> KeyOf(RowOf(batch[j])) != KeyOf(RowOf(batch[i]))
  }

  /** The rows share a delta key but not a group, and not both user-days are queued anyway. */
  ghost predicate Clash(a: Row, b: Row, dirty: set<UserDay>) {
    && CellOf(a) != CellOf(b) && KeyText(CellOf(a)) == KeyText(CellOf(b))
    && !(DayOf(CellOf(a)) in dirty && DayOf(CellOf(b)) in dirty)
  }

  /** No two rows the batch adds share a delta key across groups, unless both are recomputed anyway. */
  ghost predicate Unambiguous(t: Tables, batch: seq<TokenEvent>) {
    var base, dirty := Reconciled(t.events, batch), t.dirty + ReconciledDays(t.events, batch);
    forall i, j :: 0 <= i < j < |batch| && Taken(base, batch, i) && Taken(base, batch, j) ==>
      !Clash(RowOf(batch[i]), RowOf(batch[j]), dirty)
  }

  lemma {:induction false} TakenIffFresh(base: map<DedupKey, Row>, batch: seq<TokenEvent>, n: nat, k: DedupKey)
    requires n <= |batch|
    ensures k !in AcceptAll(Pending(base, map[]), batch[..n]).events
            <==> k !in base && forall j :: 0 <= j < n ==> KeyOf(RowOf(batch[j])) != k
  {
    if n > 0 {
      assert batch[..n][..n - 1] == batch[..n - 1];
      TakenIffFresh(base, batch, n - 1, k);
    }
  }

  /** The delta filed under a text belongs to the first row taken with that text. */
  ghost predicate FirstHome(base: map<DedupKey, Row>, batch: seq<TokenEvent>, n: nat, x: string, i: nat,
                            deltas: map<string, Delta>) {
    && i < n <= |batch| && Taken(base, batch, i) && KeyText(CellOf(RowOf(batch[i]))) == x
    && x in deltas && deltas[x].cell == CellOf(RowOf(batch[i]))
    && forall j :: 0 <= j < i && Taken(base, batch, j) ==> KeyText(CellOf(RowOf(batch[j]))) != x
  }

  /** A text has its delta from the first row taken with it, or no row was taken with it. */
  ghost predicate HomeKnown(base: map<DedupKey, Row>, batch: seq<TokenEvent>, n: nat, x: string,
                            deltas: map<string, Delta>)
    requires n <= |batch|
  {
    if x in deltas then exists i: nat :: FirstHome(base, batch, n, x, i, deltas)
    else forall j :: 0 <= j < n && Taken(base, batch, j) ==> KeyText(CellOf(RowOf(batch[j]))) != x
  }

  lemma HomeStaysKnown(base: map<DedupKey, Row>, batch: seq<TokenEvent>, n: nat, x: string, before: map<string, Delta>,
                       after: map<string, Delta>)
    requires n < |batch| && HomeKnown(base, batch, n, x, before)
    requires after == if Taken(base, batch, n) then AddDelta(before, RowOf(batch[n])) else before
    ensures HomeKnown(base, batch, n + 1, x, after)
  {
    if x in before {
      var i: nat :| FirstHome(base, batch, n, x, i, before);
      assert FirstHome(base, batch, n + 1, x, i, after);
    } else if x in after {
      assert FirstHome(base, batch, n + 1, x, n, after);
    }
  }

  lemma {:induction false} DeltaHomes(base: map<DedupKey, Row>, batch: seq<TokenEvent>, n: nat, x: string)
    requires n <= |batch|
    ensures HomeKnown(base, batch, n, x, AcceptAll(Pending(base, map[]), batch[..n]).deltas)
  {
    if n > 0 {
      assert batch[..n][..n - 1] == batch[..n - 1];
      DeltaHomes(base, batch, n - 1, x);
      TakenIffFresh(base, batch, n - 1, KeyOf(RowOf(batch[n - 1])));
      HomeStaysKnown(base, batch, n - 1, x, AcceptAll(Pending(base, map[]), batch[..n - 1]).deltas,
                     AcceptAll(Pending(base, map[]), batch[..n]).deltas);
    }
  }

  /** Looking at the rows of the batch alone tells whether the loop misfiles one. */
  lemma UnambiguousIff(t: Tables, batch: seq<TokenEvent>)
    ensures Unambiguous(t, batch)
       <==> AllFiledRight(Pending(Reconciled(t.events, batch), map[]), batch, t.dirty + ReconciledDays(t.events, batch))
  {
    var base, dirty := Reconciled(t.events, batch), t.dirty + ReconciledDays(t.events, batch);
    if Unambiguous(t, batch) {
      forall j | 0 <= j < |batch| && KeyOf(RowOf(batch[j])) !in AcceptAll(Pending(base, map[]), batch[..j]).events
        ensures FiledRight(AcceptAll(Pending(base, map[]), batch[..j]).deltas, RowOf(batch[j]), dirty)
      {
        HomeIsRight(base, batch, j, dirty);
      }
    }
    if AllFiledRight(Pending(base, map[]), batch, dirty) {
      forall i, j | 0 <= i < j < |batch| && Taken(base, batch, i) && Taken(base, batch, j)
        ensures !Clash(RowOf(batch[i]), RowOf(batch[j]), dirty)
      {
        PairIsRight(base, batch, i, j, dirty);
      }
    }
  }

  lemma HomeIsRight(base: map<DedupKey, Row>, batch: seq<TokenEvent>, j: nat, dirty: set<UserDay>)
    requires j < |batch| && KeyOf(RowOf(batch[j])) !in AcceptAll(Pending(base, map[]), batch[..j]).events
    requires forall i :: 0 <= i < j && Taken(base, batch, i) && Taken(base, batch, j) ==>
               !Clash(RowOf(batch[i]), RowOf(batch[j]), dirty)
    ensures FiledRight(AcceptAll(Pending(base, map[]), batch[..j]).deltas, RowOf(batch[j]), dirty)
  {
    var x, deltas := KeyText(CellOf(RowOf(batch[j]))), AcceptAll(Pending(base, map[]), batch[..j]).deltas;
    TakenIffFresh(base, batch, j, KeyOf(RowOf(batch[j])));
    DeltaHomes(base, batch, j, x);
    if x in deltas {
      var i: nat :| FirstHome(base, batch, j, x, i, deltas);
      assert !Clash(RowOf(batch[i]), RowOf(batch[j]), dirty);
    }
  }

  lemma PairIsRight(base: map<DedupKey, Row>, batch: seq<TokenEvent>, i: nat, j: nat, dirty: set<UserDay>)
    requires i < j < |batch| && Taken(base, batch, i) && Taken(base, batch, j)
    requires AllFiledRight(Pending(base, map[]), batch, dirty)
    ensures !Clash(RowOf(batch[i]), RowOf(batch[j]), dirty)
  {
    var x, y := KeyText(CellOf(RowOf(batch[i]))), KeyText(CellOf(RowOf(batch[j])));
    if x == y {
      TakenIffFresh(base, batch, i, KeyOf(RowOf(batch[i])));
      TakenIffFresh(base, batch, j, KeyOf(RowOf(batch[j])));
      DeltaHomes(base, batch, i, x);
      DeltaHomes(base, batch, j, x);
      SameHome(base, batch, i, j, x);
    }
  }

  lemma DeltaAfterTaken(deltas: map<string, Delta>, r: Row)
    ensures var x, after := KeyText(CellOf(r)), AddDelta(deltas, r);
            x in after && after[x].cell == if x in deltas then deltas[x].cell else CellOf(r)
  {
  }

  lemma TakenAdds(base: map<DedupKey, Row>, batch: seq<TokenEvent>, i: nat)
    requires i < |batch| && Taken(base, batch, i)
    ensures AcceptAll(Pending(base, map[]), batch[..i + 1]).deltas
            == AddDelta(AcceptAll(Pending(base, map[]), batch[..i]).deltas, RowOf(batch[i]))
  {
    assert batch[..i + 1][..i] == batch[..i];
    TakenIffFresh(base, batch, i, KeyOf(RowOf(batch[i])));
  }

  lemma DeltaStays(base: map<DedupKey, Row>, batch: seq<TokenEvent>, n: nat, j: nat, x: string)
    requires n <= j <= |batch| && x in AcceptAll(Pending(base, map[]), batch[..n]).deltas
    ensures var early, late := AcceptAll(Pending(base, map[]), batch[..n]).deltas,
                               AcceptAll(Pending(base, map[]), batch[..j]).deltas;
            x in late && late[x].cell == early[x].cell
  {
    assert batch[..j][..n] == batch[..n];
    LaterOnlyAdds(Pending(base, map[]), batch[..j], n);
  }

  /** Rows `i` and `j` are measured against the same delta. */
  lemma SameHome(base: map<DedupKey, Row>, batch: seq<TokenEvent>, i: nat, j: nat, x: string)
    requires i < j < |batch| && Taken(base, batch, i) && KeyText(CellOf(RowOf(batch[i]))) == x
    ensures var early, late := AcceptAll(Pending(base, map[]), batch[..i]).deltas,
                               AcceptAll(Pending(base, map[]), batch[..j]).deltas;
            x in late && late[x].cell == if x in early then early[x].cell else CellOf(RowOf(batch[i]))
  {
    TakenAdds(base, batch, i);
    DeltaAfterTaken(AcceptAll(Pending(base, map[]), batch[..i]).deltas, RowOf(batch[i]));
    DeltaStays(base, batch, i + 1, j, x);
  }

  // ----- exactly when a batch ends exact -----

  /** For any handles, the rollup is exact on every unqueued cell just before the final drain
      if and only if no two rows it adds share a delta key across groups. */
  lemma MergeExactIff(t: Tables, batch: seq<TokenEvent>)
    requires ExactOffDirty(t)
    ensures ExactOffDirty(Merged(t, batch)) <==> Unambiguous(t, batch)
  {
    UnambiguousIff(t, batch);
    if Unambiguous(t, batch) {
      MergeIsExactOffDirty(t, batch);
    } else {
      var p0 := Pending(Reconciled(t.events, batch), map[]);
      var i :| 0 <= i < |batch| && KeyOf(RowOf(batch[i])) !in AcceptAll(p0, batch[..i]).events
               && !FiledRight(AcceptAll(p0, batch[..i]).deltas, RowOf(batch[i]),
                              t.dirty + ReconciledDays(t.events, batch));
      MisfiledBreaksMerge(t, batch, i);
    }
  }

  lemma DrainExactIff(t: Tables)
    requires WellKeyed(t.events) && forall c :: c in t.rollup ==> t.rollup[c].n > 0
    ensures Exact(Drained(t)) <==> ExactOffDirty(t)
  {
    if ExactOffDirty(t) {
      DrainIsExact(t);
    }
    if Exact(Drained(t)) {
      var r := Repaired(t.rollup, t.dirty, t.events);
      forall c | DayOf(c) !in t.dirty
        ensures CellAt(t.rollup, c) == CellSum(t.events, c)
      {
        assert CellAt(r, c) == CellSum(t.events, c);
      }
    }
  }

  /** insertMany ends exact if and only if no two rows it adds share a delta key across groups. */
  lemma InsertExactIff(t: Tables, batch: seq<TokenEvent>)
    requires ExactOffDirty(t)
    ensures Exact(Inserted(t, batch)) <==> Unambiguous(t, batch)
  {
    var base := Reconciled(t.events, batch);
    AcceptAllKeyed(Pending(base, map[]), batch);
    AcceptAllKeepsCount(base, batch);
    forall c {
      FlushAddsDeltas(t.rollup, AcceptAll(Pending(base, map[]), batch).deltas, c);
    }
    MergeExactIff(t, batch);
    DrainExactIff(Merged(t, batch));
  }

  /** Such batches exist: wherever the border between handle and model can fall on either of two NULs,
      two events of one day, type and stored flag leave the rollup wrong. */
  lemma NulHandlesCollide(e: TokenEvent, f: TokenEvent, u: string, v: string, w: string)
    requires e.user == u && e.model == v + "\0" + w && f.user == u + "\0" + v && f.model == w
    requires var a, b := CellOf(RowOf(e)), CellOf(RowOf(f));
             a.day == b.day && a.messageType == b.messageType && a.hasStored == b.hasStored
    ensures !Unambiguous(EMPTY, [e, f]) && !Exact(Inserted(EMPTY, [e, f]))
  {
    var a, b, batch := CellOf(RowOf(e)), CellOf(RowOf(f)), [e, f];
    assert u + "\0" + (v + "\0" + w) == (u + "\0" + v) + "\0" + w;
    assert |e.user| < |f.user|;
    KeysCollide(a, b);
    assert Reconciled(EMPTY.events, batch) == map[] && EMPTY.dirty + ReconciledDays(EMPTY.events, batch) == {};
    assert Taken(map[], batch, 0) && Taken(map[], batch, 1);
    assert Clash(RowOf(batch[0]), RowOf(batch[1]), {});
    EmptyIsExact();
    InsertExactIff(EMPTY, batch);
  }
}
