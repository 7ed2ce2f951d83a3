/** Clearing all events while a mirror tick is in flight: exactly when the watermark survives it. */
module MirrorResets {
  import opened Options
  import opened Events
  import opened Rollup
  import opened RollupProofs
  import opened PageWalk
  import opened CursorMirrors
  import opened MirrorSafety

  // ----- what a tick leaves in the store -----

  lemma {:induction false} AcceptedKeys(p: Pending, batch: seq<TokenEvent>, k: DedupKey)
    ensures k in AcceptAll(p, batch).events <==> k in p.events || k in EventKeys(batch)
  {
    if batch != [] {
      var n := |batch| - 1;
      AcceptedKeys(p, batch[..n], k);
      assert batch == batch[..n] + [batch[n]];
    }
  }

  /** What was stored or fetched is stored, local Cursor rows aside, and nothing else. */
  lemma FilledExactly(t: Tables, events: seq<TokenEvent>)
    requires WellKeyed(t.events)
    ensures var more := Filled(t, events).events;
            && WellKeyed(more) && KeepsCursor(t.events.Keys + EventKeys(events), more.Keys, {})
            && more.Keys <= t.events.Keys + EventKeys(events)
  {
    FilledHolds(t, events, {});
    if events != [] {
      var sorted := OldestFirst(events);
      SortKeepsKeys(events);
      forall k | k in Filled(t, events).events
        ensures k in t.events.Keys + EventKeys(events)
      {
        AcceptedKeys(Pending(Reconciled(t.events, sorted), map[]), sorted, k);
      }
    }
  }

  // ----- from the reset to the end of the tick -----

  /** Arrivals, this tick's own page requests, and whatever daemons post meanwhile. */
  ghost predicate TickGoesOn(steps: seq<Step>) {
    forall i :: 0 <= i < |steps| ==> steps[i].Arrive? || steps[i].Fetch? || steps[i].Post?
  }

  /** What is stored, and what the tick in flight is about to store. */
  ghost function InHand(w: World): set<DedupKey>
    requires w.server.tick.Some?
  {
    w.server.tables.events.Keys + EventKeys(w.server.tick.value.events)
  }

  /** No event older than the window lies among the `skip` newest. */
  ghost predicate OlderBehind(list: seq<RemoteEvent>, since: int, skip: nat) {
    forall j :: 0 <= j < |list| && list[j].time < since ==> |list| - 1 - j >= skip
  }

  /** After the reset the tick runs on with its old window over a store that was emptied; the pending
      maximum is the newest usable event it fetched since. */
  ghost predicate RunsOn(w: World, since: int) {
    var s, list := w.server, w.list;
    && Growing(list) && s.meta == None && WellKeyed(s.tables.events) && s.tick.Some?
    && var k, p := s.tick.value, s.mirror.pendingMax;
       && s.mirror == Mirror(0, true, 1, p) && 0 <= p <= Newest(list) && (p == 0 || p >= since)
       && k.since == since && k.lastPage >= 0 && (forall e :: e in k.events ==> FromList(list, since, e))
       && Walked(list, since, p, Skip(k.lastPage), InHand(w), {})
       && (k.complete ==> Walked(list, since, p, |list|, InHand(w), {}))
       && (!k.complete && p > 0 ==> OlderBehind(list, since, Skip(k.lastPage)))
  }

  lemma ResetRunsOn(w: World)
    requires Inv(w, {}) && w.server.tick.Some?
    ensures RunsOn(Next(w, ClearAll), w.server.tick.value.since)
  {
  }

  lemma ArrivalRunsOn(w: World, e: RemoteEvent, since: int)
    requires RunsOn(w, since) && Growing(w.list + [e])
    ensures RunsOn(Next(w, Arrive(e)), since)
  {
    var list, k, p := w.list, w.server.tick.value, w.server.mirror.pendingMax;
    var got := InHand(w);
    ArrivalIsNewer(list, e);
    ArrivalKeepsWalked(list, e, since, p, Skip(k.lastPage), got, {});
    if k.complete {
      ArrivalKeepsDone(list, e, since, p, got, {});
    }
    forall t | t in k.events {
      ArrivalKeepsFrom(list, e, since, t);
    }
    if !k.complete && p > 0 {
      OlderStaysBehind(list, e, since, Skip(k.lastPage), p);
    }
  }

  lemma OlderStaysBehind(list: seq<RemoteEvent>, e: RemoteEvent, since: int, skip: nat, p: int)
    requires Growing(list + [e]) && OlderBehind(list, since, skip) && since <= p <= Newest(list) && p > 0
    ensures OlderBehind(list + [e], since, skip)
  {
    var grown := list + [e];
    assert grown[|list| - 1].time < grown[|list|].time;
    forall j | 0 <= j < |grown| && grown[j].time < since
      ensures |grown| - 1 - j >= skip
    {
      assert j < |list| && grown[j] == list[j];
    }
  }

  lemma MoreMeansBehind(list: seq<RemoteEvent>, since: int, skip: nat)
    requires Growing(list) && MoreAfter(list, since, skip)
    ensures OlderBehind(list, since, skip + PAGE_SIZE)
  {
    MatchingAt(list, since);
  }

  lemma FetchRunsOn(w: World, since: int)
    requires RunsOn(w, since) && !w.server.tick.value.complete
    ensures RunsOn(Fetched(w), since)
  {
    var list, k, p := w.list, w.server.tick.value, w.server.mirror.pendingMax;
    var skip := Skip(k.lastPage);
    var page := PageAt(list, since, skip);
    var bound, events := MaxUsable(page, p), k.events + Mapped(page);
    PageBound(list, since, skip, p);
    MaxUsableBound(page, p);
    if bound != p {
      var i :| 0 <= i < |page| && Usable(page[i]) && page[i].time == bound;
      PageTimes(list, since, skip, i);
    }
    var stored := w.server.tables.events.Keys;
    PageHeld(page, stored, k.events, {});
    PageFromList(list, since, skip);
    assert InHand(w) <= stored + EventKeys(events);
    FetchAdvances(list, since, p, skip, InHand(w), bound, stored + EventKeys(events), {});
    if MoreAfter(list, since, skip) {
      MoreMeansBehind(list, since, skip);
    }
  }

  lemma PostRunsOn(w: World, batch: seq<TokenEvent>, since: int)
    requires RunsOn(w, since)
    ensures RunsOn(Next(w, Post(batch)), since)
  {
    var k, p, r := w.server.tick.value, w.server.mirror.pendingMax, Next(w, Post(batch));
    InsertKeepsCursor(w.server.tables, batch, {});
    assert KeepsCursor(InHand(w), InHand(r), {});
    KeepsWalked(w.list, since, p, Skip(k.lastPage), InHand(w), InHand(r), {});
    if k.complete {
      KeepsWalked(w.list, since, p, |w.list|, InHand(w), InHand(r), {});
    }
  }

  lemma {:induction false} StepsRunOn(w: World, steps: seq<Step>, since: int)
    requires RunsOn(w, since) && Possible(w, steps, {}) && TickGoesOn(steps)
    ensures RunsOn(After(w, steps), since)
  {
    if steps != [] {
      var n := |steps| - 1;
      assert forall i :: 0 <= i < n ==> steps[..n][..i] == steps[..i];
      StepsRunOn(w, steps[..n], since);
      match steps[n] {
        case Arrive(e) => ArrivalRunsOn(After(w, steps[..n]), e, since);
        case Fetch => FetchRunsOn(After(w, steps[..n]), since);
        case Post(batch) => PostRunsOn(After(w, steps[..n]), batch, since);
      }
    }
  }

  // ----- the end of the tick -----

  /** Something mappable older than the window is not stored again: no post brought it back. */
  ghost predicate OlderMissing(w: World, since: int) {
    exists j :: 0 <= j < |w.list| && Mappable(w.list[j]) && w.list[j].time < since
      && RemoteKey(w.list[j]) !in w.server.tables.events
  }

  lemma LostBelow(w: World, since: int)
    requires RunsOn(w, since) && TellApart(w.list) && w.server.mirror.pendingMax > 0 && OlderMissing(w, since)
    ensures !AllHeld(w.list, w.server.mirror.pendingMax, InHand(w), {})
  {
    var j :| 0 <= j < |w.list| && Mappable(w.list[j]) && w.list[j].time < since
      && RemoteKey(w.list[j]) !in w.server.tables.events;
    OlderNotFetched(w.list, since, w.server.tick.value.events, j);
    assert !Held(w.list[j], InHand(w), {});
  }

  /** A tick that ends before its last page leaves its progress where the full history can take over. */
  lemma TruncatedIsFine(w: World, since: int)
    requires RunsOn(w, since) && !w.server.tick.value.complete
    ensures Walked(w.list, 0, w.server.mirror.pendingMax, Skip(w.server.tick.value.lastPage), InHand(w), {})
  {
  }

  lemma AllBelowHeld(w: World, since: int)
    requires RunsOn(w, since) && w.server.tick.value.complete
    requires w.server.mirror.pendingMax == 0 || !OlderMissing(w, since)
    ensures AllHeld(w.list, w.server.mirror.pendingMax, InHand(w), {})
  {
    if w.server.mirror.pendingMax == 0 {
      NothingBelowZero(w.list, InHand(w), {});
    } else {
      assert AllHeld(w.list, since - 1, InHand(w), {});
      WalkEnds(w.list, since, since - 1, w.server.mirror.pendingMax, InHand(w), {});
    }
  }

  /** The tick loses its insert or is cut short, brings nothing usable after the reset, or nothing
      mappable older than its window is missing from the store. */
  ghost predicate Harmless(w: World, o: Outcome)
    requires w.server.tick.Some?
  {
    var k := w.server.tick.value;
    || !k.complete || (o.InsertThrows? && k.events != [])
    || w.server.mirror.pendingMax == 0 || !OlderMissing(w, k.since)
  }

  lemma ThrownEndsWell(w: World, since: int)
    requires RunsOn(w, since)
    ensures Inv(w.(server := w.server.(tick := None)), {})
  {
    NothingBelowZero(w.list, w.server.tables.events.Keys, {});
  }

  lemma TruncatedEndsWell(w: World, o: Outcome, since: int)
    requires RunsOn(w, since) && !w.server.tick.value.complete
    ensures Inv(w.(server := Concluded(w.server, Filled(w.server.tables, w.server.tick.value.events), o)), {})
  {
    var k, stored := w.server.tick.value, Filled(w.server.tables, w.server.tick.value.events).events.Keys;
    FilledExactly(w.server.tables, k.events);
    NothingBelowZero(w.list, stored, {});
    TruncatedIsFine(w, since);
    KeepsWalked(w.list, 0, w.server.mirror.pendingMax, Skip(k.lastPage), InHand(w), stored, {});
  }

  lemma CompleteEndsWell(w: World, o: Outcome, since: int)
    requires RunsOn(w, since) && w.server.tick.value.complete
    requires w.server.mirror.pendingMax == 0 || !OlderMissing(w, since)
    ensures Inv(w.(server := Concluded(w.server, Filled(w.server.tables, w.server.tick.value.events), o)), {})
  {
    var stored := Filled(w.server.tables, w.server.tick.value.events).events.Keys;
    FilledExactly(w.server.tables, w.server.tick.value.events);
    AllBelowHeld(w, since);
    KeepsHeld(w.list, w.server.mirror.pendingMax, InHand(w), stored, {});
    NoneAhead(w.list, w.server.mirror, stored, {});
  }

  lemma EndsWell(w: World, o: Outcome, since: int)
    requires RunsOn(w, since) && Harmless(w, o)
    ensures Inv(Next(w, FinishTick(o)), {})
  {
    var k := w.server.tick.value;
    if o.InsertThrows? && k.events != [] {
      ThrownEndsWell(w, since);
    } else if k.complete {
      CompleteEndsWell(w, o, since);
    } else {
      TruncatedEndsWell(w, o, since);
    }
  }

  lemma EndsBadly(w: World, o: Outcome, since: int)
    requires RunsOn(w, since) && !Harmless(w, o) && TellApart(w.list)
    ensures !Inv(Next(w, FinishTick(o)), {})
    ensures !o.MetaThrows? ==> !Safe(Next(w, FinishTick(o)), {})
  {
    var k := w.server.tick.value;
    FilledExactly(w.server.tables, k.events);
    LostBelow(w, since);
  }

  /** Clearing all events resets the watermark, but a tick already in flight still asks for its old
      window. Whatever arrives, whatever daemons post and however many pages it fetches before it ends:
      every run from there on is safe again if the tick is cut short or loses its insert, if it brings
      nothing usable after the reset, or if nothing mappable older than its window is missing from the
      store by then; and otherwise the watermark it ends with covers an event that is neither stored nor
      ever asked for again. */
  lemma ResetMidTickIff(w: World, steps: seq<Step>, o: Outcome)
    requires Inv(w, {}) && w.server.tick.Some?
    requires Possible(Next(w, ClearAll), steps, {}) && TickGoesOn(steps)
             && TellApart(After(Next(w, ClearAll), steps).list)
    ensures var r := After(Next(w, ClearAll), steps);
            && r.server.tick.Some?
            && (Inv(Next(r, FinishTick(o)), {}) <==> Harmless(r, o))
            && (!o.MetaThrows? ==> (Safe(Next(r, FinishTick(o)), {}) <==> Harmless(r, o)))
  {
    var since, r := w.server.tick.value.since, After(Next(w, ClearAll), steps);
    ResetRunsOn(w);
    StepsRunOn(Next(w, ClearAll), steps, since);
    if Harmless(r, o) {
      EndsWell(r, o, since);
    } else {
      EndsBadly(r, o, since);
    }
  }

  /** From a state the invariant holds in, every further run is safe. */
  lemma {:induction false} SafeFromHere(w: World, steps: seq<Step>, exempt: set<string>)
    requires Inv(w, exempt) && Possible(w, steps, exempt)
    ensures Inv(After(w, steps), exempt) && Safe(After(w, steps), exempt)
  {
    if steps != [] {
      var n := |steps| - 1;
      assert forall i :: 0 <= i < n ==> steps[..n][..i] == steps[..i];
      SafeFromHere(w, steps[..n], exempt);
      StepKeeps(After(w, steps[..n]), steps[n], exempt);
    }
  }

  // ----- such a loss can be reached -----

  const EMPTY_WORLD := World(Server(FRESH, None, EMPTY, None), [])

  lemma Extend(w: World, steps: seq<Step>, s: Step)
    requires Possible(w, steps, {}) && Enabled(After(w, steps), s, {})
    ensures Possible(w, steps + [s], {}) && After(w, steps + [s]) == Next(After(w, steps), s)
  {
    var more := steps + [s];
    assert more[..|steps|] == steps;
    forall i | 0 <= i < |more|
      ensures Enabled(After(w, more[..i]), more[i], {})
    {
      if i < |steps| {
        assert more[..i] == steps[..i];
      }
    }
  }

  /** Two mappable events, the second newer. */
  ghost predicate TwoEvents(a: RemoteEvent, b: RemoteEvent) {
    && Mappable(a) && Mappable(b) && WellMapped(a) && WellMapped(b)
    && a.time < b.time && RemoteKey(a) != RemoteKey(b)
  }

  /** Mid-way through such a run: the newest mirrored event, and the tick in flight. */
  ghost predicate At(w: World, list: seq<RemoteEvent>, m: Mirror, k: Option<Tick>) {
    w.list == list && w.server.mirror == m && w.server.tick == k
  }

  lemma OneEventPage(a: RemoteEvent)
    requires Mappable(a)
    ensures PageAt([a], 0, 0) == [a] && !MoreAfter([a], 0, 0)
    ensures Mapped([a]) == [a.token.value] && MaxUsable([a], 0) == a.time
  {
    assert [a][..0] == [];
    assert Matching([a], 0) == [a];
  }

  lemma SecondBegin(a: RemoteEvent, b: RemoteEvent, w: World)
    requires TwoEvents(a, b) && At(w, [a], Mirror(a.time, true, 1, 0), None)
    ensures Growing(Next(w, BeginTick).list + [b])
    ensures At(Next(Next(w, BeginTick), Arrive(b)), [a, b], Mirror(a.time, true, 1, 0),
               Some(Tick(a.time + 1, 1, 0, [], false)))
  {
    assert [a] + [b] == [a, b];
  }

  /** One event is mirrored, and the next tick is in flight when a second one arrives. */
  lemma {:induction false} SecondTick(a: RemoteEvent, b: RemoteEvent) returns (steps: seq<Step>)
    requires TwoEvents(a, b)
    ensures Possible(EMPTY_WORLD, steps, {})
    ensures At(After(EMPTY_WORLD, steps), [a, b], Mirror(a.time, true, 1, 0), Some(Tick(a.time + 1, 1, 0, [], false)))
  {
    steps := FirstTick(a);
    var w := After(EMPTY_WORLD, steps);
    Extend(EMPTY_WORLD, steps, BeginTick);
    steps := steps + [BeginTick];
    SecondBegin(a, b, w);
    Extend(EMPTY_WORLD, steps, Arrive(b));
    steps := steps + [Arrive(b)];
  }

  lemma FirstFetch(a: RemoteEvent, w: World)
    requires Mappable(a) && At(w, [a], Mirror(0, true, 1, 0), Some(Tick(0, 1, 0, [], false)))
    ensures At(Fetched(w), [a], Mirror(0, true, 1, a.time), Some(Tick(0, 1, 1, [a.token.value], true)))
  {
    OneEventPage(a);
  }

  lemma FirstFinish(a: RemoteEvent, w: World)
    requires Usable(a) && a.token.Some?
             && At(w, [a], Mirror(0, true, 1, a.time), Some(Tick(0, 1, 1, [a.token.value], true)))
    ensures At(Next(w, FinishTick(AllStored)), [a], Mirror(a.time, true, 1, 0), None)
  {
  }

  lemma {:induction false} FirstBegin(a: RemoteEvent) returns (steps: seq<Step>)
    requires WellMapped(a)
    ensures Possible(EMPTY_WORLD, steps, {})
    ensures At(After(EMPTY_WORLD, steps), [a], Mirror(0, true, 1, 0), Some(Tick(0, 1, 0, [], false)))
  {
    var w0 := EMPTY_WORLD;
    Extend(w0, [], Arrive(a));
    steps := [] + [Arrive(a)];
    assert At(After(w0, steps), [a], FRESH, None);
    Extend(w0, steps, BeginTick);
    steps := steps + [BeginTick];
  }

  lemma {:induction false} FirstTick(a: RemoteEvent) returns (steps: seq<Step>)
    requires Mappable(a) && WellMapped(a)
    ensures Possible(EMPTY_WORLD, steps, {})
    ensures At(After(EMPTY_WORLD, steps), [a], Mirror(a.time, true, 1, 0), None)
  {
    steps := FirstBegin(a);
    FirstFetch(a, After(EMPTY_WORLD, steps));
    Extend(EMPTY_WORLD, steps, Fetch);
    steps := steps + [Fetch];
    FirstFinish(a, After(EMPTY_WORLD, steps));
    Extend(EMPTY_WORLD, steps, FinishTick(AllStored));
    steps := steps + [FinishTick(AllStored)];
  }

  lemma SecondPage(a: RemoteEvent, b: RemoteEvent)
    requires TwoEvents(a, b)
    ensures PageAt([a, b], a.time + 1, 0) == [b] && !MoreAfter([a, b], a.time + 1, 0)
    ensures MaxUsable([b], 0) == b.time && Mappable([a, b][0]) && [a, b][0].time < a.time + 1
  {
    assert [a, b][..1] == [a] && [a][..0] == [] && [b][..0] == [];
    assert Matching([a], a.time + 1) == [];
    assert Matching([a, b], a.time + 1) == [b];
    assert Usable([b][0]) && Mappable([a, b][0]);
  }

  lemma SecondTickLoses(a: RemoteEvent, b: RemoteEvent, w: World)
    requires TwoEvents(a, b) && Inv(w, {})
             && At(w, [a, b], Mirror(a.time, true, 1, 0), Some(Tick(a.time + 1, 1, 0, [], false)))
    ensures !Safe(Next(Next(Next(w, ClearAll), Fetch), FinishTick(AllStored)), {})
  {
    var c := Next(w, ClearAll);
    SecondPage(a, b);
    assert [Fetch][..0] == [] && After(c, []) == c && After(c, [Fetch]) == Next(c, Fetch);
    ResetMidTickIff(w, [Fetch], AllStored);
  }

  /** Any two events make a run in which clearing everything in mid-tick leaves an unsafe watermark:
      it then covers the first event, which is neither stored nor ever asked for again. */
  lemma ResetMidTickLosesHistory(a: RemoteEvent, b: RemoteEvent)
    requires TwoEvents(a, b)
    ensures exists steps :: && Possible(EMPTY_WORLD, steps, {}) && After(EMPTY_WORLD, steps).server.tick.Some?
                            && !Safe(Next(Next(Next(After(EMPTY_WORLD, steps), ClearAll), Fetch),
                                          FinishTick(AllStored)), {})
  {
    var steps := SecondTick(a, b);
    RunKeeps(EMPTY_WORLD, steps, {});
    SecondTickLoses(a, b, After(EMPTY_WORLD, steps));
  }
}
