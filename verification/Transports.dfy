/** The at-least-once sender and the ingest endpoint it talks to. */
module Transports {
  import opened Options
  import opened Events
  import opened DeltaKeys
  import opened Rollup
  import opened RollupProofs
  import opened Stores

  const MAX_COST_USD_MICROS: int := 100_000_000
  const MAX_EVENTS_PER_REQUEST: nat := 1000

  // ----- the endpoint -----

  predicate HandleOk(user: string) {
    1 <= |user| <= 64
    && forall i :: 0 <= i < |user| ==> 'a' <= user[i] <= 'z' || '0' <= user[i] <= '9' || user[i] in "._-"
  }

  /** Row-by-row validation. */
  predicate ServerValid(e: TokenEvent) {
    && HandleOk(e.user) && e.sessionId != "" && e.messageId != ""
    && e.inputTokens >= 0 && e.outputTokens >= 0 && e.cacheCreationTokens >= 0 && e.cacheReadTokens >= 0
    && (e.reasoningTokens.Some? ==> e.reasoningTokens.value >= 0)
    && (e.messageType.GetOr(Assistant) == Assistant ==> e.model != "")
    && (e.costUsdMicros.Some? ==> 0 <= e.costUsdMicros.value <= MAX_COST_USD_MICROS)
  }

  function Validated(batch: seq<TokenEvent>): seq<TokenEvent> {
    if batch == [] then []
    else
      var n := |batch| - 1;
      Validated(batch[..n]) + if ServerValid(batch[n]) then [batch[n]] else []
  }

  predicate OneUser(events: seq<TokenEvent>) {
    forall i :: 0 < i < |events| ==> events[i].user == events[0].user
  }

  /** The request is answered with success: it is empty, or not too large, with at least one valid row
      and all valid rows of one user. */
  predicate Admits(batch: seq<TokenEvent>) {
    batch == [] || (|batch| <= MAX_EVENTS_PER_REQUEST && Validated(batch) != [] && OneUser(Validated(batch)))
  }

  /** An empty request does not reach the store. */
  predicate Reaches(batch: seq<TokenEvent>) {
    batch != [] && Admits(batch)
  }

  ghost function Ingested(t: Tables, batch: seq<TokenEvent>): Tables {
    if Reaches(batch) then Inserted(t, Validated(batch)) else t
  }

  /** Invalid rows are skipped, never the batch. */
  method Ingest(store: Store, batch: seq<TokenEvent>) returns (ok: bool)
    requires WellKeyed(store.events)
    modifies store
    ensures store.State() == Ingested(old(store.State()), batch) && ok == Admits(batch)
  {
    if |batch| == 0 {
      return true;
    }
    if |batch| > MAX_EVENTS_PER_REQUEST {
      return false;
    }
    var validated: seq<TokenEvent> := [];
    for i := 0 to |batch|
      invariant validated == Validated(batch[..i])
    {
      assert batch[..i + 1][..i] == batch[..i];
      if ServerValid(batch[i]) {
        validated := validated + [batch[i]];
      }
    }
    assert batch[..|batch|] == batch;
    if validated == [] {
      return false;
    }
    var firstUser := validated[0].user;
    for i := 1 to |validated|
      invariant forall k :: 0 < k < i ==> validated[k].user == firstUser
    {
      if validated[i].user != firstUser {
        return false;
      }
    }
    var _, _ := store.InsertMany(validated);
    ok := true;
  }

  lemma {:induction false} ValidatedAre(batch: seq<TokenEvent>, e: TokenEvent)
    ensures e in Validated(batch) <==> e in batch && ServerValid(e)
  {
    if batch != [] {
      var n := |batch| - 1;
      ValidatedAre(batch[..n], e);
      assert batch == batch[..n] + [batch[n]];
    }
  }

  /** Whatever a daemon posts, the rollup stays exact: validation keeps NULs out of the delta keys. */
  lemma IngestKeepsExact(t: Tables, batch: seq<TokenEvent>)
    requires Exact(t)
    ensures Exact(Ingested(t, batch))
  {
    var valid := Validated(batch);
    forall i | 0 <= i < |valid|
      ensures NulFree(valid[i].user)
    {
      ValidatedAre(batch, valid[i]);
    }
    InsertIsExact(t, valid);
  }

  // ----- the sender -----

  /** What becomes of one attempt: it never arrives, it is refused for good, it is answered, or it
      arrives and its answer is lost. */
  datatype Attempt = Unreachable | Refused | Answered | AnswerLost

  datatype Sent = Sent(tables: Tables, ok: bool)

  ghost function PostedBatch(t: Tables, batch: seq<TokenEvent>, attempts: seq<Attempt>): Sent
    decreases |attempts|
  {
    if attempts == [] then Sent(t, false)
    else match attempts[0]
      case Unreachable => PostedBatch(t, batch, attempts[1..])
      case Refused => Sent(t, false)
      case Answered => Sent(Ingested(t, batch), Admits(batch))
      case AnswerLost => PostedBatch(Ingested(t, batch), batch, attempts[1..])
  }

  method PostBatch(store: Store, batch: seq<TokenEvent>, attempts: seq<Attempt>) returns (ok: bool)
    requires WellKeyed(store.events)
    modifies store
    ensures Sent(store.State(), ok) == PostedBatch(old(store.State()), batch, attempts)
    ensures WellKeyed(store.events)
  {
    for i := 0 to |attempts|
      invariant WellKeyed(store.events)
      invariant PostedBatch(store.State(), batch, attempts[i..]) == PostedBatch(old(store.State()), batch, attempts)
    {
      assert attempts[i..][1..] == attempts[i + 1..];
      IngestKeepsKeys(store.State(), batch);
      match attempts[i] {
        case Unreachable =>
        case Refused => return false;
        case Answered =>
          ok := Ingest(store, batch);
          return ok;
        case AnswerLost =>
          var _ := Ingest(store, batch);
      }
    }
    return false;
  }

  function Flatten(batches: seq<seq<TokenEvent>>): seq<TokenEvent> {
    if batches == [] then [] else batches[0] + Flatten(batches[1..])
  }

  /** Slices of `size`, in order, with nothing lost: the last may be shorter. */
  method Chunk(events: seq<TokenEvent>, size: int) returns (batches: seq<seq<TokenEvent>>)
    ensures Flatten(batches) == events
    ensures size > 0 ==> forall i :: 0 <= i < |batches| ==>
              0 < |batches[i]| <= size && (i < |batches| - 1 ==> |batches[i]| == size)
  {
    if size <= 0 {
      FlattenAppend([], events);
      assert [] + [events] == [events];
      return [events];
    }
    batches := [];
    var i := 0;
    while i < |events|
      invariant 0 <= i && Flatten(batches) == events[..if i <= |events| then i else |events|]
      invariant forall k :: 0 <= k < |batches| ==>
                  0 < |batches[k]| <= size && ((k < |batches| - 1 || i < |events|) ==> |batches[k]| == size)
      decreases |events| - i
    {
      var end := if i + size <= |events| then i + size else |events|;
      FlattenAppend(batches, events[i..end]);
      assert events[..end] == events[..i] + events[i..end];
      batches := batches + [events[i..end]];
      i := i + size;
    }
  }

  lemma {:induction false} FlattenAppend(batches: seq<seq<TokenEvent>>, batch: seq<TokenEvent>)
    ensures Flatten(batches + [batch]) == Flatten(batches) + batch
  {
    if batches == [] {
      assert [batch][1..] == [];
      assert [] + [batch] == [batch];
    } else {
      assert (batches + [batch])[1..] == batches[1..] + [batch];
      FlattenAppend(batches[1..], batch);
    }
  }

  /** Batches go out in order; the first that fails fails the whole post. */
  ghost function PostedBatches(t: Tables, batches: seq<seq<TokenEvent>>, wires: seq<seq<Attempt>>): Sent
    decreases |batches|
  {
    if batches == [] then Sent(t, true)
    else if wires == [] then Sent(t, false)
    else
      var s := PostedBatch(t, batches[0], wires[0]);
      if s.ok then PostedBatches(s.tables, batches[1..], wires[1..]) else s
  }

  method PostEvents(store: Store, events: seq<TokenEvent>, size: int, wires: seq<seq<Attempt>>)
      returns (ok: bool, ghost batches: seq<seq<TokenEvent>>)
    requires WellKeyed(store.events)
    modifies store
    ensures Flatten(batches) == events && WellKeyed(store.events)
    ensures Sent(store.State(), ok) == PostedBatches(old(store.State()), batches, wires)
  {
    if events == [] {
      return true, [];
    }
    var chunks := Chunk(events, size);
    batches := chunks;
    for i := 0 to |chunks|
      invariant WellKeyed(store.events) && i <= |wires|
      invariant PostedBatches(store.State(), chunks[i..], wires[i..])
                == PostedBatches(old(store.State()), chunks, wires)
    {
      if i == |wires| {
        return false, chunks;
      }
      assert chunks[i..][1..] == chunks[i + 1..] && wires[i..][1..] == wires[i + 1..];
      var sent := PostBatch(store, chunks[i], wires[i]);
      if !sent {
        return false, chunks;
      }
    }
    return true, chunks;
  }

  // ----- what a successful post leaves behind -----

  /** Keys that no reconcile delete can take: everything but local Cursor rows. */
  ghost predicate KeepsKeys(before: map<DedupKey, Row>, after: map<DedupKey, Row>) {
    forall k :: k in before && k.source != CursorLocal ==> k in after
  }

  lemma IngestKeepsKeys(t: Tables, batch: seq<TokenEvent>)
    requires WellKeyed(t.events)
    ensures WellKeyed(Ingested(t, batch).events) && KeepsKeys(t.events, Ingested(t, batch).events)
    ensures Admits(batch) ==> forall e :: e in batch && ServerValid(e) ==> KeyOf(RowOf(e)) in Ingested(t, batch).events
  {
    if Reaches(batch) {
      var valid := Validated(batch);
      AcceptAllKeyed(Pending(Reconciled(t.events, valid), map[]), valid);
      InsertStores(t, valid);
      forall e | e in batch && ServerValid(e)
        ensures KeyOf(RowOf(e)) in Ingested(t, batch).events
      {
        ValidatedAre(batch, e);
        var i :| 0 <= i < |valid| && valid[i] == e;
      }
    }
  }

  lemma {:induction false} BatchDelivers(t: Tables, batch: seq<TokenEvent>, attempts: seq<Attempt>)
    requires WellKeyed(t.events)
    ensures var s := PostedBatch(t, batch, attempts);
            && WellKeyed(s.tables.events) && KeepsKeys(t.events, s.tables.events)
            && (s.ok ==> forall e :: e in batch && ServerValid(e) ==> KeyOf(RowOf(e)) in s.tables.events)
    decreases |attempts|
  {
    IngestKeepsKeys(t, batch);
    if attempts != [] {
      match attempts[0] {
        case Unreachable => BatchDelivers(t, batch, attempts[1..]);
        case AnswerLost => BatchDelivers(Ingested(t, batch), batch, attempts[1..]);
        case _ =>
      }
    }
  }

  /** However many answers were lost on the way: a post reported as successful has stored every valid
      event, a failed one has lost nothing. Local Cursor rows aside, which later posts may replace. */
  lemma {:induction false} PostDelivers(t: Tables, batches: seq<seq<TokenEvent>>, wires: seq<seq<Attempt>>)
    requires WellKeyed(t.events)
    ensures var s := PostedBatches(t, batches, wires);
            && WellKeyed(s.tables.events) && KeepsKeys(t.events, s.tables.events)
            && (s.ok ==> forall e :: e in Flatten(batches) && ServerValid(e) && e.source != CursorLocal ==>
                KeyOf(RowOf(e)) in s.tables.events)
    decreases |batches|
  {
    if batches != [] && wires != [] {
      BatchDelivers(t, batches[0], wires[0]);
      var s := PostedBatch(t, batches[0], wires[0]);
      if s.ok {
        PostDelivers(s.tables, batches[1..], wires[1..]);
      }
    }
  }

  /** Sending a batch a second time, because the first answer was lost, changes nothing. */
  lemma LostAnswerIsHarmless(t: Tables, batch: seq<TokenEvent>, rest: seq<Attempt>)
    requires Exact(t)
    ensures PostedBatch(t, batch, [AnswerLost, Answered] + rest).tables
            == PostedBatch(t, batch, [Answered] + rest).tables
  {
    var attempts := [AnswerLost, Answered] + rest;
    assert attempts[1..] == [Answered] + rest;
    if Reaches(batch) {
      var valid := Validated(batch);
      forall i | 0 <= i < |valid|
        ensures NulFree(valid[i].user)
      {
        ValidatedAre(batch, valid[i]);
      }
      PostTwice(t, valid);
    }
  }
}
