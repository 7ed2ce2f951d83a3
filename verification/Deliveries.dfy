/** What a post amounts to: which rows the endpoint takes, and that attempts and batches add up to one insert
    each, in order. */
module Deliveries {
  import opened Options
  import opened Events
  import opened Rollup
  import opened RollupProofs
  import opened StoredColumns
  import opened Transports

  // ----- which events are taken -----

  /** Lower-case letters, digits, dots, underscores and dashes, up to 64 of them. */
  predicate PlainHandle(s: string) {
    && s != "" && |s| < 65
    && forall c :: c in s ==> 'a' <= c <= 'z' || '0' <= c <= '9' || c == '.' || c == '_' || c == '-'
  }

  /** What the endpoint asks of an event: a handle and ids, no negative count, a model for an answer, and a cost of
      at most a hundred dollars. */
  predicate Sound(e: TokenEvent) {
    && PlainHandle(e.user) && |e.sessionId| > 0 && |e.messageId| > 0
    && e.inputTokens >= 0 && e.outputTokens >= 0 && e.cacheCreationTokens >= 0 && e.cacheReadTokens >= 0
    && (e.reasoningTokens == None || e.reasoningTokens.value >= 0)
    && (e.messageType == Some(User) || |e.model| > 0)
    && (e.costUsdMicros == None || (e.costUsdMicros.value >= 0 && e.costUsdMicros.value <= 100 * 1_000_000))
  }

  lemma ValidIsSound(e: TokenEvent)
    ensures ServerValid(e) <==> Sound(e)
  {
    assert forall i :: 0 <= i < |e.user| ==> e.user[i] in e.user;
  }

  /** A request is accepted if it is empty, or of at most a thousand events, some of which are sound, and all of
      these of one user. */
  ghost predicate Acceptable(batch: seq<TokenEvent>) {
    || batch == []
    || (|batch| <= 1000 && (exists e :: e in batch && Sound(e))
        && forall a, b :: a in batch && b in batch && Sound(a) && Sound(b) ==> a.user == b.user)
  }

  lemma AdmitsIff(batch: seq<TokenEvent>)
    ensures Admits(batch) <==> Acceptable(batch)
  {
    var valid := Validated(batch);
    forall e
      ensures e in valid <==> e in batch && Sound(e)
    {
      ValidatedAre(batch, e);
      ValidIsSound(e);
    }
    if valid != [] {
      assert valid[0] in valid;
      if OneUser(valid) {
        forall a | a in valid
          ensures a.user == valid[0].user
        {
          var i :| 0 <= i < |valid| && valid[i] == a;
        }
      }
    }
  }

  /** The row was there before, or holds the columns of a sound event of the batch. */
  ghost predicate TakenFrom(t: Tables, batch: seq<TokenEvent>, k: DedupKey, r: Row) {
    || (k in t.events && r == t.events[k])
    || (exists e :: e in batch && Sound(e) && EventKey(e) == k && HoldsColumns(r, e))
  }

  /** Of an accepted request every sound event's key is stored, no unsound event ever is, and a row that is new
      holds the columns of one of its events; any other request changes nothing. */
  lemma IngestTakesExactly(t: Tables, batch: seq<TokenEvent>)
    ensures var after := Ingested(t, batch);
            if batch == [] || !Acceptable(batch) then after == t
            else
              && (forall e :: e in batch && Sound(e) ==> EventKey(e) in after.events)
              && forall k :: k in after.events ==> TakenFrom(t, batch, k, after.events[k])
  {
    AdmitsIff(batch);
    if batch != [] && Acceptable(batch) {
      var valid := Validated(batch);
      InsertStores(t, valid);
      forall e | e in batch && Sound(e)
        ensures EventKey(e) in Ingested(t, batch).events
      {
        ValidIsSound(e);
        ValidatedAre(batch, e);
        RowColumns(e);
        var i :| 0 <= i < |valid| && valid[i] == e;
      }
      forall k | k in Ingested(t, batch).events
        ensures TakenFrom(t, batch, k, Ingested(t, batch).events[k])
      {
        NewRowHasEvent(t, valid, k);
        if e :| e in valid && EventKey(e) == k && HoldsColumns(Ingested(t, batch).events[k], e) {
          ValidatedAre(batch, e);
          ValidIsSound(e);
        }
      }
    }
  }

  lemma NewRowHasEvent(t: Tables, batch: seq<TokenEvent>, k: DedupKey)
    requires k in Inserted(t, batch).events
    ensures || (k in t.events && Inserted(t, batch).events[k] == t.events[k])
            || exists e :: e in batch && EventKey(e) == k && HoldsColumns(Inserted(t, batch).events[k], e)
  {
    AcceptedRows(Pending(Reconciled(t.events, batch), map[]), batch, k);
    if k !in Reconciled(t.events, batch) {
      var e := FirstWith(batch, k).value;
      FirstWithIn(batch, k);
      RowColumns(e);
    }
  }

  lemma {:induction false} FirstWithIn(batch: seq<TokenEvent>, k: DedupKey)
    requires FirstWith(batch, k).Some?
    ensures FirstWith(batch, k).value in batch && KeyOf(RowOf(FirstWith(batch, k).value)) == k
  {
    if FirstWith(batch[..|batch| - 1], k).Some? {
      FirstWithIn(batch[..|batch| - 1], k);
    }
  }

  // ----- attempts -----

  /** The sender makes attempt `i`: none before it was answered or refused. */
  ghost predicate Made(attempts: seq<Attempt>, i: nat) {
    i < |attempts| && forall k :: 0 <= k < i ==> attempts[k] == Unreachable || attempts[k] == AnswerLost
  }

  ghost predicate Arrives(attempts: seq<Attempt>) {
    exists i: nat :: Made(attempts, i) && (attempts[i] == Answered || attempts[i] == AnswerLost)
  }

  ghost predicate IsAnswered(attempts: seq<Attempt>) {
    exists i: nat :: Made(attempts, i) && attempts[i] == Answered
  }

  lemma MadeLater(attempts: seq<Attempt>, i: nat)
    requires attempts != [] && (attempts[0] == Unreachable || attempts[0] == AnswerLost)
    ensures Made(attempts[1..], i) <==> Made(attempts, i + 1)
  {
    if Made(attempts, i + 1) {
      forall k | 0 <= k < i
        ensures attempts[1..][k] == Unreachable || attempts[1..][k] == AnswerLost
      {
        assert attempts[1..][k] == attempts[k + 1];
      }
    }
  }

  lemma RestDecides(attempts: seq<Attempt>)
    requires attempts != [] && (attempts[0] == Unreachable || attempts[0] == AnswerLost)
    ensures IsAnswered(attempts) <==> IsAnswered(attempts[1..])
    ensures Arrives(attempts) <==> attempts[0] == AnswerLost || Arrives(attempts[1..])
  {
    forall i: nat {
      MadeLater(attempts, i);
    }
    if i: nat :| Made(attempts, i) && (attempts[i] == Answered || attempts[i] == AnswerLost) {
      if i > 0 {
        assert Made(attempts[1..], i - 1) && attempts[1..][i - 1] == attempts[i];
      }
    }
    if i: nat :| Made(attempts[1..], i) && (attempts[1..][i] == Answered || attempts[1..][i] == AnswerLost) {
      assert Made(attempts, i + 1) && attempts[i + 1] == attempts[1..][i];
    }
    if attempts[0] == AnswerLost {
      assert Made(attempts, 0);
    }
  }

  lemma IngestTwice(t: Tables, batch: seq<TokenEvent>)
    requires Exact(t)
    ensures Ingested(Ingested(t, batch), batch) == Ingested(t, batch)
  {
    if Reaches(batch) {
      var valid := Validated(batch);
      forall i | 0 <= i < |valid|
        ensures DeltaKeys.NulFree(valid[i].user)
      {
        ValidatedAre(batch, valid[i]);
      }
      PostTwice(t, valid);
    }
  }

  /** However often a batch is sent, it is inserted once if it arrives at all, and the sender learns of it exactly
      if one of its attempts is answered. */
  lemma {:induction false} BatchIsSentOnce(t: Tables, batch: seq<TokenEvent>, attempts: seq<Attempt>)
    requires Exact(t)
    ensures PostedBatch(t, batch, attempts)
         == Sent(if Arrives(attempts) then Ingested(t, batch) else t, IsAnswered(attempts) && Acceptable(batch))
    decreases |attempts|
  {
    AdmitsIff(batch);
    if attempts != [] {
      match attempts[0] {
        case Unreachable =>
          RestDecides(attempts);
          BatchIsSentOnce(t, batch, attempts[1..]);
        case AnswerLost =>
          RestDecides(attempts);
          IngestKeepsExact(t, batch);
          IngestTwice(t, batch);
          BatchIsSentOnce(Ingested(t, batch), batch, attempts[1..]);
        case Answered =>
          assert Made(attempts, 0);
        case Refused =>
          FirstIsLast(attempts);
      }
    }
  }

  lemma FirstIsLast(attempts: seq<Attempt>)
    requires attempts != [] && attempts[0] == Refused
    ensures !Arrives(attempts) && !IsAnswered(attempts)
  {
    assert forall i: nat :: Made(attempts, i) ==> i == 0;
  }

  // ----- batches -----

  ghost function IngestedAll(t: Tables, batches: seq<seq<TokenEvent>>): Tables
    decreases |batches|
  {
    if batches == [] then t else IngestedAll(Ingested(t, batches[0]), batches[1..])
  }

  ghost predicate GoesThrough(batches: seq<seq<TokenEvent>>, wires: seq<seq<Attempt>>, i: nat) {
    i < |batches| && i < |wires| && IsAnswered(wires[i]) && Acceptable(batches[i])
  }

  /** The first `n` batches were answered, and the next one, if there is one, was not. */
  ghost predicate StopsAt(batches: seq<seq<TokenEvent>>, wires: seq<seq<Attempt>>, n: nat) {
    n <= |batches| && (forall i: nat :: i < n ==> GoesThrough(batches, wires, i)) && !GoesThrough(batches, wires, n)
  }

  /** What reached the server of a post that stops there: those batches, and the next one if it arrived without
      an answer. */
  ghost function Arrived(batches: seq<seq<TokenEvent>>, wires: seq<seq<Attempt>>, n: nat): seq<seq<TokenEvent>>
    requires n <= |batches|
  {
    if n < |batches| && n < |wires| && Arrives(wires[n]) then batches[..n + 1] else batches[..n]
  }

  /** Batches go out in order until one is not answered: the post succeeds exactly if all were, and the store holds
      what inserting the ones that arrived, once each and in order, makes of it. */
  lemma {:induction false} PostGoesInOrder(t: Tables, batches: seq<seq<TokenEvent>>, wires: seq<seq<Attempt>>)
      returns (n: nat)
    requires Exact(t)
    ensures StopsAt(batches, wires, n)
    ensures PostedBatches(t, batches, wires) == Sent(IngestedAll(t, Arrived(batches, wires, n)), n == |batches|)
    decreases |batches|
  {
    n := 0;
    if batches != [] && wires != [] {
      BatchIsSentOnce(t, batches[0], wires[0]);
      IngestKeepsExact(t, batches[0]);
      var s := PostedBatch(t, batches[0], wires[0]);
      if s.ok {
        var m := PostGoesInOrder(s.tables, batches[1..], wires[1..]);
        n := m + 1;
        StopsLater(batches, wires, m);
        ArrivedLater(batches, wires, m);
      } else {
        assert Arrived(batches, wires, 0) == if Arrives(wires[0]) then [batches[0]] else [];
      }
    }
  }

  lemma StopsLater(batches: seq<seq<TokenEvent>>, wires: seq<seq<Attempt>>, m: nat)
    requires batches != [] && wires != [] && IsAnswered(wires[0]) && Acceptable(batches[0])
    requires StopsAt(batches[1..], wires[1..], m)
    ensures StopsAt(batches, wires, m + 1)
  {
    forall i: nat
      ensures GoesThrough(batches, wires, i + 1) <==> GoesThrough(batches[1..], wires[1..], i)
    {
      if i < |batches| - 1 && i < |wires| - 1 {
        assert wires[1..][i] == wires[i + 1] && batches[1..][i] == batches[i + 1];
      }
    }
    forall i: nat | i < m + 1
      ensures GoesThrough(batches, wires, i)
    {
      if i > 0 {
        assert GoesThrough(batches[1..], wires[1..], i - 1);
      }
    }
  }

  lemma ArrivedLater(batches: seq<seq<TokenEvent>>, wires: seq<seq<Attempt>>, m: nat)
    requires batches != [] && wires != [] && m <= |batches| - 1
    ensures Arrived(batches, wires, m + 1) == [batches[0]] + Arrived(batches[1..], wires[1..], m)
  {
  }
}
