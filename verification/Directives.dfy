/** Single-shot remote directives: enqueue, hand out, re-queue once, acknowledge. */
module Directives {
  import opened Options

  const DIRECTIVE_TTL_MS: int := 24 * 60 * 60 * 1000

  datatype Channel = DaemonChannel | WatchdogChannel

  datatype AckResult = AckOk | AckFailed

  /** A row of pending_directives; its id is its position in the table. */
  datatype Directive = Directive(
    user: string, verb: string, deviceId: Option<int>, createdAt: int,
    deliveredAt: Option<int>, requeuedAt: Option<int>, executedAt: Option<int>,
    result: Option<AckResult>, executedBy: Option<Channel>)

  type Table = seq<Directive>

  predicate WatchdogOnly(verb: string) {
    verb == "sample" || verb == "upload_state"
  }

  function Enqueued(t: Table, user: string, verb: string, device: Option<int>, now: int): Table {
    t + [Directive(user, verb, device, now, None, None, None, None, None)]
  }

  /** When the row's current eligibility window opened. */
  function WindowStart(d: Directive): int {
    d.requeuedAt.GetOr(d.createdAt)
  }

  /** Delivered a full TTL ago, never acknowledged, never re-queued before. */
  predicate Lapsed(d: Directive, user: string, now: int) {
    d.user == user && d.deliveredAt.Some? && d.executedAt.None? && d.requeuedAt.None?
      && d.deliveredAt.value <= now - DIRECTIVE_TTL_MS
  }

  function RequeuedRow(d: Directive, user: string, now: int): Directive {
    if Lapsed(d, user, now) then d.(deliveredAt := None, requeuedAt := Some(now)) else d
  }

  function Requeued(t: Table, user: string, now: int): Table {
    seq(|t|, i requires 0 <= i < |t| => RequeuedRow(t[i], user, now))
  }

  predicate Eligible(d: Directive, user: string, device: int, channel: Channel, now: int) {
    && d.user == user && d.deliveredAt.None? && d.executedAt.None?
    && (d.deviceId.None? || d.deviceId == Some(device))
    && (!WatchdogOnly(d.verb) || channel.WatchdogChannel?)
    && WindowStart(d) > now - DIRECTIVE_TTL_MS
  }

  /** The oldest eligible row at or after `from`, or None. */
  function NextEligible(t: Table, from: nat, user: string, device: int, channel: Channel, now: int): (r: Option<nat>)
    requires from <= |t|
    ensures r.Some? ==> from <= r.value < |t| && Eligible(t[r.value], user, device, channel, now)
                        && forall i :: from <= i < r.value ==> !Eligible(t[i], user, device, channel, now)
    ensures r.None? ==> forall i :: from <= i < |t| ==> !Eligible(t[i], user, device, channel, now)
    decreases |t| - from
  {
    if from == |t| then None
    else if Eligible(t[from], user, device, channel, now) then Some(from)
    else NextEligible(t, from + 1, user, device, channel, now)
  }

  function Chosen(t: Table, user: string, device: int, channel: Channel, now: int): Option<nat> {
    NextEligible(Requeued(t, user, now), 0, user, device, channel, now)
  }

  function Taken(t: Table, user: string, device: int, channel: Channel, now: int): Table {
    var r, id := Requeued(t, user, now), Chosen(t, user, device, channel, now);
    if id.Some? then r[id.value := r[id.value].(deliveredAt := Some(now))] else r
  }

  datatype AckReply = Acked | Duplicate | Unknown

  /** First ack wins. */
  function AckReplyOf(t: Table, user: string, id: int): AckReply {
    if !(0 <= id < |t|) || t[id].user != user then Unknown
    else if t[id].executedAt.Some? then Duplicate
    else Acked
  }

  function AckApplied(t: Table, user: string, id: int, result: AckResult, executor: Channel, now: int): Table {
    if AckReplyOf(t, user, id).Acked?
    then t[id := t[id].(executedAt := Some(now), result := Some(result), executedBy := Some(executor))] else t
  }

  // ----- the table as an object -----

  class DirectiveStore {
    var rows: Table

    constructor ()
      ensures rows == []
    {
      rows := [];
    }

    method Enqueue(user: string, verb: string, device: Option<int>, now: int) returns (id: nat)
      modifies this
      ensures rows == Enqueued(old(rows), user, verb, device, now) && id == |old(rows)|
    {
      id := |rows|;
      rows := rows + [Directive(user, verb, device, now, None, None, None, None, None)];
    }

    method RequeueLapsed(user: string, now: int)
      modifies this
      ensures rows == Requeued(old(rows), user, now)
    {
      ghost var was := rows;
      for i := 0 to |rows|
        invariant |rows| == |was|
        invariant forall k :: 0 <= k < |rows| ==> rows[k] == if k < i then RequeuedRow(was[k], user, now) else was[k]
      {
        var d := rows[i];
        if d.user == user && d.deliveredAt.Some? && d.executedAt.None? && d.requeuedAt.None?
          && d.deliveredAt.value <= now - DIRECTIVE_TTL_MS {
          rows := rows[i := d.(deliveredAt := None, requeuedAt := Some(now))];
        }
      }
    }

    /** Re-queues what lapsed, then claims the oldest eligible row, in one transaction. */
    method Take(user: string, device: int, channel: Channel, now: int) returns (id: Option<nat>)
      modifies this
      ensures rows == Taken(old(rows), user, device, channel, now)
              && id == Chosen(old(rows), user, device, channel, now)
    {
      ghost var was := rows;
      RequeueLapsed(user, now);
      var i := 0;
      while i < |rows|
        invariant 0 <= i <= |rows| && rows == Requeued(was, user, now)
        invariant NextEligible(rows, i, user, device, channel, now) == NextEligible(rows, 0, user, device, channel, now)
      {
        if Eligible(rows[i], user, device, channel, now) {
          rows := rows[i := rows[i].(deliveredAt := Some(now))];
          return Some(i);
        }
        i := i + 1;
      }
      return None;
    }

    method Ack(user: string, id: int, result: AckResult, executor: Channel, now: int) returns (reply: AckReply)
      modifies this
      ensures rows == AckApplied(old(rows), user, id, result, executor, now) && reply == AckReplyOf(old(rows), user, id)
    {
      if 0 <= id < |rows| && rows[id].user == user && rows[id].executedAt.None? {
        rows := rows[id := rows[id].(executedAt := Some(now), result := Some(result), executedBy := Some(executor))];
        return Acked;
      }
      return if 0 <= id < |rows| && rows[id].user == user then Duplicate else Unknown;
    }
  }

  // ----- runs -----

  datatype Handout = Handout(at: int, user: string, device: int, channel: Channel)

  /** The table, a clock that never goes back, and for each row the record of its handouts. */
  datatype World = World(rows: Table, handouts: seq<seq<Handout>>, clock: int)

  datatype Op =
    | Enqueue(user: string, verb: string, target: Option<int>, at: int)
    | Take(user: string, device: int, channel: Channel, at: int)
    | Ack(user: string, id: int, result: AckResult, executor: Channel, at: int)

  function Apply(w: World, op: Op): World
    requires |w.handouts| == |w.rows|
  {
    match op
    case Enqueue(user, verb, device, at) => World(Enqueued(w.rows, user, verb, device, at), w.handouts + [[]], at)
    case Take(user, device, channel, at) =>
      var id := Chosen(w.rows, user, device, channel, at);
      World(Taken(w.rows, user, device, channel, at),
            if id.Some? then w.handouts[id.value := w.handouts[id.value] + [Handout(at, user, device, channel)]]
            else w.handouts, at)
    case Ack(user, id, result, executor, at) =>
      World(AckApplied(w.rows, user, id, result, executor, at), w.handouts, at)
  }

  function Run(w: World, ops: seq<Op>): (r: World)
    requires |w.handouts| == |w.rows|
    ensures |r.handouts| == |r.rows|
  {
    if ops == [] then w else Apply(Run(w, ops[..|ops| - 1]), ops[|ops| - 1])
  }

  /** The clock of a run never goes back. */
  ghost predicate Monotone(w: World, ops: seq<Op>) {
    && (ops != [] ==> w.clock <= ops[0].at)
    && forall i :: 0 < i < |ops| ==> ops[i - 1].at <= ops[i].at
  }

  const START := World([], [], 0)

  /** How a row's handouts relate to its columns. */
  ghost predicate Recorded(d: Directive, h: seq<Handout>) {
    match (d.deliveredAt, d.requeuedAt)
    case (None, None) => h == []
    case (Some(t), None) => |h| == 1 && h[0].at == t && d.createdAt <= t
    case (None, Some(r)) => |h| == 1 && h[0].at + DIRECTIVE_TTL_MS <= r
    case (Some(t), Some(r)) => |h| == 2 && h[1].at == t && h[0].at + DIRECTIVE_TTL_MS <= r <= t
  }

  /** Each handout fell into its window and went to a device and channel the row allows. */
  ghost predicate Rightful(d: Directive, h: seq<Handout>) {
    && (forall i :: 0 <= i < |h| ==> h[i].user == d.user)
    && (forall i :: 0 <= i < |h| ==> d.deviceId.None? || d.deviceId == Some(h[i].device))
    && (forall i :: 0 <= i < |h| ==> WatchdogOnly(d.verb) ==> h[i].channel.WatchdogChannel?)
    && (|h| > 0 ==> d.createdAt <= h[0].at < d.createdAt + DIRECTIVE_TTL_MS)
    && (|h| > 1 ==> d.requeuedAt.Some? && h[1].at < d.requeuedAt.value + DIRECTIVE_TTL_MS)
  }

  ghost predicate RowInv(d: Directive, h: seq<Handout>, clock: int) {
    && Recorded(d, h) && Rightful(d, h) && d.createdAt <= clock
    && (d.requeuedAt.Some? ==> d.createdAt <= d.requeuedAt.value <= clock)
    && (d.executedAt.Some? ==> forall i :: 0 <= i < |h| ==> h[i].at <= d.executedAt.value)
    && forall i :: 0 <= i < |h| ==> h[i].at <= clock
  }

  ghost predicate Inv(w: World) {
    |w.handouts| == |w.rows| && forall i :: 0 <= i < |w.rows| ==> RowInv(w.rows[i], w.handouts[i], w.clock)
  }

  lemma ClockMoves(d: Directive, h: seq<Handout>, clock: int, now: int)
    requires RowInv(d, h, clock) && clock <= now
    ensures RowInv(d, h, now)
  {
  }

  lemma RequeueKeeps(d: Directive, h: seq<Handout>, user: string, clock: int, now: int)
    requires RowInv(d, h, clock) && clock <= now
    ensures RowInv(RequeuedRow(d, user, now), h, now)
  {
  }

  lemma HandoutKeeps(d: Directive, h: seq<Handout>, user: string, device: int, channel: Channel, now: int)
    requires RowInv(d, h, now) && Eligible(d, user, device, channel, now)
    ensures RowInv(d.(deliveredAt := Some(now)), h + [Handout(now, user, device, channel)], now)
  {
  }

  lemma TakeKeeps(w: World, user: string, device: int, channel: Channel, at: int)
    requires Inv(w) && w.clock <= at
    ensures Inv(Apply(w, Take(user, device, channel, at)))
  {
    var r, id := Requeued(w.rows, user, at), Chosen(w.rows, user, device, channel, at);
    forall i | 0 <= i < |r|
      ensures RowInv(r[i], w.handouts[i], at)
    {
      RequeueKeeps(w.rows[i], w.handouts[i], user, w.clock, at);
    }
    if id.Some? {
      HandoutKeeps(r[id.value], w.handouts[id.value], user, device, channel, at);
    }
  }

  lemma ApplyKeeps(w: World, op: Op)
    requires Inv(w) && w.clock <= op.at
    ensures Inv(Apply(w, op))
  {
    match op {
      case Enqueue(user, verb, device, at) =>
        forall i | 0 <= i < |w.rows| {
          ClockMoves(w.rows[i], w.handouts[i], w.clock, at);
        }
      case Take(user, device, channel, at) => TakeKeeps(w, user, device, channel, at);
      case Ack(user, id, result, executor, at) =>
        forall i | 0 <= i < |w.rows| {
          ClockMoves(w.rows[i], w.handouts[i], w.clock, at);
        }
    }
  }

  lemma {:induction false} RunKeeps(w: World, ops: seq<Op>)
    requires Inv(w) && Monotone(w, ops)
    ensures Inv(Run(w, ops)) && Run(w, ops).clock == if ops == [] then w.clock else ops[|ops| - 1].at
  {
    if ops != [] {
      RunKeeps(w, ops[..|ops| - 1]);
      ApplyKeeps(Run(w, ops[..|ops| - 1]), ops[|ops| - 1]);
    }
  }

  /** Over any run of enqueues, takes by many devices and acks, each directive is handed out at most
      twice, the second time at least a TTL after the first, each time inside its eligibility window,
      never to another user or device, and a watchdog-only one never to a daemon channel. */
  lemma HandedOutRightly(ops: seq<Op>, id: nat)
    requires Monotone(START, ops) && id < |Run(START, ops).rows|
    ensures var d, h := Run(START, ops).rows[id], Run(START, ops).handouts[id];
            && |h| <= 2 && (|h| == 2 ==> h[0].at + DIRECTIVE_TTL_MS <= h[1].at)
            && Rightful(d, h)
  {
    RunKeeps(START, ops);
  }

  lemma AckedStaysStep(w: World, op: Op, id: nat)
    requires |w.handouts| == |w.rows| && id < |w.rows| && w.rows[id].executedAt.Some?
    ensures id < |Apply(w, op).rows| && Apply(w, op).rows[id] == w.rows[id]
            && Apply(w, op).handouts[id] == w.handouts[id]
  {
  }

  /** Once acknowledged, a directive is never handed out again, and neither its first ack nor any
      other column of it ever changes. */
  lemma {:induction false} FirstAckIsFinal(w: World, ops: seq<Op>, id: nat)
    requires |w.handouts| == |w.rows| && id < |w.rows| && w.rows[id].executedAt.Some?
    ensures id < |Run(w, ops).rows| && Run(w, ops).rows[id] == w.rows[id] && Run(w, ops).handouts[id] == w.handouts[id]
  {
    if ops != [] {
      FirstAckIsFinal(w, ops[..|ops| - 1], id);
      AckedStaysStep(Run(w, ops[..|ops| - 1]), ops[|ops| - 1], id);
    }
  }

  // ----- who is handed what -----

  /** The row has been out for a day without an answer, and was never taken back. */
  predicate Overdue(d: Directive, now: int) {
    && d.deliveredAt.Some? && d.deliveredAt.value + 24 * 3_600_000 <= now && d.requeuedAt.None? && d.executedAt.None?
  }

  /** An executor that asks now may be handed the row: it is unanswered, and either waiting within a day of
      its creation, or of the moment it was taken back, or overdue; it is for this device or for any; and
      samples and state uploads are for the watchdog. */
  predicate Obtainable(d: Directive, device: int, channel: Channel, now: int) {
    && d.executedAt.None?
    && (|| Overdue(d, now)
        || (d.deliveredAt.None?
            && now < 24 * 3_600_000 + if d.requeuedAt.Some? then d.requeuedAt.value else d.createdAt))
    && (d.deviceId.Some? ==> d.deviceId.value == device)
    && (d.verb == "sample" || d.verb == "upload_state" ==> channel == WatchdogChannel)
  }

  /** The first row of the user that this executor may be handed. */
  ghost predicate IsFirstObtainable(t: Table, i: nat, user: string, device: int, channel: Channel, now: int) {
    && i < |t| && t[i].user == user && Obtainable(t[i], device, channel, now)
    && forall k :: 0 <= k < i ==> !(t[k].user == user && Obtainable(t[k], device, channel, now))
  }

  lemma EligibleIsObtainable(d: Directive, user: string, device: int, channel: Channel, now: int)
    ensures Eligible(RequeuedRow(d, user, now), user, device, channel, now)
       <==> d.user == user && Obtainable(d, device, channel, now)
  {
  }

  /** A take hands out the first row the executor may have, or nothing if there is none; it marks that row
      delivered, takes back the user's overdue rows, and changes nothing else. */
  lemma TakesExactly(t: Table, user: string, device: int, channel: Channel, now: int)
    ensures var id, after := Chosen(t, user, device, channel, now), Taken(t, user, device, channel, now);
            && (forall i: nat :: id == Some(i) <==> IsFirstObtainable(t, i, user, device, channel, now))
            && |after| == |t|
            && forall i :: 0 <= i < |t| ==>
                 var back := t[i].user == user && Overdue(t[i], now);
                 after[i] == t[i].(deliveredAt := if id == Some(i) then Some(now) else if back then None
                                   else t[i].deliveredAt,
                                   requeuedAt := if back then Some(now) else t[i].requeuedAt)
  {
    var r, id := Requeued(t, user, now), Chosen(t, user, device, channel, now);
    forall i | 0 <= i < |t|
      ensures Eligible(r[i], user, device, channel, now)
         <==> t[i].user == user && Obtainable(t[i], device, channel, now)
    {
      EligibleIsObtainable(t[i], user, device, channel, now);
    }
    forall i: nat
      ensures id == Some(i) <==> IsFirstObtainable(t, i, user, device, channel, now)
    {
    }
  }

  /** The first answer to one of the user's own rows fills its three answer columns; a further one changes
      nothing and says so, as does one to a row that is not the user's. */
  lemma AcksExactly(t: Table, user: string, id: int, result: AckResult, executor: Channel, now: int)
    ensures var reply, after := AckReplyOf(t, user, id), AckApplied(t, user, id, result, executor, now);
            if 0 <= id < |t| && t[id].user == user
            then if t[id].executedAt.Some? then reply == Duplicate && after == t
                 else && reply == Acked && |after| == |t| && (forall i :: 0 <= i < |t| && i != id ==> after[i] == t[i])
                      && after[id] == t[id].(executedAt := Some(now), result := Some(result),
                                             executedBy := Some(executor))
            else reply == Unknown && after == t
  {
  }

  /** A row that was handed out at `at` and neither answered nor handed out again since. */
  ghost predicate OutSince(d: Directive, at: int) {
    && d.executedAt.None?
    && (d.requeuedAt.None? ==> d.deliveredAt == Some(at))
    && (d.requeuedAt.Some? ==> d.deliveredAt.None? && at + 24 * 3_600_000 <= d.requeuedAt.value)
  }

  lemma OutStaysStep(w: World, op: Op, id: nat, at: int)
    requires |w.handouts| == |w.rows| && id < |w.rows| && OutSince(w.rows[id], at)
    ensures var r := Apply(w, op);
            && id < |r.rows| && |w.handouts[id]| <= |r.handouts[id]|
            && (r.handouts[id] == w.handouts[id] && r.rows[id].executedAt.None? ==>
                  && OutSince(r.rows[id], at)
                  && r.rows[id] == w.rows[id].(deliveredAt := r.rows[id].deliveredAt,
                                               requeuedAt := r.rows[id].requeuedAt))
  {
    if op.Take? {
      TakesExactly(w.rows, op.user, op.device, op.channel, op.at);
    }
  }

  lemma {:induction false} OutStays(w: World, ops: seq<Op>, id: nat, at: int)
    requires |w.handouts| == |w.rows| && id < |w.rows| && OutSince(w.rows[id], at)
    ensures var r := Run(w, ops);
            && id < |r.rows| && |w.handouts[id]| <= |r.handouts[id]|
            && (r.rows[id].executedAt.None? && r.handouts[id] == w.handouts[id] ==>
                  && OutSince(r.rows[id], at)
                  && r.rows[id] == w.rows[id].(deliveredAt := r.rows[id].deliveredAt,
                                               requeuedAt := r.rows[id].requeuedAt))
  {
    if ops != [] {
      var n := |ops| - 1;
      OutStays(w, ops[..n], id, at);
      HandoutsGrow(w, ops[..n], id);
      var v := Run(w, ops[..n]);
      HandoutsGrowStep(v, ops[n], id);
      if v.rows[id].executedAt.Some? {
        AckedStaysStep(v, ops[n], id);
      } else if v.handouts[id] == w.handouts[id] {
        OutStaysStep(v, ops[n], id, at);
      }
    }
  }

  lemma HandoutsGrowStep(w: World, op: Op, id: nat)
    requires |w.handouts| == |w.rows| && id < |w.rows|
    ensures id < |Apply(w, op).rows| && w.handouts[id] <= Apply(w, op).handouts[id]
  {
  }

  lemma {:induction false} HandoutsGrow(w: World, ops: seq<Op>, id: nat)
    requires |w.handouts| == |w.rows| && id < |w.rows|
    ensures id < |Run(w, ops).rows| && w.handouts[id] <= Run(w, ops).handouts[id]
  {
    if ops != [] {
      HandoutsGrow(w, ops[..|ops| - 1], id);
      HandoutsGrowStep(Run(w, ops[..|ops| - 1]), ops[|ops| - 1], id);
    }
  }

  /** Whatever happens after a directive was handed out: as long as it is neither answered nor handed out
      again, an executor it is for may be handed it from a day after the handout on, until a day after it
      was taken back, if it was. */
  lemma SecondChance(w: World, ops: seq<Op>, id: nat, at: int, device: int, channel: Channel, now: int)
    requires |w.handouts| == |w.rows| && id < |w.rows|
    requires var d := w.rows[id];
             && d.deliveredAt == Some(at) && d.requeuedAt.None? && d.executedAt.None?
             && (d.deviceId.Some? ==> d.deviceId.value == device)
             && (d.verb == "sample" || d.verb == "upload_state" ==> channel == WatchdogChannel)
    requires id < |Run(w, ops).rows| && Run(w, ops).handouts[id] == w.handouts[id]
             && Run(w, ops).rows[id].executedAt.None?
    ensures var d := Run(w, ops).rows[id];
            Obtainable(d, device, channel, now) <==>
            if d.requeuedAt.Some? then now < d.requeuedAt.value + 24 * 3_600_000 else at + 24 * 3_600_000 <= now
  {
    OutStays(w, ops, id, at);
  }

  // ----- what the dashboard shows -----

  datatype Shown = Pending | Delivered | Executed | Expired

  function DirectiveState(d: Directive, now: int): Shown {
    if d.executedAt.Some? then Executed
    else if d.deliveredAt.Some? then Delivered
    else if WindowStart(d) <= now - DIRECTIVE_TTL_MS then Expired
    else Pending
  }

  /** A directive shows as pending exactly while some executor could still be handed it; an expired
      one is lost to every executor, now and later. */
  lemma PendingIffObtainable(d: Directive, now: int)
    ensures DirectiveState(d, now) == Pending <==> exists device, channel :: Eligible(d, d.user, device, channel, now)
    ensures DirectiveState(d, now) == Expired ==>
              forall user, device, channel, later :: later >= now ==>
                !Eligible(RequeuedRow(d, user, later), user, device, channel, later)
  {
    if DirectiveState(d, now) == Pending {
      assert Eligible(d, d.user, d.deviceId.GetOr(0), WatchdogChannel, now);
    }
  }
}
