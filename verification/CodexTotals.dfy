/** What the Codex ledger bills: nothing for replays, every token of a cumulative once, nothing lost
    between the buckets of an event. */
module CodexTotals {
  import opened Options
  import opened Events
  import opened ReadSlices
  import opened CodexLedgers
  import opened CodexParsers
  import opened CodexSplits

  // ----- replays -----

  /** A token count that repeats a cumulative, whatever its own `last` says. */
  ghost predicate Repeats(l: CodexLine, total: Usage) {
    l.body.TokenCount? && l.body.total.Some? && Unmoved(l.body.total.value, total)
  }

  /** Equal but for the replay count and the seed clock. */
  ghost predicate Alike(s: Ledger, t: Ledger) {
    !s.seedActive && !t.seedActive && s.(replayed := 0, prevMs := None) == t.(replayed := 0, prevMs := None)
  }

  lemma EmitAlike(s: Ledger, t: Ledger, l: CodexLine, d: Usage, eventModel: Option<string>, peek: Option<string>)
    requires Alike(s, t)
    ensures Alike(Emit(s, l, d, eventModel, peek), Emit(t, l, d, eventModel, peek))
    ensures Alike(Prompted(s, l, peek), Prompted(t, l, peek))
  {
  }

  lemma CountedAlike(s: Ledger, t: Ledger, l: CodexLine, peek: Option<string>)
    requires Alike(s, t) && l.body.TokenCount?
    ensures Alike(Counted(s, l, peek), Counted(t, l, peek))
  {
    var last, total := l.body.last, l.body.total;
    if (last.Some? || total.Some?) && !(total.Some? && s.seenCumulative && Unmoved(total.value, s.totals)) {
      var d := Billed(s.totals, last, total);
      var seen, totals := s.seenCumulative || total.Some?, if total.Some? then total.value else Plus(s.totals, d);
      EmitAlike(s.(seenCumulative := seen, totals := totals), t.(seenCumulative := seen, totals := totals), l, d,
                l.body.eventModel, peek);
    }
  }

  lemma StepAlike(s: Ledger, t: Ledger, l: CodexLine, peek: Option<string>, fromZero: bool)
    requires Alike(s, t) && l.body != SessionMeta(true)
    ensures Alike(Step(s, l, peek, fromZero), Step(t, l, peek, fromZero))
  {
    if l.body.UserPrompt? {
      EmitAlike(Watched(s, l), Watched(t, l), l, NO_USAGE, None, peek);
    } else if l.body.TokenCount? {
      CountedAlike(Watched(s, l), Watched(t, l), l, peek);
    }
  }

  lemma {:induction false} StepsAlike(s: Ledger, t: Ledger, lines: seq<CodexLine>, peek: Option<string>, fromZero: bool)
    requires Alike(s, t) && Unforked(lines)
    ensures Alike(Steps(s, lines, peek, fromZero), Steps(t, lines, peek, fromZero))
  {
    if lines != [] {
      var n := |lines| - 1;
      StepsAlike(s, t, lines[..n], peek, fromZero);
      StepAlike(Steps(s, lines[..n], peek, fromZero), Steps(t, lines[..n], peek, fromZero), lines[n], peek, fromZero);
    }
  }

  lemma RepeatOnlyCounts(s: Ledger, t: Ledger, l: CodexLine, peek: Option<string>, fromZero: bool)
    requires Alike(t, s) && s.seenCumulative && Repeats(l, s.totals)
    ensures Alike(Step(t, l, peek, fromZero), s) && Step(t, l, peek, fromZero).replayed == t.replayed + 1
  {
    assert Step(t, l, peek, fromZero) == Watched(t, l).(replayed := t.replayed + 1);
  }

  lemma {:induction false} RepeatsOnlyCount(s: Ledger, repeats: seq<CodexLine>, peek: Option<string>, fromZero: bool)
    requires s.seenCumulative && !s.seedActive && forall l :: l in repeats ==> Repeats(l, s.totals)
    ensures Alike(Steps(s, repeats, peek, fromZero), s)
    ensures Steps(s, repeats, peek, fromZero).replayed == s.replayed + |repeats|
  {
    if repeats != [] {
      var n := |repeats| - 1;
      RepeatsOnlyCount(s, repeats[..n], peek, fromZero);
      assert repeats[n] in repeats;
      RepeatOnlyCounts(s, Steps(s, repeats[..n], peek, fromZero), repeats[n], peek, fromZero);
    }
  }

  /** Replays at the start of a later read, or anywhere a cumulative stands, change neither the
      emitted events nor the ledger nor the model, then or later. */
  lemma ReplaysChangeNothing(s: Ledger, repeats: seq<CodexLine>, rest: seq<CodexLine>,
                             peek: Option<string>, fromZero: bool)
    requires s.seenCumulative && !s.seedActive && (forall l :: l in repeats ==> Repeats(l, s.totals)) && Unforked(rest)
    ensures Alike(Steps(s, repeats + rest, peek, fromZero), Steps(s, rest, peek, fromZero))
  {
    StepsConcat(s, repeats, rest, peek, fromZero);
    RepeatsOnlyCount(s, repeats, peek, fromZero);
    StepsAlike(Steps(s, repeats, peek, fromZero), s, rest, peek, fromZero);
  }

  lemma AfterCumulative(s: Ledger, l: CodexLine, peek: Option<string>, fromZero: bool)
    requires l.body.TokenCount? && l.body.total.Some?
    ensures var r := Step(s, l, peek, fromZero); r.seenCumulative && Unmoved(r.totals, l.body.total.value)
  {
    var w := Watched(s, l);
    if !(w.seenCumulative && Unmoved(l.body.total.value, w.totals)) {
      EmitKeeps(w.(seenCumulative := true, totals := l.body.total.value), l,
                Billed(w.totals, l.body.last, l.body.total), l.body.eventModel, peek);
    }
  }

  /** Inserting any number of replays right after a cumulative-bearing record of an unforked rollout
      changes neither the events nor the final ledger. */
  lemma ReplaysAreIgnored(s: Ledger, before: seq<CodexLine>, c: CodexLine, repeats: seq<CodexLine>,
                          rest: seq<CodexLine>, peek: Option<string>, fromZero: bool)
    requires !s.seedActive && Unforked(before) && Unforked(rest)
    requires c.body.TokenCount? && c.body.total.Some? && forall l :: l in repeats ==> Repeats(l, c.body.total.value)
    ensures var plain, noisy := Steps(s, before + [c] + rest, peek, fromZero),
                                Steps(s, before + [c] + (repeats + rest), peek, fromZero);
            noisy.events == plain.events && noisy.totals == plain.totals && noisy.model == plain.model
  {
    var head := before + [c];
    StepsConcat(s, head, rest, peek, fromZero);
    StepsConcat(s, head, repeats + rest, peek, fromZero);
    StepsAppend(s, before, c, peek, fromZero);
    AfterCumulative(Steps(s, before, peek, fromZero), c, peek, fromZero);
    assert forall i :: 0 <= i < |before| ==> head[i] == before[i];
    StepsRemember(s, head, peek, fromZero);
    ReplaysChangeNothing(Steps(s, head, peek, fromZero), repeats, rest, peek, fromZero);
  }

  // ----- conservation -----

  predicate NonNegative(u: Usage) {
    u.input >= 0 && u.output >= 0 && u.cached >= 0 && u.cacheWrite >= 0 && u.reasoning >= 0
  }

  ghost predicate NonNegativeLine(l: CodexLine) {
    l.body.TokenCount? ==>
      (l.body.last.Some? ==> NonNegative(l.body.last.value)) && (l.body.total.Some? ==> NonNegative(l.body.total.value))
  }

  /** The event's input buckets are non-negative and add up to the billed input: as much of it as was
      cached is read from the cache, of the rest as much as was written is written, and what remains is
      plain. Output and reasoning are the billed ones. */
  predicate Conserves(e: CodexEvent, d: Usage) {
    && e.input >= 0 && e.cacheRead >= 0 && e.cacheWrite >= 0 && e.input + e.cacheRead + e.cacheWrite == d.input
    && e.cacheRead == (if d.cached <= d.input then d.cached else d.input)
    && e.cacheWrite == (if d.cacheWrite <= d.input - e.cacheRead then d.cacheWrite else d.input - e.cacheRead)
    && e.output == d.output && e.reasoning == Some(d.reasoning)
  }

  /** What a record bills: its own usage if it carries one; else, bucket by bucket, the growth of its
      cumulative, which counts in full after a bucket other than cache writes fell. */
  predicate Bills(totals: Usage, last: Option<Usage>, total: Option<Usage>, d: Usage) {
    && (last.Some? ==> d == last.value)
    && (last.None? && total.Some? ==>
          var u := total.value;
          if u.input < totals.input || u.output < totals.output || u.cached < totals.cached
            || u.reasoning < totals.reasoning
          then d == u
          else && d.input + totals.input == u.input && d.output + totals.output == u.output
               && d.cached + totals.cached == u.cached && d.reasoning + totals.reasoning == u.reasoning
               && d.cacheWrite == if u.cacheWrite < totals.cacheWrite then u.cacheWrite
                                  else u.cacheWrite - totals.cacheWrite)
  }

  /** The record repeats a cumulative that stands: all four buckets that are compared agree. */
  predicate Replays(s: Ledger, total: Option<Usage>) {
    && s.seenCumulative && total.Some?
    && total.value.input == s.totals.input && total.value.output == s.totals.output
    && total.value.cached == s.totals.cached && total.value.reasoning == s.totals.reasoning
  }

  /** The totals to compare with next: the record's cumulative, or what it bills added bucket by bucket. */
  predicate Accumulates(before: Usage, total: Option<Usage>, d: Usage, after: Usage) {
    if total.Some? then after == total.value
    else && after.input == before.input + d.input && after.output == before.output + d.output
         && after.cached == before.cached + d.cached && after.cacheWrite == before.cacheWrite + d.cacheWrite
         && after.reasoning == before.reasoning + d.reasoning
  }

  lemma BilledNonNegative(totals: Usage, last: Option<Usage>, total: Option<Usage>)
    requires last.Some? || total.Some?
    requires (last.Some? ==> NonNegative(last.value)) && (total.Some? ==> NonNegative(total.value))
    ensures NonNegative(Billed(totals, last, total))
  {
  }

  /** The one event that billing `d` emits. */
  ghost function Emission(s: Ledger, l: CodexLine, d: Usage, eventModel: Option<string>,
                          peek: Option<string>): (e: CodexEvent)
    ensures NonNegative(d) ==> Conserves(e, d)
    ensures Emit(s, l, d, eventModel, peek).events == s.events + [e]
  {
    var named := if eventModel.Some? then Stamped(s, l.stamp).(model := eventModel) else Stamped(s, l.stamp);
    Bucketed(CodexId(l.stamp, false, named.ix), l.ms, ModelName(Resolved(named, peek)), d)
  }

  /** The model an event is filed under: the record's own, else the one known so far, else what the
      look-ahead answers if it was not asked before, else the fallback. */
  predicate FiledUnder(s: Ledger, own: Option<string>, peek: Option<string>, model: string) {
    if own.Some? then model == own.value
    else if s.model.Some? then model == s.model.value
    else if !s.peeked && peek.Some? then model == peek.value
    else model == LEGACY_FALLBACK_MODEL
  }

  lemma EmissionIs(s: Ledger, l: CodexLine, d: Usage, own: Option<string>, peek: Option<string>)
    ensures var e := Emission(s, l, d, own, peek);
            && e.id == CodexId(l.stamp, false, if l.stamp == s.lastStamp then s.ix + 1 else 0)
            && e.ms == l.ms && e.messageType == Assistant && FiledUnder(s, own, peek, e.model)
  {
  }

  lemma CountedEmits(s: Ledger, l: CodexLine, peek: Option<string>, d: Usage)
    requires NonNegativeLine(l) && l.body.TokenCount? && (l.body.last.Some? || l.body.total.Some?)
    requires !Replays(s, l.body.total) && d == Billed(s.totals, l.body.last, l.body.total)
    ensures EmitsFor(s, Counted(s, l, peek), l, d, peek, s.seedActive)
  {
    var total := l.body.total;
    BilledNonNegative(s.totals, l.body.last, total);
    if !s.seedActive && d != NO_USAGE {
      var w := s.(seenCumulative := s.seenCumulative || total.Some?,
                  totals := if total.Some? then total.value else Plus(s.totals, d));
      var e := Emission(w, l, d, l.body.eventModel, peek);
      EmissionIs(w, l, d, l.body.eventModel, peek);
      assert Counted(s, l, peek).events == s.events + [e] && EmittedAs(s, l, peek, d, e);
    }
  }

  lemma CountedKeepsBooks(s: Ledger, l: CodexLine, peek: Option<string>, d: Usage)
    requires NonNegativeLine(l) && l.body.TokenCount? && (l.body.last.Some? || l.body.total.Some?)
    requires !Replays(s, l.body.total) && d == Billed(s.totals, l.body.last, l.body.total)
    ensures var r := Counted(s, l, peek);
            && Bills(s.totals, l.body.last, l.body.total, d) && Accumulates(s.totals, l.body.total, d, r.totals)
            && r.replayed == s.replayed && r.seenCumulative == (s.seenCumulative || l.body.total.Some?)
  {
    var total := l.body.total;
    var w := s.(seenCumulative := s.seenCumulative || total.Some?,
                totals := if total.Some? then total.value else Plus(s.totals, d));
    EmitKeeps(w, l, d, l.body.eventModel, peek);
  }

  lemma CountsExactly(s: Ledger, l: CodexLine, peek: Option<string>) returns (d: Usage)
    requires NonNegativeLine(l) && l.body.TokenCount? && (l.body.last.Some? || l.body.total.Some?)
    ensures CountsFor(s, Counted(s, l, peek), l, peek, s.seedActive, d)
  {
    d := Billed(s.totals, l.body.last, l.body.total);
    if !Replays(s, l.body.total) {
      CountedEmits(s, l, peek, d);
      CountedKeepsBooks(s, l, peek, d);
    }
  }

  predicate EmittedAs(s: Ledger, l: CodexLine, peek: Option<string>, d: Usage, e: CodexEvent)
    requires l.body.TokenCount?
  {
    && Conserves(e, d) && e.id == CodexId(l.stamp, false, NextIx(s, l))
    && e.ms == l.ms && e.messageType == Assistant && FiledUnder(s, l.body.eventModel, peek, e.model)
  }

  /** Events that share a timestamp are numbered from 0 on. */
  function NextIx(s: Ledger, l: CodexLine): nat {
    if l.stamp == s.lastStamp then s.ix + 1 else 0
  }

  /** What an event leaves behind for the next: its timestamp and number, and the model it found. */
  predicate Leaves(s: Ledger, r: Ledger, l: CodexLine, own: Option<string>, peek: Option<string>) {
    && r.lastStamp == l.stamp && r.ix == NextIx(s, l)
    && r.model == (if own.Some? then own else if s.model.Some? || s.peeked then s.model else peek)
    && r.peeked == (s.peeked || (own.None? && s.model.None?))
  }

  /** One event for what is billed, none if that is nothing or the record was copied from a fork's parent. */
  ghost predicate EmitsFor(s: Ledger, r: Ledger, l: CodexLine, d: Usage, peek: Option<string>, copied: bool)
    requires l.body.TokenCount?
  {
    if copied || d.input == d.output == d.cached == d.cacheWrite == d.reasoning == 0
    then r.events == s.events && r.model == s.model && r.peeked == s.peeked
      && r.lastStamp == s.lastStamp && r.ix == s.ix
    else Leaves(s, r, l, l.body.eventModel, peek) && exists e ::
      r.events == s.events + [e] && EmittedAs(s, l, peek, d, e)
  }

  /** What a token count that bills `d` makes of the ledger `s`. */
  ghost predicate CountsFor(s: Ledger, r: Ledger, l: CodexLine, peek: Option<string>, copied: bool, d: Usage)
    requires l.body.TokenCount?
  {
    if Replays(s, l.body.total) then r.events == s.events && r.totals == s.totals && r.replayed == s.replayed + 1
    else
      && r.replayed == s.replayed && r.seenCumulative == (s.seenCumulative || l.body.total.Some?)
      && Bills(s.totals, l.body.last, l.body.total, d) && Accumulates(s.totals, l.body.total, d, r.totals)
      && EmitsFor(s, r, l, d, peek, copied)
  }

  /** A fork's copied records end at the first gap of more than 1.5 seconds between lines. */
  predicate Copied(s: Ledger, l: CodexLine) {
    s.seedActive && !(s.prevMs.Some? && l.ms.Some? && l.ms.value - s.prevMs.value > 1500)
  }

  lemma EmitsForWatched(s: Ledger, r: Ledger, l: CodexLine, d: Usage, peek: Option<string>, copied: bool)
    requires l.body.TokenCount? && EmitsFor(Watched(s, l), r, l, d, peek, copied)
    ensures EmitsFor(s, r, l, d, peek, copied)
  {
    var w := Watched(s, l);
    if r.events != w.events {
      var e :| r.events == w.events + [e] && EmittedAs(w, l, peek, d, e);
      assert EmittedAs(s, l, peek, d, e);
    }
  }

  /** A token count is a replay, which is only counted, or bills exactly what it carries or its cumulative
      grew by, in one event that conserves it unless it was copied; nothing is billed silently. */
  lemma StepConserves(s: Ledger, l: CodexLine, peek: Option<string>, fromZero: bool)
    requires NonNegativeLine(l) && l.body.TokenCount? && (l.body.last.Some? || l.body.total.Some?)
    ensures exists d :: CountsFor(s, Step(s, l, peek, fromZero), l, peek, Copied(s, l), d)
  {
    var d := CountsExactly(Watched(s, l), l, peek);
    if !Replays(s, l.body.total) {
      EmitsForWatched(s, Step(s, l, peek, fromZero), l, d, peek, Copied(s, l));
    }
    assert CountsFor(s, Step(s, l, peek, fromZero), l, peek, Copied(s, l), d);
  }

  /** What every other line does. A forked session read from the start arms the copy, a turn names a model, and
      a prompt that was not copied is one event of the user's without tokens; nothing else emits or bills. */
  lemma OtherStepsExactly(s: Ledger, l: CodexLine, peek: Option<string>, fromZero: bool)
    requires !l.body.TokenCount?
    ensures var r, prompts := Step(s, l, peek, fromZero), l.body.UserPrompt? && !Copied(s, l);
            && r.totals == s.totals && r.seenCumulative == s.seenCumulative && r.replayed == s.replayed
            && (l.body.NotJson? ==> r == s)
            && (!l.body.NotJson? ==>
                  && r.prevMs == (if l.ms.Some? then l.ms else s.prevMs)
                  && (r.seedActive <==> (l.body == SessionMeta(true) && fromZero) || Copied(s, l)))
            && if prompts
               then && Leaves(s, r, l, None, peek)
                    && exists e :: && r.events == s.events + [e] && FiledUnder(s, None, peek, e.model)
                                   && e == CodexEvent(CodexId(l.stamp, true, NextIx(s, l)), l.ms, e.model, User,
                                                      0, 0, 0, 0, None)
               else && r.events == s.events && r.lastStamp == s.lastStamp && r.ix == s.ix && r.peeked == s.peeked
                    && r.model == if l.body.TurnContext? && l.body.model.Some? then l.body.model else s.model
  {
    if l.body.UserPrompt? && !Copied(s, l) {
      PromptEmits(Watched(s, l), l, peek);
    }
  }

  lemma PromptEmits(s: Ledger, l: CodexLine, peek: Option<string>)
    ensures var r := Prompted(s, l, peek);
            var e := CodexEvent(CodexId(l.stamp, true, NextIx(s, l)), l.ms, r.model.GetOr(LEGACY_FALLBACK_MODEL), User,
                                0, 0, 0, 0, None);
            Leaves(s, r, l, None, peek) && r.events == s.events + [e] && FiledUnder(s, None, peek, e.model)
  {
  }

  // ----- telescoping -----

  /** Every token count reports only a cumulative. */
  ghost predicate TotalOnly(lines: seq<CodexLine>) {
    forall i :: 0 <= i < |lines| ==> TotalOnlyLine(lines[i])
  }

  ghost predicate TotalOnlyLine(l: CodexLine) {
    l.body != SessionMeta(true)
    && (l.body.TokenCount? ==> l.body.last.None? && (l.body.total.Some? ==> NonNegative(l.body.total.value)))
  }

  /** Input, output and reasoning, the three sums that telescope. */
  datatype Sums = Sums(input: int, output: int, reasoning: int)

  function SumsOf(u: Usage): Sums {
    Sums(u.input, u.output, u.reasoning)
  }

  function AddSums(a: Sums, b: Sums): Sums {
    Sums(a.input + b.input, a.output + b.output, a.reasoning + b.reasoning)
  }

  function SubSums(a: Sums, b: Sums): Sums {
    Sums(a.input - b.input, a.output - b.output, a.reasoning - b.reasoning)
  }

  function EventSums(events: seq<CodexEvent>): Sums {
    if events == [] then Sums(0, 0, 0)
    else
      var e := events[|events| - 1];
      AddSums(EventSums(events[..|events| - 1]),
              Sums(e.input + e.cacheRead + e.cacheWrite, e.output, e.reasoning.GetOr(0)))
  }

  /** The cumulatives a file reports, in order. */
  function Cumulatives(lines: seq<CodexLine>): seq<Usage> {
    if lines == [] then []
    else
      Cumulatives(lines[..|lines| - 1]) + Reported(lines[|lines| - 1])
  }

  function Latest(base: Usage, totals: seq<Usage>): Usage {
    if totals == [] then base else totals[|totals| - 1]
  }

  /** What the segments before each reset had reached, added up. */
  function ClosedSegments(base: Usage, totals: seq<Usage>): Sums {
    if totals == [] then Sums(0, 0, 0)
    else
      var n := |totals| - 1;
      var before := ClosedSegments(base, totals[..n]);
      if Regressed(totals[n], Latest(base, totals[..n])) then AddSums(before, SumsOf(Latest(base, totals[..n])))
      else before
  }

  lemma EventSumsAppend(events: seq<CodexEvent>, e: CodexEvent)
    ensures EventSums(events + [e])
            == AddSums(EventSums(events), Sums(e.input + e.cacheRead + e.cacheWrite, e.output, e.reasoning.GetOr(0)))
  {
    assert (events + [e])[..|events|] == events;
  }

  lemma PromptAddsNothing(s: Ledger, l: CodexLine, peek: Option<string>)
    ensures EventSums(Prompted(s, l, peek).events) == EventSums(s.events) && Prompted(s, l, peek).totals == s.totals
  {
    var p := Prompted(s, l, peek);
    EventSumsAppend(s.events, p.events[|s.events|]);
  }

  lemma EmissionSums(s: Ledger, l: CodexLine, d: Usage, eventModel: Option<string>, peek: Option<string>)
    requires NonNegative(d)
    ensures var r := Emit(s, l, d, eventModel, peek);
            EventSums(r.events) == AddSums(EventSums(s.events), SumsOf(d)) && r.totals == s.totals
  {
    EventSumsAppend(s.events, Emission(s, l, d, eventModel, peek));
    EmitKeeps(s, l, d, eventModel, peek);
  }

  lemma CountTelescopes(s: Ledger, l: CodexLine, peek: Option<string>)
    requires !s.seedActive && TotalOnlyLine(l) && l.body.TokenCount? && l.body.total.Some?
    ensures var r := Counted(s, l, peek);
            && Unmoved(r.totals, l.body.total.value)
            && EventSums(r.events) == AddSums(EventSums(s.events), SumsOf(CumulativeStep(l.body.total.value, s.totals)))
  {
    var total := l.body.total.value;
    var d := CumulativeStep(total, s.totals);
    BilledNonNegative(s.totals, None, l.body.total);
    if !(s.seenCumulative && Unmoved(total, s.totals)) && d != NO_USAGE {
      EmissionSums(s.(seenCumulative := true, totals := total), l, d, l.body.eventModel, peek);
    }
  }

  /** One record adds to the emitted sums exactly its cumulative's step. */
  lemma StepTelescopes(s: Ledger, l: CodexLine, peek: Option<string>, fromZero: bool)
    requires !s.seedActive && TotalOnlyLine(l)
    ensures var r := Step(s, l, peek, fromZero);
            if l.body.TokenCount? && l.body.total.Some?
            then && Unmoved(r.totals, l.body.total.value)
                 && EventSums(r.events)
                    == AddSums(EventSums(s.events), SumsOf(CumulativeStep(l.body.total.value, s.totals)))
            else r.totals == s.totals && EventSums(r.events) == EventSums(s.events)
  {
    var w := Watched(s, l);
    assert w.events == s.events && w.totals == s.totals && !w.seedActive;
    if l.body.UserPrompt? {
      PromptAddsNothing(w, l, peek);
    } else if l.body.TokenCount? && l.body.total.Some? {
      CountTelescopes(w, l, peek);
    }
  }

  lemma CumulativesAppend(base: Usage, totals: seq<Usage>, total: Usage)
    ensures Latest(base, totals + [total]) == total
    ensures ClosedSegments(base, totals + [total])
         == if Regressed(total, Latest(base, totals))
           then AddSums(ClosedSegments(base, totals), SumsOf(Latest(base, totals)))
            else ClosedSegments(base, totals)
  {
    assert (totals + [total])[..|totals|] == totals;
  }

  /** From `base` on, the emitted sums grew by the last segment's growth plus the closed segments. */
  ghost predicate Telescoped(base: Usage, grown: Sums, latest: Usage, totals: seq<Usage>) {
    && Unmoved(latest, Latest(base, totals))
    && grown == AddSums(SubSums(SumsOf(Latest(base, totals)), SumsOf(base)), ClosedSegments(base, totals))
  }

  lemma OneMoreCumulative(base: Usage, grown: Sums, latest: Usage, totals: seq<Usage>, total: Usage)
    requires Telescoped(base, grown, latest, totals)
    ensures Telescoped(base, AddSums(grown, SumsOf(CumulativeStep(total, latest))), total, totals + [total])
  {
    CumulativesAppend(base, totals, total);
  }

  lemma UnmovedTelescopes(base: Usage, grown: Sums, a: Usage, b: Usage, totals: seq<Usage>)
    requires Telescoped(base, grown, a, totals) && Unmoved(b, a)
    ensures Telescoped(base, grown, b, totals)
  {
  }

  function Reported(l: CodexLine): seq<Usage> {
    if l.body.TokenCount? && l.body.total.Some? then [l.body.total.value] else []
  }

  lemma SumsShift(a: Sums, b: Sums, base: Sums)
    ensures SubSums(AddSums(a, b), base) == AddSums(SubSums(a, base), b)
  {
  }

  lemma StepStaysTelescoped(base: Usage, started: Sums, s: Ledger, l: CodexLine, totals: seq<Usage>,
                            peek: Option<string>, fromZero: bool)
    requires !s.seedActive && TotalOnlyLine(l)
             && Telescoped(base, SubSums(EventSums(s.events), started), s.totals, totals)
    ensures var r := Step(s, l, peek, fromZero);
            !r.seedActive && Telescoped(base, SubSums(EventSums(r.events), started), r.totals, totals + Reported(l))
  {
    StepTelescopes(s, l, peek, fromZero);
    StepRemembers(s, l, peek, fromZero);
    var r := Step(s, l, peek, fromZero);
    if l.body.TokenCount? && l.body.total.Some? {
      var total := l.body.total.value;
      var more := SumsOf(CumulativeStep(total, s.totals));
      SumsShift(EventSums(s.events), more, started);
      var grown := AddSums(SubSums(EventSums(s.events), started), more);
      OneMoreCumulative(base, SubSums(EventSums(s.events), started), s.totals, totals, total);
      UnmovedTelescopes(base, grown, total, r.totals, totals + [total]);
    } else {
      assert totals + [] == totals;
    }
  }

  /** What is emitted over a total-only, unforked stream: the growth of the last segment plus what
      every earlier segment had reached when a reset closed it. */
  lemma {:induction false} EmittedSumsTelescope(s: Ledger, lines: seq<CodexLine>, peek: Option<string>, fromZero: bool)
    requires !s.seedActive && TotalOnly(lines)
    ensures var r := Steps(s, lines, peek, fromZero);
            !r.seedActive && Telescoped(s.totals, SubSums(EventSums(r.events), EventSums(s.events)),
                                        r.totals, Cumulatives(lines))
  {
    if lines != [] {
      var n := |lines| - 1;
      EmittedSumsTelescope(s, lines[..n], peek, fromZero);
      StepStaysTelescoped(s.totals, EventSums(s.events), Steps(s, lines[..n], peek, fromZero), lines[n],
                          Cumulatives(lines[..n]), peek, fromZero);
    }
  }

  ghost predicate Monotone(base: Usage, totals: seq<Usage>) {
    forall i :: 0 <= i < |totals| ==> !Regressed(totals[i], Latest(base, totals[..i]))
  }

  lemma {:induction false} MonotoneHasOneSegment(base: Usage, totals: seq<Usage>)
    requires Monotone(base, totals)
    ensures ClosedSegments(base, totals) == Sums(0, 0, 0)
  {
    if totals != [] {
      var n := |totals| - 1;
      assert forall i :: 0 <= i < n ==> totals[..n][..i] == totals[..i];
      MonotoneHasOneSegment(base, totals[..n]);
    }
  }

  /** Without resets the emitted sums are the final cumulative minus the initial one. */
  lemma {:induction false} MonotoneSumsTelescope(s: Ledger, lines: seq<CodexLine>, peek: Option<string>, fromZero: bool)
    requires !s.seedActive && TotalOnly(lines) && Monotone(s.totals, Cumulatives(lines))
    ensures SubSums(EventSums(Steps(s, lines, peek, fromZero).events), EventSums(s.events))
         == SubSums(SumsOf(Latest(s.totals, Cumulatives(lines))), SumsOf(s.totals))
  {
    EmittedSumsTelescope(s, lines, peek, fromZero);
    MonotoneHasOneSegment(s.totals, Cumulatives(lines));
  }

  // ----- the cache buckets -----

  /** What the events read from the cache and wrote to it. */
  datatype CacheSums = CacheSums(read: int, written: int)

  function EventCache(events: seq<CodexEvent>): CacheSums {
    if events == [] then CacheSums(0, 0)
    else
      var before, e := EventCache(events[..|events| - 1]), events[|events| - 1];
      CacheSums(before.read + e.cacheRead, before.written + e.cacheWrite)
  }

  lemma EventCacheAppend(events: seq<CodexEvent>, e: CodexEvent)
    ensures EventCache(events + [e])
         == CacheSums(EventCache(events).read + e.cacheRead, EventCache(events).written + e.cacheWrite)
  {
    assert (events + [e])[..|events|] == events;
  }

  /** No bucket falls, and what is read from the cache and written to it is part of the input. */
  predicate Fits(before: Usage, total: Usage) {
    && !Regressed(total, before) && total.cacheWrite >= before.cacheWrite
    && total.cached - before.cached + total.cacheWrite - before.cacheWrite <= total.input - before.input
  }

  ghost predicate AllFit(base: Usage, totals: seq<Usage>) {
    forall i :: 0 <= i < |totals| ==> Fits(Latest(base, totals[..i]), totals[i])
  }

  lemma PromptReadsNothing(s: Ledger, l: CodexLine, peek: Option<string>)
    ensures EventCache(Prompted(s, l, peek).events) == EventCache(s.events) && Prompted(s, l, peek).totals == s.totals
  {
    var p := Prompted(s, l, peek);
    EventCacheAppend(s.events, p.events[|s.events|]);
  }

  lemma FittingBill(before: Usage, total: Usage, d: Usage)
    requires Fits(before, total) && Bills(before, None, Some(total), d)
    ensures d.cached == total.cached - before.cached && d.cacheWrite == total.cacheWrite - before.cacheWrite
    ensures d.cached + d.cacheWrite <= d.input
  {
  }

  lemma FittingEvent(events: seq<CodexEvent>, e: CodexEvent, d: Usage)
    requires Conserves(e, d) && d.cached + d.cacheWrite <= d.input
    ensures EventCache(events + [e])
         == CacheSums(EventCache(events).read + d.cached, EventCache(events).written + d.cacheWrite)
  {
    EventCacheAppend(events, e);
  }

  lemma CountCaches(s: Ledger, l: CodexLine, peek: Option<string>)
    requires !s.seedActive && TotalOnlyLine(l) && l.body.TokenCount? && l.body.total.Some?
    requires Fits(s.totals, l.body.total.value)
    ensures var r, total, was := Counted(s, l, peek), l.body.total.value, EventCache(s.events);
            && r.totals == total
            && EventCache(r.events) == CacheSums(was.read + total.cached - s.totals.cached,
                                                 was.written + total.cacheWrite - s.totals.cacheWrite)
  {
    var total, r := l.body.total.value, Counted(s, l, peek);
    var d := CountsExactly(s, l, peek);
    if !Replays(s, l.body.total) {
      FittingBill(s.totals, total, d);
      if r.events != s.events {
        var e :| r.events == s.events + [e] && EmittedAs(s, l, peek, d, e);
        FittingEvent(s.events, e, d);
      }
    }
  }

  lemma OtherStepsCacheNothing(s: Ledger, l: CodexLine, peek: Option<string>, fromZero: bool)
    requires !s.seedActive && TotalOnlyLine(l) && Reported(l) == []
    ensures var r := Step(s, l, peek, fromZero); r.totals == s.totals && EventCache(r.events) == EventCache(s.events)
  {
    if l.body.UserPrompt? {
      PromptReadsNothing(Watched(s, l), l, peek);
    }
  }

  lemma StepCaches(s: Ledger, l: CodexLine, peek: Option<string>, fromZero: bool)
    requires !s.seedActive && TotalOnlyLine(l)
    requires Reported(l) != [] ==> Fits(s.totals, Reported(l)[0])
    ensures var r, total, was := Step(s, l, peek, fromZero), Latest(s.totals, Reported(l)), EventCache(s.events);
            && r.totals == total
            && EventCache(r.events) == CacheSums(was.read + total.cached - s.totals.cached,
                                                 was.written + total.cacheWrite - s.totals.cacheWrite)
  {
    if Reported(l) == [] {
      OtherStepsCacheNothing(s, l, peek, fromZero);
    } else {
      CountCaches(Watched(s, l), l, peek);
    }
  }

  lemma FitAppend(base: Usage, before: seq<Usage>, more: seq<Usage>)
    requires AllFit(base, before + more) && |more| <= 1
    ensures AllFit(base, before) && (more != [] ==> Fits(Latest(base, before), more[0]))
    ensures Latest(base, before + more) == Latest(Latest(base, before), more)
  {
    var all := before + more;
    assert forall i :: 0 <= i < |before| ==> all[..i] == before[..i] && all[i] == before[i];
    if more != [] {
      assert all[..|before|] == before && all[|before|] == more[0];
    } else {
      assert all == before;
    }
  }

  /** Over a total-only, unforked stream whose cumulatives never fall and whose cached and written portions
      are part of each step's input, what the events read from the cache and wrote to it is the final
      cumulative minus the initial one. */
  lemma {:induction false} CacheTelescopes(s: Ledger, lines: seq<CodexLine>, peek: Option<string>, fromZero: bool)
    requires !s.seedActive && TotalOnly(lines) && AllFit(s.totals, Cumulatives(lines))
    ensures var r, last := Steps(s, lines, peek, fromZero), Latest(s.totals, Cumulatives(lines));
            && !r.seedActive && r.totals == last
            && EventCache(r.events).read - EventCache(s.events).read == last.cached - s.totals.cached
            && EventCache(r.events).written - EventCache(s.events).written == last.cacheWrite - s.totals.cacheWrite
  {
    if lines != [] {
      var n := |lines| - 1;
      var u := Steps(s, lines[..n], peek, fromZero);
      FitAppend(s.totals, Cumulatives(lines[..n]), Reported(lines[n]));
      CacheTelescopes(s, lines[..n], peek, fromZero);
      StepCaches(u, lines[n], peek, fromZero);
      StepRemembers(u, lines[n], peek, fromZero);
    }
  }
}
