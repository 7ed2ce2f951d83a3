/** Two passes over the same Codex lines, side by side: how they bill, number and label. */
module CodexPasses {
  import opened Options
  import opened Events
  import opened ReadSlices
  import opened CodexLedgers
  import opened CodexParsers
  import opened CodexSplits

  // ----- event numbers -----

  function LastStamp(events: seq<CodexEvent>): string {
    if events == [] then "" else events[|events| - 1].id.stamp
  }

  /** Within one read, events of one timestamp in a row are numbered from 0. */
  predicate NumberedAt(events: seq<CodexEvent>, k: nat)
    requires k < |events|
  {
    events[k].id.ix == if k > 0 && events[k - 1].id.stamp == events[k].id.stamp then events[k - 1].id.ix + 1 else 0
  }

  ghost predicate Numbered(events: seq<CodexEvent>) {
    forall k :: 0 <= k < |events| ==> NumberedAt(events, k)
  }

  ghost predicate Counts(s: Ledger) {
    && Numbered(s.events) && s.lastStamp == LastStamp(s.events)
    && (s.events != [] ==> s.lastStamp != "" && s.ix == s.events[|s.events| - 1].id.ix)
  }

  lemma NumberedAppend(events: seq<CodexEvent>, e: CodexEvent)
    requires Numbered(events)
    requires e.id.ix == if events != [] && LastStamp(events) == e.id.stamp then events[|events| - 1].id.ix + 1 else 0
    ensures Numbered(events + [e])
  {
    forall k | 0 <= k < |events|
      ensures NumberedAt(events + [e], k)
    {
      assert NumberedAt(events, k);
    }
  }

  /** The last event of the first read and the first of the second carry the same timestamp. */
  predicate SharesStamp(first: seq<CodexEvent>, second: seq<CodexEvent>) {
    first != [] && second != [] && LastStamp(first) == second[0].id.stamp
  }

  lemma NumberedJoint(a: seq<CodexEvent>, b: seq<CodexEvent>)
    requires Numbered(a) && Numbered(b)
    ensures Numbered(a + b) <==> !SharesStamp(a, b)
  {
    var joint := a + b;
    forall k | 0 <= k < |joint| && k != |a|
      ensures NumberedAt(joint, k)
    {
      if k < |a| {
        assert NumberedAt(a, k);
      } else {
        assert NumberedAt(b, k - |a|);
      }
    }
    if b != [] {
      assert NumberedAt(b, 0) && joint[|a|] == b[0];
      assert NumberedAt(joint, |a|) <==> !SharesStamp(a, b);
    }
  }

  ghost predicate SameBare(a: seq<CodexEvent>, b: seq<CodexEvent>) {
    |a| == |b| && forall k :: 0 <= k < |a| ==> Bare(a[k]) == Bare(b[k])
  }

  ghost predicate SameModels(a: seq<CodexEvent>, b: seq<CodexEvent>)
    requires |a| == |b|
  {
    forall k :: 0 <= k < |a| ==> a[k].model == b[k].model
  }

  lemma {:induction false} NumbersAreUnique(a: seq<CodexEvent>, b: seq<CodexEvent>, k: nat)
    requires SameBare(a, b) && Numbered(a) && Numbered(b) && k < |a|
    ensures a[k].id == b[k].id
  {
    assert NumberedAt(a, k) && NumberedAt(b, k) && Bare(a[k]).id == Bare(b[k]).id;
    if k > 0 {
      NumbersAreUnique(a, b, k - 1);
    }
  }

  lemma SameEventsIff(a: seq<CodexEvent>, b: seq<CodexEvent>)
    requires SameBare(a, b) && Numbered(a)
    ensures a == b <==> SameModels(a, b) && Numbered(b)
  {
    if SameModels(a, b) && Numbered(b) {
      forall k | 0 <= k < |a|
        ensures a[k] == b[k]
      {
        NumbersAreUnique(a, b, k);
        assert Bare(a[k]) == Bare(b[k]);
      }
    }
  }

  // ----- what one line does -----

  predicate HasTotal(l: CodexLine) {
    l.body.TokenCount? && l.body.total.Some?
  }

  predicate HasUsage(l: CodexLine) {
    l.body.TokenCount? && (l.body.last.Some? || l.body.total.Some?)
  }

  /** The line repeats a cumulative this read, or one before it, has seen. */
  predicate Replays(s: Ledger, l: CodexLine) {
    HasTotal(l) && s.seenCumulative && Unmoved(l.body.total.value, s.totals)
  }

  /** The line makes an unforked read emit an event. */
  predicate Emits(s: Ledger, l: CodexLine) {
    l.body.UserPrompt? || (HasUsage(l) && !Replays(s, l) && Billed(s.totals, l.body.last, l.body.total) != NO_USAGE)
  }

  function TotalsAfter(s: Ledger, l: CodexLine): Usage {
    if !HasUsage(l) || Replays(s, l) then s.totals
    else if HasTotal(l) then l.body.total.value
    else Plus(s.totals, l.body.last.value)
  }

  /** The model the line itself leaves known: a turn's, an emitted event's own, or the one before. */
  function Known(s: Ledger, l: CodexLine): Option<string> {
    if l.body.TurnContext? && l.body.model.Some? then l.body.model
    else if l.body.TokenCount? && l.body.eventModel.Some? && Emits(s, l) then l.body.eventModel
    else s.model
  }

  /** The line needs the look-ahead. */
  predicate Asks(s: Ledger, l: CodexLine) {
    Emits(s, l) && Known(s, l).None?
  }

  const NO_EVENT := CodexEvent(CodexId("", false, 0), None, "", User, 0, 0, 0, 0, None)

  /** An event without its number and model. */
  function Bare(e: CodexEvent): CodexEvent {
    e.(id := e.id.(ix := 0), model := "")
  }

  /** The bare event a line is good for, given the totals it is met with. */
  function BareEvent(totals: Usage, l: CodexLine): CodexEvent
    requires HasUsage(l) || l.body.UserPrompt?
  {
    if l.body.UserPrompt? then CodexEvent(CodexId(l.stamp, true, 0), l.ms, "", User, 0, 0, 0, 0, None)
    else Bucketed(CodexId(l.stamp, false, 0), l.ms, "", Billed(totals, l.body.last, l.body.total))
  }

  /** How an unforked read gets from `s` to `r` over one line, part by part; `e` is the event, if any. */
  ghost predicate Moves(s: Ledger, r: Ledger, l: CodexLine, peek: Option<string>, e: CodexEvent) {
    && r.totals == TotalsAfter(s, l) && r.seenCumulative == (s.seenCumulative || HasTotal(l)) && !r.seedActive
    && r.replayed == s.replayed + (if Replays(s, l) then 1 else 0)
    && r.model == (if Asks(s, l) && !s.peeked then peek else Known(s, l)) && r.peeked == (s.peeked || Asks(s, l))
    && if !Emits(s, l) then r.events == s.events && r.lastStamp == s.lastStamp && r.ix == s.ix
       else && r.events == s.events + [e] && Bare(e) == BareEvent(s.totals, l) && e.model == ModelName(r)
            && r.lastStamp == l.stamp == e.id.stamp && r.ix == e.id.ix == if l.stamp == s.lastStamp then s.ix + 1 else 0
  }

  /** `r` is `s` with one more event, whatever it bills. */
  ghost predicate Adds(s: Ledger, r: Ledger, l: CodexLine, known: Option<string>, peek: Option<string>, e: CodexEvent) {
    && r.totals == s.totals && r.seenCumulative == s.seenCumulative && r.seedActive == s.seedActive
    && r.replayed == s.replayed
    && r.model == (if known.None? && !s.peeked then peek else known) && r.peeked == (s.peeked || known.None?)
    && r.events == s.events + [e] && e.model == ModelName(r)
    && r.lastStamp == l.stamp == e.id.stamp && r.ix == e.id.ix == if l.stamp == s.lastStamp then s.ix + 1 else 0
  }

  lemma EmitAdds(s: Ledger, l: CodexLine, d: Usage, eventModel: Option<string>, peek: Option<string>)
      returns (e: CodexEvent)
    ensures Adds(s, Emit(s, l, d, eventModel, peek), l, if eventModel.Some? then eventModel else s.model, peek, e)
    ensures Bare(e) == Bucketed(CodexId(l.stamp, false, 0), l.ms, "", d)
  {
    var r := Emit(s, l, d, eventModel, peek);
    e := Bucketed(CodexId(l.stamp, false, r.ix), l.ms, ModelName(r), d);
  }

  lemma PromptAdds(s: Ledger, l: CodexLine, peek: Option<string>) returns (e: CodexEvent)
    ensures Adds(s, Prompted(s, l, peek), l, s.model, peek, e)
    ensures Bare(e) == CodexEvent(CodexId(l.stamp, true, 0), l.ms, "", User, 0, 0, 0, 0, None)
  {
    var r := Prompted(s, l, peek);
    e := CodexEvent(CodexId(l.stamp, true, r.ix), l.ms, ModelName(r), User, 0, 0, 0, 0, None);
  }

  /** A token count that is no replay, part by part. */
  lemma BilledMoves(s: Ledger, l: CodexLine, peek: Option<string>) returns (e: CodexEvent)
    requires !s.seedActive && HasUsage(l) && !Replays(s, l)
    ensures Moves(s, Counted(s, l, peek), l, peek, e)
  {
    var last, total := l.body.last, l.body.total;
    var d := Billed(s.totals, last, total);
    var r := s.(seenCumulative := s.seenCumulative || total.Some?,
                totals := if total.Some? then total.value else Plus(s.totals, d));
    assert Counted(s, l, peek) == if d == NO_USAGE then r else Emit(r, l, d, l.body.eventModel, peek);
    e := NO_EVENT;
    if d != NO_USAGE {
      e := EmitAdds(r, l, d, l.body.eventModel, peek);
    }
  }

  lemma CountedMoves(s: Ledger, l: CodexLine, peek: Option<string>) returns (e: CodexEvent)
    requires !s.seedActive && l.body.TokenCount?
    ensures Moves(s, Counted(s, l, peek), l, peek, e)
  {
    if HasUsage(l) && !Replays(s, l) {
      e := BilledMoves(s, l, peek);
    } else {
      e := NO_EVENT;
      assert Counted(s, l, peek) == if Replays(s, l) then s.(replayed := s.replayed + 1) else s;
    }
  }

  lemma StepMoves(s: Ledger, l: CodexLine, peek: Option<string>, fromZero: bool) returns (e: CodexEvent)
    requires !s.seedActive && l.body != SessionMeta(true)
    ensures Moves(s, Step(s, l, peek, fromZero), l, peek, e)
  {
    var w := Watched(s, l);
    assert Emits(w, l) == Emits(s, l) && Known(w, l) == Known(s, l) && TotalsAfter(w, l) == TotalsAfter(s, l);
    if l.body.UserPrompt? {
      e := PromptAdds(w, l, peek);
    } else if l.body.TokenCount? {
      e := CountedMoves(w, l, peek);
    } else {
      e := NO_EVENT;
    }
  }

  lemma MoveCounts(s: Ledger, r: Ledger, l: CodexLine, peek: Option<string>, e: CodexEvent)
    requires Counts(s) && Moves(s, r, l, peek, e)
    ensures Counts(r)
  {
    if Emits(s, l) {
      NumberedAppend(s.events, e);
    }
  }

  lemma {:induction false} StepsCount(s: Ledger, lines: seq<CodexLine>, peek: Option<string>, fromZero: bool)
    requires Counts(s) && !s.seedActive && Unforked(lines)
    ensures Counts(Steps(s, lines, peek, fromZero)) && !Steps(s, lines, peek, fromZero).seedActive
  {
    if lines != [] {
      var n := |lines| - 1;
      LastOrBefore(lines);
      StepsCount(s, lines[..n], peek, fromZero);
      var e := StepMoves(Steps(s, lines[..n], peek, fromZero), lines[n], peek, fromZero);
      MoveCounts(Steps(s, lines[..n], peek, fromZero), Steps(s, lines, peek, fromZero), lines[n], peek, e);
    }
  }

  // ----- two passes side by side -----

  /** `v`, with `before` in front of its events and `skipped` replays behind it, bills like `u`. */
  ghost predicate BillsAlike(u: Ledger, v: Ledger, before: seq<CodexEvent>, skipped: nat) {
    && u.totals == v.totals && (u.seenCumulative ==> v.seenCumulative) && !u.seedActive && !v.seedActive
    && SameBare(u.events, before + v.events) && u.replayed == skipped + v.replayed
  }

  /** Not a replay in one pass only. */
  predicate Certain(u: Ledger, v: Ledger, l: CodexLine) {
    u.seenCumulative == v.seenCumulative || (HasTotal(l) ==> !Unmoved(l.body.total.value, u.totals))
  }

  lemma SameBareAppend(a: seq<CodexEvent>, before: seq<CodexEvent>, b: seq<CodexEvent>, x: CodexEvent, y: CodexEvent)
    requires SameBare(a, before + b) && Bare(x) == Bare(y)
    ensures SameBare(a + [x], before + (b + [y]))
  {
    Reassociate(before, b, [y]);
  }

  lemma MoveBillsAlike(u: Ledger, v: Ledger, u1: Ledger, v1: Ledger, l: CodexLine, pu: Option<string>,
                       pv: Option<string>, eu: CodexEvent, ev: CodexEvent, before: seq<CodexEvent>, skipped: nat)
    requires BillsAlike(u, v, before, skipped) && Certain(u, v, l) && Moves(u, u1, l, pu, eu) && Moves(v, v1, l, pv, ev)
    ensures BillsAlike(u1, v1, before, skipped) && Emits(u, l) == Emits(v, l)
  {
    if Emits(u, l) {
      SameBareAppend(u.events, before, v.events, eu, ev);
    }
  }

  function Fallback(model: Option<string>): string {
    model.GetOr(LEGACY_FALLBACK_MODEL)
  }

  /** The models of the two passes. `ahead` is what the look-ahead answers `u`, `behind` what it answers
      `v`, which may not ask at all (`peeked`). Until `u` asks, nothing differs; from then on nothing
      differs if both answers name the same model, and some event does if they do not. */
  ghost predicate NamesAlike(u: Ledger, v: Ledger, before: seq<CodexEvent>, ahead: Option<string>,
                             behind: Option<string>) {
    var joint := before + v.events;
    && |u.events| == |joint|
    && if !u.peeked then u.model == v.model && SameModels(u.events, joint)
    && (v.peeked && v.model.None? ==> behind.None?)
       else if Fallback(ahead) == Fallback(behind)
       then SameModels(u.events, joint) && v.peeked && ModelName(u) == ModelName(v)
         && (ahead == behind ==> u.model == v.model)
       else !SameModels(u.events, joint)
  }

  lemma SameModelsAppend(a: seq<CodexEvent>, before: seq<CodexEvent>, b: seq<CodexEvent>, x: CodexEvent, y: CodexEvent)
    requires |a| == |before + b|
    ensures SameModels(a + [x], before + (b + [y])) <==> SameModels(a, before + b) && x.model == y.model
  {
    Reassociate(before, b, [y]);
    var p, q := a + [x], (before + b) + [y];
    assert forall k :: 0 <= k < |a| ==> p[k] == a[k] && q[k] == (before + b)[k];
    if SameModels(p, q) {
      assert p[|a|].model == q[|a|].model;
      forall k | 0 <= k < |a|
        ensures a[k].model == (before + b)[k].model
      {
        assert p[k].model == q[k].model;
      }
    }
  }

  lemma MoveNamesAlike(u: Ledger, v: Ledger, u1: Ledger, v1: Ledger, l: CodexLine, pv: Option<string>, eu: CodexEvent,
                       ev: CodexEvent, before: seq<CodexEvent>, ahead: Option<string>, behind: Option<string>)
    requires NamesAlike(u, v, before, ahead, behind) && Emits(u, l) == Emits(v, l) && (v.peeked || pv == behind)
    requires Moves(u, u1, l, ahead, eu) && Moves(v, v1, l, pv, ev)
    ensures NamesAlike(u1, v1, before, ahead, behind)
  {
    if Emits(u, l) {
      SameModelsAppend(u.events, before, v.events, eu, ev);
    }
  }

  // ----- the cumulative across the cut -----

  /** The carried totals plus the usage reported without a cumulative. */
  function Carry(totals: Usage, lines: seq<CodexLine>): Usage {
    if lines == [] then totals
    else
      var n := |lines| - 1;
      var b := lines[n].body;
      if b.TokenCount? && b.last.Some? && b.total.None? then Plus(Carry(totals, lines[..n]), b.last.value)
      else Carry(totals, lines[..n])
  }

  /** The first cumulative, if any, differs from the totals it is met with. */
  ghost predicate FirstTotalMoves(totals: Usage, lines: seq<CodexLine>) {
    forall i :: 0 <= i < |lines| && HasTotal(lines[i]) && !HasCumulative(lines[..i]) ==>
      !Unmoved(lines[i].body.total.value, Carry(totals, lines[..i]))
  }

  lemma {:induction false} StepsCarry(s: Ledger, lines: seq<CodexLine>, peek: Option<string>, fromZero: bool)
    requires !HasCumulative(lines) && Unforked(lines) && !s.seedActive
    ensures var r := Steps(s, lines, peek, fromZero);
            r.totals == Carry(s.totals, lines) && r.seenCumulative == s.seenCumulative && !r.seedActive
  {
    if lines != [] {
      var n := |lines| - 1;
      LastOrBefore(lines);
      StepsCarry(s, lines[..n], peek, fromZero);
      var e := StepMoves(Steps(s, lines[..n], peek, fromZero), lines[n], peek, fromZero);
    }
  }

  lemma FirstTotalMovesPrefix(totals: Usage, lines: seq<CodexLine>, n: nat)
    requires FirstTotalMoves(totals, lines) && n <= |lines|
    ensures FirstTotalMoves(totals, lines[..n])
  {
    forall i | 0 <= i < n
      ensures lines[..n][..i] == lines[..i]
    {
    }
  }

  /** The two passes start level, or no later line can be a replay in one of them only. */
  ghost predicate Level(u: Ledger, v: Ledger, lines: seq<CodexLine>) {
    u.seenCumulative == v.seenCumulative || FirstTotalMoves(u.totals, lines)
  }

  lemma LevelIsCertain(u: Ledger, v: Ledger, lines: seq<CodexLine>, n: nat, pu: Option<string>,
                       pv: Option<string>, fu: bool, fv: bool)
    requires n < |lines| && Level(u, v, lines) && (u.seenCumulative ==> v.seenCumulative)
    requires Unforked(lines[..n]) && !u.seedActive
    ensures Certain(Steps(u, lines[..n], pu, fu), Steps(v, lines[..n], pv, fv), lines[n])
  {
    StepsRemember(u, lines[..n], pu, fu);
    StepsRemember(v, lines[..n], pv, fv);
    if u.seenCumulative != v.seenCumulative && !HasCumulative(lines[..n]) {
      StepsCarry(u, lines[..n], pu, fu);
    }
  }

  lemma {:induction false} PassesAlike(u: Ledger, v: Ledger, lines: seq<CodexLine>, pv: Option<string>, fu: bool,
                                       fv: bool, before: seq<CodexEvent>, skipped: nat, ahead: Option<string>,
                                       behind: Option<string>)
    requires BillsAlike(u, v, before, skipped) && NamesAlike(u, v, before, ahead, behind)
    requires Level(u, v, lines) && Unforked(lines) && (v.peeked || pv == behind)
    ensures BillsAlike(Steps(u, lines, ahead, fu), Steps(v, lines, pv, fv), before, skipped)
    ensures NamesAlike(Steps(u, lines, ahead, fu), Steps(v, lines, pv, fv), before, ahead, behind)
  {
    if lines != [] {
      var n := |lines| - 1;
      LastOrBefore(lines);
      if u.seenCumulative != v.seenCumulative {
        FirstTotalMovesPrefix(u.totals, lines, n);
      }
      PassesAlike(u, v, lines[..n], pv, fu, fv, before, skipped, ahead, behind);
      LevelIsCertain(u, v, lines, n, ahead, pv, fu, fv);
      if v.peeked {
        AlwaysPeeked(v, lines[..n], pv, fv);
      }
      var un, vn := Steps(u, lines[..n], ahead, fu), Steps(v, lines[..n], pv, fv);
      var eu := StepMoves(un, lines[n], ahead, fu);
      var ev := StepMoves(vn, lines[n], pv, fv);
      MoveBillsAlike(un, vn, Steps(u, lines, ahead, fu), Steps(v, lines, pv, fv), lines[n], ahead, pv, eu,
                     ev, before, skipped);
      MoveNamesAlike(un, vn, Steps(u, lines, ahead, fu), Steps(v, lines, pv, fv), lines[n], pv, eu, ev,
                     before, ahead, behind);
    }
  }

  /** One pass took the first cumulative for a replay, the other billed it. */
  ghost predicate OneReplayApart(u: Ledger, v: Ledger, skipped: nat) {
    && Unmoved(u.totals, v.totals) && u.seenCumulative && v.seenCumulative && !u.seedActive && !v.seedActive
    && u.replayed + 1 == skipped + v.replayed
  }

  lemma MoveStaysApart(u: Ledger, v: Ledger, u1: Ledger, v1: Ledger, l: CodexLine, pu: Option<string>,
                       pv: Option<string>, eu: CodexEvent, ev: CodexEvent, skipped: nat)
    requires OneReplayApart(u, v, skipped) && Moves(u, u1, l, pu, eu) && Moves(v, v1, l, pv, ev)
    ensures OneReplayApart(u1, v1, skipped)
  {
  }

  lemma {:induction false} StaysApart(u: Ledger, v: Ledger, lines: seq<CodexLine>, i: nat, pu: Option<string>,
                                      pv: Option<string>, fu: bool, fv: bool, skipped: nat)
    requires i <= |lines| && Unforked(lines)
             && OneReplayApart(Steps(u, lines[..i], pu, fu), Steps(v, lines[..i], pv, fv), skipped)
    ensures OneReplayApart(Steps(u, lines, pu, fu), Steps(v, lines, pv, fv), skipped)
  {
    if i == |lines| {
      assert lines[..i] == lines;
    } else {
      var n := |lines| - 1;
      LastOrBefore(lines);
      assert lines[..n][..i] == lines[..i];
      StaysApart(u, v, lines[..n], i, pu, pv, fu, fv, skipped);
      var un, vn := Steps(u, lines[..n], pu, fu), Steps(v, lines[..n], pv, fv);
      var eu := StepMoves(un, lines[n], pu, fu);
      var ev := StepMoves(vn, lines[n], pv, fv);
      MoveStaysApart(un, vn, Steps(u, lines, pu, fu), Steps(v, lines, pv, fv), lines[n], pu, pv, eu, ev, skipped);
    }
  }

  lemma MoveTearsApart(u: Ledger, v: Ledger, u1: Ledger, v1: Ledger, l: CodexLine, pu: Option<string>,
                       pv: Option<string>, eu: CodexEvent, ev: CodexEvent, before: seq<CodexEvent>, skipped: nat)
    requires BillsAlike(u, v, before, skipped) && !u.seenCumulative && v.seenCumulative
    requires HasTotal(l) && Unmoved(l.body.total.value, u.totals) && Moves(u, u1, l, pu, eu) && Moves(v, v1, l, pv, ev)
    ensures OneReplayApart(u1, v1, skipped)
  {
  }

  lemma UnmovedTotalDisagrees(u: Ledger, v: Ledger, lines: seq<CodexLine>, pv: Option<string>, fu: bool, fv: bool,
                              before: seq<CodexEvent>, skipped: nat, ahead: Option<string>, behind: Option<string>)
    requires BillsAlike(u, v, before, skipped) && NamesAlike(u, v, before, ahead, behind)
    requires !Level(u, v, lines) && Unforked(lines) && (v.peeked || pv == behind)
    ensures Steps(u, lines, ahead, fu).replayed != skipped + Steps(v, lines, pv, fv).replayed
  {
    var i :| 0 <= i < |lines| && HasTotal(lines[i]) && !HasCumulative(lines[..i])
      && Unmoved(lines[i].body.total.value, Carry(u.totals, lines[..i]));
    PassesAlike(u, v, lines[..i], pv, fu, fv, before, skipped, ahead, behind);
    StepsCarry(u, lines[..i], ahead, fu);
    StepsCarry(v, lines[..i], pv, fv);
    assert lines[..i + 1][..i] == lines[..i];
    var ui, vi := Steps(u, lines[..i], ahead, fu), Steps(v, lines[..i], pv, fv);
    var eu := StepMoves(ui, lines[i], ahead, fu);
    var ev := StepMoves(vi, lines[i], pv, fv);
    MoveTearsApart(ui, vi, Steps(u, lines[..i + 1], ahead, fu), Steps(v, lines[..i + 1], pv, fv), lines[i], ahead, pv,
                   eu, ev, before, skipped);
    StaysApart(u, v, lines, i + 1, ahead, pv, fu, fv, skipped);
  }

  // ----- a cut between two lists of lines -----

  /** What the second pass ends with, the first pass's part included, is what one pass ends with. */
  ghost predicate PassesAgree(one: Ledger, s: Ledger, t: Ledger) {
    one.events == s.events + t.events && one.totals == t.totals && one.model == t.model
      && one.replayed == s.replayed + t.replayed
  }

  lemma StartAlike(start: Ledger, da: seq<CodexLine>, ahead: Option<string>, behind: Option<string>, fromZero: bool)
    requires !start.seedActive && start.events == [] && start.replayed == 0 && Unforked(da)
    requires start.peeked ==> ahead == behind
    ensures var u, s := Steps(start, da, ahead, fromZero), Steps(start, da, behind, fromZero);
            BillsAlike(u, s, [], 0) && NamesAlike(u, s, [], ahead, behind)
  {
    PassesAlike(start, start, da, behind, fromZero, fromZero, [], 0, ahead, behind);
  }

  /** Where the second read begins: with the first one's totals and, unless it starts over, its model. */
  ghost predicate Resumes(s: Ledger, t0: Ledger) {
    && t0.events == [] && t0.replayed == 0 && !t0.seedActive && t0.lastStamp == ""
    && t0.totals == s.totals && t0.seenCumulative && t0.model == s.model && (s.peeked ==> t0.peeked)
  }

  lemma AlikeAtCut(u: Ledger, s: Ledger, t0: Ledger, ahead: Option<string>, behind: Option<string>)
    requires BillsAlike(u, s, [], 0) && NamesAlike(u, s, [], ahead, behind) && Resumes(s, t0)
    requires !u.peeked && t0.peeked && s.model.None? ==> behind.None?
    requires u.peeked ==> t0.peeked
    ensures BillsAlike(u, t0, s.events, s.replayed) && NamesAlike(u, t0, s.events, ahead, behind)
  {
    assert [] + s.events == s.events && s.events + [] == s.events;
  }

  /** Three things can tear two passes apart: a cumulative taken for a replay, a number started over,
      and a look-ahead that answers differently once the file has grown. */
  ghost predicate CutIsHarmless(one: Ledger, s: Ledger, t: Ledger, db: seq<CodexLine>, ahead: Option<string>,
                                behind: Option<string>) {
    && (s.seenCumulative || FirstTotalMoves(s.totals, db))
    && !SharesStamp(s.events, t.events)
    && (one.peeked ==> Fallback(ahead) == Fallback(behind))
  }

  lemma CutEnds(u: Ledger, s: Ledger, t0: Ledger, db: seq<CodexLine>, ahead: Option<string>,
                behind: Option<string>, fu: bool, fv: bool)
    requires BillsAlike(u, t0, s.events, s.replayed) && NamesAlike(u, t0, s.events, ahead, behind)
    requires Counts(u) && Counts(s) && Counts(t0) && Unforked(db) && t0.seenCumulative
             && u.seenCumulative == s.seenCumulative && u.totals == s.totals
    requires t0.peeked || ahead == behind
    requires var one, t := Steps(u, db, ahead, fu), Steps(t0, db, ahead, fv);
             one.peeked && ahead != behind && Fallback(ahead) == Fallback(behind) ==> one.model.Some? && t.model.Some?
    ensures var one, t := Steps(u, db, ahead, fu), Steps(t0, db, ahead, fv);
            PassesAgree(one, s, t) <==> CutIsHarmless(one, s, t, db, ahead, behind)
  {
    var one, t := Steps(u, db, ahead, fu), Steps(t0, db, ahead, fv);
    if Level(u, t0, db) {
      PassesAlike(u, t0, db, ahead, fu, fv, s.events, s.replayed, ahead, behind);
      StepsCount(u, db, ahead, fu);
      StepsCount(t0, db, ahead, fv);
      NumberedJoint(s.events, t.events);
      SameEventsIff(one.events, s.events + t.events);
    } else {
      UnmovedTotalDisagrees(u, t0, db, ahead, fu, fv, s.events, s.replayed, ahead, behind);
    }
  }
}
