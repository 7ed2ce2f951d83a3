/** A remote event list that is served newest-first, in pages, and grows between requests. */
module PageWalk {
  import opened Numbers
  import opened Options
  import opened Events
  import opened Rollup
  import opened RollupProofs

  const PAGE_SIZE: nat := 100

  /** `time` is the remote's own ordering and filtering time; `token` is what the client's mapping
      makes of the event, None when it drops it. A response may carry the timestamp unreadably. */
  datatype RemoteEvent = RemoteEvent(time: int, readable: bool, token: Option<TokenEvent>)

  predicate Usable(e: RemoteEvent) {
    e.readable && e.time > 0
  }

  predicate Mappable(e: RemoteEvent) {
    Usable(e) && e.token.Some?
  }

  function RemoteKey(e: RemoteEvent): DedupKey
    requires e.token.Some?
  {
    KeyOf(RowOf(e.token.value))
  }

  /** Both clients map onto source "cursor" and keep the event's own time. */
  predicate WellMapped(e: RemoteEvent) {
    e.token.Some? ==> e.token.value.source == Cursor && e.token.value.timestamp == e.time
  }

  /** The list in arrival order, strictly newer at the end. */
  ghost predicate Growing(list: seq<RemoteEvent>) {
    && (forall i, j :: 0 <= i < j < |list| ==> list[i].time < list[j].time)
    && (forall i :: 0 <= i < |list| ==> WellMapped(list[i]))
  }

  function Newest(list: seq<RemoteEvent>): int {
    if list == [] || list[|list| - 1].time < 0 then 0 else list[|list| - 1].time
  }

  /** Every event with time >= since, newest first. */
  function Matching(list: seq<RemoteEvent>, since: int): seq<RemoteEvent> {
    if list == [] then []
    else
      var n := |list| - 1;
      (if list[n].time >= since then [list[n]] else []) + Matching(list[..n], since)
  }

  /** What the remote answers for one page: at most PAGE_SIZE matches, after `skip` newer ones. */
  function PageAt(list: seq<RemoteEvent>, since: int, skip: nat): seq<RemoteEvent> {
    var all := Matching(list, since);
    all[Smaller(skip, |all|)..Smaller(skip + PAGE_SIZE, |all|)]
  }

  predicate MoreAfter(list: seq<RemoteEvent>, since: int, skip: nat) {
    skip + PAGE_SIZE < |Matching(list, since)|
  }

  /** In a growing list the k-th match is the k-th newest event. */
  lemma {:induction false} MatchingAt(list: seq<RemoteEvent>, since: int)
    requires Growing(list)
    ensures var all := Matching(list, since);
            && |all| <= |list|
            && (forall k :: 0 <= k < |all| ==> all[k] == list[|list| - 1 - k])
            && (forall j :: 0 <= j < |list| ==> (list[j].time >= since <==> |list| - 1 - j < |all|))
  {
    if list != [] {
      var n := |list| - 1;
      MatchingAt(list[..n], since);
      var rest := Matching(list[..n], since);
      if list[n].time < since {
        assert forall j :: 0 <= j < n ==> list[..n][j].time < since;
        assert rest == [];
      } else {
        assert forall j :: 0 <= j < n ==> list[..n][j] == list[j];
      }
    }
  }

  /** Users outside `exempt` are the ones whose rows nobody clears behind the walk's back. */
  ghost predicate Wanted(e: RemoteEvent, exempt: set<string>) {
    Mappable(e) && e.token.value.user !in exempt
  }

  ghost predicate Held(e: RemoteEvent, got: set<DedupKey>, exempt: set<string>) {
    Wanted(e, exempt) ==> RemoteKey(e) in got
  }

  /** Each wanted event of the window up to `upTo` is held, or at least `skip` events are newer. */
  ghost predicate Walked(list: seq<RemoteEvent>, since: int, upTo: int, skip: nat, got: set<DedupKey>,
                         exempt: set<string>) {
    forall j :: 0 <= j < |list| && since <= list[j].time <= upTo ==>
      Held(list[j], got, exempt) || |list| - 1 - j >= skip
  }

  /** Every wanted event up to `upTo` is held. */
  ghost predicate AllHeld(list: seq<RemoteEvent>, upTo: int, got: set<DedupKey>, exempt: set<string>) {
    forall j :: 0 <= j < |list| && list[j].time <= upTo ==> Held(list[j], got, exempt)
  }

  lemma NewestBounds(list: seq<RemoteEvent>, j: nat)
    requires Growing(list) && j < |list|
    ensures list[j].time <= Newest(list)
  {
  }

  /** Arrivals push unfetched events further back, never forward. */
  lemma ArrivalKeepsWalked(list: seq<RemoteEvent>, e: RemoteEvent, since: int, upTo: int, skip: nat, got: set<DedupKey>,
                           exempt: set<string>)
    requires Growing(list + [e]) && Walked(list, since, upTo, skip, got, exempt) && upTo <= Newest(list)
    ensures Walked(list + [e], since, upTo, skip, got, exempt)
  {
    var grown := list + [e];
    forall j | 0 <= j < |grown| && since <= grown[j].time <= upTo
      ensures Held(grown[j], got, exempt) || |grown| - 1 - j >= skip
    {
      if j < |list| {
        assert grown[j] == list[j];
      } else {
        ArrivalIsNewer(list, e);
      }
    }
  }

  /** A usable arrival is newer than everything any walk has seen. */
  lemma ArrivalIsNewer(list: seq<RemoteEvent>, e: RemoteEvent)
    requires Growing(list + [e])
    ensures Growing(list) && Newest(list) <= Newest(list + [e])
    ensures Usable(e) ==> e.time > Newest(list)
  {
    var grown := list + [e];
    assert forall i :: 0 <= i < |list| ==> grown[i] == list[i];
    if list != [] {
      assert grown[|list| - 1].time < grown[|list|].time;
    }
  }

  lemma ArrivalKeepsHeld(list: seq<RemoteEvent>, e: RemoteEvent, upTo: int, got: set<DedupKey>, exempt: set<string>)
    requires Growing(list + [e]) && AllHeld(list, upTo, got, exempt) && upTo <= Newest(list)
    ensures AllHeld(list + [e], upTo, got, exempt)
  {
    var grown := list + [e];
    forall j | 0 <= j < |grown| && grown[j].time <= upTo
      ensures Held(grown[j], got, exempt)
    {
      if j < |list| {
        assert grown[j] == list[j];
      } else {
        ArrivalIsNewer(list, e);
      }
    }
  }

  /** The new bound after a page comes from the page or was there before. */
  ghost predicate BoundFrom(page: seq<RemoteEvent>, upTo: int, newUpTo: int) {
    newUpTo <= upTo || exists k :: 0 <= k < |page| && newUpTo <= page[k].time
  }

  ghost predicate HoldsAll(page: seq<RemoteEvent>, got: set<DedupKey>, exempt: set<string>) {
    forall k :: 0 <= k < |page| ==> Held(page[k], got, exempt)
  }

  lemma PageIsOlder(list: seq<RemoteEvent>, since: int, skip: nat, j: nat)
    requires Growing(list) && j < |list| && |list| - 1 - j < skip
    ensures forall k :: 0 <= k < |PageAt(list, since, skip)| ==> PageAt(list, since, skip)[k].time < list[j].time
  {
    MatchingAt(list, since);
    var page := PageAt(list, since, skip);
    forall k | 0 <= k < |page|
      ensures page[k].time < list[j].time
    {
      assert page[k] == list[|list| - 1 - (skip + k)];
    }
  }

  /** Fetching the next page moves the walk one page on, while it raises the bound. */
  lemma FetchAdvances(list: seq<RemoteEvent>, since: int, upTo: int, skip: nat, got: set<DedupKey>,
                      newUpTo: int, newGot: set<DedupKey>, exempt: set<string>)
    requires Growing(list) && Walked(list, since, upTo, skip, got, exempt) && got <= newGot
    requires BoundFrom(PageAt(list, since, skip), upTo, newUpTo) && HoldsAll(PageAt(list, since, skip), newGot, exempt)
    ensures Walked(list, since, newUpTo, skip + PAGE_SIZE, newGot, exempt)
    ensures !MoreAfter(list, since, skip) ==> Walked(list, since, newUpTo, |list|, newGot, exempt)
  {
    MatchingAt(list, since);
    var all, page := Matching(list, since), PageAt(list, since, skip);
    forall j | 0 <= j < |list| && since <= list[j].time <= newUpTo
      ensures Held(list[j], newGot, exempt) || |list| - 1 - j >= skip + PAGE_SIZE
      ensures |list| - 1 - j < |all|
    {
      var back := |list| - 1 - j;
      if back < skip {
        PageIsOlder(list, since, skip, j);
      } else if back < skip + PAGE_SIZE {
        assert page[back - skip] == list[j];
      }
    }
  }

  /** A page beyond `skip` cannot disturb a walk that only got as far as an earlier page. */
  lemma LaterPageKeepsWalked(list: seq<RemoteEvent>, since: int, upTo: int, earlier: nat, skip: nat, got: set<DedupKey>,
                             newUpTo: int, exempt: set<string>)
    requires Growing(list) && Walked(list, since, upTo, earlier, got, exempt) && earlier <= skip
    requires BoundFrom(PageAt(list, since, skip), upTo, newUpTo)
    ensures Walked(list, since, newUpTo, earlier, got, exempt)
  {
    MatchingAt(list, since);
    var page := PageAt(list, since, skip);
    if newUpTo > upTo {
      var k :| 0 <= k < |page| && newUpTo <= page[k].time;
      assert page[k] == list[|list| - 1 - (skip + k)];
    }
  }

  lemma PageTimes(list: seq<RemoteEvent>, since: int, skip: nat, k: nat)
    requires Growing(list) && k < |PageAt(list, since, skip)|
    ensures since <= PageAt(list, since, skip)[k].time <= Newest(list) && PageAt(list, since, skip)[k] in list
  {
    MatchingAt(list, since);
    var j := |list| - 1 - (Smaller(skip, |Matching(list, since)|) + k);
    assert PageAt(list, since, skip)[k] == list[j];
    NewestBounds(list, j);
  }

  /** A finished walk over everything newer than an older bound holds everything up to the newer one. */
  lemma WalkEnds(list: seq<RemoteEvent>, since: int, before: int, upTo: int, got: set<DedupKey>, exempt: set<string>)
    requires AllHeld(list, before, got, exempt) && since <= before + 1
    requires Walked(list, since, upTo, |list|, got, exempt)
    ensures AllHeld(list, upTo, got, exempt)
  {
  }

  // ----- what a page brings -----

  function Mapped(page: seq<RemoteEvent>): seq<TokenEvent> {
    if page == [] then []
    else
      var n := |page| - 1;
      Mapped(page[..n]) + if Mappable(page[n]) then [page[n].token.value] else []
  }

  ghost function EventKeys(events: seq<TokenEvent>): set<DedupKey> {
    set e | e in events :: KeyOf(RowOf(e))
  }

  lemma {:induction false} MappedIn(page: seq<RemoteEvent>)
    ensures forall k :: 0 <= k < |page| && Mappable(page[k]) ==> page[k].token.value in Mapped(page)
    ensures forall e :: e in Mapped(page) ==> exists k :: 0 <= k < |page| && page[k].token == Some(e)
  {
    if page != [] {
      var n := |page| - 1;
      MappedIn(page[..n]);
      forall e | e in Mapped(page)
        ensures exists k :: 0 <= k < |page| && page[k].token == Some(e)
      {
        if e in Mapped(page[..n]) {
          var k :| 0 <= k < n && page[..n][k].token == Some(e);
          assert page[k].token == Some(e);
        } else {
          assert page[n].token == Some(e);
        }
      }
      forall k | 0 <= k < |page| && Mappable(page[k])
        ensures page[k].token.value in Mapped(page)
      {
        if k < n {
          assert page[..n][k] == page[k];
        }
      }
    }
  }

  lemma PageHeld(page: seq<RemoteEvent>, got: set<DedupKey>, events: seq<TokenEvent>, exempt: set<string>)
    ensures HoldsAll(page, got + EventKeys(events + Mapped(page)), exempt)
  {
    MappedIn(page);
  }

  ghost predicate FromList(list: seq<RemoteEvent>, since: int, e: TokenEvent) {
    exists j :: 0 <= j < |list| && list[j].time >= since && list[j].token == Some(e)
  }

  lemma PageFromList(list: seq<RemoteEvent>, since: int, skip: nat)
    requires Growing(list)
    ensures forall e :: e in Mapped(PageAt(list, since, skip)) ==> FromList(list, since, e)
  {
    var page := PageAt(list, since, skip);
    MappedIn(page);
    forall e | e in Mapped(page)
      ensures FromList(list, since, e)
    {
      var k :| 0 <= k < |page| && page[k].token == Some(e);
      PageTimes(list, since, skip, k);
    }
  }

  // ----- arrivals and bounds -----

  lemma ArrivalKeepsFrom(list: seq<RemoteEvent>, e: RemoteEvent, since: int, t: TokenEvent)
    requires FromList(list, since, t)
    ensures FromList(list + [e], since, t)
  {
    var j :| 0 <= j < |list| && list[j].time >= since && list[j].token == Some(t);
    assert (list + [e])[j] == list[j];
  }

  lemma ArrivalKeepsDone(list: seq<RemoteEvent>, e: RemoteEvent, since: int, upTo: int, got: set<DedupKey>,
                         exempt: set<string>)
    requires Growing(list + [e]) && Walked(list, since, upTo, |list|, got, exempt) && upTo <= Newest(list)
    ensures Walked(list + [e], since, upTo, |list + [e]|, got, exempt)
  {
    var grown := list + [e];
    ArrivalIsNewer(list, e);
    forall j | 0 <= j < |grown| && since <= grown[j].time <= upTo
      ensures Held(grown[j], got, exempt)
    {
      if j < |list| {
        assert grown[j] == list[j];
      }
    }
  }

  lemma NothingBelowZero(list: seq<RemoteEvent>, got: set<DedupKey>, exempt: set<string>)
    ensures AllHeld(list, 0, got, exempt)
  {
  }

  function Skip(lastPage: int): nat {
    if lastPage >= 0 then lastPage * PAGE_SIZE else 0
  }

  // ----- what a window leaves out -----

  /** Message ids are hashes over the time, the model and the counts, so they tell events apart. */
  ghost predicate TellApart(list: seq<RemoteEvent>) {
    forall i, j :: 0 <= i < j < |list| && list[i].token.Some? && list[j].token.Some? ==>
      RemoteKey(list[i]) != RemoteKey(list[j])
  }

  lemma OlderNotFetched(list: seq<RemoteEvent>, since: int, events: seq<TokenEvent>, j: nat)
    requires TellApart(list) && j < |list| && Mappable(list[j]) && list[j].time < since
    requires forall e :: e in events ==> FromList(list, since, e)
    ensures RemoteKey(list[j]) !in EventKeys(events)
  {
    forall e | e in events
      ensures KeyOf(RowOf(e)) != RemoteKey(list[j])
    {
      var i :| 0 <= i < |list| && list[i].time >= since && list[i].token == Some(e);
    }
  }
}
