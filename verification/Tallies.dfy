/** The aggregate columns of events_roll_day as an additive summary, and sums over a finite table. */
module Tallies {
  import opened Options

  /** Row count, token and cost sums, and newest timestamp (absent only when there is no row). */
  datatype Tally = Tally(
    n: int,
    input: int,
    output: int,
    cacheCreation: int,
    cacheRead: int,
    reasoning: int,
    cost: int,
    maxTs: Option<int>)

  const ZERO := Tally(0, 0, 0, 0, 0, 0, 0, None)

  function Later(a: Option<int>, b: Option<int>): Option<int> {
    match (a, b)
    case (None, _) => b
    case (_, None) => a
    case (Some(x), Some(y)) => Some(if x >= y then x else y)
  }

  /** The UPSERT's conflict clause: every column adds up, the newest timestamp wins. */
  function Add(a: Tally, b: Tally): Tally {
    Tally(a.n + b.n, a.input + b.input, a.output + b.output, a.cacheCreation + b.cacheCreation,
          a.cacheRead + b.cacheRead, a.reasoning + b.reasoning, a.cost + b.cost, Later(a.maxTs, b.maxTs))
  }

  lemma AddZero(a: Tally)
    ensures Add(a, ZERO) == a && Add(ZERO, a) == a
  {
  }

  lemma AddSwap(a: Tally, b: Tally, c: Tally)
    ensures Add(a, Add(b, c)) == Add(b, Add(a, c))
    ensures Add(Add(a, b), c) == Add(a, Add(b, c))
  {
  }

  /** The sum of a table's entries, in whatever order they are visited. */
  ghost function Total<K>(m: map<K, Tally>): Tally
    decreases |m|
  {
    if m == map[] then ZERO
    else
      var k :| k in m;
      Add(m[k], Total(m - {k}))
  }

  lemma {:induction false} TotalRemove<K>(m: map<K, Tally>, k: K)
    requires k in m
    ensures Total(m) == Add(m[k], Total(m - {k}))
    decreases |m|
  {
    var j :| j in m && Total(m) == Add(m[j], Total(m - {j}));
    if j != k {
      TotalRemove(m - {j}, k);
      TotalRemove(m - {k}, j);
      assert m - {j} - {k} == m - {k} - {j};
      AddSwap(m[j], m[k], Total(m - {j} - {k}));
    }
  }

  /** `m` is the disjoint union of `a` and `b`. */
  ghost predicate Splits<K(!new)>(m: map<K, Tally>, a: map<K, Tally>, b: map<K, Tally>) {
    && (forall k :: k in m <==> k in a || k in b)
    && (forall k :: k in a ==> k !in b && m[k] == a[k])
    && (forall k :: k in b ==> m[k] == b[k])
  }

  lemma {:induction false} TotalSplits<K(!new)>(m: map<K, Tally>, a: map<K, Tally>, b: map<K, Tally>)
    requires Splits(m, a, b)
    ensures Total(m) == Add(Total(a), Total(b))
    decreases |a|
  {
    if a == map[] {
      assert m == b;
    } else {
      var k :| k in a;
      TotalRemove(a, k);
      TotalRemove(m, k);
      TotalSplits(m - {k}, a - {k}, b);
      AddSwap(a[k], Total(a - {k}), Total(b));
    }
  }

  /** Adding a fresh entry adds its summary. */
  lemma TotalInsert<K>(m: map<K, Tally>, k: K, t: Tally)
    requires k !in m
    ensures Total(m[k := t]) == Add(Total(m), t)
  {
    TotalRemove(m[k := t], k);
    assert m[k := t] - {k} == m;
  }

  /** Summaries of single rows add up to their number. */
  lemma {:induction false} TotalCounts<K(!new)>(m: map<K, Tally>)
    requires forall k :: k in m ==> m[k].n == 1
    ensures Total(m).n == |m|
    decreases |m|
  {
    if m != map[] {
      var k :| k in m;
      TotalRemove(m, k);
      TotalCounts(m - {k});
    }
  }
}
