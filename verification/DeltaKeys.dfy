/** Rollup cells, and the NUL-separated text under which one ingest batch collects its deltas. */
module DeltaKeys {
  import opened Events

  /** The primary key of events_roll_day. */
  datatype Cell = Cell(day: int, user: string, model: string, messageType: MessageType, hasStored: bool)

  function NatText(n: nat): (s: string)
    ensures |s| > 0 && (forall i :: 0 <= i < |s| ==> '0' <= s[i] <= '9')
  {
    var digit := [('0' as int + n % 10) as char];
    if n < 10 then digit else NatText(n / 10) + digit
  }

  function IntText(n: int): string {
    if n < 0 then "-" + NatText(-n) else NatText(n)
  }

  function TypeText(t: MessageType): string {
    match t
    case User => "user"
    case Assistant => "assistant"
  }

  function Scope(c: Cell): string {
    c.user + "\0" + c.model
  }

  /** The key of the delta map. User and model are free-form, the other parts are not. */
  function KeyText(c: Cell): string {
    IntText(c.day) + "\0" + Scope(c) + "\0" + TypeText(c.messageType) + "\0" + (if c.hasStored then "1" else "0")
  }

  ghost predicate NulFree(s: string) {
    forall i :: 0 <= i < |s| ==> s[i] != '\0'
  }

  lemma {:induction false} NatTextInjective(m: nat, n: nat)
    requires NatText(m) == NatText(n)
    ensures m == n
  {
    var a, b := NatText(m), NatText(n);
    assert a[|a| - 1] == ('0' as int + m % 10) as char && b[|b| - 1] == ('0' as int + n % 10) as char;
    assert m % 10 == n % 10;
    if m >= 10 && n >= 10 {
      assert a[..|a| - 1] == NatText(m / 10) && b[..|b| - 1] == NatText(n / 10);
      NatTextInjective(m / 10, n / 10);
    }
  }

  lemma IntTextInjective(m: int, n: int)
    requires IntText(m) == IntText(n)
    ensures m == n
  {
    assert IntText(m)[0] == '-' <==> m < 0;
    assert IntText(n)[0] == '-' <==> n < 0;
    if m < 0 {
      assert IntText(m)[1..] == NatText(-m) && IntText(n)[1..] == NatText(-n);
      NatTextInjective(-m, -n);
    } else {
      NatTextInjective(m, n);
    }
  }

  lemma IntTextNulFree(n: int)
    ensures NulFree(IntText(n))
  {
  }

  /** NUL-free prefixes closed by a NUL are determined by the whole text. */
  lemma PrefixUnique(p: string, s: string, q: string, t: string)
    requires NulFree(p) && NulFree(q)
    requires p + "\0" + s == q + "\0" + t
    ensures p == q && s == t
  {
    var whole := p + "\0" + s;
    assert whole[|p|] == '\0' && (q + "\0" + t)[|q|] == '\0';
    assert forall i :: 0 <= i < |p| ==> whole[i] == p[i];
    assert forall i :: 0 <= i < |q| ==> (q + "\0" + t)[i] == q[i];
    assert p == whole[..|p|] && q == (q + "\0" + t)[..|q|];
    assert s == whole[|p| + 1..] && t == (q + "\0" + t)[|q| + 1..];
  }

  lemma TailUnique(a: Cell, b: Cell)
    requires Tail(a) == Tail(b)
    ensures a.messageType == b.messageType && a.hasStored == b.hasStored && Scope(a) == Scope(b)
  {
    var s, t := Tail(a), Tail(b);
    assert s[|s| - 1] == (if a.hasStored then '1' else '0') && t[|t| - 1] == (if b.hasStored then '1' else '0');
    assert s[|s| - 3] == (if a.messageType.User? then 'r' else 't');
    assert t[|t| - 3] == (if b.messageType.User? then 'r' else 't');
    var n := |TypeText(a.messageType)| + 3;
    assert Scope(a) == s[..|s| - n] && Scope(b) == t[..|t| - n];
  }

  function Tail(c: Cell): string {
    Scope(c) + "\0" + TypeText(c.messageType) + "\0" + (if c.hasStored then "1" else "0")
  }

  /** Exactly when two cells share a delta key: only the border between user and model can move. */
  lemma KeysCollide(a: Cell, b: Cell)
    ensures KeyText(a) == KeyText(b)
            <==> a.day == b.day && a.messageType == b.messageType && a.hasStored == b.hasStored && Scope(a) == Scope(b)
  {
    assert KeyText(a) == IntText(a.day) + "\0" + Tail(a);
    assert KeyText(b) == IntText(b.day) + "\0" + Tail(b);
    if KeyText(a) == KeyText(b) {
      IntTextNulFree(a.day);
      IntTextNulFree(b.day);
      PrefixUnique(IntText(a.day), Tail(a), IntText(b.day), Tail(b));
      IntTextInjective(a.day, b.day);
      TailUnique(a, b);
    }
  }

  /** With NUL-free handles, which is what ingest validation admits, the key is injective. */
  lemma KeyTextInjective(a: Cell, b: Cell)
    requires NulFree(a.user) && NulFree(b.user)
    ensures KeyText(a) == KeyText(b) <==> a == b
  {
    KeysCollide(a, b);
    if KeyText(a) == KeyText(b) {
      PrefixUnique(a.user, a.model, b.user, b.model);
    }
  }
}
