/** Strict lexicographic order on strings: the order of Rust's `str::cmp`, since UTF-8 keeps the
    order of code points. */
module StringOrder {

  predicate Below(a: string, b: string) {
    && b != []
    && (a == [] || a[0] < b[0] || (a[0] == b[0] && Below(a[1..], b[1..])))
  }

  lemma {:induction false} BelowIsStrict(a: string)
    ensures !Below(a, a)
  {
    if a != [] { BelowIsStrict(a[1..]); }
  }

  lemma {:induction false} BelowIsTransitive(a: string, b: string, c: string)
    requires Below(a, b) && Below(b, c)
    ensures Below(a, c)
  {
    if a != [] && a[0] == b[0] == c[0] { BelowIsTransitive(a[1..], b[1..], c[1..]); }
  }

  lemma {:induction false} BelowIsTotal(a: string, b: string)
    requires a != b
    ensures Below(a, b) || Below(b, a)
  {
    if a != [] && b != [] && a[0] == b[0] {
      assert a == [a[0]] + a[1..] && b == [b[0]] + b[1..];
      BelowIsTotal(a[1..], b[1..]);
    }
  }

  predicate Increasing(keys: seq<string>) {
    forall i, j :: 0 <= i < j < |keys| ==> Below(keys[i], keys[j])
  }

  lemma {:induction false} IncreasingHeads(a: seq<string>, b: seq<string>)
    requires Increasing(a) && Increasing(b) && a != [] && b != []
    requires a[0] in b && b[0] in a
    ensures a[0] == b[0]
  {
    if a[0] != b[0] {
      BelowIsTransitive(a[0], b[0], a[0]);
      BelowIsStrict(a[0]);
    }
  }

  lemma IncreasingTail(a: seq<string>)
    requires Increasing(a) && a != []
    ensures a[0] !in a[1..] && Increasing(a[1..])
    ensures forall k :: k in a[1..] <==> k in a && k != a[0]
  {
    BelowIsStrict(a[0]);
    assert a == [a[0]] + a[1..];
  }

  lemma SomeElement(a: seq<string>) returns (k: string)
    requires a != []
    ensures k in a
  {
    k := a[0];
  }

  /** An increasing list is determined by what is in it. */
  lemma {:induction false} IncreasingUnique(a: seq<string>, b: seq<string>)
    requires Increasing(a) && Increasing(b)
    requires forall k :: k in a <==> k in b
    ensures a == b
  {
    if a == [] {
      if b != [] { var k := SomeElement(b); }
    } else if b == [] {
      if a != [] { var k := SomeElement(a); }
    } else {
      IncreasingHeads(a, b);
      IncreasingTail(a);
      IncreasingTail(b);
      IncreasingUnique(a[1..], b[1..]);
      assert a == [a[0]] + a[1..] && b == [b[0]] + b[1..];
    }
  }
}
