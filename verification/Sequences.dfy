/** What every component does with lists: one result for each item, and distinct values. */
module Sequences {
  import opened Wrappers

  /** All the results, or the first error. */
  function Each<A, B, E>(make: A -> Result<B, E>, items: seq<A>): Result<seq<B>, E> {
    if items == [] then Ok([])
    else
      var earlier :- Each(make, items[..|items| - 1]);
      var last :- make(items[|items| - 1]);
      Ok(earlier + [last])
  }

  lemma {:induction false} EachValue<A, B, E>(make: A -> Result<B, E>, items: seq<A>)
    requires Each(make, items).Ok?
    ensures |Each(make, items).value| == |items|
    ensures forall i :: 0 <= i < |items| ==> make(items[i]) == Ok(Each(make, items).value[i])
  {
    if items != [] { EachValue(make, items[..|items| - 1]); }
  }

  lemma {:induction false} FirstFailureStays<A, B, E>(make: A -> Result<B, E>, items: seq<A>, n: nat)
    requires n <= |items| && Each(make, items[..n]).Err?
    ensures Each(make, items) == Err(Each(make, items[..n]).error)
    decreases |items|
  {
    if n == |items| {
      assert items[..n] == items;
    } else {
      assert items[..|items| - 1][..n] == items[..n];
      FirstFailureStays(make, items[..|items| - 1], n);
    }
  }

  lemma {:induction false} EachSame<A, B, E>(make: A -> Result<B, E>, other: A -> Result<B, E>, items: seq<A>)
    requires forall i :: 0 <= i < |items| ==> other(items[i]) == make(items[i])
    ensures Each(other, items) == Each(make, items)
  {
    if items != [] { EachSame(make, other, items[..|items| - 1]); }
  }

  /** Two functions give the same results exactly when they agree on every item. */
  lemma EachAgain<A, B, E>(make: A -> Result<B, E>, other: A -> Result<B, E>, items: seq<A>)
    requires Each(make, items).Ok?
    ensures |Each(make, items).value| == |items|
    ensures forall i :: 0 <= i < |items| ==> make(items[i]) == Ok(Each(make, items).value[i])
    ensures Each(other, items) == Each(make, items)
            <==> forall i :: 0 <= i < |items| ==> other(items[i]) == make(items[i])
  {
    EachValue(make, items);
    if Each(other, items) == Each(make, items) { EachValue(other, items); }
    if forall i :: 0 <= i < |items| ==> other(items[i]) == make(items[i]) { EachSame(make, other, items); }
  }

  predicate Distinct<T(==)>(values: seq<T>) {
    forall i, j :: 0 <= i < j < |values| ==> values[i] != values[j]
  }
}
