/** The order in which an unordered container happens to be walked. */
module Orderings {

  /** `order` lists every element of `keys` once. */
  ghost predicate IsOrdering<T(!new)>(order: seq<T>, keys: set<T>) {
    && (forall x :: x in order <==> x in keys)
    && (forall i, j :: 0 <= i < j < |order| ==> order[i] != order[j])
  }

  lemma OrderingTail<T(!new)>(order: seq<T>, keys: set<T>)
    requires IsOrdering(order, keys) && order != []
    ensures order[0] in keys && IsOrdering(order[1..], keys - {order[0]})
  {
    assert order[0] in order;
    forall x
      ensures x in order[1..] <==> x in keys - {order[0]}
    {
      assert x in order <==> x == order[0] || x in order[1..];
    }
  }

  /** Pairwise distinct elements. */
  ghost predicate Distinct<T>(xs: seq<T>) {
    forall i, j :: 0 <= i < j < |xs| ==> xs[i] != xs[j]
  }
}
