/** Iteration over a hash table: every element once, in an order the program does not choose. */
module Enumeration {

  ghost predicate Enumerates<T(!new)>(order: seq<T>, items: set<T>) {
    && (forall x :: x in order <==> x in items)
    && (forall i, j :: 0 <= i < j < |order| ==> order[i] != order[j])
  }

  /** Some order always exists, so a model that quantifies over orders is never empty. */
  ghost function Listing<T(!new)>(items: set<T>): (order: seq<T>)
    ensures Enumerates(order, items)
  {
    if items == {} then []
    else
      var x :| x in items;
      var rest := Listing(items - {x});
      assert forall i :: 0 <= i < |rest| ==> rest[i] in items - {x};
      rest + [x]
  }

  lemma {:induction false} EnumerationSize<T(!new)>(order: seq<T>, items: set<T>)
    requires Enumerates(order, items)
    ensures |order| == |items|
  {
    if order == [] {
      assert items == {};
    } else {
      var init, x := order[..|order|-1], order[|order|-1];
      assert order == init + [x];
      assert Enumerates(init, items - {x});
      EnumerationSize(init, items - {x});
    }
  }
}
