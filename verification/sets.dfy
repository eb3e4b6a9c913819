/** Cardinalities of sets that differ in one element. */
module Sets {
  lemma {:induction false} OneMore<T>(small: set<T>, big: set<T>, x: T)
    requires x !in small
    requires forall y :: y in big <==> y in small || y == x
    ensures |big| == |small| + 1
  {
    assert big == small + {x};
  }

  lemma {:induction false} Same<T>(a: set<T>, b: set<T>)
    requires forall y :: y in a <==> y in b
    ensures |a| == |b|
  {
    assert a == b;
  }

  lemma {:induction false} SomeNumber(s: set<int>)
    requires s != {}
    ensures exists x :: x in s
  {
    assert (forall x :: x !in s) ==> s == {};
  }
}
