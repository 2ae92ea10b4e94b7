/** Sequences without repeats and the sets of their elements. */
module Collections {

  predicate Distinct<T(==)>(q: seq<T>) {
    forall i, j :: 0 <= i < j < |q| ==> q[i] != q[j]
  }

  function Elems<T(==)>(q: seq<T>): set<T> { set x | x in q }

  lemma ElemsSnoc<T>(q: seq<T>, x: T)
    ensures Elems(q + [x]) == Elems(q) + {x}
  {
  }

  lemma {:induction false} DistinctSize<T>(q: seq<T>)
    requires Distinct(q)
    ensures |Elems(q)| == |q|
  {
    if q != [] {
      var init := q[..|q| - 1];
      DistinctSize(init);
      assert q == init + [q[|q| - 1]];
      assert Elems(q) == Elems(init) + {q[|q| - 1]};
    }
  }

  lemma SubsetOfSameSize<T>(a: set<T>, b: set<T>)
    requires a <= b && |a| == |b|
    ensures a == b
  {
    assert |b - a| == |b| - |a|;
    assert b == a + (b - a);
  }

  lemma SubsetSize<T>(a: set<T>, b: set<T>)
    requires a <= b
    ensures |a| <= |b|
  {
    assert |b - a| == |b| - |a|;
  }

  /** The first occurrence of each element, in order: `[...new Set(q)]`. */
  function Unique<T(==)>(q: seq<T>): (r: seq<T>)
    ensures Distinct(r) && Elems(r) == Elems(q)
  {
    if q == [] then []
    else
      var init, x := Unique(q[..|q| - 1]), q[|q| - 1];
      assert Elems(q) == Elems(q[..|q| - 1]) + {x};
      if x in init then init else init + [x]
  }
}
