/** Sizes of sets. */
module Sets {

  lemma SubsetSize<T>(a: set<T>, b: set<T>)
    requires a <= b
    ensures |a| <= |b|
    ensures |a| == |b| ==> a == b
  {
    assert b == a + (b - a);
  }

  lemma SubsetGrows<T>(a: set<T>, b: set<T>, x: T)
    requires a <= b && x in b && x !in a
    ensures |a| + 1 <= |b|
  {
    assert b == (a + {x}) + (b - (a + {x}));
  }

  lemma SizeWith<T>(a: set<T>, x: T)
    requires x in a
    ensures |a| == |a - {x}| + 1
  {
    assert a == a - {x} + {x};
  }

  /** Two sets differ in size by what each has over the other. */
  lemma Exchange<T>(a: set<T>, b: set<T>)
    ensures |a| - |b| == |a - b| - |b - a|
    ensures |b - a| == 0 <==> b <= a
  {
    var both := a * b;
    assert a == (a - b) + both;
    assert b == both + (b - a);
  }
}
