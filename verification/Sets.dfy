/** Sizes of finite sets. */
module Sets {

  lemma {:induction false} SubsetIsSmaller<T>(a: set<T>, b: set<T>)
    requires a <= b
    ensures |a| <= |b|
    decreases |a|
  {
    if a != {} {
      var x :| x in a;
      SubsetIsSmaller(a - {x}, b - {x});
    }
  }

  lemma {:induction false} SubsetOfSameSize<T>(a: set<T>, b: set<T>)
    requires a <= b && |a| == |b|
    ensures a == b
    decreases |a|
  {
    if a != {} {
      var x :| x in a;
      SubsetOfSameSize(a - {x}, b - {x});
      assert a == (a - {x}) + {x} && b == (b - {x}) + {x};
    }
  }
}
