/** Sizes of finite sets, as the thresholds of votes and signers compare them. */
module Sets {

  lemma {:induction false} SubsetSize<T>(part: set<T>, whole: set<T>)
    requires part <= whole
    ensures |part| <= |whole|
    ensures |part| == |whole| <==> part == whole
  {
    assert whole == part + (whole - part);
  }

  lemma {:induction false} UnionSize<T>(a: set<T>, b: set<T>)
    requires a * b == {}
    ensures |a + b| == |a| + |b|
  {
  }

  lemma {:induction false} OneElement<T>(s: set<T>, x: T)
    requires x in s
    ensures |s| == 1 <==> forall y :: y in s ==> y == x
  {
    if |s| == 1 {
      SubsetSize({x}, s);
    }
    if forall y :: y in s ==> y == x {
      assert s == {x};
    }
  }
}
