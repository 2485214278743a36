/** Finite sets: picking a member, sizes of subsets, and unused ids. */
module Sets {

  lemma NonEmpty(s: set<int>)
    ensures s == {} || exists x :: x in s
  {
    if forall x :: x !in s {
      assert s == {};
    }
  }

  lemma {:induction false} SubsetSize<T>(c: set<T>, d: set<T>)
    requires c <= d
    ensures |c| <= |d|
  {
    assert d == c + (d - c);
  }

  lemma {:induction false} UnusedId(used: set<int>) returns (id: int)
    ensures forall x :: x in used ==> x < id
    decreases |used|
  {
    if |used| == 0 {
      id := 0;
    } else {
      NonEmpty(used);
      var x :| x in used;
      var y := UnusedId(used - {x});
      id := if x < y then y else x + 1;
      assert forall z :: z in used ==> z == x || z in used - {x};
    }
  }
}
