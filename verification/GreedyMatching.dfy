/** The greedy matching behind Jaro similarity, over bytes (internal/services/identity/scorer.go).
  *
  * The source matches greedily: each byte of `a`, left to right, takes the leftmost free byte of `b`
  * that equals it and lies within reach.  `Partners` follows that scan.  The matching it finds is the
  * only one in which no two compatible positions both prefer each other to an earlier partner
  * (`Stable`), and that condition does not tell `a` from `b`.  Hence every symmetry below.
  */
module GreedyMatching {
  import opened Text

  // ----- the greedy scan -----------------------------------------------------------------------

  function Larger(x: int, y: int): int {
    if x < y then y else x
  }

  function MatchDistance(a: seq<Byte>, b: seq<Byte>): nat {
    Larger(0, Larger(|a|, |b|) / 2 - 1)
  }

  predicate Compatible(a: seq<Byte>, b: seq<Byte>, i: nat, j: nat)
    requires i < |a| && j < |b|
  {
    a[i] == b[j] && i - MatchDistance(a, b) <= j <= i + MatchDistance(a, b)
  }

  /** The leftmost position of `b`, from `j` on, that position `i` of `a` may take; -1 if there is none. */
  function FirstFree(a: seq<Byte>, b: seq<Byte>, i: nat, taken: seq<int>, j: nat): (r: int)
    requires i < |a| && j <= |b|
    ensures r == -1 || j <= r < |b|
    ensures r >= 0 ==> Compatible(a, b, i, r) && r !in taken
    ensures forall k :: j <= k < (if r == -1 then |b| else r) && Compatible(a, b, i, k) ==> k in taken
    decreases |b| - j
  {
    if j == |b| then -1
    else if Compatible(a, b, i, j) && j !in taken then j
    else FirstFree(a, b, i, taken, j + 1)
  }

  /** For each of the first `n` bytes of `a`, the position of `b` it is matched with, or -1. */
  function Partners(a: seq<Byte>, b: seq<Byte>, n: nat): (p: seq<int>)
    requires n <= |a|
    ensures |p| == n
    ensures forall i :: 0 <= i < n ==> -1 <= p[i] < |b|
  {
    if n == 0 then []
    else
      var p := Partners(a, b, n - 1);
      p + [FirstFree(a, b, n - 1, p, 0)]
  }

  // ----- the matching, without reference to a scan order -----------------------------------------

  predicate Stable(a: seq<Byte>, b: seq<Byte>, i: nat, j: nat)
    requires i < |a| && j < |b|
    decreases i + j
  {
    && Compatible(a, b, i, j)
    && (forall x :: 0 <= x < i ==> !Stable(a, b, x, j))
    && (forall y :: 0 <= y < j ==> !Stable(a, b, i, y))
  }

  lemma {:induction false} StableSymmetric(a: seq<Byte>, b: seq<Byte>, i: nat, j: nat)
    requires i < |a| && j < |b|
    ensures Stable(a, b, i, j) == Stable(b, a, j, i)
    decreases i + j
  {
    forall x | 0 <= x < i
      ensures Stable(a, b, x, j) == Stable(b, a, j, x)
    {
      StableSymmetric(a, b, x, j);
    }
    forall y | 0 <= y < j
      ensures Stable(a, b, i, y) == Stable(b, a, y, i)
    {
      StableSymmetric(a, b, i, y);
    }
  }

  lemma {:induction false} GreedyIsStable(a: seq<Byte>, b: seq<Byte>, n: nat)
    requires n <= |a|
    ensures forall i, j :: 0 <= i < n && 0 <= j < |b| ==> (Partners(a, b, n)[i] == j <==> Stable(a, b, i, j))
  {
    if n > 0 {
      var i := n - 1;
      GreedyIsStable(a, b, i);
      forall j | 0 <= j < |b|
        ensures FirstFree(a, b, i, Partners(a, b, i), 0) == j <==> Stable(a, b, i, j)
      {
        NextPartnerIsStable(a, b, i, j);
      }
    }
  }

  lemma {:induction false} NextPartnerIsStable(a: seq<Byte>, b: seq<Byte>, i: nat, j: nat)
    requires i < |a| && j < |b|
    requires forall x, y :: 0 <= x < i && 0 <= y < |b| ==> (Partners(a, b, i)[x] == y <==> Stable(a, b, x, y))
    ensures FirstFree(a, b, i, Partners(a, b, i), 0) == j <==> Stable(a, b, i, j)
    decreases j
  {
    var p := Partners(a, b, i);
    var r := FirstFree(a, b, i, p, 0);
    forall y | 0 <= y < j
      ensures r == y <==> Stable(a, b, i, y)
    {
      NextPartnerIsStable(a, b, i, y);
    }
    if r == j {
      forall x | 0 <= x < i
        ensures !Stable(a, b, x, j)
      {
        assert p[x] != j;
      }
    } else if r == -1 || j < r {
      if Compatible(a, b, i, j) {
        assert j in p;
        var x :| 0 <= x < i && p[x] == j;
        assert Stable(a, b, x, j);
      }
    } else {
      assert Stable(a, b, i, r);
    }
  }

  /** Scanning from `b` instead of from `a` finds the very same pairs. */
  lemma GreedySymmetric(a: seq<Byte>, b: seq<Byte>, i: nat, j: nat)
    requires i < |a| && j < |b|
    ensures Partners(a, b, |a|)[i] == j <==> Partners(b, a, |b|)[j] == i
  {
    GreedyIsStable(a, b, |a|);
    GreedyIsStable(b, a, |b|);
    StableSymmetric(a, b, i, j);
  }

  // ----- matched positions and their count -------------------------------------------------------

  function LeftMask(a: seq<Byte>, b: seq<Byte>, n: nat): (m: seq<bool>)
    requires n <= |a|
    ensures |m| == n
  {
    var p := Partners(a, b, n);
    seq(n, i requires 0 <= i < n => p[i] >= 0)
  }

  function RightMask(a: seq<Byte>, b: seq<Byte>, n: nat): (m: seq<bool>)
    requires n <= |a|
    ensures |m| == |b|
  {
    var p := Partners(a, b, n);
    seq(|b|, j => j in p)
  }

  function CountTrue(m: seq<bool>, n: nat): (c: nat)
    requires n <= |m|
    ensures c <= n
  {
    if n == 0 then 0 else CountTrue(m, n - 1) + if m[n - 1] then 1 else 0
  }

  lemma {:induction false} CountTrueLocal(m: seq<bool>, k: seq<bool>, n: nat)
    requires n <= |m| && n <= |k| && m[..n] == k[..n]
    ensures CountTrue(m, n) == CountTrue(k, n)
  {
    if n > 0 {
      assert m[n - 1] == m[..n][n - 1] == k[..n][n - 1] == k[n - 1];
      assert m[..n - 1] == m[..n][..n - 1] == k[..n][..n - 1] == k[..n - 1];
      CountTrueLocal(m, k, n - 1);
    }
  }

  lemma {:induction false} CountTrueUpdate(m: seq<bool>, r: nat, n: nat)
    requires n <= |m| && r < |m| && !m[r]
    ensures CountTrue(m[r := true], n) == CountTrue(m, n) + if r < n then 1 else 0
  {
    if n > 0 {
      CountTrueUpdate(m, r, n - 1);
    }
  }

  lemma RightMaskStep(a: seq<Byte>, b: seq<Byte>, n: nat)
    requires 0 < n <= |a|
    ensures var r := FirstFree(a, b, n - 1, Partners(a, b, n - 1), 0);
            if r == -1 then RightMask(a, b, n) == RightMask(a, b, n - 1)
            else !RightMask(a, b, n - 1)[r] && RightMask(a, b, n) == RightMask(a, b, n - 1)[r := true]
  {
    var p := Partners(a, b, n - 1);
    var r := FirstFree(a, b, n - 1, p, 0);
    var old', new' := RightMask(a, b, n - 1), RightMask(a, b, n);
    assert Partners(a, b, n) == p + [r];
    forall j | 0 <= j < |b|
      ensures new'[j] == (old'[j] || j == r)
    {
      assert j in p + [r] <==> j in p || j == r;
    }
    if r == -1 {
      assert new' == old';
    } else {
      assert new' == old'[r := true];
    }
  }

  /** The scan marks equally many positions on both sides. */
  lemma {:induction false} MatchCountsAgree(a: seq<Byte>, b: seq<Byte>, n: nat)
    requires n <= |a|
    ensures CountTrue(LeftMask(a, b, n), n) == CountTrue(RightMask(a, b, n), |b|)
  {
    if n == 0 {
      NoneMarked(RightMask(a, b, 0), |b|);
    } else {
      MatchCountsAgree(a, b, n - 1);
      var r := FirstFree(a, b, n - 1, Partners(a, b, n - 1), 0);
      assert LeftMask(a, b, n)[..n - 1] == LeftMask(a, b, n - 1)[..n - 1];
      CountTrueLocal(LeftMask(a, b, n), LeftMask(a, b, n - 1), n - 1);
      RightMaskStep(a, b, n);
      if r != -1 {
        CountTrueUpdate(RightMask(a, b, n - 1), r, |b|);
      }
    }
  }

  lemma {:induction false} NoneMarked(m: seq<bool>, n: nat)
    requires n <= |m| && forall k :: 0 <= k < n ==> !m[k]
    ensures CountTrue(m, n) == 0
  {
    if n > 0 {
      NoneMarked(m, n - 1);
    }
  }

  lemma MasksSwap(a: seq<Byte>, b: seq<Byte>)
    ensures LeftMask(a, b, |a|) == RightMask(b, a, |b|)
    ensures RightMask(a, b, |a|) == LeftMask(b, a, |b|)
  {
    RightMaskIsLeftMask(a, b);
    RightMaskIsLeftMask(b, a);
  }

  lemma RightMaskIsLeftMask(a: seq<Byte>, b: seq<Byte>)
    ensures RightMask(a, b, |a|) == LeftMask(b, a, |b|)
  {
    var p, q := Partners(a, b, |a|), Partners(b, a, |b|);
    forall j | 0 <= j < |b|
      ensures j in p <==> q[j] >= 0
    {
      if j in p {
        var i :| 0 <= i < |a| && p[i] == j;
        GreedySymmetric(a, b, i, j);
      }
      if q[j] >= 0 {
        GreedySymmetric(a, b, q[j], j);
        assert p[q[j]] == j;
      }
    }
  }

  // ----- what the reach is -------------------------------------------------------------------------

  /** Positions i and j are at most half the longer length, less one, apart; aligned ones always are. */
  predicate WithinReach(a: seq<Byte>, b: seq<Byte>, i: int, j: int) {
    i == j || (-(|a| / 2) < j - i < |a| / 2) || (-(|b| / 2) < j - i < |b| / 2)
  }

  lemma CompatibleIff(a: seq<Byte>, b: seq<Byte>, i: nat, j: nat)
    requires i < |a| && j < |b|
    ensures Compatible(a, b, i, j) <==> a[i] == b[j] && WithinReach(a, b, i, j)
  {
  }

  /** Matched positions hold the same byte within reach, and of two positions with the same byte within
      reach at least one is matched: the matching cannot be extended. */
  lemma MatchingIsMaximal(a: seq<Byte>, b: seq<Byte>, i: nat, j: nat)
    requires i < |a| && j < |b|
    ensures Partners(a, b, |a|)[i] == j ==> a[i] == b[j] && WithinReach(a, b, i, j)
    ensures a[i] == b[j] && WithinReach(a, b, i, j) ==> LeftMask(a, b, |a|)[i] || RightMask(a, b, |a|)[j]
  {
    GreedyIsStable(a, b, |a|);
    CompatibleIff(a, b, i, j);
    hide Compatible, WithinReach, Partners;
    var p := Partners(a, b, |a|);
    if p[i] == j {
      StableIsCompatible(a, b, i, j);
    } else if Compatible(a, b, i, j) && p[i] < 0 {
      forall y | 0 <= y < j
        ensures !Stable(a, b, i, y)
      {
        assert p[i] != y;
      }
      var x := Blocker(a, b, i, j);
      assert p[x] == j;
    }
  }

  lemma StableIsCompatible(a: seq<Byte>, b: seq<Byte>, i: nat, j: nat)
    requires i < |a| && j < |b| && Stable(a, b, i, j)
    ensures Compatible(a, b, i, j)
  {
  }

  lemma Blocker(a: seq<Byte>, b: seq<Byte>, i: nat, j: nat) returns (x: nat)
    requires i < |a| && j < |b| && Compatible(a, b, i, j) && !Stable(a, b, i, j)
    requires forall y :: 0 <= y < j ==> !Stable(a, b, i, y)
    ensures x < i && Stable(a, b, x, j)
  {
    if forall x :: 0 <= x < i ==> !Stable(a, b, x, j) {
      assert Stable(a, b, i, j);
    }
    x :| 0 <= x < i && Stable(a, b, x, j);
  }
}
