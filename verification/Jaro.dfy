/** Jaro and Jaro-Winkler similarity over bytes (internal/services/identity/scorer.go). */
module Jaro {
  import opened Text
  import opened GreedyMatching

  // ----- the score -------------------------------------------------------------------------------

  /** The bytes of `s[..n]` at marked positions, in order. */
  function Marked(s: seq<Byte>, m: seq<bool>, n: nat): (r: seq<Byte>)
    requires |m| == |s| && n <= |s|
    ensures |r| == CountTrue(m, n)
  {
    if n == 0 then [] else Marked(s, m, n - 1) + if m[n - 1] then [s[n - 1]] else []
  }

  function Mismatches(s: seq<Byte>, t: seq<Byte>, n: nat): (c: nat)
    requires n <= |s| && n <= |t|
    ensures c <= n
  {
    if n == 0 then 0 else Mismatches(s, t, n - 1) + if s[n - 1] != t[n - 1] then 1 else 0
  }

  lemma {:induction false} MismatchesSymmetric(s: seq<Byte>, t: seq<Byte>, n: nat)
    requires n <= |s| && n <= |t|
    ensures Mismatches(s, t, n) == Mismatches(t, s, n)
  {
    if n > 0 {
      MismatchesSymmetric(s, t, n - 1);
    }
  }

  function MatchedLeft(a: seq<Byte>, b: seq<Byte>): seq<Byte> {
    Marked(a, LeftMask(a, b, |a|), |a|)
  }

  function MatchedRight(a: seq<Byte>, b: seq<Byte>): (r: seq<Byte>)
    ensures |r| == |MatchedLeft(a, b)|
  {
    MatchCountsAgree(a, b, |a|);
    Marked(b, RightMask(a, b, |a|), |b|)
  }

  /** m matches, t of them out of order, on strings of la and lb bytes. */
  function JaroFormula(m: real, t: real, la: real, lb: real): real
    requires m != 0.0 && la != 0.0 && lb != 0.0
  {
    (m / la + m / lb + (m - t / 2.0) / m) / 3.0
  }

  function JaroScore(a: seq<Byte>, b: seq<Byte>): real {
    var s, t := MatchedLeft(a, b), MatchedRight(a, b);
    if |s| == 0 then 0.0
    else JaroFormula(|s| as real, Mismatches(s, t, |s|) as real, |a| as real, |b| as real)
  }

  lemma JaroSymmetric(a: seq<Byte>, b: seq<Byte>)
    ensures MatchedLeft(a, b) == MatchedRight(b, a)
    ensures MatchedRight(a, b) == MatchedLeft(b, a)
    ensures JaroScore(a, b) == JaroScore(b, a)
  {
    MasksSwap(a, b);
    var s, t := MatchedLeft(a, b), MatchedRight(a, b);
    MismatchesSymmetric(s, t, |s|);
  }

  lemma JaroFormulaBounds(m: real, t: real, la: real, lb: real)
    requires 0.0 < m <= la && m <= lb && 0.0 <= t <= m
    ensures 0.0 <= JaroFormula(m, t, la, lb) <= 1.0
    ensures JaroFormula(m, t, la, lb) == 1.0 ==> m == la == lb && t == 0.0
  {
    QuotientBounds(m, la);
    QuotientBounds(m, lb);
    QuotientBounds(m - t / 2.0, m);
  }

  lemma QuotientBounds(x: real, y: real)
    requires 0.0 <= x <= y && y > 0.0
    ensures 0.0 <= x / y <= 1.0
    ensures x / y == 1.0 ==> x == y
  {
  }

  lemma {:induction false} AllMarked(s: seq<Byte>, m: seq<bool>, n: nat)
    requires |m| == |s| && n <= |s| && CountTrue(m, n) == n
    ensures Marked(s, m, n) == s[..n]
  {
    if n > 0 {
      AllMarked(s, m, n - 1);
    }
  }

  lemma {:induction false} NoMismatch(s: seq<Byte>, t: seq<Byte>, n: nat)
    requires n <= |s| && n <= |t| && Mismatches(s, t, n) == 0
    ensures s[..n] == t[..n]
  {
    if n > 0 {
      NoMismatch(s, t, n - 1);
    }
  }

  lemma JaroBounds(a: seq<Byte>, b: seq<Byte>)
    ensures 0.0 <= JaroScore(a, b) <= 1.0
    ensures JaroScore(a, b) == 1.0 ==> a == b
  {
    var s, t := MatchedLeft(a, b), MatchedRight(a, b);
    var m := |s|;
    if m > 0 {
      JaroFormulaBounds(m as real, Mismatches(s, t, m) as real, |a| as real, |b| as real);
      if JaroScore(a, b) == 1.0 {
        AllMarked(a, LeftMask(a, b, |a|), |a|);
        AllMarked(b, RightMask(a, b, |a|), |b|);
        NoMismatch(s, t, m);
        assert s == a[..|a|] == a && t == b[..|b|] == b;
      }
    }
  }

  // ----- the loops of the source -----------------------------------------------------------------

  /** The inner loop: the leftmost free byte of `b` within reach of position `i`, if there is one. */
  method FindFree(a: seq<Byte>, b: seq<Byte>, i: nat, bMatched: array<bool>) returns (found: bool, j: nat)
    requires i < |a| && bMatched.Length == |b|
    requires bMatched[..] == RightMask(a, b, i)
    ensures found ==> j < |b|
    ensures FirstFree(a, b, i, Partners(a, b, i), 0) == if found then j else -1
  {
    ghost var taken := Partners(a, b, i);
    assert forall y :: 0 <= y < |b| ==> bMatched[y] == bMatched[..][y] == (y in taken);
    hide RightMask, Partners;
    var matchDist := MatchDistance(a, b);
    var start := Larger(i - matchDist, 0);
    var end := if i + matchDist + 1 > |b| then |b| else i + matchDist + 1;
    j := start;
    while j < end && (bMatched[j] || a[i] != b[j])
      invariant start <= j
      invariant forall y :: 0 <= y < |b| && y < j && Compatible(a, b, i, y) ==> y in taken
    {
      j := j + 1;
    }
    found := j < end;
    FirstFreeIs(a, b, i, taken, if found then j else -1);
  }

  lemma {:induction false} FirstFreeIs(a: seq<Byte>, b: seq<Byte>, i: nat, taken: seq<int>, r: int)
    requires i < |a| && (r == -1 || 0 <= r < |b|)
    requires r >= 0 ==> Compatible(a, b, i, r) && r !in taken
    requires forall k :: 0 <= k < (if r == -1 then |b| else r) && Compatible(a, b, i, k) ==> k in taken
    ensures FirstFree(a, b, i, taken, 0) == r
  {
    var f := FirstFree(a, b, i, taken, 0);
    if r == -1 {
      assert f >= 0 ==> f in taken;
    } else {
      assert f == -1 ==> r in taken;
      assert 0 <= f < r ==> f in taken;
    }
  }

  /** The matching loop: returns the marks and how many there are on each side. */
  method MarkMatches(a: seq<Byte>, b: seq<Byte>) returns (aMatched: array<bool>, bMatched: array<bool>, matches: nat)
    ensures aMatched[..] == LeftMask(a, b, |a|)
    ensures bMatched[..] == RightMask(a, b, |a|)
    ensures matches == CountTrue(LeftMask(a, b, |a|), |a|)
  {
    aMatched := new bool[|a|](_ => false);
    bMatched := new bool[|b|](_ => false);
    matches := 0;
    hide FirstFree, LeftMask, RightMask, CountTrue, Partners;
    NothingMarked(a, b, bMatched[..]);
    for i := 0 to |a|
      invariant aMatched[..i] == LeftMask(a, b, i)
      invariant forall x :: i <= x < |a| ==> !aMatched[x]
      invariant bMatched[..] == RightMask(a, b, i)
      invariant matches == CountTrue(LeftMask(a, b, i), i)
    {
      LeftMaskStep(a, b, i);
      RightMaskStep(a, b, i + 1);
      var found, j := FindFree(a, b, i, bMatched);
      if found {
        aMatched[i] := true;
        bMatched[j] := true;
        matches := matches + 1;
      }
      assert aMatched[..i + 1] == aMatched[..i] + [found];
    }
    assert aMatched[..] == aMatched[..|a|];
  }

  lemma NothingMarked(a: seq<Byte>, b: seq<Byte>, bm: seq<bool>)
    requires |bm| == |b| && forall y :: 0 <= y < |b| ==> !bm[y]
    ensures LeftMask(a, b, 0) == [] && RightMask(a, b, 0) == bm
    ensures CountTrue(LeftMask(a, b, 0), 0) == 0
  {
  }

  lemma LeftMaskStep(a: seq<Byte>, b: seq<Byte>, n: nat)
    requires n < |a|
    ensures var r := FirstFree(a, b, n, Partners(a, b, n), 0);
            && LeftMask(a, b, n + 1) == LeftMask(a, b, n) + [r >= 0]
            && CountTrue(LeftMask(a, b, n + 1), n + 1) == CountTrue(LeftMask(a, b, n), n) + if r >= 0 then 1 else 0
  {
    hide FirstFree;
    assert LeftMask(a, b, n + 1)[..n] == LeftMask(a, b, n)[..n];
    CountTrueLocal(LeftMask(a, b, n + 1), LeftMask(a, b, n), n);
  }

  /** Out-of-order matches among the first `i` bytes of `a` and the first `k` of `b`. */
  ghost function OutOfOrder(a: seq<Byte>, am: seq<bool>, i: nat, b: seq<Byte>, bm: seq<bool>, k: nat): nat
    requires |am| == |a| && i <= |a| && |bm| == |b| && k <= |b|
    requires CountTrue(am, i) == CountTrue(bm, k)
  {
    Mismatches(Marked(a, am, i), Marked(b, bm, k), CountTrue(am, i))
  }

  lemma SkipLeft(a: seq<Byte>, am: seq<bool>, i: nat, b: seq<Byte>, bm: seq<bool>, k: nat)
    requires |am| == |a| && i < |a| && |bm| == |b| && k <= |b|
    requires CountTrue(am, i) == CountTrue(bm, k) && !am[i]
    ensures CountTrue(am, i + 1) == CountTrue(bm, k)
    ensures OutOfOrder(a, am, i + 1, b, bm, k) == OutOfOrder(a, am, i, b, bm, k)
  {
    assert Marked(a, am, i + 1) == Marked(a, am, i);
  }

  lemma SkipRight(a: seq<Byte>, am: seq<bool>, i: nat, b: seq<Byte>, bm: seq<bool>, k: nat)
    requires |am| == |a| && i <= |a| && |bm| == |b| && k < |b|
    requires CountTrue(am, i) == CountTrue(bm, k) && !bm[k]
    ensures CountTrue(am, i) == CountTrue(bm, k + 1)
    ensures OutOfOrder(a, am, i, b, bm, k + 1) == OutOfOrder(a, am, i, b, bm, k)
  {
    assert Marked(b, bm, k + 1) == Marked(b, bm, k);
  }

  lemma PairUp(a: seq<Byte>, am: seq<bool>, i: nat, b: seq<Byte>, bm: seq<bool>, k: nat)
    requires |am| == |a| && i < |a| && |bm| == |b| && k < |b|
    requires CountTrue(am, i) == CountTrue(bm, k) && am[i] && bm[k]
    ensures CountTrue(am, i + 1) == CountTrue(bm, k + 1)
    ensures OutOfOrder(a, am, i + 1, b, bm, k + 1) ==
            OutOfOrder(a, am, i, b, bm, k) + if a[i] != b[k] then 1 else 0
  {
    var s, t := Marked(a, am, i), Marked(b, bm, k);
    assert Marked(a, am, i + 1) == s + [a[i]] && Marked(b, bm, k + 1) == t + [b[k]];
    MismatchesLocal(s + [a[i]], t + [b[k]], s, t, |s|);
  }

  /** A marked byte of `a` still to be paired leaves one of `b` at or after the cursor. */
  lemma CursorInRange(am: seq<bool>, i: nat, bm: seq<bool>, k: nat)
    requires i < |am| && k <= |bm| && am[i]
    requires CountTrue(am, i) == CountTrue(bm, k)
    requires CountTrue(am, |am|) == CountTrue(bm, |bm|)
    ensures k < |bm|
  {
    CountTrueMonotone(am, i + 1, |am|);
  }

  /** The transposition loop: the cursor `k` never runs past the last marked byte of `b`. */
  method CountTranspositions(a: seq<Byte>, b: seq<Byte>, aMatched: array<bool>, bMatched: array<bool>)
    returns (transpositions: nat)
    requires aMatched.Length == |a| && bMatched.Length == |b|
    requires CountTrue(aMatched[..], |a|) == CountTrue(bMatched[..], |b|)
    ensures transpositions == OutOfOrder(a, aMatched[..], |a|, b, bMatched[..], |b|)
  {
    ghost var am, bm := aMatched[..], bMatched[..];
    transpositions := 0;
    var k := 0;
    assert CountTrue(am, 0) == CountTrue(bm, 0) && OutOfOrder(a, am, 0, b, bm, 0) == 0;
    hide OutOfOrder, CountTrue;
    for i := 0 to |a|
      invariant k <= |b|
      invariant CountTrue(am, i) == CountTrue(bm, k)
      invariant transpositions == OutOfOrder(a, am, i, b, bm, k)
    {
      if aMatched[i] {
        CursorInRange(am, i, bm, k);
        while !bMatched[k]
          invariant k < |b|
          invariant CountTrue(am, i) == CountTrue(bm, k)
          invariant transpositions == OutOfOrder(a, am, i, b, bm, k)
          decreases |b| - k
        {
          SkipRight(a, am, i, b, bm, k);
          k := k + 1;
          CursorInRange(am, i, bm, k);
        }
        PairUp(a, am, i, b, bm, k);
        if a[i] != b[k] {
          transpositions := transpositions + 1;
        }
        k := k + 1;
      } else {
        SkipLeft(a, am, i, b, bm, k);
      }
    }
    NothingAfterCursor(a, am, |a|, b, bm, k);
  }

  lemma NothingAfterCursor(a: seq<Byte>, am: seq<bool>, i: nat, b: seq<Byte>, bm: seq<bool>, k: nat)
    requires |am| == |a| && i <= |a| && |bm| == |b| && k <= |b|
    requires CountTrue(am, i) == CountTrue(bm, k) == CountTrue(bm, |b|)
    ensures OutOfOrder(a, am, i, b, bm, k) == OutOfOrder(a, am, i, b, bm, |b|)
  {
    MarkedStable(b, bm, k, |b|);
  }

  lemma {:induction false} CountTrueMonotone(m: seq<bool>, k: nat, n: nat)
    requires k <= n <= |m|
    ensures CountTrue(m, k) <= CountTrue(m, n)
  {
    if k < n {
      CountTrueMonotone(m, k, n - 1);
    }
  }

  lemma {:induction false} MarkedStable(s: seq<Byte>, m: seq<bool>, k: nat, n: nat)
    requires |m| == |s| && k <= n <= |s|
    requires CountTrue(m, k) == CountTrue(m, n)
    ensures Marked(s, m, k) == Marked(s, m, n)
  {
    if k < n {
      CountTrueMonotone(m, k, n - 1);
      MarkedStable(s, m, k, n - 1);
    }
  }

  lemma {:induction false} MismatchesLocal(s: seq<Byte>, t: seq<Byte>, u: seq<Byte>, v: seq<Byte>, n: nat)
    requires n <= |s| && n <= |t| && n <= |u| && n <= |v|
    requires forall k :: 0 <= k < n ==> s[k] == u[k] && t[k] == v[k]
    ensures Mismatches(s, t, n) == Mismatches(u, v, n)
  {
    if n > 0 {
      MismatchesLocal(s, t, u, v, n - 1);
    }
  }

  method ComputeJaro(a: seq<Byte>, b: seq<Byte>) returns (r: real)
    ensures r == JaroScore(a, b)
  {
    var aMatched, bMatched, matches := MarkMatches(a, b);
    if matches == 0 {
      return 0.0;
    }
    MatchCountsAgree(a, b, |a|);
    var transpositions := CountTranspositions(a, b, aMatched, bMatched);
    var m := matches as real;
    r := (m / |a| as real + m / |b| as real + (m - transpositions as real / 2.0) / m) / 3.0;
  }

  // ----- the prefix bonus --------------------------------------------------------------------------

  function CommonPrefix(a: seq<Byte>, b: seq<Byte>, i: nat): (n: nat)
    ensures i <= 4 ==> i <= i + n <= 4
    decreases 4 - i
  {
    if i < |a| && i < |b| && i < 4 && a[i] == b[i] then 1 + CommonPrefix(a, b, i + 1) else 0
  }

  lemma {:induction false} CommonPrefixSymmetric(a: seq<Byte>, b: seq<Byte>, i: nat)
    ensures CommonPrefix(a, b, i) == CommonPrefix(b, a, i)
    decreases 4 - i
  {
    if i < |a| && i < |b| && i < 4 && a[i] == b[i] {
      CommonPrefixSymmetric(a, b, i + 1);
    }
  }

  function WithBonus(jaro: real, prefix: nat): real {
    jaro + prefix as real * 0.1 * (1.0 - jaro)
  }

  function JaroWinkler(a: seq<Byte>, b: seq<Byte>): real {
    if a == b then 1.0
    else if |a| == 0 || |b| == 0 then 0.0
    else WithBonus(JaroScore(a, b), CommonPrefix(a, b, 0))
  }

  method ComputeJaroWinkler(a: seq<Byte>, b: seq<Byte>) returns (r: real)
    ensures r == JaroWinkler(a, b)
  {
    hide JaroScore, WithBonus;
    if a == b {
      return 1.0;
    }
    if |a| == 0 || |b| == 0 {
      return 0.0;
    }
    var jaro := ComputeJaro(a, b);
    var prefix := 0;
    while prefix < |a| && prefix < |b| && prefix < 4 && a[prefix] == b[prefix]
      invariant prefix <= 4
      invariant prefix + CommonPrefix(a, b, prefix) == CommonPrefix(a, b, 0)
    {
      prefix := prefix + 1;
    }
    r := WithBonus(jaro, prefix);
  }

  lemma JaroWinklerSymmetric(a: seq<Byte>, b: seq<Byte>)
    ensures JaroWinkler(a, b) == JaroWinkler(b, a)
  {
    hide JaroScore, CommonPrefix;
    JaroSymmetric(a, b);
    CommonPrefixSymmetric(a, b, 0);
  }

  /** The bonus never lowers a score, never reaches 1 for different strings. */
  lemma JaroWinklerBounds(a: seq<Byte>, b: seq<Byte>)
    ensures 0.0 <= JaroWinkler(a, b) <= 1.0
    ensures a != b && a != [] && b != [] ==> JaroScore(a, b) <= JaroWinkler(a, b)
    ensures JaroWinkler(a, b) == 1.0 <==> a == b
  {
    hide JaroScore, CommonPrefix, WithBonus;
    JaroBounds(a, b);
    if a != b && a != [] && b != [] {
      BonusBounds(JaroScore(a, b), CommonPrefix(a, b, 0));
    }
  }

  lemma BonusBounds(jaro: real, prefix: nat)
    requires 0.0 <= jaro < 1.0 && prefix <= 4
    ensures jaro <= WithBonus(jaro, prefix) < 1.0
  {
    match prefix
    case 0 => assert WithBonus(jaro, 0) == jaro;
    case 1 => assert WithBonus(jaro, 1) == jaro + 0.1 * (1.0 - jaro);
    case 2 => assert WithBonus(jaro, 2) == jaro + 0.2 * (1.0 - jaro);
    case 3 => assert WithBonus(jaro, 3) == jaro + 0.3 * (1.0 - jaro);
    case _ => assert WithBonus(jaro, 4) == jaro + 0.4 * (1.0 - jaro);
  }

  // ----- the score in numbers ------------------------------------------------------------------------

  ghost function Marks(m: seq<bool>, n: nat): set<int>
    requires n <= |m|
  {
    set k | 0 <= k < n && m[k]
  }

  ghost function Differing(s: seq<Byte>, t: seq<Byte>, n: nat): set<int>
    requires n <= |s| && n <= |t|
  {
    set k | 0 <= k < n && s[k] != t[k]
  }

  lemma {:induction false} CountTrueIs(m: seq<bool>, n: nat)
    requires n <= |m|
    ensures CountTrue(m, n) == |Marks(m, n)|
  {
    if n == 0 {
      assert Marks(m, 0) == {};
    } else {
      CountTrueIs(m, n - 1);
      assert Marks(m, n) == Marks(m, n - 1) + if m[n - 1] then {n - 1} else {};
    }
  }

  lemma {:induction false} MismatchesAre(s: seq<Byte>, t: seq<Byte>, n: nat)
    requires n <= |s| && n <= |t|
    ensures Mismatches(s, t, n) == |Differing(s, t, n)|
  {
    if n == 0 {
      assert Differing(s, t, 0) == {};
    } else {
      MismatchesAre(s, t, n - 1);
      assert Differing(s, t, n) == Differing(s, t, n - 1) + if s[n - 1] != t[n - 1] then {n - 1} else {};
    }
  }

  /** Three shares in equal parts: the matched bytes of `a`, those of `b`, and the matches in order,
      where two bytes that changed places count as one. */
  lemma JaroCounts(a: seq<Byte>, b: seq<Byte>)
    ensures var (s, t, m) := (MatchedLeft(a, b), MatchedRight(a, b), |Marks(LeftMask(a, b, |a|), |a|)|);
            && |s| == |t| == m
            && if m == 0 then JaroScore(a, b) == 0.0
               else
                 3.0 * JaroScore(a, b) ==
                   m as real / |a| as real + m as real / |b| as real +
                   (1.0 - |Differing(s, t, m)| as real / (2.0 * m as real))
  {
    var s, t := MatchedLeft(a, b), MatchedRight(a, b);
    CountTrueIs(LeftMask(a, b, |a|), |a|);
    MismatchesAre(s, t, |s|);
    assert |s| == CountTrue(LeftMask(a, b, |a|), |a|);
    hide MatchedLeft, MatchedRight, Mismatches, LeftMask, Marks, Differing;
    if |s| > 0 {
      InOrderShare(|s| as real, Mismatches(s, t, |s|) as real);
    }
  }

  lemma InOrderShare(m: real, t: real)
    requires m > 0.0
    ensures (m - t / 2.0) / m == 1.0 - t / (2.0 * m)
  {
    var x, y := t / (2.0 * m), (m - t / 2.0) / m;
    assert x * (2.0 * m) == t && y * m == m - t / 2.0;
    assert 2.0 * (x * m) == t;
    assert (1.0 - x) * m == m - x * m;
    Cancel(y, 1.0 - x, m);
  }

  lemma Cancel(x: real, y: real, m: real)
    requires m > 0.0 && x * m == y * m
    ensures x == y
  {
    assert (x - y) * m == 0.0;
  }

  /** The bonus: a tenth of what is missing for every leading byte in common, up to four. */
  lemma BonusCounts(a: seq<Byte>, b: seq<Byte>, n: nat)
    requires a != b && a != [] && b != []
    requires n <= |a| && n <= |b| && a[..n] == b[..n] && n <= 4
    requires n == 4 || n == |a| || n == |b| || a[n] != b[n]
    ensures 1.0 - JaroWinkler(a, b) == (10 - n) as real / 10.0 * (1.0 - JaroScore(a, b))
  {
    hide JaroScore;
    CommonPrefixIs(a, b, 0, n);
    var missing := 1.0 - JaroScore(a, b);
    assert n as real * 0.1 * missing == n as real / 10.0 * missing;
  }

  lemma {:induction false} CommonPrefixIs(a: seq<Byte>, b: seq<Byte>, i: nat, n: nat)
    requires i <= n <= |a| && n <= |b| && a[..n] == b[..n] && n <= 4
    requires n == 4 || n == |a| || n == |b| || a[n] != b[n]
    ensures CommonPrefix(a, b, i) == n - i
    decreases n - i
  {
    if i < n {
      assert a[i] == a[..n][i] == b[..n][i] == b[i];
      CommonPrefixIs(a, b, i + 1, n);
    }
  }

  // ----- the two examples of the signal thresholds -----------------------------------------------------

  /** A list of partners is the one the scan finds when each entry is the leftmost one left over. */
  lemma {:induction false} PartnersAre(a: seq<Byte>, b: seq<Byte>, p: seq<int>, n: nat)
    requires |p| == |a| && n <= |a|
    requires forall i :: 0 <= i < n ==> LeftmostFree(a, b, p, i)
    ensures Partners(a, b, n) == p[..n]
  {
    if n > 0 {
      var i := n - 1;
      PartnersAre(a, b, p, i);
      assert LeftmostFree(a, b, p, i);
      FirstFreeIs(a, b, i, p[..i], p[i]);
    }
  }

  predicate LeftmostFree(a: seq<Byte>, b: seq<Byte>, p: seq<int>, i: nat)
    requires |p| == |a| && i < |a|
  {
    && (p[i] == -1 || (0 <= p[i] < |b| && Compatible(a, b, i, p[i]) && p[i] !in p[..i]))
    && (forall k :: 0 <= k < (if p[i] == -1 then |b| else p[i]) && Compatible(a, b, i, k) ==> k in p[..i])
  }

  /** No two matches cross. */
  predicate Ascending(p: seq<int>) {
    forall i, j :: 0 <= i < j < |p| && p[i] >= 0 && p[j] >= 0 ==> p[i] < p[j]
  }

  /** Matches that do not cross are never out of order. */
  lemma UncrossedMatchesAgree(a: seq<Byte>, b: seq<Byte>)
    requires Ascending(Partners(a, b, |a|))
    ensures MatchedLeft(a, b) == MatchedRight(a, b)
  {
    var bm := RightMask(a, b, |a|);
    var k := UncrossedUpTo(a, b, |a|);
    UnmarkedTail(b, bm, k, |b|);
  }

  /** The matches of the first `n` bytes of `a` end just before position `k` of `b`. */
  predicate EndsBefore(p: seq<int>, n: nat, k: nat)
    requires n <= |p|
  {
    && (forall i :: 0 <= i < n ==> p[i] < k)
    && (k > 0 ==> exists i :: 0 <= i < n && p[i] == k - 1)
  }

  lemma {:induction false} UncrossedUpTo(a: seq<Byte>, b: seq<Byte>, n: nat) returns (k: nat)
    requires n <= |a| && Ascending(Partners(a, b, |a|))
    ensures k <= |b| && EndsBefore(Partners(a, b, |a|), n, k)
    ensures Marked(a, LeftMask(a, b, |a|), n) == Marked(b, RightMask(a, b, |a|), k)
  {
    hide Partners, EndsBefore, Ascending;
    k := 0;
    var p := Partners(a, b, |a|);
    if n == 0 {
      assert EndsBefore(p, 0, 0) by {
        NothingEnds(p);
      }
    } else {
      k := UncrossedUpTo(a, b, n - 1);
      var j := p[n - 1];
      NextEnd(p, n, k);
      if j >= 0 {
        assert forall y :: k <= y < j ==> !RightMask(a, b, |a|)[y];
        assert j in p;
        UnmarkedTail(b, RightMask(a, b, |a|), k, j);
        MatchingIsMaximal(a, b, n - 1, j);
        k := j + 1;
      }
    }
  }

  lemma NothingEnds(p: seq<int>)
    ensures EndsBefore(p, 0, 0)
  {
  }

  lemma NextEnd(p: seq<int>, n: nat, k: nat)
    requires 0 < n <= |p| && Ascending(p) && EndsBefore(p, n - 1, k)
    ensures EndsBefore(p, n, if p[n - 1] >= 0 then p[n - 1] + 1 else k)
    ensures p[n - 1] >= 0 ==> k <= p[n - 1] && forall y :: k <= y < p[n - 1] ==> y !in p
  {
  }

  lemma {:induction false} UnmarkedTail(s: seq<Byte>, m: seq<bool>, k: nat, n: nat)
    requires |m| == |s| && k <= n <= |s| && forall y :: k <= y < n ==> !m[y]
    ensures Marked(s, m, k) == Marked(s, m, n)
  {
    if k < n {
      UnmarkedTail(s, m, k, n - 1);
    }
  }

  /** The names that the thresholds for a high and a medium similarity were chosen by: a dropped letter
      leaves 0.97, another first name 0.88. */
  lemma ExampleNames()
    ensures JaroWinkler(Utf8Bytes("jon smith"), Utf8Bytes("john smith")) == 2.92 / 3.0
    ensures JaroWinkler(Utf8Bytes("john smith"), Utf8Bytes("jane smith")) == 0.88
  {
    hide Utf8Bytes, Partners, JaroWinkler, JaroScore, LeftMask;
    ExampleBytes();
    JonAndJohn();
    JohnAndJane();
    ExampleCounts();
    JaroOfUncrossed(Jon(), John(), 9);
    JaroOfUncrossed(John(), Jane(), 8);
    assert Jon()[..2] == John()[..2] && John()[..1] == Jane()[..1];
    BonusCounts(Jon(), John(), 2);
    BonusCounts(John(), Jane(), 1);
  }

  lemma ExampleCounts()
    requires Partners(Jon(), John(), 9) == [0, 1, 3, 4, 5, 6, 7, 8, 9]
    requires Partners(John(), Jane(), 10) == [0, -1, -1, 2, 4, 5, 6, 7, 8, 9]
    ensures |Marks(LeftMask(Jon(), John(), 9), 9)| == 9
    ensures |Marks(LeftMask(John(), Jane(), 10), 10)| == 8
  {
    hide Partners;
    AllTrue(LeftMask(Jon(), John(), 9), 9);
    CountTrueIs(LeftMask(Jon(), John(), 9), 9);
    var m := LeftMask(John(), Jane(), 10);
    hide LeftMask;
    assert m == [true, false, false, true, true, true, true, true, true, true];
    assert CountTrue(m, 3) == 1;
    assert CountTrue(m, 6) == 4;
    assert CountTrue(m, 9) == 7;
    CountTrueIs(m, 10);
  }

  lemma {:induction false} AllTrue(m: seq<bool>, n: nat)
    requires n <= |m| && forall k :: 0 <= k < n ==> m[k]
    ensures CountTrue(m, n) == n
  {
    if n > 0 {
      AllTrue(m, n - 1);
    }
  }

  function Jon(): (a: seq<Byte>)
    ensures |a| == 9
  {
    [106, 111, 110, 32, 115, 109, 105, 116, 104]
  }

  function John(): (a: seq<Byte>)
    ensures |a| == 10
  {
    [106, 111, 104, 110, 32, 115, 109, 105, 116, 104]
  }

  function Jane(): (a: seq<Byte>)
    ensures |a| == 10
  {
    [106, 97, 110, 101, 32, 115, 109, 105, 116, 104]
  }

  lemma ExampleBytes()
    ensures Utf8Bytes("jon smith") == Jon() && Utf8Bytes("john smith") == John() && Utf8Bytes("jane smith") == Jane()
  {
    hide Utf8Bytes, ByteLength;
    BytesAre("jon smith", Jon());
    BytesAre("john smith", John());
    BytesAre("jane smith", Jane());
  }

  lemma BytesAre(s: string, bs: seq<Byte>)
    requires |s| == |bs| && forall k :: 0 <= k < |s| ==> s[k] < '\U{80}' && s[k] as int == bs[k]
    ensures Utf8Bytes(s) == bs
  {
    AsciiBytes(s);
    hide Utf8Bytes;
  }

  lemma JonAndJohn()
    ensures Partners(Jon(), John(), 9) == [0, 1, 3, 4, 5, 6, 7, 8, 9]
  {
    var a, b := Jon(), John();
    var p := [0, 1, 3, 4, 5, 6, 7, 8, 9];
    assert MatchDistance(a, b) == 4;
    assert forall i :: 0 <= i < 9 ==> LeftmostFree(a, b, p, i);
    hide LeftmostFree;
    PartnersAre(a, b, p, 9);
    assert p[..9] == p;
  }

  lemma JohnAndJane()
    ensures Partners(John(), Jane(), 10) == [0, -1, -1, 2, 4, 5, 6, 7, 8, 9]
  {
    var a, b := John(), Jane();
    var p := [0, -1, -1, 2, 4, 5, 6, 7, 8, 9];
    assert MatchDistance(a, b) == 4;
    FirstNames(a, b, p);
    Surnames(a, b, p);
    hide LeftmostFree, MatchDistance;
    PartnersAre(a, b, p, 10);
    assert p[..10] == p;
  }

  lemma FirstNames(a: seq<Byte>, b: seq<Byte>, p: seq<int>)
    requires a == John() && b == Jane() && p == [0, -1, -1, 2, 4, 5, 6, 7, 8, 9] && MatchDistance(a, b) == 4
    ensures forall i :: 0 <= i < 4 ==> LeftmostFree(a, b, p, i)
  {
    hide MatchDistance;
  }

  lemma Surnames(a: seq<Byte>, b: seq<Byte>, p: seq<int>)
    requires a == John() && b == Jane() && p == [0, -1, -1, 2, 4, 5, 6, 7, 8, 9] && MatchDistance(a, b) == 4
    ensures forall i :: 4 <= i < 10 ==> LeftmostFree(a, b, p, i)
  {
    hide MatchDistance;
  }

  lemma JaroOfUncrossed(a: seq<Byte>, b: seq<Byte>, m: nat)
    requires Ascending(Partners(a, b, |a|)) && m == |Marks(LeftMask(a, b, |a|), |a|)| && m > 0
    ensures 3.0 * JaroScore(a, b) == m as real / |a| as real + m as real / |b| as real + 1.0
  {
    hide JaroScore, MatchedLeft, MatchedRight, Partners, LeftMask, Marks, Ascending, Differing;
    UncrossedMatchesAgree(a, b);
    JaroCounts(a, b);
    NothingDiffers(MatchedLeft(a, b), m);
    NoShare(2.0 * m as real);
  }

  lemma NoShare(x: real)
    requires x > 0.0
    ensures 0.0 / x == 0.0
  {
  }

  lemma NothingDiffers(s: seq<Byte>, m: nat)
    requires m <= |s|
    ensures Differing(s, s, m) == {}
  {
  }
}
