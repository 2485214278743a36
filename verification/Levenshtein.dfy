/** Edit distance and its normalised similarity (internal/services/identity/scorer.go).
  *
  * `Distance` is the recurrence the source tabulates.  It is shown to be the length of a shortest
  * path of single-character edits, a metric, and what the table-filling method returns.
  */
module Levenshtein {
  import opened Text

  // ----- the recurrence ------------------------------------------------------------------------

  function Min3(a: int, b: int, c: int): (m: int)
    ensures m <= a && m <= b && m <= c
    ensures m == a || m == b || m == c
  {
    if a < b then
      if a < c then a else c
    else if b < c then b
    else c
  }

  function SubstitutionCost(x: char, y: char): nat {
    if x == y then 0 else 1
  }

  function Distance(a: string, b: string): nat
    decreases |a| + |b|
  {
    if a == [] then |b|
    else if b == [] then |a|
    else
      var (a', x) := (a[..|a| - 1], a[|a| - 1]);
      var (b', y) := (b[..|b| - 1], b[|b| - 1]);
      Min3(Distance(a', b) + 1, Distance(a, b') + 1, Distance(a', b') + SubstitutionCost(x, y))
  }

  lemma {:induction false} DistanceOfNonEmpty(a: string, b: string)
    requires a != [] && b != []
    ensures Distance(a, b) ==
            Min3(Distance(a[..|a| - 1], b) + 1, Distance(a, b[..|b| - 1]) + 1,
                 Distance(a[..|a| - 1], b[..|b| - 1]) + SubstitutionCost(a[|a| - 1], b[|b| - 1]))
  {
  }

  // ----- what a distance of k means: k single-character edits ----------------------------------

  ghost predicate Inserted(s: string, t: string) {
    exists i, c: char :: 0 <= i <= |s| && t == s[..i] + [c] + s[i..]
  }

  ghost predicate Substituted(s: string, t: string) {
    |s| == |t| && exists i :: 0 <= i < |s| && s[..i] == t[..i] && s[i + 1..] == t[i + 1..]
  }

  /** One insertion, deletion or substitution turns `s` into `t`. */
  ghost predicate OneEdit(s: string, t: string) {
    Inserted(s, t) || Inserted(t, s) || Substituted(s, t)
  }

  /** `p` lists the strings met on the way from `a` to `b`, one edit at a time. */
  ghost predicate EditPath(p: seq<string>, a: string, b: string) {
    && |p| > 0
    && p[0] == a
    && p[|p| - 1] == b
    && forall k :: 0 <= k < |p| - 1 ==> OneEdit(p[k], p[k + 1])
  }

  // ----- elementary bounds ---------------------------------------------------------------------

  lemma {:induction false} DistanceBounds(a: string, b: string)
    ensures Distance(a, b) >= |a| - |b|
    ensures Distance(a, b) >= |b| - |a|
    ensures Distance(a, b) <= if |a| < |b| then |b| else |a|
    decreases |a| + |b|
  {
    if a != [] && b != [] {
      DistanceBounds(a[..|a| - 1], b);
      DistanceBounds(a, b[..|b| - 1]);
      DistanceBounds(a[..|a| - 1], b[..|b| - 1]);
    }
  }

  lemma {:induction false} DistanceZeroIffEqual(a: string, b: string)
    ensures Distance(a, b) == 0 <==> a == b
    decreases |a| + |b|
  {
    if a != [] && b != [] {
      var a', b' := a[..|a| - 1], b[..|b| - 1];
      DistanceZeroIffEqual(a', b');
      assert a == a' + [a[|a| - 1]] && b == b' + [b[|b| - 1]];
    }
  }

  lemma {:induction false} DistanceSymmetric(a: string, b: string)
    ensures Distance(a, b) == Distance(b, a)
    decreases |a| + |b|
  {
    if a != [] && b != [] {
      DistanceSymmetric(a[..|a| - 1], b);
      DistanceSymmetric(a, b[..|b| - 1]);
      DistanceSymmetric(a[..|a| - 1], b[..|b| - 1]);
    }
  }

  lemma {:induction false} DistanceTriangle(a: string, b: string, c: string)
    ensures Distance(a, c) <= Distance(a, b) + Distance(b, c)
    decreases |a| + |b| + |c|
  {
    hide Distance;
    DistanceBounds(a, b);
    DistanceBounds(b, c);
    DistanceBounds(a, c);
    if a != [] && b != [] && c != [] {
      DistanceOfNonEmpty(a, b);
      DistanceOfNonEmpty(b, c);
      DistanceOfNonEmpty(a, c);
      var a', b', c' := a[..|a| - 1], b[..|b| - 1], c[..|c| - 1];
      DistanceTriangle(a', b, c);
      DistanceTriangle(a, b, c');
      DistanceTriangle(a, b', c);
      DistanceTriangle(a, b', c');
      DistanceTriangle(a', b', c);
      DistanceTriangle(a', b', c');
    }
  }

  /** The four laws of a metric, with the length bounds that go with them. */
  lemma DistanceIsMetric(a: string, b: string, c: string)
    ensures Distance(a, b) == 0 <==> a == b
    ensures Distance(a, b) == Distance(b, a)
    ensures Distance(a, c) <= Distance(a, b) + Distance(b, c)
    ensures Distance(a, b) >= |a| - |b| && Distance(a, b) >= |b| - |a|
    ensures Distance(a, b) <= if |a| < |b| then |b| else |a|
  {
    DistanceZeroIffEqual(a, b);
    DistanceSymmetric(a, b);
    DistanceTriangle(a, b, c);
    DistanceBounds(a, b);
  }

  // ----- no path is shorter --------------------------------------------------------------------

  lemma {:induction false} CommonSuffix(a: string, b: string, s: string)
    ensures Distance(a + s, b + s) <= Distance(a, b)
    decreases |s|
  {
    if s == [] {
      assert a + s == a && b + s == b;
    } else {
      var s' := s[..|s| - 1];
      assert (a + s)[..|a + s| - 1] == a + s' && (b + s)[..|b + s| - 1] == b + s';
      CommonSuffix(a, b, s');
    }
  }

  lemma InsertionCostsOne(s: string, t: string)
    requires Inserted(s, t)
    ensures Distance(s, t) <= 1
  {
    hide Distance;
    var i, c :| 0 <= i <= |s| && t == s[..i] + [c] + s[i..];
    AppendedCostsOne(s[..i], c);
    CommonSuffix(s[..i], s[..i] + [c], s[i..]);
    assert s[..i] + s[i..] == s;
  }

  lemma AppendedCostsOne(p: string, c: char)
    ensures Distance(p, p + [c]) <= 1
  {
    assert (p + [c])[..|p|] == p;
    DistanceZeroIffEqual(p, p);
  }

  lemma SubstitutionCostsOne(s: string, t: string)
    requires Substituted(s, t)
    ensures Distance(s, t) <= 1
  {
    var i :| 0 <= i < |s| && s[..i] == t[..i] && s[i + 1..] == t[i + 1..];
    var p, rest := s[..i], s[i + 1..];
    hide Distance;
    ReplacedLastCostsOne(p, s[i], t[i]);
    CommonSuffix(p + [s[i]], p + [t[i]], rest);
    AroundIndex(s, i);
    AroundIndex(t, i);
  }

  lemma AroundIndex(s: string, i: nat)
    requires i < |s|
    ensures s == s[..i] + [s[i]] + s[i + 1..]
  {
  }

  lemma ReplacedLastCostsOne(p: string, x: char, y: char)
    ensures Distance(p + [x], p + [y]) <= 1
  {
    assert (p + [x])[..|p|] == p && (p + [y])[..|p|] == p;
    DistanceZeroIffEqual(p, p);
  }

  lemma OneEditCostsOne(s: string, t: string)
    requires OneEdit(s, t)
    ensures Distance(s, t) <= 1
  {
    if Inserted(s, t) {
      InsertionCostsOne(s, t);
    } else if Inserted(t, s) {
      InsertionCostsOne(t, s);
      DistanceSymmetric(s, t);
    } else {
      SubstitutionCostsOne(s, t);
    }
  }

  lemma {:induction false} PathIsNoShorter(p: seq<string>, a: string, b: string)
    requires EditPath(p, a, b)
    ensures Distance(a, b) <= |p| - 1
    decreases |p|
  {
    if |p| == 1 {
      DistanceZeroIffEqual(a, b);
    } else {
      var q := p[1..];
      forall k | 0 <= k < |q| - 1
        ensures OneEdit(q[k], q[k + 1])
      {
        assert OneEdit(p[k + 1], p[k + 2]);
      }
      PathIsNoShorter(q, p[1], b);
      assert OneEdit(p[0], p[1]);
      OneEditCostsOne(a, p[1]);
      DistanceTriangle(a, p[1], b);
    }
  }

  // ----- some path is that short ---------------------------------------------------------------

  lemma OneEditBeforeSuffix(s: string, t: string, x: char)
    requires OneEdit(s, t)
    ensures OneEdit(s + [x], t + [x])
  {
    if Inserted(s, t) {
      InsertionBeforeSuffix(s, t, x);
    } else if Inserted(t, s) {
      InsertionBeforeSuffix(t, s, x);
    } else {
      var i :| 0 <= i < |s| && s[..i] == t[..i] && s[i + 1..] == t[i + 1..];
      assert (s + [x])[..i] == (t + [x])[..i];
      assert (s + [x])[i + 1..] == s[i + 1..] + [x] == (t + [x])[i + 1..];
    }
  }

  lemma InsertionBeforeSuffix(s: string, t: string, x: char)
    requires Inserted(s, t)
    ensures Inserted(s + [x], t + [x])
  {
    var i, c :| 0 <= i <= |s| && t == s[..i] + [c] + s[i..];
    assert t + [x] == (s + [x])[..i] + [c] + (s + [x])[i..];
  }

  lemma PathBeforeSuffix(p: seq<string>, a: string, b: string, x: char) returns (q: seq<string>)
    requires EditPath(p, a, b)
    ensures EditPath(q, a + [x], b + [x]) && |q| == |p|
  {
    q := seq(|p|, i requires 0 <= i < |p| => p[i] + [x]);
    forall k | 0 <= k < |q| - 1
      ensures OneEdit(q[k], q[k + 1])
    {
      OneEditBeforeSuffix(p[k], p[k + 1], x);
    }
  }

  lemma DropLastIsOneEdit(s: string)
    requires s != []
    ensures OneEdit(s, s[..|s| - 1]) && OneEdit(s[..|s| - 1], s)
  {
    var t, c := s[..|s| - 1], s[|s| - 1];
    assert s == t[..|t|] + [c] + t[|t|..];
    assert Inserted(t, s);
  }

  lemma ReplaceLastIsOneEdit(s: string, x: char, y: char)
    ensures OneEdit(s + [x], s + [y])
  {
    assert (s + [x])[..|s|] == (s + [y])[..|s|];
    assert (s + [x])[|s| + 1..] == (s + [y])[|s| + 1..];
    assert Substituted(s + [x], s + [y]);
  }

  lemma PathThenEdit(p: seq<string>, a: string, b: string, c: string)
    requires EditPath(p, a, b) && OneEdit(b, c)
    ensures EditPath(p + [c], a, c)
  {
    var q := p + [c];
    forall k | 0 <= k < |q| - 1
      ensures OneEdit(q[k], q[k + 1])
    {
      assert q[k] == p[k];
    }
  }

  lemma EditThenPath(p: seq<string>, a: string, b: string, c: string)
    requires OneEdit(a, b) && EditPath(p, b, c)
    ensures EditPath([a] + p, a, c)
  {
    var q := [a] + p;
    forall k | 0 <= k < |q| - 1
      ensures OneEdit(q[k], q[k + 1])
    {
      assert q[k + 1] == p[k];
      if k > 0 {
        assert q[k] == p[k - 1];
      }
    }
  }

  lemma {:induction false} ShortestPath(a: string, b: string) returns (p: seq<string>)
    ensures EditPath(p, a, b)
    ensures |p| - 1 == Distance(a, b)
    decreases |a| + |b|, 1
  {
    if a == [] && b == [] {
      p := [a];
    } else if a == [] || (b != [] && Distance(a, b) == Distance(a, b[..|b| - 1]) + 1) {
      var q := ShortestPath(a, b[..|b| - 1]);
      DropLastIsOneEdit(b);
      PathThenEdit(q, a, b[..|b| - 1], b);
      p := q + [b];
    } else if b == [] || Distance(a, b) == Distance(a[..|a| - 1], b) + 1 {
      var q := ShortestPath(a[..|a| - 1], b);
      DropLastIsOneEdit(a);
      EditThenPath(q, a, a[..|a| - 1], b);
      p := [a] + q;
    } else {
      p := ShortestPathDiagonal(a, b);
    }
  }

  lemma {:induction false} ShortestPathDiagonal(a: string, b: string) returns (p: seq<string>)
    requires a != [] && b != []
    requires Distance(a, b) == Distance(a[..|a| - 1], b[..|b| - 1]) + SubstitutionCost(a[|a| - 1], b[|b| - 1])
    ensures EditPath(p, a, b)
    ensures |p| - 1 == Distance(a, b)
    decreases |a| + |b|, 0
  {
    var a', x := a[..|a| - 1], a[|a| - 1];
    var b', y := b[..|b| - 1], b[|b| - 1];
    var q := ShortestPath(a', b');
    p := PathBeforeSuffix(q, a', b', x);
    assert a == a' + [x] && b == b' + [y];
    if x != y {
      ReplaceLastIsOneEdit(b', x, y);
      PathThenEdit(p, a, b' + [x], b);
      p := p + [b];
    }
  }

  /** `Distance` is the least number of single-character edits: a path of that length exists and
      no path is shorter. */
  lemma DistanceIsShortestEditPath(a: string, b: string)
    ensures exists p :: EditPath(p, a, b) && |p| - 1 == Distance(a, b)
    ensures forall p :: EditPath(p, a, b) ==> Distance(a, b) <= |p| - 1
  {
    var _ := ShortestPath(a, b);
    forall p | EditPath(p, a, b)
      ensures Distance(a, b) <= |p| - 1
    {
      PathIsNoShorter(p, a, b);
    }
  }

  // ----- the table -----------------------------------------------------------------------------

  /** What row `i`, column `j` of the table holds. */
  function Cell(ra: string, rb: string, i: nat, j: nat): nat
    requires i <= |ra| && j <= |rb|
    decreases i + j
  {
    if i == 0 then j
    else if j == 0 then i
    else
      Min3(Cell(ra, rb, i - 1, j) + 1, Cell(ra, rb, i, j - 1) + 1,
           Cell(ra, rb, i - 1, j - 1) + SubstitutionCost(ra[i - 1], rb[j - 1]))
  }

  lemma PrefixDistanceBorder(ra: string, rb: string, i: nat, j: nat)
    requires i <= |ra| && j <= |rb| && (i == 0 || j == 0)
    ensures Distance(ra[..i], rb[..j]) == i + j
  {
  }

  lemma PrefixDistanceStep(ra: string, rb: string, i: nat, j: nat)
    requires 1 <= i <= |ra| && 1 <= j <= |rb|
    ensures Distance(ra[..i], rb[..j]) ==
            Min3(Distance(ra[..i - 1], rb[..j]) + 1, Distance(ra[..i], rb[..j - 1]) + 1,
                 Distance(ra[..i - 1], rb[..j - 1]) + SubstitutionCost(ra[i - 1], rb[j - 1]))
  {
    hide Distance;
    DistanceOfNonEmpty(ra[..i], rb[..j]);
    assert ra[..i][..i - 1] == ra[..i - 1] && rb[..j][..j - 1] == rb[..j - 1];
  }

  lemma {:induction false} CellIsPrefixDistance(ra: string, rb: string, i: nat, j: nat)
    requires i <= |ra| && j <= |rb|
    ensures Cell(ra, rb, i, j) == Distance(ra[..i], rb[..j])
    decreases i + j
  {
    hide Distance;
    if i == 0 || j == 0 {
      PrefixDistanceBorder(ra, rb, i, j);
    } else {
      PrefixDistanceStep(ra, rb, i, j);
      CellIsPrefixDistance(ra, rb, i - 1, j);
      CellIsPrefixDistance(ra, rb, i, j - 1);
      CellIsPrefixDistance(ra, rb, i - 1, j - 1);
    }
  }

  /** The borders of the table: `i` deletions down the first column, `j` insertions along the first row. */
  method FillBorders(dp: array2<int>)
    requires dp.Length0 > 0 && dp.Length1 > 0
    modifies dp
    ensures forall x :: 0 <= x < dp.Length0 ==> dp[x, 0] == x
    ensures forall y :: 0 <= y < dp.Length1 ==> dp[0, y] == y
    ensures forall x, y :: 1 <= x < dp.Length0 && 1 <= y < dp.Length1 ==> dp[x, y] == old(dp[x, y])
  {
    for i := 0 to dp.Length0
      invariant forall x :: 0 <= x < i ==> dp[x, 0] == x
      invariant forall x, y :: 1 <= x < dp.Length0 && 1 <= y < dp.Length1 ==> dp[x, y] == old(dp[x, y])
    {
      dp[i, 0] := i;
    }
    for j := 0 to dp.Length1
      invariant forall x :: 0 <= x < dp.Length0 ==> dp[x, 0] == x
      invariant forall y :: 0 <= y < j ==> dp[0, y] == y
      invariant forall x, y :: 1 <= x < dp.Length0 && 1 <= y < dp.Length1 ==> dp[x, y] == old(dp[x, y])
    {
      dp[0, j] := j;
    }
  }

  lemma CellBorder(ra: string, rb: string, i: nat)
    requires i <= |ra|
    ensures Cell(ra, rb, i, 0) == i
  {
  }

  lemma CellStep(ra: string, rb: string, i: nat, j: nat)
    requires 1 <= i <= |ra| && 1 <= j <= |rb|
    ensures Cell(ra, rb, i, j) ==
            Min3(Cell(ra, rb, i - 1, j) + 1, Cell(ra, rb, i, j - 1) + 1,
                 Cell(ra, rb, i - 1, j - 1) + SubstitutionCost(ra[i - 1], rb[j - 1]))
  {
  }

  /** Row `i` from row `i - 1`. */
  method FillRow(dp: array2<int>, ra: string, rb: string, i: nat)
    requires 1 <= i <= |ra| && dp.Length0 == |ra| + 1 && dp.Length1 == |rb| + 1
    requires dp[i, 0] == i
    requires forall x, y :: 0 <= x < i && 0 <= y <= |rb| ==> dp[x, y] == Cell(ra, rb, x, y)
    modifies dp
    ensures forall y :: 0 <= y <= |rb| ==> dp[i, y] == Cell(ra, rb, i, y)
    ensures forall x, y :: 0 <= x <= |ra| && 0 <= y <= |rb| && x != i ==> dp[x, y] == old(dp[x, y])
  {
    hide Min3, Cell;
    CellBorder(ra, rb, i);
    for j := 1 to |rb| + 1
      invariant forall x, y :: 0 <= x <= |ra| && 0 <= y <= |rb| && x != i ==> dp[x, y] == old(dp[x, y])
      invariant forall y :: 0 <= y < j ==> dp[i, y] == Cell(ra, rb, i, y)
    {
      var cost := 1;
      if ra[i - 1] == rb[j - 1] {
        cost := 0;
      }
      var v := Min3(dp[i - 1, j] + 1, dp[i, j - 1] + 1, dp[i - 1, j - 1] + cost);
      CellStep(ra, rb, i, j);
      label before:
      dp[i, j] := v;
      assert forall y :: 0 <= y < j ==> dp[i, y] == old@before(dp[i, y]);
    }
  }

  /** Row-by-row table filling over runes. */
  method Compute(ra: string, rb: string) returns (d: nat)
    ensures d == Distance(ra, rb)
  {
    hide Distance, Min3;
    var la, lb := |ra|, |rb|;
    CellIsPrefixDistance(ra, rb, la, lb);
    assert ra[..la] == ra && rb[..lb] == rb;
    if la == 0 {
      return lb;
    }
    if lb == 0 {
      return la;
    }
    var dp := new int[la + 1, lb + 1];
    FillBorders(dp);
    for i := 1 to la + 1
      invariant forall x :: i <= x <= la ==> dp[x, 0] == x
      invariant forall x, y :: 0 <= x < i && 0 <= y <= lb ==> dp[x, y] == Cell(ra, rb, x, y)
    {
      FillRow(dp, ra, rb, i);
    }
    d := dp[la, lb];
  }

  // ----- similarity: runes in the distance, bytes in the divisor -------------------------------

  function LargerByteLength(a: string, b: string): nat {
    if ByteLength(b) > ByteLength(a) then ByteLength(b) else ByteLength(a)
  }

  function Similarity(a: string, b: string): real {
    var max := LargerByteLength(a, b);
    if max == 0 then 1.0 else 1.0 - Distance(a, b) as real / max as real
  }

  lemma DistanceWithinBytes(a: string, b: string)
    ensures Distance(a, b) <= LargerByteLength(a, b)
  {
    DistanceBounds(a, b);
    ByteLengthCoversRunes(a);
    ByteLengthCoversRunes(b);
  }

  lemma SimilarityInUnitInterval(a: string, b: string)
    ensures 0.0 <= Similarity(a, b) <= 1.0
    ensures Similarity(a, b) == 1.0 <==> a == b
  {
    DistanceWithinBytes(a, b);
    DistanceZeroIffEqual(a, b);
    ByteLengthCoversRunes(a);
    ByteLengthCoversRunes(b);
    var d, max := Distance(a, b), LargerByteLength(a, b);
    if max > 0 {
      assert d as real <= max as real;
      FractionBounds(d as real, max as real);
    }
  }

  lemma FractionBounds(d: real, m: real)
    requires 0.0 <= d <= m && m > 0.0
    ensures 0.0 <= d / m <= 1.0
    ensures d / m == 0.0 <==> d == 0.0
  {
  }

  lemma SimilaritySymmetric(a: string, b: string)
    ensures Similarity(a, b) == Similarity(b, a)
  {
    DistanceSymmetric(a, b);
  }

  /** A cut-off `1 - t` is cleared exactly when the edits stay within the fraction `t` of the bytes. */
  lemma SimilarityCutOff(a: string, b: string, t: real)
    requires 0.0 <= t < 1.0
    ensures Similarity(a, b) >= 1.0 - t <==>
            Distance(a, b) as real <= t * LargerByteLength(a, b) as real
  {
    DistanceWithinBytes(a, b);
    hide Distance, LargerByteLength;
    var d, max := Distance(a, b), LargerByteLength(a, b);
    if max > 0 {
      DivisionCutOff(d as real, max as real, t);
    } else {
      assert d == 0;
    }
  }

  lemma DivisionCutOff(d: real, m: real, t: real)
    requires m > 0.0
    ensures d / m <= t <==> d <= t * m
  {
    assert (d / m) * m == d;
    if d / m <= t {
      assert (d / m) * m <= t * m;
    } else {
      assert (d / m) * m > t * m;
    }
  }

  /** Below 100 bytes the 0.99 cut-off means identity. */
  lemma NearOneMeansEqual(a: string, b: string)
    requires LargerByteLength(a, b) < 100
    ensures Similarity(a, b) >= 0.99 <==> a == b
  {
    SimilarityCutOff(a, b, 0.01);
    DistanceZeroIffEqual(a, b);
  }

  /** The bound is sharp: strings one edit apart pass the cut-off exactly from 100 bytes on. */
  lemma OneEditPassesFromHundred(a: string, b: string)
    requires Distance(a, b) == 1
    ensures Similarity(a, b) >= 0.99 <==> LargerByteLength(a, b) >= 100
  {
    hide Distance, LargerByteLength;
    SimilarityCutOff(a, b, 0.01);
  }

  /** A proper near-match (0.92 up to 0.99) needs at least 13 bytes on the longer side. */
  lemma FuzzyNeedsThirteenBytes(a: string, b: string)
    requires 0.92 <= Similarity(a, b) < 0.99
    ensures LargerByteLength(a, b) >= 13
    ensures a != b
  {
    SimilarityCutOff(a, b, 0.08);
    SimilarityInUnitInterval(a, b);
    DistanceZeroIffEqual(a, b);
  }
}
