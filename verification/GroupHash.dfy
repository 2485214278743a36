/** The text that identifies a cluster before it is digested (internal/services/identity/detector.go).
  *
  * `sort.Slice` is represented by insertion into a sorted list; SHA-256 is not part of this model.
  */
module GroupHash {
  import opened Normalization

  // ----- decimal rendering -------------------------------------------------------------------------

  function Digit(d: nat): char
    requires d < 10
  {
    '0' + d as char
  }

  function Digits(n: nat): (s: string)
    ensures s != [] && IsDigit(s[0])
    ensures |s| == 1 <==> n < 10
    ensures forall c :: c in s ==> IsDigit(c)
  {
    if n < 10 then [Digit(n)] else Digits(n / 10) + [Digit(n % 10)]
  }

  /** The verb %d. */
  function Decimal(i: int): (s: string)
    ensures s != [] && (s[0] == '-' <==> i < 0)
  {
    if i < 0 then "-" + Digits(-i) else Digits(i)
  }

  lemma {:induction false} DigitsInjective(m: nat, n: nat)
    requires Digits(m) == Digits(n)
    ensures m == n
    decreases m
  {
    var s, t := Digits(m), Digits(n);
    assert s[|s| - 1] == Digit(m % 10) && t[|t| - 1] == Digit(n % 10);
    assert m % 10 == n % 10;
    if m >= 10 && n >= 10 {
      assert s[..|s| - 1] == Digits(m / 10) && t[..|t| - 1] == Digits(n / 10);
      DigitsInjective(m / 10, n / 10);
    }
  }

  lemma DecimalInjective(i: int, j: int)
    requires Decimal(i) == Decimal(j)
    ensures i == j
  {
    if i < 0 && j < 0 {
      assert Decimal(i)[1..] == Digits(-i) && Decimal(j)[1..] == Digits(-j);
      DigitsInjective(-i, -j);
    } else if i >= 0 && j >= 0 {
      DigitsInjective(i, j);
    }
  }

  /** The number a text of decimal digits stands for. */
  function NumberOf(s: string): int {
    if s == "" then 0 else 10 * NumberOf(s[..|s| - 1]) + (s[|s| - 1] as int - '0' as int)
  }

  lemma {:induction false} DigitsDenote(n: nat)
    ensures NumberOf(Digits(n)) == n
  {
    var s := Digits(n);
    if n < 10 {
      assert s[..0] == "" && NumberOf(s[..0]) == 0;
    } else {
      DigitsDenote(n / 10);
      assert s[..|s| - 1] == Digits(n / 10);
    }
  }

  /** The text of a number reads as that number, with a minus sign in front when it is negative. */
  lemma DecimalDenotes(i: int)
    ensures NumberOf(if i < 0 then Decimal(i)[1..] else Decimal(i)) == if i < 0 then -i else i
  {
    DigitsDenote(if i < 0 then -i else i);
    if i < 0 {
      assert Decimal(i)[1..] == Digits(-i);
    }
  }

  lemma DecimalHasNoComma(i: int)
    ensures ',' !in Decimal(i)
  {
  }

  // ----- the digested text ---------------------------------------------------------------------------

  function Preimage(sorted: seq<int>): string {
    if sorted == [] then "" else Decimal(sorted[0]) + "," + Preimage(sorted[1..])
  }

  lemma {:induction false} PreimageInjective(x: seq<int>, y: seq<int>)
    requires Preimage(x) == Preimage(y)
    ensures x == y
    decreases |x|
  {
    hide Preimage, Decimal, FirstIndex;
    EmptyPreimage(x);
    EmptyPreimage(y);
    if x != [] && y != [] {
      FieldThenRest(x);
      FieldThenRest(y);
      DecimalInjective(x[0], y[0]);
      PreimageInjective(x[1..], y[1..]);
      assert x == [x[0]] + x[1..] && y == [y[0]] + y[1..];
    }
  }

  lemma EmptyPreimage(x: seq<int>)
    ensures Preimage(x) == "" <==> x == []
  {
  }

  lemma FieldThenRest(x: seq<int>)
    requires x != []
    ensures var (p, d) := (Preimage(x), Decimal(x[0]));
            && FirstIndex(p, ',') == |d| && |d| < |p|
            && p[..|d|] == d
            && p[|d| + 1..] == Preimage(x[1..])
  {
    var p, d := Preimage(x), Decimal(x[0]);
    DecimalHasNoComma(x[0]);
    assert p == d + "," + Preimage(x[1..]);
    assert p[..|d|] == d && p[|d|] == ',';
    FirstIndexIs(p, ',', |d|);
  }

  // ----- sorting -----------------------------------------------------------------------------------

  predicate IsSorted(s: seq<int>) {
    forall i, j :: 0 <= i < j < |s| ==> s[i] <= s[j]
  }

  function Insert(x: int, s: seq<int>): (r: seq<int>)
    requires IsSorted(s)
    ensures IsSorted(r) && multiset(r) == multiset(s) + multiset{x}
  {
    if s == [] then [x]
    else if x <= s[0] then
      InsertedInFront(x, s);
      [x] + s
    else
      SortedTail(s);
      var r := Insert(x, s[1..]);
      InsertedBehind(x, s, r);
      [s[0]] + r
  }

  lemma InsertedInFront(x: int, s: seq<int>)
    requires IsSorted(s) && s != [] && x <= s[0]
    ensures IsSorted([x] + s) && multiset([x] + s) == multiset(s) + multiset{x}
  {
  }

  lemma SortedTail(s: seq<int>)
    requires IsSorted(s) && s != []
    ensures IsSorted(s[1..])
  {
  }

  lemma InsertedBehind(x: int, s: seq<int>, r: seq<int>)
    requires IsSorted(s) && s != [] && s[0] <= x
    requires IsSorted(r) && multiset(r) == multiset(s[1..]) + multiset{x}
    ensures IsSorted([s[0]] + r) && multiset([s[0]] + r) == multiset(s) + multiset{x}
  {
    assert s == [s[0]] + s[1..];
    forall k | 0 <= k < |r|
      ensures s[0] <= r[k]
    {
      assert r[k] in multiset(r);
      assert r[k] in s[1..] || r[k] == x;
    }
  }

  function Sorted(ids: seq<int>): (r: seq<int>)
    ensures IsSorted(r) && multiset(r) == multiset(ids)
  {
    if ids == [] then []
    else
      assert ids == [ids[0]] + ids[1..];
      Insert(ids[0], Sorted(ids[1..]))
  }

  lemma {:induction false} SortedIsUnique(x: seq<int>, y: seq<int>)
    requires IsSorted(x) && IsSorted(y) && multiset(x) == multiset(y)
    ensures x == y
    decreases |x|
  {
    SameLength(x, y);
    if x != [] {
      HeadIsLeast(x, y);
      HeadIsLeast(y, x);
      TailMultiset(x);
      TailMultiset(y);
      SortedIsUnique(x[1..], y[1..]);
      assert x == [x[0]] + x[1..] && y == [y[0]] + y[1..];
    }
  }

  lemma SameLength(x: seq<int>, y: seq<int>)
    requires multiset(x) == multiset(y)
    ensures |x| == |y|
  {
    assert |multiset(x)| == |x| && |multiset(y)| == |y|;
  }

  lemma HeadIsLeast(x: seq<int>, y: seq<int>)
    requires IsSorted(y) && multiset(x) == multiset(y) && x != [] && y != []
    ensures y[0] <= x[0]
  {
    assert x[0] in multiset(x);
    assert x[0] in y;
  }

  lemma TailMultiset(x: seq<int>)
    requires x != []
    ensures multiset(x[1..]) == multiset(x) - multiset{x[0]}
  {
    assert x == [x[0]] + x[1..];
  }

  /** The text two clusters are identified by is the same exactly when they have the same members. */
  lemma PreimageIdentifiesMembers(x: seq<int>, y: seq<int>)
    ensures Preimage(Sorted(x)) == Preimage(Sorted(y)) <==> multiset(x) == multiset(y)
  {
    if Preimage(Sorted(x)) == Preimage(Sorted(y)) {
      PreimageInjective(Sorted(x), Sorted(y));
    }
    if multiset(x) == multiset(y) {
      SortedIsUnique(Sorted(x), Sorted(y));
    }
  }

  /** Spelled out: the least member comes first, a comma after it, then the text of the others. */
  lemma LeastComesFirst(x: int, rest: seq<int>)
    requires forall y :: y in rest ==> x <= y
    ensures Preimage(Sorted([x] + rest)) == Decimal(x) + "," + Preimage(Sorted(rest))
  {
    var s := Sorted(rest);
    assert ([x] + rest)[1..] == rest;
    if s != [] {
      assert s[0] in multiset(s);
      assert s[0] in rest;
    }
    assert Insert(x, s) == [x] + s;
    assert ([x] + s)[1..] == s;
  }

  /** The hashing loop, up to the digest. */
  method GroupHashInput(ids: seq<int>) returns (text: string)
    ensures text == Preimage(Sorted(ids))
  {
    var sorted := Sorted(ids);
    text := "";
    for i := 0 to |sorted|
      invariant text + Preimage(sorted[i..]) == Preimage(sorted)
    {
      assert sorted[i..][1..] == sorted[i + 1..];
      var field := Decimal(sorted[i]) + ",";
      assert text + (field + Preimage(sorted[i + 1..])) == (text + field) + Preimage(sorted[i + 1..]);
      text := text + field;
    }
  }
}
