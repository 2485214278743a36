/** Which customers the bucket indexes bring together (internal/services/identity/detector.go). */
module Buckets {
  import opened Normalization
  import opened Scorer
  import opened Blocking
  import opened SignalMeaning

  // ----- streets without their units -----------------------------------------------------------------

  /** The first occurrence of `p`, if there is one. */
  lemma {:induction false} IndexOfIsFirst(s: string, p: string)
    ensures var k := IndexOf(s, p);
            if k < 0 then forall m :: 0 <= m <= |s| ==> !(p <= s[m..])
            else p <= s[k..] && forall m :: 0 <= m < k ==> !(p <= s[m..])
  {
    assert s[0..] == s;
    if !(p <= s) && s != [] {
      IndexOfIsFirst(s[1..], p);
      forall m | 1 <= m <= |s|
        ensures s[m..] == s[1..][m - 1..]
      {
      }
    }
  }

  /** The marks that set a unit off from its street. */
  predicate IsUnitMark(u: string) {
    u in {" apt ", " apt.", " unit ", " suite ", " ste ", " #", " no."}
  }

  lemma MarksAreListed()
    ensures forall u :: IsUnitMark(u) <==> u in UNIT_PREFIXES
    ensures forall u :: IsUnitMark(u) ==> u != ""
  {
  }

  /** The marks of the text, if any, all stand at position `n`. */
  ghost predicate MarkedAt(s: string, n: nat) {
    forall u, m :: IsUnitMark(u) && 0 <= m <= |s| && u <= s[m..] ==> m == n
  }

  predicate StartsWithOne(s: string, prefixes: seq<string>) {
    exists k :: 0 <= k < |prefixes| && prefixes[k] <= s
  }

  lemma StartsWithStep(s: string, prefixes: seq<string>)
    requires prefixes != []
    ensures StartsWithOne(s, prefixes) <==> prefixes[0] <= s || StartsWithOne(s, prefixes[1..])
  {
    if StartsWithOne(s, prefixes) {
      var k :| 0 <= k < |prefixes| && prefixes[k] <= s;
      assert k > 0 ==> prefixes[1..][k - 1] == prefixes[k];
    }
    if StartsWithOne(s, prefixes[1..]) {
      var k :| 0 <= k < |prefixes| - 1 && prefixes[1..][k] <= s;
      assert prefixes[k + 1] == prefixes[1..][k];
    }
  }

  ghost predicate Unmarked(s: string) {
    forall u, m :: IsUnitMark(u) && 0 <= m <= |s| ==> !(u <= s[m..])
  }

  lemma {:induction false} UnmarkedIsWhole(s: string, prefixes: seq<string>)
    requires Unmarked(s) && forall u :: u in prefixes ==> IsUnitMark(u)
    ensures CutUnits(s, prefixes) == s
    decreases |prefixes|
  {
    hide IsUnitMark;
    if prefixes != [] {
      assert IsUnitMark(prefixes[0]);
      IndexOfIsFirst(s, prefixes[0]);
      UnmarkedIsWhole(s, prefixes[1..]);
    }
  }

  lemma BeforeMarkIsUnmarked(s: string, n: nat)
    requires n <= |s| && MarkedAt(s, n)
    ensures Unmarked(TrimSpace(s[..n]))
  {
    MarksAreListed();
    hide IsUnitMark, TrimSpace;
    var i, j := TrimIsSlice(s[..n]);
    var t := TrimSpace(s[..n]);
    forall u, m | IsUnitMark(u) && 0 <= m <= |t|
      ensures !(u <= t[m..])
    {
      assert t[m..] == s[i + m..j];
      assert s[i + m..j] <= s[i + m..];
    }
  }

  lemma {:induction false} CutAtMark(s: string, n: nat, prefixes: seq<string>)
    requires 0 < n <= |s| && MarkedAt(s, n)
    requires forall u :: u in prefixes ==> IsUnitMark(u)
    ensures CutUnits(s, prefixes) == if StartsWithOne(s[n..], prefixes) then TrimSpace(s[..n]) else s
    decreases |prefixes|
  {
    hide IsUnitMark, TrimSpace, StartsWithOne;
    if prefixes == [] {
      NoneStarts(s[n..]);
    } else {
      var k, rest := IndexOf(s, prefixes[0]), prefixes[1..];
      assert IsUnitMark(prefixes[0]);
      IndexOfIsFirst(s, prefixes[0]);
      assert k >= 0 ==> k == n;
      StartsWithStep(s[n..], prefixes);
      if k >= 0 {
        BeforeMarkIsUnmarked(s, n);
        UnmarkedIsWhole(TrimSpace(s[..n]), rest);
      } else {
        assert !(prefixes[0] <= s[n..]);
        CutAtMark(s, n, rest);
      }
    }
  }

  lemma NoneStarts(s: string)
    ensures !StartsWithOne(s, [])
  {
  }

  /** A street, as typed in, counts without the unit behind a mark, without case and outer white space.
      Two streets with marks at one place each are the same when they read the same up to there. */
  lemma UnitsAreDropped(street: string, n: nat)
    ensures var s := Lower(TrimSpace(street));
            && (Unmarked(s) ==> NormalizeStreet(street) == s)
            && (0 < n <= |s| && MarkedAt(s, n) && (exists u :: IsUnitMark(u) && u <= s[n..]) ==>
                  NormalizeStreet(street) == TrimSpace(s[..n]))
  {
    var s := Lower(TrimSpace(street));
    MarksAreListed();
    hide IsUnitMark, CutUnits;
    if Unmarked(s) {
      UnmarkedIsWhole(s, UNIT_PREFIXES);
    }
    if 0 < n <= |s| && MarkedAt(s, n) && exists u :: IsUnitMark(u) && u <= s[n..] {
      CutAtMark(s, n, UNIT_PREFIXES);
      var u :| IsUnitMark(u) && u <= s[n..];
      assert u in UNIT_PREFIXES;
    }
  }

  // ----- who shares a bucket -------------------------------------------------------------------------

  /** The same city and zip, one of them given, and the same street but for its unit. */
  predicate SameHouse(a: Customer, b: Customer) {
    && a.address.Decoded? && b.address.Decoded?
    && Entry(a, "city") == Entry(b, "city") && Entry(a, "zip") == Entry(b, "zip")
    && (Entry(a, "city") != "" || Entry(a, "zip") != "")
    && NormalizeStreet(StreetOf(a)) == NormalizeStreet(StreetOf(b))
  }

  function StreetOf(c: Customer): string {
    if c.address.Decoded? && "address1" in c.address.fields then c.address.fields["address1"] else ""
  }

  /** The last seven digits of two numbers. */
  predicate SameSuffix(p: string, q: string) {
    |p| >= 7 && |q| >= 7 && p[|p| - 7..] == q[|q| - 7..]
  }

  /** Whatever the number of customers: the same email domain, or none on either side, the same last seven
      digits of the phone, and the same house are looked at together. */
  lemma BucketsBringTogether(cs: seq<Customer>, i: int, j: int)
    requires 0 <= i < j < |cs|
    ensures EmailDomain(cs[i].email) == EmailDomain(cs[j].email) ==> Candidate(cs, i, j)
    ensures SameSuffix(NormalizePhone(cs[i].phone), NormalizePhone(cs[j].phone)) ==> Candidate(cs, i, j)
    ensures SameHouse(cs[i], cs[j]) ==> Candidate(cs, i, j)
  {
    hide NormalizePhone, EmailDomain, NormalizeStreet, NamesClose, Lower, TrimSpace;
  }

  /** The parts of a bucket key are told apart as long as none of them contains the bar between them. */
  predicate NoBars(c: Customer) {
    '|' !in NormalizeStreet(StreetOf(c)) && '|' !in Entry(c, "city") && '|' !in Entry(c, "zip")
  }

  function KeyParts(street: string, city: string, zip: string): (parts: seq<string>)
    ensures |parts| >= 2
  {
    if street == "" then [city, zip] else [street, city, zip]
  }

  lemma KeyOfParts(c: Customer)
    ensures var (city, zip) := (Entry(c, "city"), Entry(c, "zip"));
            AddressKey(c) == if c.address.Decoded? && (city != "" || zip != "")
                             then Some(Barred(KeyParts(NormalizeStreet(StreetOf(c)), city, zip))) else None
  {
    hide NormalizeStreet, Lower, TrimSpace;
    BarredParts(NormalizeStreet(StreetOf(c)), Entry(c, "city"), Entry(c, "zip"));
  }

  lemma BarredParts(street: string, city: string, zip: string)
    ensures Barred(KeyParts(street, city, zip)) ==
            if street != "" then street + "|" + city + "|" + zip else city + "|" + zip
  {
    assert [city, zip][1..] == [zip] && [street, city, zip][1..] == [city, zip];
    assert Barred([city, zip]) == city + "|" + zip;
    assert street + "|" + (city + "|" + zip) == street + "|" + city + "|" + zip;
  }

  function Barred(parts: seq<string>): string
    requires parts != []
  {
    if |parts| == 1 then parts[0] else parts[0] + "|" + Barred(parts[1..])
  }

  lemma {:induction false} BarredInjective(v: seq<string>, w: seq<string>)
    requires v != [] && w != []
    requires forall k :: 0 <= k < |v| ==> '|' !in v[k]
    requires forall k :: 0 <= k < |w| ==> '|' !in w[k]
    ensures Barred(v) == Barred(w) <==> v == w
  {
    if Barred(v) == Barred(w) {
      FirstPart(v);
      FirstPart(w);
      if |v| > 1 && |w| > 1 {
        BarredInjective(v[1..], w[1..]);
        assert v == [v[0]] + v[1..] && w == [w[0]] + w[1..];
      }
    }
  }

  lemma FirstPart(v: seq<string>)
    requires v != [] && '|' !in v[0]
    ensures var s, k := Barred(v), |v[0]|;
            && FirstIndex(s, '|') == k && k <= |s| && s[..k] == v[0]
            && (k == |s| <==> |v| == 1) && (k < |s| ==> s[k + 1..] == Barred(v[1..]))
  {
    var s := Barred(v);
    assert s[..|v[0]|] == v[0];
    FirstIndexIs(s, '|', |v[0]|);
  }

  /** So, bars aside, the address bucket holds exactly those in the same house. */
  lemma AddressBucketIsHouse(a: Customer, b: Customer)
    requires NoBars(a) && NoBars(b)
    ensures SameKey(AddressKey(a), AddressKey(b)) <==> SameHouse(a, b)
  {
    var (x, c, z) := (NormalizeStreet(StreetOf(a)), Entry(a, "city"), Entry(a, "zip"));
    var (y, d, w) := (NormalizeStreet(StreetOf(b)), Entry(b, "city"), Entry(b, "zip"));
    KeyOfParts(a);
    KeyOfParts(b);
    hide NormalizeStreet, Entry, Barred, AddressKey, StreetOf;
    BarredInjective(KeyParts(x, c, z), KeyParts(y, d, w));
    PartsDiffer(x, c, z, y, d, w);
    hide KeyParts;
  }

  lemma PartsDiffer(x: string, c: string, z: string, y: string, d: string, w: string)
    ensures KeyParts(x, c, z) == KeyParts(y, d, w) <==> x == y && c == d && z == w
  {
    var v, u := KeyParts(x, c, z), KeyParts(y, d, w);
    assert v == u ==> |v| == |u| && forall k :: 0 <= k < |v| ==> v[k] == u[k];
  }

  /** And nobody else is looked at, but close names among at most 500 customers.  A customer without a domain
      is filed under a word of its own, which would also do as a domain. */
  lemma CandidateIff(cs: seq<Customer>, i: int, j: int)
    requires 0 <= i < j < |cs|
    ensures var (a, b) := (cs[i], cs[j]);
            var (x, y) := (EmailDomain(a.email), EmailDomain(b.email));
            Candidate(cs, i, j) <==>
              || x == y || (x == "" && y == "__no_domain__") || (x == "__no_domain__" && y == "")
              || SameSuffix(NormalizePhone(a.phone), NormalizePhone(b.phone))
              || SameKey(AddressKey(a), AddressKey(b))
              || (|cs| <= 500 && x != y && NameSimilarity(a.name, b.name) >= 0.82)
  {
    hide NormalizePhone, EmailDomain, AddressKey, NameSimilarity;
  }
}
