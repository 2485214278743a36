/** What each signal of a scored pair says about the two customers (internal/services/identity/scorer.go).
  *
  * The signals pass through normalisation, comparison, extraction and the merchant's switches.  Here every
  * one of them is read off the two customers and the switches directly: similarities as edits per byte,
  * names by their words, addresses by their entries.
  */
module SignalMeaning {
  import opened Text
  import opened Normalization
  import opened Scorer
  import Levenshtein

  /** At most `percent` edits per hundred bytes of the longer text. */
  predicate WithinEdits(x: string, y: string, percent: nat) {
    100 * Levenshtein.Distance(x, y) <= percent * ByteLength(x) ||
    100 * Levenshtein.Distance(x, y) <= percent * ByteLength(y)
  }

  lemma SimilarityIsEdits(x: string, y: string, percent: nat)
    requires percent < 100
    ensures Levenshtein.Similarity(x, y) >= 1.0 - percent as real / 100.0 <==> WithinEdits(x, y, percent)
  {
    hide *;
    var t := percent as real / 100.0;
    var (d, m) := (Levenshtein.Distance(x, y), Levenshtein.LargerByteLength(x, y));
    Fraction(percent);
    Levenshtein.SimilarityCutOff(x, y, t);
    Hundredths(d, m, percent);
    WithinLarger(x, y, percent);
  }

  lemma Fraction(percent: nat)
    requires percent < 100
    ensures 0.0 <= percent as real / 100.0 < 1.0
  {
  }

  lemma WithinLarger(x: string, y: string, percent: nat)
    ensures WithinEdits(x, y, percent) <==>
            100 * Levenshtein.Distance(x, y) <= percent * Levenshtein.LargerByteLength(x, y)
  {
    hide Levenshtein.Distance, ByteLength;
    LargerDecides(Levenshtein.Distance(x, y), ByteLength(x), ByteLength(y), percent);
  }

  lemma Hundredths(d: nat, m: nat, percent: nat)
    ensures d as real <= percent as real / 100.0 * m as real <==> 100 * d <= percent * m
  {
    assert percent as real / 100.0 * m as real == (percent * m) as real / 100.0;
  }

  lemma LargerDecides(d: nat, x: nat, y: nat, percent: nat)
    ensures 100 * d <= percent * x || 100 * d <= percent * y <==> 100 * d <= percent * if y > x then y else x
  {
    if y > x {
      assert percent * x <= percent * y;
    } else {
      assert percent * y <= percent * x;
    }
  }

  // ----- email -----------------------------------------------------------------------------------

  /** `e` is a local part and a domain, joined by the first at sign. */
  predicate IsAddress(e: string, local: string, domain: string) {
    e == local + "@" + domain && '@' !in local
  }

  lemma SplitIsAddress(e: string, local: string, domain: string)
    ensures IsAddress(e, local, domain) <==> SplitEmail(e) == Some((local, domain))
  {
    var at := FirstIndex(e, '@');
    if IsAddress(e, local, domain) {
      assert e[..|local|] == local && e[|local| + 1..] == domain;
      FirstIndexIs(e, '@', |local|);
    }
  }

  /** Same domain, different local parts. */
  ghost predicate SameDomain(x: string, y: string) {
    exists l, m, d :: IsAddress(x, l, d) && IsAddress(y, m, d) && l != m
  }

  /** Different domains, and local parts within `percent` edits per hundred bytes. */
  ghost predicate LocalPartsWithin(x: string, y: string, percent: nat) {
    exists l, m, c, d :: IsAddress(x, l, c) && IsAddress(y, m, d) && c != d && WithinEdits(l, m, percent)
  }

  lemma ComparedEmails(x: string, y: string)
    ensures var e := CompareEmails(x, y);
            && (e.exact <==> x != "" && x == y)
            && (e.domainMatch <==> SameDomain(x, y))
            && (e.localExact <==> LocalPartsWithin(x, y, 1))
            && (e.localFuzzy <==> LocalPartsWithin(x, y, 8) && !LocalPartsWithin(x, y, 1))
  {
    hide Levenshtein.Similarity, WithinEdits, IsAddress, SplitEmail;
    SplitNonEmpty(x);
    SplitNonEmpty(y);
    forall l, d
      ensures IsAddress(x, l, d) <==> SplitEmail(x) == Some((l, d))
      ensures IsAddress(y, l, d) <==> SplitEmail(y) == Some((l, d))
    {
      SplitIsAddress(x, l, d);
      SplitIsAddress(y, l, d);
    }
    match (SplitEmail(x), SplitEmail(y))
    case (Some((l, c)), Some((m, d))) =>
      SplitIsWhole(x, y);
      SimilarityIsEdits(l, m, 1);
      SimilarityIsEdits(l, m, 8);
    case _ =>
  }

  lemma SplitNonEmpty(x: string)
    ensures SplitEmail(x).Some? ==> x != ""
  {
  }

  lemma EmailSignalsMean(a: Customer, b: Customer, o: ScoreOptions)
    ensures var (s, x, y) := (ScorePair(a, b, o).sig, NormalizeEmail(a.email), NormalizeEmail(b.email));
            && (s.emailExact <==> o.signalEmail && x != "" && x == y)
            && (s.emailDomainMatch <==> o.signalEmail && SameDomain(x, y))
            && (s.emailLocalExact <==> o.signalEmail && LocalPartsWithin(x, y, 1))
            && (s.emailLocalFuzzy <==> o.signalEmail && LocalPartsWithin(x, y, 8) && !LocalPartsWithin(x, y, 1))
            && (s.differentEmailDomain <==>
                  o.signalEmail && x != "" && y != "" && x != y && !SameDomain(x, y) && !LocalPartsWithin(x, y, 8))
  {
    hide NormalizeEmail, NormalizeName, NormalizePhone, CompareEmails, SameDomain, LocalPartsWithin, ComputeConfidence;
    hide AddressSimilarity, NameSimilarity, LastToken;
    var x, y := NormalizeEmail(a.email), NormalizeEmail(b.email);
    ComparedEmails(x, y);
    MoreEdits(x, y);
    assert ScorePair(a, b, o).sig == MaskSignals(RawSignals(a, b), o);
  }

  lemma MoreEdits(x: string, y: string)
    ensures LocalPartsWithin(x, y, 1) ==> LocalPartsWithin(x, y, 8)
  {
    if l, m, c, d :| IsAddress(x, l, c) && IsAddress(y, m, d) && c != d && WithinEdits(l, m, 1) {
      assert WithinEdits(l, m, 8);
    }
  }

  /** The displayed email similarity: across domains graded by the edits of the local parts, within a domain
      four fifths of their similarity. */
  lemma EmailSimilarityGrades(x: string, y: string, l: string, c: string, m: string, d: string)
    requires IsAddress(x, l, c) && IsAddress(y, m, d) && x != y
    ensures c == d ==> EmailSimilarity(x, y) == 0.8 * Levenshtein.Similarity(l, m)
    ensures c != d ==>
              EmailSimilarity(x, y) ==
                if WithinEdits(l, m, 1) then 0.35 else if WithinEdits(l, m, 8) then 0.25
                else if WithinEdits(l, m, 25) then 0.15 else 0.0
  {
    hide Levenshtein.Similarity, WithinEdits, IsAddress, SplitEmail;
    SplitIsAddress(x, l, c);
    SplitIsAddress(y, m, d);
    SplitIsWhole(x, y);
    SimilarityIsEdits(l, m, 1);
    SimilarityIsEdits(l, m, 8);
    SimilarityIsEdits(l, m, 25);
  }

  /** Without a domain on either side the whole texts are compared. */
  lemma EmailSimilarityOfPlainTexts(x: string, y: string)
    requires x != "" && y != "" && ('@' !in x || '@' !in y)
    ensures EmailSimilarity(x, y) == Levenshtein.Similarity(x, y)
  {
    Levenshtein.SimilarityInUnitInterval(x, y);
    hide Levenshtein.Similarity;
    assert '@' !in x ==> FirstIndex(x, '@') == |x|;
    assert '@' !in y ==> FirstIndex(y, '@') == |y|;
  }

  // ----- phone -----------------------------------------------------------------------------------

  /** One number is the other with digits in front, a country code say. */
  ghost predicate Prefixed(p: string, q: string) {
    exists code: string :: code != "" && (p == code + q || q == code + p)
  }

  lemma NestedIsPrefixed(p: string, q: string)
    ensures p != q && PhonesNested(p, q) <==> Prefixed(p, q)
  {
    if HasSuffix(p, q) {
      assert p == p[..|p| - |q|] + q;
    }
    if HasSuffix(q, p) {
      assert q == q[..|q| - |p|] + p;
    }
  }

  lemma PhoneSignalsMean(a: Customer, b: Customer, o: ScoreOptions)
    ensures var (s, p, q) := (ScorePair(a, b, o).sig, NormalizePhone(a.phone), NormalizePhone(b.phone));
            && (s.phoneExact <==> o.signalPhone && p != "" && p == q)
            && (s.phoneSuffix <==> o.signalPhone && p != "" && q != "" && Prefixed(p, q))
            && (s.phoneAsymmetry <==> o.signalPhone && (p == "" <==> q != ""))
            && ScorePair(a, b, o).phoneSim ==
                 (if !o.signalPhone || p == "" || q == "" then 0.0 else if p == q then 1.0
                  else if Prefixed(p, q) then 0.8 else 0.0)
  {
    hide NormalizeEmail, NormalizeName, NormalizePhone, CompareEmails, ComputeConfidence, PhonesNested, Prefixed;
    hide AddressSimilarity, NameSimilarity, LastToken;
    NestedIsPrefixed(NormalizePhone(a.phone), NormalizePhone(b.phone));
    assert ScorePair(a, b, o).sig == MaskSignals(RawSignals(a, b), o);
  }

  // ----- name ------------------------------------------------------------------------------------

  predicate NoBlank(w: string) {
    forall k :: 0 <= k < |w| ==> NameChar(w[k]) && w[k] != ' '
  }

  lemma {:induction false} WordsHaveNoBlank(s: string)
    ensures forall k :: 0 <= k < |Words(s)| ==> NoBlank(Words(s)[k])
  {
    if s != [] {
      WordsHaveNoBlank(s[1..]);
    }
  }

  lemma {:induction false} FinalWordAfter(p: string, u: string)
    requires NoBlank(u) && (p == "" || IsSpace(p[|p| - 1]))
    ensures FinalWord(p + u) == u
  {
    if u == "" {
      assert p + u == p;
    } else {
      var n := |u| - 1;
      assert (p + u)[..|p + u| - 1] == p + u[..n];
      FinalWordAfter(p, u[..n]);
    }
  }

  lemma {:induction false} JoinEnds(w: seq<string>) returns (p: string)
    requires w != []
    ensures Join(w) == p + w[|w| - 1] && (p == "" || p[|p| - 1] == ' ')
  {
    if |w| == 1 {
      p := "";
    } else {
      var q := JoinEnds(w[1..]);
      p := w[0] + " " + q;
      assert Join(w) == w[0] + " " + (q + w[|w| - 1]) == p + w[|w| - 1];
    }
  }

  /** The last word of the name as it was typed in. */
  lemma LastTokenIsLastWord(name: string)
    ensures LastToken(NormalizeName(name)) == if Words(name) == [] then "" else Words(name)[|Words(name)| - 1]
  {
    NormalizeNameJoinsWords(name);
    var w := Words(name);
    if w != [] {
      WordsHaveNoBlank(name);
      hide Words;
      var p := JoinEnds(w);
      FinalWordAfter(p, w[|w| - 1]);
      hide Join, FinalWord;
      var n := Join(w);
      assert n[|n| - 1] == w[|w| - 1][|w[|w| - 1]| - 1];
    }
  }

  lemma NameSignalsMean(a: Customer, b: Customer, o: ScoreOptions)
    ensures var (s, v, w) := (ScorePair(a, b, o).sig, Words(a.name), Words(b.name));
            var sim := NameSimilarity(Join(v), Join(w));
            && (s.nameHigh <==> o.signalName && sim >= 0.90)
            && (s.nameMedium <==> o.signalName && sim >= 0.82)
            && (s.differentLastName <==> o.signalName && v != [] && w != [] && v[|v| - 1] != w[|w| - 1])
            && ScorePair(a, b, o).nameSim == (if o.signalName then sim else 0.0)
  {
    hide NormalizeEmail, NormalizeName, NormalizePhone, CompareEmails, ComputeConfidence, LastToken, Words, Join;
    hide AddressSimilarity, NameSimilarity, PhonesNested;
    NormalizeNameJoinsWords(a.name);
    NormalizeNameJoinsWords(b.name);
    LastTokenIsLastWord(a.name);
    LastTokenIsLastWord(b.name);
    assert ScorePair(a, b, o).sig == MaskSignals(RawSignals(a, b), o);
  }

  // ----- profile address ---------------------------------------------------------------------------

  /** The entry of a decoded address, folded and trimmed; "" if there is none. */
  function Entry(c: Customer, key: string): string {
    if c.address.Decoded? && key in c.address.fields then Lower(TrimSpace(c.address.fields[key])) else ""
  }

  /** Both customers name a country, and not the same. */
  predicate DifferentCountries(a: Customer, b: Customer) {
    Entry(a, "country") != "" && Entry(b, "country") != "" && Entry(a, "country") != Entry(b, "country")
  }

  /** The country blocks exactly when both addresses name one and the two differ, whatever else they say;
      and then nothing scores, in any setting. */
  lemma CountryBlocks(a: Customer, b: Customer, o: ScoreOptions)
    ensures ScorePair(a, b, o).sig.sameCountry <==> !DifferentCountries(a, b)
    ensures DifferentCountries(a, b) ==> ScorePair(a, b, o).combined == 0.0 && ScorePair(a, b, o).source == NoSource
  {
    hide NormalizeEmail, NormalizeName, NormalizePhone, CompareEmails, LastToken, Lower, TrimSpace;
    hide AddressSimilarity, NameSimilarity, PhonesNested, BehavioralRule, ProfileConfidence;
    assert ScorePair(a, b, o).sig == MaskSignals(RawSignals(a, b), o);
  }

  /** The address as one line; an address without street, city and zip counts as none, and a column that is
      no object of strings is its own line. */
  lemma AddressLine(c: Customer)
    ensures c.address.NoAddress? ==> ExtractAddress(c) == ""
    ensures c.address.Undecodable? ==> ExtractAddress(c) == Lower(TrimSpace(c.address.raw))
    ensures c.address.Decoded? ==>
              ExtractAddress(c) ==
                if Entry(c, "address1") == "" && Entry(c, "city") == "" && Entry(c, "zip") == "" then ""
                else Entry(c, "address1") + "|" + Entry(c, "city") + "|" + Entry(c, "zip") + "|" +
                     Entry(c, "province") + "|" + Entry(c, "country")
  {
  }

  lemma AddressSignalsMean(a: Customer, b: Customer, o: ScoreOptions)
    ensures var (s, x, y) := (ScorePair(a, b, o).sig, ExtractAddress(a), ExtractAddress(b));
            && (s.addressExact <==> o.signalAddress && x != "" && y != "" && WithinEdits(x, y, 1))
            && (s.addressPartial <==> o.signalAddress && x != "" && y != "" && WithinEdits(x, y, 35))
  {
    hide NormalizeEmail, NormalizeName, NormalizePhone, CompareEmails, LastToken, ComputeConfidence, ExtractAddress;
    hide NameSimilarity, PhonesNested, WithinEdits, Levenshtein.Similarity, Levenshtein.Distance;
    var x, y := ExtractAddress(a), ExtractAddress(b);
    SimilarityIsEdits(x, y, 1);
    SimilarityIsEdits(x, y, 35);
    Levenshtein.SimilarityInUnitInterval(x, y);
    assert ScorePair(a, b, o).sig == MaskSignals(RawSignals(a, b), o);
  }

  /** Five entries joined by bars. */
  function Line(v: seq<string>): string
    requires |v| == 5
  {
    v[0] + "|" + v[1] + "|" + v[2] + "|" + v[3] + "|" + v[4]
  }

  function Entries(c: Customer): (v: seq<string>)
    ensures |v| == 5
  {
    [Entry(c, "address1"), Entry(c, "city"), Entry(c, "zip"), Entry(c, "province"), Entry(c, "country")]
  }

  /** The part of the line before entry `k`, and the part after it. */
  function Before(v: seq<string>, k: nat): string
    requires k <= |v|
  {
    if k == 0 then "" else Before(v, k - 1) + v[k - 1] + "|"
  }

  function After(v: seq<string>, k: nat): string
    requires k < |v|
    decreases |v| - k
  {
    if k + 1 == |v| then "" else "|" + v[k + 1] + After(v, k + 1)
  }

  lemma {:induction false} BeforeSame(v: seq<string>, w: seq<string>, k: nat)
    requires k <= |v| && k <= |w| && forall m :: 0 <= m < k ==> v[m] == w[m]
    ensures Before(v, k) == Before(w, k)
  {
    if k > 0 {
      BeforeSame(v, w, k - 1);
    }
  }

  lemma {:induction false} AfterSame(v: seq<string>, w: seq<string>, k: nat)
    requires k < |v| && |v| == |w| && forall m :: k < m < |v| ==> v[m] == w[m]
    ensures After(v, k) == After(w, k)
    decreases |v| - k
  {
    if k + 1 < |v| {
      AfterSame(v, w, k + 1);
    }
  }

  lemma {:induction false} LineAround(v: seq<string>, k: nat)
    requires |v| == 5 && k < 5
    ensures Line(v) == Before(v, k) + v[k] + After(v, k)
    decreases 5 - k
  {
    if k == 4 {
      assert Before(v, 1) == "" + v[0] + "|" == v[0] + "|";
      assert Before(v, 2) == Before(v, 1) + v[1] + "|";
      assert Before(v, 3) == Before(v, 2) + v[2] + "|";
      assert Before(v, 4) == Before(v, 3) + v[3] + "|";
      assert After(v, 4) == "";
    } else {
      LineAround(v, k + 1);
      assert Before(v, k + 1) + v[k + 1] + After(v, k + 1) ==
             Before(v, k) + v[k] + ("|" + v[k + 1] + After(v, k + 1));
    }
  }

  lemma Cancel(p: string, x: string, y: string, q: string)
    ensures p + x + q == p + y + q <==> x == y
  {
    if p + x + q == p + y + q {
      assert |x| == |y|;
      assert x == (p + x + q)[|p|..|p| + |x|] && y == (p + y + q)[|p|..|p| + |y|];
    }
  }

  /** Five entries make a decoded address, and nothing else in the column does: if they are equal so are
      the addresses, and if one of them differs and no other, so do the addresses. */
  lemma EntriesMakeAddress(a: Customer, b: Customer, k: nat)
    requires a.address.Decoded? && b.address.Decoded? && ExtractAddress(a) != "" && ExtractAddress(b) != ""
    requires k < 5 && forall m :: 0 <= m < 5 && m != k ==> Entries(a)[m] == Entries(b)[m]
    ensures ExtractAddress(a) == ExtractAddress(b) <==> Entries(a)[k] == Entries(b)[k]
  {
    var v, w := Entries(a), Entries(b);
    AddressLine(a);
    AddressLine(b);
    hide Entry, ExtractAddress;
    assert ExtractAddress(a) == Line(v) && ExtractAddress(b) == Line(w);
    hide Entries, Line;
    LineAround(v, k);
    LineAround(w, k);
    BeforeSame(v, w, k);
    AfterSame(v, w, k);
    Cancel(Before(v, k), v[k], w[k], After(v, k));
  }

  // ----- orders and notes ----------------------------------------------------------------------------

  predicate SamePlace(x: OrderAddress, y: OrderAddress) {
    Lower(x.city) == Lower(y.city) && Lower(x.zip) == Lower(y.zip) && Lower(x.country) == Lower(y.country)
  }

  predicate NearPlace(x: OrderAddress, y: OrderAddress) {
    WithinEdits(Lower(x.address1 + " " + x.city + " " + x.zip + " " + x.country),
                Lower(y.address1 + " " + y.city + " " + y.zip + " " + y.country), 15)
  }

  predicate OrderedToSamePlace(a: Customer, b: Customer) {
    exists x, y :: x in a.orderAddresses && y in b.orderAddresses && SamePlace(x, y)
  }

  predicate OrderedNearby(a: Customer, b: Customer) {
    exists x, y :: x in a.orderAddresses && y in b.orderAddresses && NearPlace(x, y)
  }

  /** The country of some order of `b`, when `a` has ordered too, but never to that country. */
  predicate NewCountry(a: Customer, b: Customer) {
    && (exists x :: x in a.orderAddresses && x.country != "")
    && exists y :: y in b.orderAddresses && y.country != "" &&
                   forall x :: x in a.orderAddresses && x.country != "" ==> Lower(x.country) != Lower(y.country)
  }

  lemma PlaceSignalsMean(a: Customer, b: Customer, o: ScoreOptions)
    ensures var s := ScorePair(a, b, o).sig;
            && (s.orderAddressExact <==> o.signalAddress && OrderedToSamePlace(a, b))
            && (s.orderAddressPartial <==> o.signalAddress && OrderedNearby(a, b))
            && (s.orderAddressConflict <==> o.signalAddress && NewCountry(a, b))
  {
    PlacesMatch(a, b);
    PlacesConflict(a, b);
    hide NormalizeEmail, NormalizeName, NormalizePhone, CompareEmails, LastToken, ComputeConfidence, AddressSimilarity;
    hide NameSimilarity, PhonesNested, OrderedToSamePlace, OrderedNearby, NewCountry;
    hide AnyExactOrderAddressMatch, AnyPartialOrderAddressMatch, AnyConflictingOrderCountries;
    assert ScorePair(a, b, o).sig == MaskSignals(RawSignals(a, b), o);
  }

  lemma PlacesMatch(a: Customer, b: Customer)
    ensures var (xs, ys) := (a.orderAddresses, b.orderAddresses);
            && (|xs| > 0 && |ys| > 0 && AnyExactOrderAddressMatch(xs, ys) <==> OrderedToSamePlace(a, b))
            && (|xs| > 0 && |ys| > 0 && AnyPartialOrderAddressMatch(xs, ys) <==> OrderedNearby(a, b))
  {
    forall x, y
      ensures SimilarOrderPlace(x, y) <==> NearPlace(x, y)
    {
      SimilarityIsEdits(OrderAddressLine(x), OrderAddressLine(y), 15);
    }
    hide SimilarOrderPlace, NearPlace;
    assert forall x, y :: SameOrderPlace(x, y) <==> SamePlace(x, y);
  }

  lemma PlacesConflict(a: Customer, b: Customer)
    ensures var (xs, ys) := (a.orderAddresses, b.orderAddresses);
            (|xs| > 0 && |ys| > 0 && AnyConflictingOrderCountries(xs, ys)) <==> NewCountry(a, b)
  {
    hide Lower;
    var (xs, ys) := (a.orderAddresses, b.orderAddresses);
    if NewCountry(a, b) {
      var x :| x in xs && x.country != "";
      assert Lower(x.country) in OrderCountries(xs);
      var y :| y in ys && y.country != "" &&
               forall x :: x in xs && x.country != "" ==> Lower(x.country) != Lower(y.country);
      assert Lower(y.country) in OrderCountries(ys) && Lower(y.country) !in OrderCountries(xs);
    }
    if AnyConflictingOrderCountries(xs, ys) {
      var v :| v in OrderCountries(ys) && v !in OrderCountries(xs);
      var u :| u in OrderCountries(xs);
    }
  }

  predicate SharedOrderName(a: Customer, b: Customer) {
    exists x, y :: x in a.orderNames && y in b.orderNames && NameSimilarity(Lower(x), Lower(y)) >= 0.92
  }

  predicate UnlikeOrderNames(a: Customer, b: Customer) {
    exists x, y :: x in a.orderNames && y in b.orderNames && NameSimilarity(Lower(x), Lower(y)) <= 0.70
  }

  lemma OrderNameSignalsMean(a: Customer, b: Customer, o: ScoreOptions)
    ensures var s := ScorePair(a, b, o).sig;
            && (s.orderNameHigh <==> o.signalName && SharedOrderName(a, b))
            && (s.orderNameConflict <==> o.signalName && UnlikeOrderNames(a, b))
  {
    NamesMatch(a, b);
    hide NormalizeEmail, NormalizeName, NormalizePhone, CompareEmails, LastToken, ComputeConfidence, AddressSimilarity;
    hide NameSimilarity, PhonesNested, AnyHighOrderNameMatch, AnyConflictingOrderNames, SharedOrderName, UnlikeOrderNames;
    assert ScorePair(a, b, o).sig == MaskSignals(RawSignals(a, b), o);
  }

  lemma NamesMatch(a: Customer, b: Customer)
    ensures var (xs, ys) := (a.orderNames, b.orderNames);
            && (|xs| > 0 && |ys| > 0 && AnyHighOrderNameMatch(xs, ys) <==> SharedOrderName(a, b))
            && (|xs| > 0 && |ys| > 0 && AnyConflictingOrderNames(xs, ys) <==> UnlikeOrderNames(a, b))
  {
    hide NameSimilarity, Lower;
    assert forall x, y :: OrderNameSimilarity(x, y) == NameSimilarity(Lower(x), Lower(y));
  }

  /** Orders at most 604800 seconds apart; the same note of ten bytes or more, but for case and white space
      around it.  No switch turns these off. */
  lemma TimeAndNoteSignalsMean(a: Customer, b: Customer, o: ScoreOptions)
    ensures var (s, m, n) := (ScorePair(a, b, o).sig, Lower(TrimSpace(a.note)), Lower(TrimSpace(b.note)));
            && (s.recentOrderOverlap <==>
                  a.lastOrderAt.Some? && b.lastOrderAt.Some? &&
                  a.lastOrderAt.value - b.lastOrderAt.value <= 604800 * 1_000_000_000 &&
                  b.lastOrderAt.value - a.lastOrderAt.value <= 604800 * 1_000_000_000)
            && (s.noteShared <==> m == n && ByteLength(m) >= 10)
  {
    hide NormalizeEmail, NormalizeName, NormalizePhone, CompareEmails, LastToken, ComputeConfidence, AddressSimilarity;
    hide NameSimilarity, PhonesNested;
    assert ScorePair(a, b, o).sig == MaskSignals(RawSignals(a, b), o);
  }

  /** The similarities shown beside the score, switched by channel, and where a positive score comes from. */
  lemma DisplayedSimilarities(a: Customer, b: Customer, o: ScoreOptions)
    ensures var (s, x, y) := (ScorePair(a, b, o), ExtractAddress(a), ExtractAddress(b));
            && s.emailSim ==
                 (if o.signalEmail then EmailSimilarity(NormalizeEmail(a.email), NormalizeEmail(b.email)) else 0.0)
            && s.addressSim == (if !o.signalAddress || x == "" || y == "" then 0.0 else Levenshtein.Similarity(x, y))
            && s.sig.nameSim == s.nameSim
            && (s.combined > 0.0 ==>
                  s.source == if o.behavioralEnabled && BehavioralRule(s.sig).Some? then BehavioralRule(s.sig).value.1
                              else Profile)
  {
    hide NormalizeEmail, NormalizeName, NormalizePhone, CompareEmails, LastToken, ExtractAddress, EmailSimilarity;
    hide NameSimilarity, PhonesNested, Levenshtein.Similarity, PhoneSimilarity;
    Levenshtein.SimilarityInUnitInterval(ExtractAddress(a), ExtractAddress(b));
  }

  // ----- the switches ----------------------------------------------------------------------------------

  /** A channel that is switched off has no influence on any part of the score: versions of a customer that
      agree on the channels switched on, and on the country, note and last order, score the same. */
  lemma SwitchedOffIsIgnored(a': Customer, a: Customer, b: Customer, o: ScoreOptions)
    requires o.signalEmail ==> a'.email == a.email
    requires o.signalPhone ==> a'.phone == a.phone
    requires o.signalName ==> a'.name == a.name && a'.orderNames == a.orderNames
    requires if o.signalAddress then a'.address == a.address && a'.orderAddresses == a.orderAddresses
             else Entry(a', "country") == Entry(a, "country")
    requires a'.note == a.note && a'.lastOrderAt == a.lastOrderAt
    ensures ScorePair(a', b, o) == ScorePair(a, b, o)
  {
    hide NormalizeEmail, NormalizeName, NormalizePhone, CompareEmails, LastToken, ComputeConfidence, TrimSpace, Lower;
    hide NameSimilarity, PhonesNested, EmailSimilarity, PhoneSimilarity, AnyExactOrderAddressMatch, SharedNote;
    hide AnyPartialOrderAddressMatch, AnyConflictingOrderCountries, AnyHighOrderNameMatch, AnyConflictingOrderNames;
    SameAddressSimilarity(a', a, b);
    hide AddressSimilarity;
    assert MaskSignals(RawSignals(a', b), o) == MaskSignals(RawSignals(a, b), o);
    hide RawSignals, MaskSignals;
  }

  lemma SameAddressSimilarity(a': Customer, a: Customer, b: Customer)
    ensures a'.address == a.address ==> AddressSimilarity(a', b) == AddressSimilarity(a, b)
  {
    hide Levenshtein.Similarity, Lower, TrimSpace;
  }
}
