/** Pair generation through bucket indexes (internal/services/identity/detector.go). */
module Blocking {
  import opened Text
  import opened Normalization
  import opened Scorer
  import Jaro

  const MIN_CONFIDENCE := 0.30
  const CROSS_DOMAIN_LIMIT := 500

  // ----- bucket keys -----------------------------------------------------------------------------

  function DomainKey(c: Customer): Option<string> {
    var domain := EmailDomain(c.email);
    Some(if domain == "" then "__no_domain__" else domain)
  }

  function PhoneKey(c: Customer): Option<string> {
    var phone := NormalizePhone(c.phone);
    if |phone| >= 7 then Some(phone[|phone| - 7..]) else None
  }

  /** Position of the first occurrence of `p` in `s`, or -1. */
  function IndexOf(s: string, p: string): (k: int)
    ensures -1 <= k <= |s|
    decreases |s|
  {
    if p <= s then 0
    else if s == [] then -1
    else
      var k := IndexOf(s[1..], p);
      if k == -1 then -1 else k + 1
  }

  const UNIT_PREFIXES := [" apt ", " apt.", " unit ", " suite ", " ste ", " #", " no."]

  function CutUnits(s: string, prefixes: seq<string>): string
    decreases |prefixes|
  {
    if prefixes == [] then s
    else
      var k := IndexOf(s, prefixes[0]);
      CutUnits(if k > 0 then TrimSpace(s[..k]) else s, prefixes[1..])
  }

  function NormalizeStreet(s: string): string {
    CutUnits(Lower(TrimSpace(s)), UNIT_PREFIXES)
  }

  function AddressKey(c: Customer): Option<string> {
    if !c.address.Decoded? then None
    else
      var m := c.address.fields;
      var (city, zip) := (Field(m, "city"), Field(m, "zip"));
      if city == "" && zip == "" then None
      else
        var street := NormalizeStreet(if "address1" in m then m["address1"] else "");
        Some(if street != "" then street + "|" + city + "|" + zip else city + "|" + zip)
  }

  // ----- which index pairs are looked at ---------------------------------------------------------

  predicate SameKey(k: Option<string>, l: Option<string>) {
    k.Some? && k == l
  }

  predicate ShareBucket(a: Customer, b: Customer) {
    || SameKey(DomainKey(a), DomainKey(b))
    || SameKey(PhoneKey(a), PhoneKey(b))
    || SameKey(AddressKey(a), AddressKey(b))
  }

  predicate NamesClose(a: Customer, b: Customer) {
    EmailDomain(a.email) != EmailDomain(b.email) && NameSimilarity(a.name, b.name) >= 0.82
  }

  predicate Candidate(cs: seq<Customer>, i: int, j: int) {
    && 0 <= i < j < |cs|
    && (ShareBucket(cs[i], cs[j]) || (|cs| <= CROSS_DOMAIN_LIMIT && NamesClose(cs[i], cs[j])))
  }

  predicate Passes(cs: seq<Customer>, o: ScoreOptions, i: int, j: int) {
    0 <= i < j < |cs| && ScorePair(cs[i], cs[j], o).combined >= MIN_CONFIDENCE
  }

  predicate DistinctIds(cs: seq<Customer>) {
    forall i, j :: 0 <= i < j < |cs| ==> cs[i].id != cs[j].id
  }

  /** The pair of ids, smaller first. */
  function IdKey(x: int, y: int): (int, int) {
    if x > y then (y, x) else (x, y)
  }

  function PairKey(p: ScoredPair): (int, int) {
    IdKey(p.a, p.b)
  }

  /** All pairs that scoring every two customers would keep. */
  ghost function BruteForce(cs: seq<Customer>, o: ScoreOptions): set<ScoredPair> {
    set i, j | 0 <= i < |cs| && 0 <= j < |cs| && Passes(cs, o, i, j) :: MakePair(cs[i], cs[j], o)
  }

  // ----- the collector ---------------------------------------------------------------------------

  /** `visited` holds the index pairs handed to the collector so far, `seen` their id pairs. */
  ghost predicate Collected(
    cs: seq<Customer>, o: ScoreOptions, visited: set<(int, int)>, seen: set<(int, int)>, pairs: seq<ScoredPair>)
  {
    && VisitedAreSeen(cs, visited, seen)
    && (forall p :: p in pairs ==> PairKey(p) in seen && FromVisited(cs, o, visited, p))
    && (DistinctIds(cs) ==> KeptAll(cs, o, visited, pairs))
    && NoRepeats(pairs)
  }

  ghost predicate VisitedAreSeen(cs: seq<Customer>, visited: set<(int, int)>, seen: set<(int, int)>) {
    && (forall i, j :: (i, j) in visited ==> Candidate(cs, i, j) && IdKey(cs[i].id, cs[j].id) in seen)
    && (forall k :: k in seen ==> exists i, j :: (i, j) in visited && k == IdKey(cs[i].id, cs[j].id))
  }

  ghost predicate KeptAll(cs: seq<Customer>, o: ScoreOptions, visited: set<(int, int)>, pairs: seq<ScoredPair>) {
    forall i, j :: (i, j) in visited && Passes(cs, o, i, j) ==> MakePair(cs[i], cs[j], o) in pairs
  }

  ghost predicate FromVisited(cs: seq<Customer>, o: ScoreOptions, visited: set<(int, int)>, p: ScoredPair) {
    exists i, j :: (i, j) in visited && Passes(cs, o, i, j) && p == MakePair(cs[i], cs[j], o)
  }

  predicate NoRepeats(pairs: seq<ScoredPair>) {
    forall x, y :: 0 <= x < y < |pairs| ==> PairKey(pairs[x]) != PairKey(pairs[y])
  }

  lemma DistinctKeys(cs: seq<Customer>, i: int, j: int, x: int, y: int)
    requires DistinctIds(cs) && 0 <= i < j < |cs| && 0 <= x < y < |cs|
    requires IdKey(cs[i].id, cs[j].id) == IdKey(cs[x].id, cs[y].id)
    ensures i == x && j == y
  {
  }

  method AddPair(
    cs: seq<Customer>, o: ScoreOptions, i: nat, j: nat,
    ghost visited: set<(int, int)>, seen: set<(int, int)>, pairs: seq<ScoredPair>)
    returns (seen': set<(int, int)>, pairs': seq<ScoredPair>)
    requires Candidate(cs, i, j) && Collected(cs, o, visited, seen, pairs)
    ensures Collected(cs, o, visited + {(i, j)}, seen', pairs')
  {
    seen', pairs' := seen, pairs;
    var key := IdKey(cs[i].id, cs[j].id);
    if key in seen {
      KnownKey(cs, o, visited, seen, pairs, i, j);
      return;
    }
    seen' := seen + {key};
    var s := ScorePair(cs[i], cs[j], o);
    if s.combined >= MIN_CONFIDENCE {
      pairs' := pairs + [ScoredPair(cs[i].id, cs[j].id, s)];
    }
    NewKey(cs, o, visited, seen, pairs, i, j, pairs');
  }

  lemma MoreVisited(
    cs: seq<Customer>, o: ScoreOptions, visited: set<(int, int)>, visited': set<(int, int)>, p: ScoredPair)
    requires FromVisited(cs, o, visited, p) && visited <= visited'
    ensures FromVisited(cs, o, visited', p)
  {
    hide ScorePair, MakePair;
    var i, j :| (i, j) in visited && Passes(cs, o, i, j) && p == MakePair(cs[i], cs[j], o);
    assert (i, j) in visited';
  }

  lemma VisitOne(cs: seq<Customer>, visited: set<(int, int)>, seen: set<(int, int)>, i: nat, j: nat)
    requires VisitedAreSeen(cs, visited, seen) && Candidate(cs, i, j)
    ensures VisitedAreSeen(cs, visited + {(i, j)}, seen + {IdKey(cs[i].id, cs[j].id)})
  {
    hide ShareBucket, NamesClose, IdKey;
    var visited', seen' := visited + {(i, j)}, seen + {IdKey(cs[i].id, cs[j].id)};
    forall k | k in seen'
      ensures exists x, y :: (x, y) in visited' && k == IdKey(cs[x].id, cs[y].id)
    {
      if k in seen {
        var x, y :| (x, y) in visited && k == IdKey(cs[x].id, cs[y].id);
        assert (x, y) in visited';
      } else {
        assert (i, j) in visited';
      }
    }
  }

  lemma KnownKey(
    cs: seq<Customer>, o: ScoreOptions, visited: set<(int, int)>, seen: set<(int, int)>, pairs: seq<ScoredPair>,
    i: nat, j: nat)
    requires Candidate(cs, i, j) && Collected(cs, o, visited, seen, pairs) && IdKey(cs[i].id, cs[j].id) in seen
    ensures Collected(cs, o, visited + {(i, j)}, seen, pairs)
  {
    hide ShareBucket, NamesClose, MakePair, IdKey, PairKey, FromVisited, ScorePair;
    VisitOne(cs, visited, seen, i, j);
    assert seen + {IdKey(cs[i].id, cs[j].id)} == seen;
    forall p | p in pairs
      ensures FromVisited(cs, o, visited + {(i, j)}, p)
    {
      MoreVisited(cs, o, visited, visited + {(i, j)}, p);
    }
    if DistinctIds(cs) {
      KnownKeyVisited(cs, visited, seen, i, j);
    }
  }

  lemma KnownKeyVisited(cs: seq<Customer>, visited: set<(int, int)>, seen: set<(int, int)>, i: nat, j: nat)
    requires VisitedAreSeen(cs, visited, seen) && Candidate(cs, i, j) && IdKey(cs[i].id, cs[j].id) in seen
    requires DistinctIds(cs)
    ensures (i, j) in visited
  {
    hide ShareBucket, NamesClose;
    var key := IdKey(cs[i].id, cs[j].id);
    var x, y :| (x, y) in visited && key == IdKey(cs[x].id, cs[y].id);
    assert Candidate(cs, x, y);
    DistinctKeys(cs, i, j, x, y);
  }

  lemma NewKey(
    cs: seq<Customer>, o: ScoreOptions, visited: set<(int, int)>, seen: set<(int, int)>, pairs: seq<ScoredPair>,
    i: nat, j: nat, pairs': seq<ScoredPair>)
    requires Candidate(cs, i, j) && Collected(cs, o, visited, seen, pairs) && IdKey(cs[i].id, cs[j].id) !in seen
    requires pairs' == if Passes(cs, o, i, j) then pairs + [MakePair(cs[i], cs[j], o)] else pairs
    ensures Collected(cs, o, visited + {(i, j)}, seen + {IdKey(cs[i].id, cs[j].id)}, pairs')
  {
    hide ShareBucket, NamesClose, MakePair, IdKey, PairKey, ScorePair, DistinctIds, NoRepeats;
    var m, key := MakePair(cs[i], cs[j], o), IdKey(cs[i].id, cs[j].id);
    var visited', seen' := visited + {(i, j)}, seen + {key};
    KeyOfPair(cs[i], cs[j], o);
    VisitOne(cs, visited, seen, i, j);
    forall p | p in pairs'
      ensures FromVisited(cs, o, visited', p) && PairKey(p) in seen'
    {
      if p in pairs {
        MoreVisited(cs, o, visited, visited', p);
      } else {
        assert (i, j) in visited' && Passes(cs, o, i, j) && p == MakePair(cs[i], cs[j], o);
      }
    }
    NoRepeatsAppend(pairs, m, seen);
    assert DistinctIds(cs) ==> KeptAll(cs, o, visited', pairs');
  }

  lemma KeyOfPair(a: Customer, b: Customer, o: ScoreOptions)
    ensures PairKey(MakePair(a, b, o)) == IdKey(a.id, b.id)
  {
  }

  lemma NoRepeatsAppend(pairs: seq<ScoredPair>, m: ScoredPair, seen: set<(int, int)>)
    requires NoRepeats(pairs) && PairKey(m) !in seen && forall p :: p in pairs ==> PairKey(p) in seen
    ensures NoRepeats(pairs + [m])
  {
    hide PairKey;
    forall x | 0 <= x < |pairs|
      ensures PairKey(pairs[x]) != PairKey(m)
    {
      assert pairs[x] in pairs;
    }
  }

  // ----- buckets ---------------------------------------------------------------------------------

  /** `b` files every index under its key, in increasing order. */
  ghost predicate IsIndex(keys: seq<Option<string>>, b: map<string, seq<int>>) {
    && (forall k :: k in b ==> Ascending(b[k], |keys|))
    && (forall k, i :: k in b && i in b[k] ==> 0 <= i < |keys| && keys[i] == Some(k))
    && (forall i :: 0 <= i < |keys| && keys[i].Some? ==> keys[i].value in b && i in b[keys[i].value])
  }

  predicate Ascending(s: seq<int>, bound: int) {
    && (forall x :: 0 <= x < |s| ==> 0 <= s[x] < bound)
    && (forall x, y :: 0 <= x < y < |s| ==> s[x] < s[y])
  }

  function KeysOf(cs: seq<Customer>, keyOf: Customer -> Option<string>): (keys: seq<Option<string>>)
    ensures |keys| == |cs| && forall i :: 0 <= i < |cs| ==> keys[i] == keyOf(cs[i])
  {
    seq(|cs|, i requires 0 <= i < |cs| => keyOf(cs[i]))
  }

  method BuildBuckets(cs: seq<Customer>, keyOf: Customer -> Option<string>) returns (b: map<string, seq<int>>)
    ensures IsIndex(KeysOf(cs, keyOf), b)
  {
    b := map[];
    ghost var keys := KeysOf(cs, keyOf);
    for i := 0 to |cs|
      invariant IsIndex(keys[..i], b)
    {
      var key := keyOf(cs[i]);
      assert keys[..i + 1] == keys[..i] + [key];
      FileIndex(keys[..i], b, key);
      if key.Some? {
        b := b[key.value := (if key.value in b then b[key.value] else []) + [i]];
      }
    }
    assert keys[..|cs|] == keys;
  }

  lemma FileIndex(keys: seq<Option<string>>, b: map<string, seq<int>>, key: Option<string>)
    requires IsIndex(keys, b)
    ensures IsIndex(keys + [key],
                    if key.Some? then b[key.value := (if key.value in b then b[key.value] else []) + [|keys|]] else b)
  {
    var keys' := keys + [key];
    var b' := if key.Some? then b[key.value := (if key.value in b then b[key.value] else []) + [|keys|]] else b;
    forall k, i | k in b' && i in b'[k]
      ensures 0 <= i < |keys'| && keys'[i] == Some(k)
    {
      if i != |keys| {
        assert k in b && i in b[k];
      }
    }
    forall i | 0 <= i < |keys'| && keys'[i].Some?
      ensures keys'[i].value in b' && i in b'[keys'[i].value]
    {
      if i < |keys| {
        assert keys'[i] == keys[i];
      }
    }
  }

  /** One bucket: every two of its indices, smaller first. */
  method ScoreBucket(
    cs: seq<Customer>, o: ScoreOptions, indices: seq<int>,
    ghost visited: set<(int, int)>, seen: set<(int, int)>, pairs: seq<ScoredPair>)
    returns (ghost visited': set<(int, int)>, seen': set<(int, int)>, pairs': seq<ScoredPair>)
    requires Collected(cs, o, visited, seen, pairs)
    requires Ascending(indices, |cs|)
    requires forall x, y :: 0 <= x < y < |indices| ==> Candidate(cs, indices[x], indices[y])
    ensures Collected(cs, o, visited', seen', pairs') && visited <= visited'
    ensures forall x, y :: 0 <= x < y < |indices| ==> (indices[x], indices[y]) in visited'
  {
    hide Collected, Candidate;
    visited', seen', pairs' := visited, seen, pairs;
    for i := 0 to |indices|
      invariant Collected(cs, o, visited', seen', pairs') && visited <= visited'
      invariant forall x, y :: 0 <= x < i && x < y < |indices| ==> (indices[x], indices[y]) in visited'
    {
      for j := i + 1 to |indices|
        invariant Collected(cs, o, visited', seen', pairs') && visited <= visited'
        invariant forall x, y :: 0 <= x < i && x < y < |indices| ==> (indices[x], indices[y]) in visited'
        invariant forall y :: i < y < j ==> (indices[i], indices[y]) in visited'
      {
        seen', pairs' := AddPair(cs, o, indices[i], indices[j], visited', seen', pairs');
        visited' := visited' + {(indices[i], indices[j])};
      }
    }
  }

  /** All buckets of an index, in whatever order the map yields them. */
  method ScoreBuckets(
    cs: seq<Customer>, o: ScoreOptions, ghost keys: seq<Option<string>>, buckets: map<string, seq<int>>,
    ghost visited: set<(int, int)>, seen: set<(int, int)>, pairs: seq<ScoredPair>)
    returns (ghost visited': set<(int, int)>, seen': set<(int, int)>, pairs': seq<ScoredPair>)
    requires Collected(cs, o, visited, seen, pairs)
    requires |keys| == |cs| && IsIndex(keys, buckets)
    requires forall i, j :: 0 <= i < j < |cs| && SameKey(keys[i], keys[j]) ==> Candidate(cs, i, j)
    ensures Collected(cs, o, visited', seen', pairs') && visited <= visited'
    ensures forall i, j :: 0 <= i < j < |cs| && SameKey(keys[i], keys[j]) ==> (i, j) in visited'
  {
    hide Collected, Candidate;
    visited', seen', pairs' := visited, seen, pairs;
    var todo := buckets.Keys;
    while todo != {}
      invariant todo <= buckets.Keys
      invariant Collected(cs, o, visited', seen', pairs') && visited <= visited'
      invariant forall k, x, y :: k in buckets && k !in todo && 0 <= x < y < |buckets[k]| ==>
                                    (buckets[k][x], buckets[k][y]) in visited'
      decreases todo
    {
      var k :| k in todo;
      assert forall x :: 0 <= x < |buckets[k]| ==> buckets[k][x] in buckets[k];
      visited', seen', pairs' := ScoreBucket(cs, o, buckets[k], visited', seen', pairs');
      todo := todo - {k};
    }
    forall i, j | 0 <= i < j < |cs| && SameKey(keys[i], keys[j])
      ensures (i, j) in visited'
    {
      var b := buckets[keys[i].value];
      assert i in b && j in b;
      var x :| 0 <= x < |b| && b[x] == i;
      var y :| 0 <= y < |b| && b[y] == j;
      assert x < y;
    }
  }

  /** The cross-domain pass over close names. */
  method ScoreCloseNames(
    cs: seq<Customer>, o: ScoreOptions,
    ghost visited: set<(int, int)>, seen: set<(int, int)>, pairs: seq<ScoredPair>)
    returns (ghost visited': set<(int, int)>, seen': set<(int, int)>, pairs': seq<ScoredPair>)
    requires Collected(cs, o, visited, seen, pairs) && |cs| <= CROSS_DOMAIN_LIMIT
    ensures Collected(cs, o, visited', seen', pairs') && visited <= visited'
    ensures forall i, j :: (i, j) in visited' <==>
                           (i, j) in visited || (0 <= i < j < |cs| && NamesClose(cs[i], cs[j]))
  {
    hide Collected, ShareBucket, NameSimilarity, EmailDomain;
    visited', seen', pairs' := visited, seen, pairs;
    for i := 0 to |cs|
      invariant Collected(cs, o, visited', seen', pairs') && visited <= visited'
      invariant forall x, y :: (x, y) in visited' ==> (x, y) in visited || (0 <= x < y < |cs| && NamesClose(cs[x], cs[y]))
      invariant forall x, y :: 0 <= x < i && x < y < |cs| && NamesClose(cs[x], cs[y]) ==> (x, y) in visited'
    {
      for j := i + 1 to |cs|
        invariant Collected(cs, o, visited', seen', pairs') && visited <= visited'
        invariant forall x, y :: (x, y) in visited' ==> (x, y) in visited || (0 <= x < y < |cs| && NamesClose(cs[x], cs[y]))
        invariant forall x, y :: 0 <= x < i && x < y < |cs| && NamesClose(cs[x], cs[y]) ==> (x, y) in visited'
        invariant forall y :: i < y < j && NamesClose(cs[i], cs[y]) ==> (i, y) in visited'
      {
        if EmailDomain(cs[i].email) == EmailDomain(cs[j].email) {
          continue;
        }
        var nameSim := Jaro.ComputeJaroWinkler(Utf8Bytes(cs[i].name), Utf8Bytes(cs[j].name));
        SimilarityOfNames(cs[i].name, cs[j].name);
        if nameSim >= 0.82 {
          seen', pairs' := AddPair(cs, o, i, j, visited', seen', pairs');
          visited' := visited' + {(i, j)};
        }
      }
    }
  }

  lemma SimilarityOfNames(a: string, b: string)
    ensures NameSimilarity(a, b) == Jaro.JaroWinkler(Utf8Bytes(a), Utf8Bytes(b))
  {
  }

  /** `scorePairs`: three indexes, then the close names of small merchants, one shared `seen` set.
      Whatever the map order: only candidate pairs that pass, no unordered pair twice, and with
      distinct ids every candidate pair that passes. */
  method ScorePairs(cs: seq<Customer>, o: ScoreOptions) returns (pairs: seq<ScoredPair>)
    ensures forall p :: p in pairs ==>
              exists i, j :: Candidate(cs, i, j) && Passes(cs, o, i, j) && p == MakePair(cs[i], cs[j], o)
    ensures NoRepeats(pairs)
    ensures DistinctIds(cs) ==>
              forall i, j :: Candidate(cs, i, j) && Passes(cs, o, i, j) ==> MakePair(cs[i], cs[j], o) in pairs
  {
    hide ScorePair, MakePair, PairKey, IdKey, DomainKey, PhoneKey, AddressKey, NamesClose;
    var seen: set<(int, int)> := {};
    pairs := [];
    ghost var visited: set<(int, int)> := {};
    var domains := BuildBuckets(cs, DomainKey);
    visited, seen, pairs := ScoreBuckets(cs, o, KeysOf(cs, DomainKey), domains, visited, seen, pairs);
    var phones := BuildBuckets(cs, PhoneKey);
    visited, seen, pairs := ScoreBuckets(cs, o, KeysOf(cs, PhoneKey), phones, visited, seen, pairs);
    var addresses := BuildBuckets(cs, AddressKey);
    visited, seen, pairs := ScoreBuckets(cs, o, KeysOf(cs, AddressKey), addresses, visited, seen, pairs);
    if |cs| <= CROSS_DOMAIN_LIMIT {
      visited, seen, pairs := ScoreCloseNames(cs, o, visited, seen, pairs);
    }
    AllVisited(cs, o, visited, seen, pairs);
  }

  lemma AllVisited(
    cs: seq<Customer>, o: ScoreOptions, visited: set<(int, int)>, seen: set<(int, int)>, pairs: seq<ScoredPair>)
    requires Collected(cs, o, visited, seen, pairs)
    requires forall i, j :: 0 <= i < j < |cs| && SameKey(DomainKey(cs[i]), DomainKey(cs[j])) ==> (i, j) in visited
    requires forall i, j :: 0 <= i < j < |cs| && SameKey(PhoneKey(cs[i]), PhoneKey(cs[j])) ==> (i, j) in visited
    requires forall i, j :: 0 <= i < j < |cs| && SameKey(AddressKey(cs[i]), AddressKey(cs[j])) ==> (i, j) in visited
    requires |cs| <= CROSS_DOMAIN_LIMIT ==>
               forall i, j :: 0 <= i < j < |cs| && NamesClose(cs[i], cs[j]) ==> (i, j) in visited
    ensures forall p :: p in pairs ==>
              exists i, j :: Candidate(cs, i, j) && Passes(cs, o, i, j) && p == MakePair(cs[i], cs[j], o)
    ensures DistinctIds(cs) ==>
              forall i, j :: Candidate(cs, i, j) && Passes(cs, o, i, j) ==> MakePair(cs[i], cs[j], o) in pairs
  {
    hide ScorePair, MakePair, PairKey, IdKey, DomainKey, PhoneKey, AddressKey, NamesClose, DistinctIds, NoRepeats;
    forall p | p in pairs
      ensures exists i, j :: Candidate(cs, i, j) && Passes(cs, o, i, j) && p == MakePair(cs[i], cs[j], o)
    {
      var i, j :| (i, j) in visited && Passes(cs, o, i, j) && p == MakePair(cs[i], cs[j], o);
      assert Candidate(cs, i, j);
    }
    assert forall i, j :: Candidate(cs, i, j) ==> (i, j) in visited;
  }

  // ----- against brute force -----------------------------------------------------------------------

  /** The fields as detection leaves them before scoring. */
  function NormalizeCustomer(c: Customer): Customer {
    c.(email := NormalizeEmail(c.email), name := NormalizeName(c.name), phone := NormalizePhone(c.phone))
  }

  predicate IsNormalized(c: Customer) {
    NormalizeCustomer(c) == c
  }

  lemma NormalizeCustomerIdempotent(c: Customer)
    ensures IsNormalized(NormalizeCustomer(c))
  {
    NormalizeEmailIdempotent(c.email);
    NormalizeNameIdempotent(c.name);
    NormalizePhoneIdempotent(c.phone);
  }

  /** Evidence that passes the scorer although no index and no name pass looks for it: a shared phone
      of fewer than seven digits, or the behavioural rule on order address plus email local part. */
  predicate UnindexedEvidence(a: Customer, b: Customer, o: ScoreOptions) {
    || (o.signalPhone && a.phone == b.phone && 0 < |a.phone| < 7)
    || (o.behavioralEnabled && o.signalAddress && o.signalEmail &&
        AnyExactOrderAddressMatch(a.orderAddresses, b.orderAddresses) && CompareEmails(a.email, b.email).localExact)
  }

  predicate CountriesCompatible(a: Customer, b: Customer) {
    Country(a) == "" || Country(b) == "" || Country(a) == Country(b)
  }

  lemma SignalsOfNormalized(a: Customer, b: Customer, o: ScoreOptions)
    requires IsNormalized(a) && IsNormalized(b)
    ensures var s := MaskSignals(RawSignals(a, b), o);
            && s.emailExact == (o.signalEmail && a.email != "" && a.email == b.email)
            && s.emailLocalExact == (o.signalEmail && CompareEmails(a.email, b.email).localExact)
            && s.phoneExact == (o.signalPhone && a.phone != "" && a.phone == b.phone)
            && s.nameMedium == (o.signalName && NameSimilarity(a.name, b.name) >= 0.82)
            && s.nameHigh == (o.signalName && NameSimilarity(a.name, b.name) >= 0.90)
            && s.sameCountry == CountriesCompatible(a, b)
            && s.orderAddressExact == (o.signalAddress && AnyExactOrderAddressMatch(a.orderAddresses, b.orderAddresses))
  {
    RawSignalsOfNormalized(a, b);
    var r := RawSignals(a, b);
    ExtractedFacts(a, b);
    hide IsNormalized, NameSimilarity, RawSignals, CompareEmails, AnyExactOrderAddressMatch, CountriesCompatible;
  }

  lemma ExtractedFacts(a: Customer, b: Customer)
    ensures var nameSim := NameSimilarity(a.name, b.name);
            var r := ExtractSignals(a.email, b.email, a.phone, b.phone, a.name, b.name, nameSim,
                                    AddressSimilarity(a, b), a, b);
            && r.emailExact == (a.email != "" && a.email == b.email)
            && r.emailLocalExact == CompareEmails(a.email, b.email).localExact
            && r.phoneExact == (a.phone != "" && a.phone == b.phone)
            && r.nameMedium == (nameSim >= 0.82)
            && r.nameHigh == (nameSim >= 0.90)
            && r.sameCountry == CountriesCompatible(a, b)
            && r.orderAddressExact == AnyExactOrderAddressMatch(a.orderAddresses, b.orderAddresses)
  {
    hide NameSimilarity, AddressSimilarity, Country, CompareEmails, AnyExactOrderAddressMatch;
    hide LastToken, RecentOverlap, SharedNote, PhonesNested;
    hide AnyPartialOrderAddressMatch, AnyHighOrderNameMatch, AnyConflictingOrderNames, AnyConflictingOrderCountries;
    ExactEmails(a.email, b.email);
    NoAddressesNoMatch(a.orderAddresses, b.orderAddresses);
  }

  lemma ExactEmails(a: string, b: string)
    ensures CompareEmails(a, b).exact == (a != "" && a == b)
  {
  }

  lemma NoAddressesNoMatch(xs: seq<OrderAddress>, ys: seq<OrderAddress>)
    ensures |xs| == 0 || |ys| == 0 ==> !AnyExactOrderAddressMatch(xs, ys)
  {
  }

  lemma RawSignalsOfNormalized(a: Customer, b: Customer)
    requires IsNormalized(a) && IsNormalized(b)
    ensures RawSignals(a, b) ==
            ExtractSignals(a.email, b.email, a.phone, b.phone, a.name, b.name,
                           NameSimilarity(a.name, b.name), AddressSimilarity(a, b), a, b)
  {
    hide NormalizeEmail, NormalizeName, NormalizePhone, NameSimilarity, AddressSimilarity, ExtractSignals;
    assert NormalizeCustomer(a).email == a.email && NormalizeCustomer(b).email == b.email;
    assert NormalizeCustomer(a).name == a.name && NormalizeCustomer(b).name == b.name;
    assert NormalizeCustomer(a).phone == a.phone && NormalizeCustomer(b).phone == b.phone;
  }

  lemma ConfidenceOfSignals(s: Signals, emailSim: real, nameSim: real, phoneSim: real, addrSim: real, behavioral: bool)
    requires !s.emailExact && !s.nameMedium && !s.nameHigh
    ensures ComputeConfidence(s, emailSim, nameSim, phoneSim, addrSim, behavioral).0 >= MIN_CONFIDENCE <==>
            s.sameCountry && (s.phoneExact || (behavioral && s.orderAddressExact && s.emailLocalExact))
  {
  }

  /** For customers that share no bucket and whose names are not close, the scorer still passes the
      pair exactly when their countries are compatible and there is unindexed evidence. */
  lemma OverlookedIff(a: Customer, b: Customer, o: ScoreOptions)
    requires IsNormalized(a) && IsNormalized(b)
    requires !ShareBucket(a, b) && !NamesClose(a, b)
    ensures ScorePair(a, b, o).combined >= MIN_CONFIDENCE <==>
            CountriesCompatible(a, b) && UnindexedEvidence(a, b, o)
  {
    var s := MaskSignals(RawSignals(a, b), o);
    SignalsOfNormalized(a, b, o);
    UnsharedFacts(a, b);
    hide RawSignals, MaskSignals, NormalizeEmail, NormalizeName, NormalizePhone, CountriesCompatible, ShareBucket;
    hide NameSimilarity, AddressSimilarity, EmailSimilarity, PhoneSimilarity, CompareEmails, AnyExactOrderAddressMatch;
    hide NamesClose, ComputeConfidence;
    var r := ScorePair(a, b, o);
    ConfidenceOfSignals(s, r.emailSim, r.nameSim, r.phoneSim, r.addressSim, o.behavioralEnabled);
  }

  lemma UnsharedFacts(a: Customer, b: Customer)
    requires IsNormalized(a) && IsNormalized(b)
    requires !ShareBucket(a, b) && !NamesClose(a, b)
    ensures a.email != b.email
    ensures NameSimilarity(a.name, b.name) < 0.82
    ensures a.phone == b.phone ==> |a.phone| < 7
  {
    assert NormalizeCustomer(a).phone == a.phone && NormalizeCustomer(b).phone == b.phone;
    hide NormalizeEmail, NormalizeName, NormalizePhone, NameSimilarity, AddressKey, EmailDomain;
  }

  /** Up to 500 normalised customers, the index looks at every pair that passes, unless some pair it
      skips has compatible countries and unindexed evidence. */
  lemma LosslessIff(cs: seq<Customer>, o: ScoreOptions)
    requires |cs| <= CROSS_DOMAIN_LIMIT
    requires forall i :: 0 <= i < |cs| ==> IsNormalized(cs[i])
    ensures (forall i, j :: Passes(cs, o, i, j) ==> Candidate(cs, i, j)) <==>
            (forall i, j :: 0 <= i < j < |cs| && CountriesCompatible(cs[i], cs[j]) && UnindexedEvidence(cs[i], cs[j], o) ==>
                              Candidate(cs, i, j))
  {
    hide ScorePair, ShareBucket, NamesClose, CountriesCompatible, UnindexedEvidence, IsNormalized;
    forall i, j | 0 <= i < j < |cs| && !Candidate(cs, i, j)
      ensures Passes(cs, o, i, j) <==> CountriesCompatible(cs[i], cs[j]) && UnindexedEvidence(cs[i], cs[j], o)
    {
      OverlookedIff(cs[i], cs[j], o);
    }
  }

  /** A close name carries the pair past the threshold: a behavioural rule fires, or rule table or fallback
      outweigh the objections. */
  predicate NameCarries(a: Customer, b: Customer, o: ScoreOptions) {
    var s := ScorePair(a, b, o);
    && o.signalName && NameSimilarity(a.name, b.name) >= 0.82
    && ((o.behavioralEnabled && BehavioralRule(s.sig).Some?) ||
        ProfileBase(s.sig, s.emailSim, s.nameSim, s.phoneSim, s.addressSim) >= MIN_CONFIDENCE + Penalty(s.sig))
  }

  /** The same in terms of signals and penalty: a close name nobody objects to always carries; with
      objections, a rule or the fallback must outweigh them by 0.30. */
  lemma NameCarriesBySignals(a: Customer, b: Customer, o: ScoreOptions)
    requires IsNormalized(a) && IsNormalized(b)
    ensures var s := ScorePair(a, b, o);
            var (rule, penalty) := (ComputeBaseRules(s.sig), Penalty(s.sig));
            NameCarries(a, b, o) <==>
              && o.signalName && NameSimilarity(a.name, b.name) >= 0.82
              && ((o.behavioralEnabled && BehavioralRule(s.sig).Some?) ||
                  (if rule > 0.0 then rule >= MIN_CONFIDENCE + penalty
                   else NoObjection(s.sig) ||
                        ComputeFallback(s.sig, s.nameSim, s.addressSim, s.emailSim, s.phoneSim) >=
                          MIN_CONFIDENCE + penalty))
  {
    SignalsOfNormalized(a, b, o);
    FallbackOutweighs(a, b, o);
    var s := ScorePair(a, b, o);
    assert s.sig == MaskSignals(RawSignals(a, b), o);
    BaseRuleRange(s.sig);
    TopOffers(s.sig);
    hide ScorePair, ComputeBaseRules, ComputeFallback, Penalty, BehavioralRule, MaskSignals, RawSignals;
    hide NameSimilarity, IsNormalized, CompareEmails, AnyExactOrderAddressMatch, CountriesCompatible;
  }

  lemma ConfidenceWithoutEmail(s: Signals, emailSim: real, nameSim: real, phoneSim: real, addrSim: real, behavioral: bool)
    requires !s.emailExact && (s.nameHigh ==> s.nameMedium)
    ensures ComputeConfidence(s, emailSim, nameSim, phoneSim, addrSim, behavioral).0 >= MIN_CONFIDENCE <==>
            s.sameCountry &&
            (s.phoneExact || (behavioral && s.orderAddressExact && s.emailLocalExact) ||
             (s.nameMedium &&
              ((behavioral && BehavioralRule(s).Some?) ||
               ProfileBase(s, emailSim, nameSim, phoneSim, addrSim) >= MIN_CONFIDENCE + Penalty(s))))
  {
  }

  /** For customers that share no bucket, close names or not: when the scorer still passes the pair. */
  lemma UnsharedIff(a: Customer, b: Customer, o: ScoreOptions)
    requires IsNormalized(a) && IsNormalized(b) && !ShareBucket(a, b)
    ensures ScorePair(a, b, o).combined >= MIN_CONFIDENCE <==>
            CountriesCompatible(a, b) && (UnindexedEvidence(a, b, o) || NameCarries(a, b, o))
  {
    var s := MaskSignals(RawSignals(a, b), o);
    SignalsOfNormalized(a, b, o);
    UnsharedFields(a, b);
    hide RawSignals, MaskSignals, NormalizeEmail, NormalizeName, NormalizePhone, CountriesCompatible, ShareBucket;
    hide NameSimilarity, AddressSimilarity, EmailSimilarity, PhoneSimilarity, CompareEmails, AnyExactOrderAddressMatch;
    hide ComputeConfidence, BehavioralRule, ProfileBase, Penalty;
    var r := ScorePair(a, b, o);
    ConfidenceWithoutEmail(s, r.emailSim, r.nameSim, r.phoneSim, r.addressSim, o.behavioralEnabled);
  }

  lemma UnsharedFields(a: Customer, b: Customer)
    requires IsNormalized(a) && IsNormalized(b) && !ShareBucket(a, b)
    ensures a.email != b.email
    ensures a.phone == b.phone ==> |a.phone| < 7
  {
    assert NormalizeCustomer(a).phone == a.phone && NormalizeCustomer(b).phone == b.phone;
    hide NormalizeEmail, NormalizeName, NormalizePhone, AddressKey, EmailDomain;
  }

  /** No skipped pair has compatible countries and either unindexed evidence or a name that carries it. */
  predicate NothingOverlooked(cs: seq<Customer>, o: ScoreOptions) {
    forall i, j :: 0 <= i < j < |cs| && CountriesCompatible(cs[i], cs[j]) &&
                   (UnindexedEvidence(cs[i], cs[j], o) || NameCarries(cs[i], cs[j], o)) ==>
                     Candidate(cs, i, j)
  }

  /** For any number of normalised customers, the limit of the name pass included: the index looks at
      every pair that passes exactly when nothing is overlooked. */
  lemma LosslessAtAnySizeIff(cs: seq<Customer>, o: ScoreOptions)
    requires forall i :: 0 <= i < |cs| ==> IsNormalized(cs[i])
    ensures (forall i, j :: Passes(cs, o, i, j) ==> Candidate(cs, i, j)) <==> NothingOverlooked(cs, o)
  {
    hide ScorePair, ShareBucket, NamesClose, CountriesCompatible, UnindexedEvidence, IsNormalized, NameCarries;
    forall i, j | 0 <= i < j < |cs| && !Candidate(cs, i, j)
      ensures Passes(cs, o, i, j) <==>
              CountriesCompatible(cs[i], cs[j]) && (UnindexedEvidence(cs[i], cs[j], o) || NameCarries(cs[i], cs[j], o))
    {
      UnsharedIff(cs[i], cs[j], o);
    }
  }

  /** What a merchant can check beforehand: behavioural rules off, no phone of one to six digits. */
  predicate PlainSetting(cs: seq<Customer>, o: ScoreOptions) {
    && |cs| <= CROSS_DOMAIN_LIMIT
    && DistinctIds(cs)
    && !o.behavioralEnabled
    && forall i :: 0 <= i < |cs| ==> |NormalizePhone(cs[i].phone)| == 0 || |NormalizePhone(cs[i].phone)| >= 7
  }

  /** A pair the index misses: same five-digit phone, different domains, different names. */
  lemma ShortPhoneIsOverlooked(a: Customer, b: Customer, o: ScoreOptions)
    requires a.email == "a@x" && b.email == "b@y" && a.name == "" && b.name == "li"
    requires a.phone == b.phone == "12345" && a.address == b.address == NoAddress && o.signalPhone
    ensures !Candidate([a, b], 0, 1) && Passes([a, b], o, 0, 1)
  {
    hide ScorePair, NameSimilarity, Utf8Bytes, ByteLength, NormalizeEmail, NormalizeName, NormalizePhone, EmailDomain;
    ShortPhoneFacts();
    assert IsNormalized(a) && IsNormalized(b);
    assert !ShareBucket(a, b) && !NamesClose(a, b);
    OverlookedIff(a, b, o);
    var cs := [a, b];
    assert cs[0] == a && cs[1] == b;
  }

  lemma ShortPhoneFacts()
    ensures NormalizeEmail("a@x") == "a@x" && NormalizeEmail("b@y") == "b@y"
    ensures EmailDomain("a@x") == "x" && EmailDomain("b@y") == "y"
    ensures NormalizeName("") == "" && NormalizeName("li") == "li"
    ensures NormalizePhone("12345") == "12345"
    ensures NameSimilarity("", "li") == 0.0
  {
    hide NormalizeEmail, NormalizeName;
    FirstIndexIs("a@x", '@', 1);
    FirstIndexIs("b@y", '@', 1);
    NormalEmailIsFixed("a@x");
    NormalEmailIsFixed("b@y");
    NormalNameIsFixed("");
    NormalNameIsFixed("li");
    KeepAll("12345", IsDigit);
    Utf8BytesLength("li");
    ByteLengthCoversRunes("li");
    assert Utf8Bytes("") == [];
  }

  // ----- detection entry ---------------------------------------------------------------------------

  /** The in-place pass of `RunDetection` over the loaded rows. */
  method NormalizeInPlace(rows: array<Customer>)
    modifies rows
    ensures forall i :: 0 <= i < rows.Length ==> rows[i] == NormalizeCustomer(old(rows[i]))
  {
    hide NormalizeEmail, NormalizeName, NormalizePhone;
    for i := 0 to rows.Length
      invariant forall k :: 0 <= k < i ==> rows[k] == NormalizeCustomer(old(rows[k]))
      invariant forall k :: i <= k < rows.Length ==> rows[k] == old(rows[k])
    {
      rows[i] := rows[i].(email := NormalizeEmail(rows[i].email));
      rows[i] := rows[i].(name := NormalizeName(rows[i].name));
      rows[i] := rows[i].(phone := NormalizePhone(rows[i].phone));
    }
  }

  /** Every candidate pair that reaches 0.30 is among `pairs`. */
  ghost predicate CandidatesKept(cs: seq<Customer>, o: ScoreOptions, pairs: seq<ScoredPair>) {
    forall i, j :: Candidate(cs, i, j) && ScorePair(cs[i], cs[j], o).combined >= 0.30 ==>
                     MakePair(cs[i], cs[j], o) in pairs
  }

  lemma KeptCandidates(cs: seq<Customer>, o: ScoreOptions, pairs: seq<ScoredPair>)
    requires forall i, j :: Candidate(cs, i, j) && Passes(cs, o, i, j) ==> MakePair(cs[i], cs[j], o) in pairs
    ensures CandidatesKept(cs, o, pairs)
  {
    hide ScorePair, MakePair, ShareBucket, NamesClose;
  }

  /** Normalise, then score through the index: in a plain setting exactly the brute-force pairs,
      each once; in any setting nothing else. */
  method NormalizeAndScore(rows: array<Customer>, o: ScoreOptions) returns (pairs: seq<ScoredPair>)
    modifies rows
    ensures forall i :: 0 <= i < rows.Length ==> rows[i] == NormalizeCustomer(old(rows[i]))
    ensures forall p :: p in pairs ==> p in BruteForce(rows[..], o)
    ensures NoRepeats(pairs)
    ensures PlainSetting(old(rows[..]), o) ==> forall p :: p in BruteForce(rows[..], o) ==> p in pairs
    ensures DistinctIds(old(rows[..])) ==>
              ((forall p :: p in BruteForce(rows[..], o) ==> p in pairs) <==> NothingOverlooked(rows[..], o))
    ensures DistinctIds(old(rows[..])) ==> CandidatesKept(rows[..], o, pairs)
  {
    hide PlainSetting, NothingOverlooked, NoRepeats, Candidate, Passes, MakePair, BruteForce, NormalizeCustomer;
    hide DistinctIds, CandidatesKept;
    ghost var raw := rows[..];
    NormalizeInPlace(rows);
    pairs := ScorePairs(rows[..], o);
    SoundAgainstBruteForce(rows[..], o, pairs);
    if DistinctIds(raw) {
      CompleteIff(raw, rows[..], o, pairs);
      SameIds(raw, rows[..]);
      KeptCandidates(rows[..], o, pairs);
    }
    if PlainSetting(raw, o) {
      PlainIsLossless(raw, rows[..], o);
      CompleteAgainstBruteForce(rows[..], o, pairs);
    }
  }

  lemma SoundAgainstBruteForce(cs: seq<Customer>, o: ScoreOptions, pairs: seq<ScoredPair>)
    requires forall p :: p in pairs ==>
               exists i, j :: Candidate(cs, i, j) && Passes(cs, o, i, j) && p == MakePair(cs[i], cs[j], o)
    ensures forall p :: p in pairs ==> p in BruteForce(cs, o)
  {
    hide ScorePair, MakePair;
    forall p | p in pairs
      ensures p in BruteForce(cs, o)
    {
      var i, j :| Candidate(cs, i, j) && Passes(cs, o, i, j) && p == MakePair(cs[i], cs[j], o);
    }
  }

  lemma CompleteAgainstBruteForce(cs: seq<Customer>, o: ScoreOptions, pairs: seq<ScoredPair>)
    requires forall i, j :: Passes(cs, o, i, j) ==> Candidate(cs, i, j)
    requires forall i, j :: Candidate(cs, i, j) && Passes(cs, o, i, j) ==> MakePair(cs[i], cs[j], o) in pairs
    ensures forall p :: p in BruteForce(cs, o) ==> p in pairs
  {
    hide ScorePair, MakePair;
  }

  /** With distinct ids the index returns every brute-force pair exactly when nothing is overlooked. */
  lemma CompleteIff(raw: seq<Customer>, cs: seq<Customer>, o: ScoreOptions, pairs: seq<ScoredPair>)
    requires |cs| == |raw| && forall i :: 0 <= i < |raw| ==> cs[i] == NormalizeCustomer(raw[i])
    requires DistinctIds(raw)
    requires forall p :: p in pairs ==>
               exists i, j :: Candidate(cs, i, j) && Passes(cs, o, i, j) && p == MakePair(cs[i], cs[j], o)
    requires DistinctIds(cs) ==>
               forall i, j :: Candidate(cs, i, j) && Passes(cs, o, i, j) ==> MakePair(cs[i], cs[j], o) in pairs
    ensures (forall p :: p in BruteForce(cs, o) ==> p in pairs) <==> NothingOverlooked(cs, o)
  {
    hide NormalizeEmail, NormalizeName, NormalizePhone, ScorePair, ShareBucket, NamesClose, IsNormalized;
    hide NothingOverlooked;
    forall i | 0 <= i < |cs|
      ensures IsNormalized(cs[i])
    {
      NormalizeCustomerIdempotent(raw[i]);
    }
    LosslessAtAnySizeIff(cs, o);
    SameIds(raw, cs);
    hide DistinctIds;
    if NothingOverlooked(cs, o) {
      CompleteAgainstBruteForce(cs, o, pairs);
    }
    if forall p :: p in BruteForce(cs, o) ==> p in pairs {
      forall i, j | Passes(cs, o, i, j)
        ensures Candidate(cs, i, j)
      {
        PassingIsCandidate(cs, o, pairs, i, j);
      }
    }
  }

  lemma SameIds(raw: seq<Customer>, cs: seq<Customer>)
    requires |cs| == |raw| && forall i :: 0 <= i < |raw| ==> cs[i] == NormalizeCustomer(raw[i])
    ensures DistinctIds(raw) ==> DistinctIds(cs)
  {
    hide NormalizeEmail, NormalizeName, NormalizePhone;
  }

  lemma PassingIsCandidate(cs: seq<Customer>, o: ScoreOptions, pairs: seq<ScoredPair>, i: int, j: int)
    requires DistinctIds(cs) && Passes(cs, o, i, j)
    requires forall p :: p in BruteForce(cs, o) ==> p in pairs
    requires forall p :: p in pairs ==>
               exists x, y :: Candidate(cs, x, y) && Passes(cs, o, x, y) && p == MakePair(cs[x], cs[y], o)
    ensures Candidate(cs, i, j)
  {
    hide ScorePair, ShareBucket, NamesClose;
    var p := MakePair(cs[i], cs[j], o);
    assert p in BruteForce(cs, o);
    var x, y :| Candidate(cs, x, y) && Passes(cs, o, x, y) && p == MakePair(cs[x], cs[y], o);
    DistinctKeys(cs, i, j, x, y);
  }

  lemma PlainIsLossless(raw: seq<Customer>, cs: seq<Customer>, o: ScoreOptions)
    requires |cs| == |raw| && forall i :: 0 <= i < |raw| ==> cs[i] == NormalizeCustomer(raw[i])
    requires PlainSetting(raw, o)
    ensures DistinctIds(cs)
    ensures forall i, j :: Passes(cs, o, i, j) ==> Candidate(cs, i, j)
  {
    hide NormalizeEmail, NormalizeName, NormalizePhone, ScorePair, ShareBucket, NamesClose, IsNormalized, CountriesCompatible;
    forall i | 0 <= i < |cs|
      ensures IsNormalized(cs[i])
    {
      NormalizeCustomerIdempotent(raw[i]);
    }
    assert forall i, j :: 0 <= i < j < |cs| ==> !UnindexedEvidence(cs[i], cs[j], o);
    LosslessIff(cs, o);
  }
}
