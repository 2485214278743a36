/** Which customers always end up in one group, and which scored pairs never do
  * (internal/services/identity/cluster.go, internal/services/identity/detector.go).
  */
module SharedIdentity {
  import opened Normalization
  import opened Scorer
  import opened SignalMeaning
  import opened Clustering
  import opened Graph
  import Blocking
  import Buckets
  import Risk
  import Sets

  // ----- scores that are always accepted ---------------------------------------------------------

  /** Since no score exceeds 0.98, a strongly supported pair from 0.882 on is an edge whatever else was scored. */
  lemma HighScoreIsEdge(pairs: seq<ScoredPair>, p: ScoredPair)
    requires p in pairs && forall q :: q in pairs ==> q.score.combined <= 0.98
    requires HasStrongSignal(p.score.sig) && p.score.combined >= 0.882
    ensures (p.a, p.b) in Edges(pairs, Risk.DEFAULT_THRESHOLD)
  {
    hide HasStrongSignal;
    assert Accepted(pairs, Risk.DEFAULT_THRESHOLD, p);
  }

  /** The bound is sharp: of two strongly supported pairs with a member in common, the lower one is an edge
      exactly when it reaches 0.70 and nine tenths of the higher one. */
  lemma LowerPairIsEdgeIff(high: ScoredPair, low: ScoredPair)
    requires HasStrongSignal(high.score.sig) && HasStrongSignal(low.score.sig)
    requires high.score.combined >= 0.70 && high.score.combined >= low.score.combined
    requires Touches(high, low.a) && !Touches(high, low.b) && high.a != high.b && low.a != low.b
    ensures var es := Edges([high, low], Risk.DEFAULT_THRESHOLD);
            && (high.a, high.b) in es
            && ((low.a, low.b) in es <==> low.score.combined >= 0.70 &&
                                          10.0 * low.score.combined >= 9.0 * high.score.combined)
  {
    hide HasStrongSignal;
    var pairs := [high, low];
    assert high in pairs && low in pairs;
    assert Touches(high, high.a) && Touches(low, low.a);
    assert Accepted(pairs, Risk.DEFAULT_THRESHOLD, high);
    assert Accepted(pairs, Risk.DEFAULT_THRESHOLD, low) <==>
           low.score.combined >= 0.70 && low.score.combined >= high.score.combined * 0.9;
  }

  // ----- the same email, the same phone ------------------------------------------------------------

  predicate SameEmail(a: Customer, b: Customer, o: ScoreOptions) {
    o.signalEmail && NormalizeEmail(a.email) != "" && NormalizeEmail(a.email) == NormalizeEmail(b.email)
  }

  predicate SamePhone(a: Customer, b: Customer, o: ScoreOptions) {
    o.signalPhone && NormalizePhone(a.phone) != "" && NormalizePhone(a.phone) == NormalizePhone(b.phone)
  }

  /** The same email or phone gives 0.98, or what a behavioural rule gives, unless the countries differ. */
  lemma SameIdentityScores(a: Customer, b: Customer, o: ScoreOptions)
    requires SameEmail(a, b, o) || SamePhone(a, b, o)
    ensures var s := ScorePair(a, b, o);
            if DifferentCountries(a, b) then s.combined == 0.0
            else HasStrongSignal(s.sig) && 0.90 <= s.combined <= 0.98 && (!o.behavioralEnabled ==> s.combined == 0.98)
  {
    EmailSignalsMean(a, b, o);
    PhoneSignalsMean(a, b, o);
    CountryBlocks(a, b, o);
    CombinedRange(a, b, o);
    var s := ScorePair(a, b, o).sig;
    assert s.emailExact || s.phoneExact;
    hide RawSignals, MaskSignals, NormalizeEmail, NormalizePhone, NormalizeName, DifferentCountries;
    hide SameDomain, LocalPartsWithin, Prefixed, EmailSimilarity, PhoneSimilarity, NameSimilarity, AddressSimilarity;
  }

  /** Who is certain to be grouped: the same email, or the same phone of at least seven digits, without two
      different countries. */
  predicate Certain(a: Customer, b: Customer, o: ScoreOptions) {
    && !DifferentCountries(a, b)
    && (SameEmail(a, b, o) || (SamePhone(a, b, o) && |NormalizePhone(a.phone)| >= 7))
  }

  lemma CertainIsCandidate(cs: seq<Customer>, o: ScoreOptions, i: int, j: int)
    requires 0 <= i < j < |cs| && Blocking.IsNormalized(cs[i]) && Blocking.IsNormalized(cs[j])
    requires Certain(cs[i], cs[j], o)
    ensures Blocking.Candidate(cs, i, j)
  {
    Buckets.BucketsBringTogether(cs, i, j);
    NormalFields(cs[i]);
    NormalFields(cs[j]);
    hide NormalizeEmail, NormalizePhone, NormalizeName, EmailDomain, DifferentCountries, Blocking.Candidate;
  }

  lemma NormalFields(c: Customer)
    requires Blocking.IsNormalized(c)
    ensures NormalizeEmail(c.email) == c.email && NormalizePhone(c.phone) == c.phone
  {
    hide NormalizeEmail, NormalizePhone, NormalizeName;
    assert Blocking.NormalizeCustomer(c).email == c.email && Blocking.NormalizeCustomer(c).phone == c.phone;
  }

  lemma CertainAfterNormalizing(a: Customer, b: Customer, o: ScoreOptions)
    requires Certain(a, b, o)
    ensures Certain(Blocking.NormalizeCustomer(a), Blocking.NormalizeCustomer(b), o)
  {
    NormalizeEmailIdempotent(a.email);
    NormalizeEmailIdempotent(b.email);
    NormalizePhoneIdempotent(a.phone);
    NormalizePhoneIdempotent(b.phone);
    hide NormalizeEmail, NormalizePhone, NormalizeName, Lower, TrimSpace;
  }

  /** Both customers are members of one group. */
  ghost predicate Together(groups: set<set<int>>, x: int, y: int) {
    exists c :: c in groups && x in c && y in c
  }

  lemma EdgeIsTogether(es: set<Edge>, x: int, y: int)
    requires (x, y) in es && x != y
    ensures Together(Components(es), x, y)
  {
    EdgeConnects(es, x, y);
    ConnectedReflexive(es, x);
    assert x in Vertices(es) && y in Vertices(es);
    hide Connected, Vertices;
    assert {x, y} <= Component(es, x);
    Sets.SubsetSize({x, y}, Component(es, x));
    assert Component(es, x) in Components(es);
  }

  lemma EdgeConnects(es: set<Edge>, x: int, y: int)
    requires (x, y) in es
    ensures Connected(es, x, y)
  {
    assert Adjacent(es, x, y);
    assert IsPath(es, [x, y], x, y);
  }

  /** All certain pairs of `raw` are together. */
  ghost predicate CertainTogether(raw: seq<Customer>, o: ScoreOptions, groups: set<set<int>>) {
    forall i, j :: 0 <= i < j < |raw| && Certain(raw[i], raw[j], o) ==> Together(groups, raw[i].id, raw[j].id)
  }

  /** However many customers there are and whatever else is scored, certain pairs end in one group. */
  lemma CertainPairsAreGrouped(raw: seq<Customer>, cs: seq<Customer>, o: ScoreOptions, pairs: seq<ScoredPair>)
    requires Risk.ScoredFrom(raw, cs, o, pairs) && Blocking.DistinctIds(raw)
    ensures CertainTogether(raw, o, Components(Edges(pairs, Risk.DEFAULT_THRESHOLD)))
  {
    hide Certain, Edges, Components, Together, Blocking.DistinctIds;
    forall i, j | 0 <= i < j < |raw| && Certain(raw[i], raw[j], o)
      ensures Together(Components(Edges(pairs, Risk.DEFAULT_THRESHOLD)), raw[i].id, raw[j].id)
    {
      CertainPairIsEdge(raw, cs, o, pairs, i, j);
      DifferentIds(raw, i, j);
      EdgeIsTogether(Edges(pairs, Risk.DEFAULT_THRESHOLD), raw[i].id, raw[j].id);
    }
  }

  lemma DifferentIds(raw: seq<Customer>, i: int, j: int)
    requires Blocking.DistinctIds(raw) && 0 <= i < j < |raw|
    ensures raw[i].id != raw[j].id
  {
  }

  lemma CertainPairIsEdge(
    raw: seq<Customer>, cs: seq<Customer>, o: ScoreOptions, pairs: seq<ScoredPair>, i: int, j: int)
    requires Risk.ScoredFrom(raw, cs, o, pairs) && Blocking.DistinctIds(raw)
    requires 0 <= i < j < |raw| && Certain(raw[i], raw[j], o)
    ensures (raw[i].id, raw[j].id) in Edges(pairs, Risk.DEFAULT_THRESHOLD)
  {
    hide Edges, HasStrongSignal, ScorePair, NormalizeEmail, NormalizePhone, NormalizeName, DifferentCountries;
    hide Blocking.Candidate, Blocking.NothingOverlooked, Blocking.PlainSetting, Blocking.NoRepeats;
    CertainAfterNormalizing(raw[i], raw[j], o);
    Blocking.NormalizeCustomerIdempotent(raw[i]);
    Blocking.NormalizeCustomerIdempotent(raw[j]);
    hide Blocking.IsNormalized;
    CertainIsCandidate(cs, o, i, j);
    SameIdentityScores(cs[i], cs[j], o);
    var p := MakePair(cs[i], cs[j], o);
    assert p in pairs;
    ScoresWithinRange(cs, o, pairs);
    HighScoreIsEdge(pairs, p);
  }

  lemma ScoresWithinRange(cs: seq<Customer>, o: ScoreOptions, pairs: seq<ScoredPair>)
    requires forall p :: p in pairs ==> p in Blocking.BruteForce(cs, o)
    ensures forall p :: p in pairs ==> p.score.combined <= 0.98
  {
    hide ScorePair;
    forall p | p in pairs
      ensures p.score.combined <= 0.98
    {
      var i, j :| 0 <= i < |cs| && 0 <= j < |cs| && Blocking.Passes(cs, o, i, j) && p == MakePair(cs[i], cs[j], o);
      CombinedRange(cs[i], cs[j], o);
    }
  }

  // ----- scores that are refused as weak -----------------------------------------------------------

  /** A scored pair from 0.70 on that is refused although nothing better competes with it. */
  predicate RefusedAsWeak(a: Customer, b: Customer, o: ScoreOptions) {
    ScorePair(a, b, o).combined >= 0.70 && Edges([MakePair(a, b, o)], Risk.DEFAULT_THRESHOLD) == {}
  }

  /** Such a pair has a similar name and no email, phone, address or place of order in common.  What it has
      besides: with a high name similarity a similar local part at another domain or the same domain; with a
      medium one a phone suffix or a similar local part at another domain.  And every pair from 0.70 on with
      no more than that is refused. */
  lemma RefusedAsWeakIff(a: Customer, b: Customer, o: ScoreOptions)
    ensures RefusedAsWeak(a, b, o) <==>
              var s := ScorePair(a, b, o);
              && s.combined >= 0.70
              && s.sig.nameMedium
              && !s.sig.emailExact && !s.sig.phoneExact && !s.sig.addressExact && !s.sig.orderAddressExact
              && if s.sig.nameHigh then
                   && !s.sig.addressPartial && !s.sig.orderAddressPartial && !s.sig.emailLocalExact && !s.sig.phoneSuffix
                   && (s.sig.emailLocalFuzzy || s.sig.emailDomainMatch)
                 else s.sig.phoneSuffix || s.sig.emailLocalExact || s.sig.emailLocalFuzzy
  {
    AloneIsEdge(MakePair(a, b, o));
    if ScorePair(a, b, o).combined >= 0.70 {
      SupportNeeded(a, b, o);
    }
    hide ScorePair, Edges;
  }

  lemma AloneIsEdge(p: ScoredPair)
    ensures Edges([p], Risk.DEFAULT_THRESHOLD) ==
            if HasStrongSignal(p.score.sig) && p.score.combined >= 0.70 then {(p.a, p.b)} else {}
  {
    hide HasStrongSignal;
    assert p in [p];
    assert p.score.combined >= 0.70 ==> NearBest([p], p);
  }

  lemma SupportNeeded(a: Customer, b: Customer, o: ScoreOptions)
    requires ScorePair(a, b, o).combined >= 0.70
    ensures var s := ScorePair(a, b, o).sig;
            (s.nameHigh ==> s.nameMedium) &&
            (!HasStrongSignal(s) ==>
               s.nameMedium &&
               (s.emailLocalFuzzy || (s.nameHigh && s.emailDomainMatch) || s.phoneSuffix || s.emailLocalExact))
  {
    SimilaritiesNonNegative(a, b, o);
    var s := ScorePair(a, b, o);
    BaseRuleRange(s.sig);
    FallbackRange(s.sig, s.nameSim, s.addressSim, s.emailSim, s.phoneSim);
    hide RawSignals, MaskSignals, ComputeFallback, Penalty;
  }
}
