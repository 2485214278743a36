/** Risk classification of a formed cluster (internal/services/identity/detector.go). */
module Risk {
  import opened Scorer
  import opened Clustering
  import Blocking
  import Graph

  datatype Level = Absent | Low | Medium | High

  function Rank(l: Level): nat {
    match l
    case Absent => 0
    case Low => 1
    case Medium => 2
    case High => 3
  }

  datatype Verdict = Safe | Review | Risky

  function Concern(v: Verdict): nat {
    match v
    case Safe => 0
    case Review => 1
    case Risky => 2
  }

  datatype RiskInput = RiskInput(
    confidence: real,
    conflictSeverity: Level,
    weakestEdge: real,
    density: real,
    hasAnchor: bool,
    businessRisk: Level,
    impactScore: real,
    weakLinkProtection: bool,
    requireAnchor: bool)

  const MIN_DENSITY := 0.60
  const WEAK_EDGE_FLOOR := 0.70
  const HIGH_IMPACT_FLOOR := 1000.0

  /** The priority chain, in source order. */
  function ClassifyRisk(r: RiskInput): Verdict {
    if r.conflictSeverity == High then Risky
    else if r.conflictSeverity == Medium then (if r.confidence >= 0.90 then Review else Risky)
    else if r.businessRisk == High then (if r.confidence >= 0.90 then Review else Risky)
    else if r.businessRisk == Medium && r.confidence >= 0.90 then Review
    else if r.impactScore >= HIGH_IMPACT_FLOOR && r.confidence >= 0.90 then Review
    else if r.weakLinkProtection && r.weakestEdge < WEAK_EDGE_FLOOR then
      (if r.confidence >= 0.75 then Review else Risky)
    else if r.density < MIN_DENSITY then
      (if r.confidence >= 0.90 && r.weakestEdge >= 0.85 then Review
       else if r.confidence >= 0.75 then Review
       else Risky)
    else if r.requireAnchor && !r.hasAnchor then (if r.confidence >= 0.90 then Review else Risky)
    else if r.confidence >= 0.90 then Safe
    else if r.confidence >= 0.75 then Review
    else Risky
  }

  // ----- what the verdicts mean ------------------------------------------------------------------

  /** "safe" takes everything: high confidence and nothing at all to object to. */
  lemma SafeIff(r: RiskInput)
    ensures ClassifyRisk(r) == Safe <==>
            && r.confidence >= 0.90
            && Rank(r.conflictSeverity) <= 1 && Rank(r.businessRisk) <= 1 && r.impactScore < 1000.0
            && (r.weakLinkProtection ==> r.weakestEdge >= 0.70)
            && r.density >= 0.60
            && (r.requireAnchor ==> r.hasAnchor)
  {
  }

  /** "risky" takes a high conflict or a confidence below 0.75; and between 0.75 and 0.90 a medium conflict,
      a high business risk, or a missing anchor that no weak link or thin cluster has put to review before. */
  lemma RiskyIff(r: RiskInput)
    ensures ClassifyRisk(r) == Risky <==>
            || r.conflictSeverity == High
            || r.confidence < 0.75
            || (r.confidence < 0.90 &&
                (r.conflictSeverity == Medium || r.businessRisk == High ||
                 (r.requireAnchor && !r.hasAnchor &&
                  (r.weakLinkProtection ==> r.weakestEdge >= 0.70) && r.density >= 0.60)))
  {
  }

  /** `t` is at least as bad as `r` in conflicts, business risk, impact, confidence and anchor, and the
      same in its links. */
  predicate WorseOff(r: RiskInput, t: RiskInput) {
    && Rank(r.conflictSeverity) <= Rank(t.conflictSeverity)
    && Rank(r.businessRisk) <= Rank(t.businessRisk)
    && r.impactScore <= t.impactScore
    && r.confidence >= t.confidence
    && (t.hasAnchor ==> r.hasAnchor) && (r.requireAnchor ==> t.requireAnchor)
    && r.weakestEdge == t.weakestEdge && r.density == t.density && r.weakLinkProtection == t.weakLinkProtection
  }

  /** Worse conflicts, higher business risk or impact, lower confidence or a lost anchor never make the
      verdict milder, together or alone. */
  lemma WorseIsNeverMilder(r: RiskInput, t: RiskInput)
    requires WorseOff(r, t)
    ensures Concern(ClassifyRisk(r)) <= Concern(ClassifyRisk(t))
  {
    SafeIff(r);
    SafeIff(t);
    RiskyIff(r);
    RiskyIff(t);
    hide ClassifyRisk;
  }

  /** The chain gets as far as the density step. */
  predicate ReachesDensity(r: RiskInput) {
    && Rank(r.conflictSeverity) <= 1
    && r.businessRisk != High
    && !(r.businessRisk == Medium && r.confidence >= 0.90)
    && !(r.impactScore >= HIGH_IMPACT_FLOOR && r.confidence >= 0.90)
    && !(r.weakLinkProtection && r.weakestEdge < WEAK_EDGE_FLOOR)
  }

  /** Confidence in the middle band and a required anchor that is missing. */
  predicate MissesAnchorInMidBand(r: RiskInput) {
    r.requireAnchor && !r.hasAnchor && 0.75 <= r.confidence < 0.90
  }

  /** More corroboration is not always better: a denser cluster gets the worse verdict exactly when
      it leaves the sparse branch, in the middle band, without its required anchor. */
  lemma DenserIsWorseIff(r: RiskInput, denser: real)
    requires denser >= r.density
    ensures Concern(ClassifyRisk(r.(density := denser))) > Concern(ClassifyRisk(r)) <==>
            ReachesDensity(r) && r.density < MIN_DENSITY <= denser && MissesAnchorInMidBand(r)
  {
  }

  /** The same for a stronger weakest edge that clears the weak-link guard. */
  lemma StrongerWeakestEdgeIsWorseIff(r: RiskInput, stronger: real)
    requires stronger >= r.weakestEdge
    ensures Concern(ClassifyRisk(r.(weakestEdge := stronger))) > Concern(ClassifyRisk(r)) <==>
            && ReachesDensity(r.(weakestEdge := stronger))
            && r.weakLinkProtection && r.weakestEdge < WEAK_EDGE_FLOOR
            && r.density >= MIN_DENSITY
            && MissesAnchorInMidBand(r)
  {
  }

  /** Nor does a merchant's guard always err on the safe side: the weak-link guard makes a verdict milder
      exactly when it takes a weakly linked, dense cluster out of the way of the missing-anchor step. */
  lemma WeakLinkGuardIsMilderIff(r: RiskInput)
    requires !r.weakLinkProtection
    ensures Concern(ClassifyRisk(r.(weakLinkProtection := true))) < Concern(ClassifyRisk(r)) <==>
            ReachesDensity(r) && r.weakestEdge < 0.70 && r.density >= 0.60 && MissesAnchorInMidBand(r)
  {
  }

  /** Both happen: without an anchor, at confidence 0.80, raising the density from 0.50 to 1 or the weakest
      edge from 0.60 to 0.80 turns "review" into "risky". */
  lemma ImprovementCanHurt()
    ensures exists r: RiskInput, denser: real ::
              denser >= r.density && ClassifyRisk(r) == Review && ClassifyRisk(r.(density := denser)) == Risky
    ensures exists r: RiskInput, stronger: real ::
              stronger >= r.weakestEdge && ClassifyRisk(r) == Review && ClassifyRisk(r.(weakestEdge := stronger)) == Risky
  {
    var sparse := RiskInput(0.80, Absent, 0.80, 0.50, false, Absent, 0.0, true, true);
    assert ClassifyRisk(sparse) == Review && ClassifyRisk(sparse.(density := 1.0)) == Risky;
    var weak := RiskInput(0.80, Absent, 0.60, 1.0, false, Absent, 0.0, true, true);
    assert ClassifyRisk(weak) == Review && ClassifyRisk(weak.(weakestEdge := 0.80)) == Risky;
  }

  /** Two- and three-member clusters are always dense enough: their verdict is that of density 1. */
  lemma SmallClusterNeverSparse(pairs: seq<ScoredPair>, threshold: real, members: seq<int>, r: RiskInput)
    requires ProperPairs(pairs) && NoDuplicates(members) && |members| <= 3
    requires Members(members) in Graph.Components(Edges(pairs, threshold))
    requires r.density == Density(pairs, members)
    ensures ClassifyRisk(r) == ClassifyRisk(r.(density := 1.0))
  {
    hide Density, Edges, ProperPairs, NoDuplicates;
    if |members| == 3 {
      DensityBounds(pairs, threshold, members);
    } else {
      PairDensity(pairs, members);
    }
  }

  lemma PairDensity(pairs: seq<ScoredPair>, members: seq<int>)
    ensures |members| <= 2 ==> Density(pairs, members) == 1.0
  {
  }

  const DEFAULT_THRESHOLD := 0.65

  /** What scoring the normalised rows `cs` of the loaded customers `raw` may return: pairs that brute force
      would return, none twice; with distinct ids every candidate pair that reaches 0.30, and all brute-force
      pairs exactly when nothing is overlooked. */
  ghost predicate ScoredFrom(raw: seq<Customer>, cs: seq<Customer>, o: ScoreOptions, pairs: seq<ScoredPair>) {
    && |cs| == |raw|
    && (forall i :: 0 <= i < |raw| ==> cs[i] == Blocking.NormalizeCustomer(raw[i]))
    && Blocking.NoRepeats(pairs)
    && (forall p :: p in pairs ==> p in Blocking.BruteForce(cs, o) && p.score.combined >= 0.30)
    && (Blocking.DistinctIds(raw) ==> Blocking.CandidatesKept(cs, o, pairs))
    && (Blocking.DistinctIds(raw) ==>
          ((forall p :: p in Blocking.BruteForce(cs, o) ==> p in pairs) <==> Blocking.NothingOverlooked(cs, o)))
    && (Blocking.PlainSetting(raw, o) ==> forall p :: p in Blocking.BruteForce(cs, o) ==> p in pairs)
  }

  /** The front half of `RunDetection`: normalise, score through the index, cluster.  With distinct ids
      every cluster's density is between 2/n and 1. */
  method DetectClusters(rows: array<Customer>, o: ScoreOptions)
    returns (pairs: seq<ScoredPair>, clusters: map<int, seq<int>>)
    modifies rows
    ensures WellGrouped(clusters)
    ensures Partition(clusters) == Graph.Components(Edges(pairs, DEFAULT_THRESHOLD))
    ensures ScoredFrom(old(rows[..]), rows[..], o, pairs)
    ensures Blocking.DistinctIds(old(rows[..])) ==>
              ProperPairs(pairs) &&
              forall k :: k in clusters && |clusters[k]| >= 3 ==>
                2.0 / |clusters[k]| as real <= Density(pairs, clusters[k]) <= 1.0
  {
    hide Blocking.BruteForce, Blocking.NothingOverlooked, Blocking.PlainSetting, Blocking.NoRepeats;
    hide Blocking.NormalizeCustomer, Blocking.DistinctIds, Blocking.CandidatesKept, ProperPairs, Edges;
    hide WellGrouped, Partition, Density;
    ghost var raw := rows[..];
    pairs := Blocking.NormalizeAndScore(rows, o);
    BruteForceReaches(rows[..], o);
    clusters := ClusterPairs(pairs, DEFAULT_THRESHOLD);
    if Blocking.DistinctIds(raw) {
      SamePairsProper(raw, rows[..], o, pairs);
      AllDense(pairs, clusters);
    }
  }

  lemma BruteForceReaches(cs: seq<Customer>, o: ScoreOptions)
    ensures forall p :: p in Blocking.BruteForce(cs, o) ==> p.score.combined >= 0.30
  {
    hide ScorePair;
  }

  lemma SamePairsProper(raw: seq<Customer>, cs: seq<Customer>, o: ScoreOptions, pairs: seq<ScoredPair>)
    requires |cs| == |raw| && forall i :: 0 <= i < |raw| ==> cs[i] == Blocking.NormalizeCustomer(raw[i])
    requires Blocking.DistinctIds(raw) && Blocking.NoRepeats(pairs)
    requires forall p :: p in pairs ==> p in Blocking.BruteForce(cs, o)
    ensures ProperPairs(pairs)
  {
    hide Blocking.NoRepeats, ScorePair;
    forall p | p in pairs
      ensures p.a != p.b
    {
      var i, j :| 0 <= i < |cs| && 0 <= j < |cs| && Blocking.Passes(cs, o, i, j) && p == MakePair(cs[i], cs[j], o);
      assert cs[i].id == raw[i].id && cs[j].id == raw[j].id;
    }
  }

  lemma AllDense(pairs: seq<ScoredPair>, clusters: map<int, seq<int>>)
    requires ProperPairs(pairs) && WellGrouped(clusters)
    requires Partition(clusters) == Graph.Components(Edges(pairs, DEFAULT_THRESHOLD))
    ensures forall k :: k in clusters && |clusters[k]| >= 3 ==>
              2.0 / |clusters[k]| as real <= Density(pairs, clusters[k]) <= 1.0
  {
    hide ProperPairs, Density, Graph.Components, Edges;
    forall k | k in clusters && |clusters[k]| >= 3
      ensures 2.0 / |clusters[k]| as real <= Density(pairs, clusters[k]) <= 1.0
    {
      assert Members(clusters[k]) in Partition(clusters);
      DensityBounds(pairs, DEFAULT_THRESHOLD, clusters[k]);
    }
  }
}
