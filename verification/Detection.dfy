/** `RunDetection` from the loaded customers to the stored groups (internal/services/identity/detector.go). */
module Detection {
  import opened Sets
  import opened Scorer
  import opened Clustering
  import opened DuplicateTable
  import Blocking
  import GroupHash
  import Graph
  import Risk
  import SharedIdentity

  /** Some list of the customers in `c`. */
  ghost function Listing(c: set<int>): seq<int> {
    if c == {} then []
    else
      NonEmpty(c);
      var x :| x in c;
      [x] + Listing(c - {x})
  }

  /** The hash of a group, whatever the order its customers are listed in. */
  ghost function HashOf(c: set<int>): string {
    GroupHash.Preimage(GroupHash.Sorted(Listing(c)))
  }

  /** The components of the accepted-edge graph: who should be grouped. */
  ghost function Groups(pairs: seq<ScoredPair>): set<set<int>> {
    Graph.Components(Edges(pairs, Risk.DEFAULT_THRESHOLD))
  }

  ghost function GroupHashes(pairs: seq<ScoredPair>): set<string> {
    set c | c in Groups(pairs) :: HashOf(c)
  }

  /** The confidence of a group: its best score. */
  ghost predicate IsConfidence(pairs: seq<ScoredPair>, c: set<int>, confidence: real) {
    exists top :: IsTop(pairs, c, top) && confidence == if top.Some? then top.value.score.combined else 0.0
  }

  /** A live row of the merchant holds the group with its members and confidence. */
  ghost predicate Grouped(t: Table, merchant: int, pairs: seq<ScoredPair>, c: set<int>) {
    exists s: seq<int>, confidence: real ::
      NoDuplicates(s) && Members(s) == c && IsConfidence(pairs, c, confidence) && Stored(t, merchant, s, confidence)
  }

  // ----- hashes of disjoint clusters -----------------------------------------------------------------

  lemma MultisetMembers(s: seq<int>)
    ensures forall x :: x in Members(s) <==> x in multiset(s)
  {
  }

  /** Clusters without a common member have different hashes. */
  lemma GroupedHashesDiffer(clusters: map<int, seq<int>>)
    requires WellGrouped(clusters)
    ensures DistinctHashes(clusters)
  {
    hide GroupHash.Preimage, GroupHash.Sorted, NoDuplicates;
    forall k, l | k in clusters && l in clusters && k != l
      ensures GroupHash.Preimage(GroupHash.Sorted(clusters[k])) != GroupHash.Preimage(GroupHash.Sorted(clusters[l]))
    {
      GroupHash.PreimageIdentifiesMembers(clusters[k], clusters[l]);
      MultisetMembers(clusters[k]);
      MultisetMembers(clusters[l]);
      assert k in Members(clusters[k]) && k !in Members(clusters[l]);
    }
  }

  lemma {:induction false} ListingLists(c: set<int>)
    ensures NoDuplicates(Listing(c)) && Members(Listing(c)) == c
  {
    if c != {} {
      NonEmpty(c);
      var x :| x in c && Listing(c) == [x] + Listing(c - {x});
      ListingLists(c - {x});
      assert x !in Members(Listing(c - {x}));
      assert forall y :: y in Listing(c - {x}) <==> y in Members(Listing(c - {x}));
      assert Members(Listing(c)) == {x} + (c - {x});
    }
  }

  /** `HashOf` is the hash of every list of the group. */
  lemma HashOfList(s: seq<int>)
    requires NoDuplicates(s)
    ensures GroupHash.Preimage(GroupHash.Sorted(s)) == HashOf(Members(s))
  {
    ListingLists(Members(s));
    hide NoDuplicates, Members, GroupHash.Preimage, GroupHash.Sorted;
    SameMembersSameHash(s, Listing(Members(s)));
  }

  lemma ClusterHashes(clusters: map<int, seq<int>>)
    requires WellGrouped(clusters)
    ensures HashesOf(clusters, clusters.Keys) == set c | c in Partition(clusters) :: HashOf(c)
  {
    hide GroupHash.Preimage, GroupHash.Sorted, HashOf, NoDuplicates;
    forall k | k in clusters
      ensures GroupHash.Preimage(GroupHash.Sorted(clusters[k])) == HashOf(Members(clusters[k]))
      ensures Members(clusters[k]) in Partition(clusters)
    {
      HashOfList(clusters[k]);
    }
    forall c | c in Partition(clusters)
      ensures HashOf(c) in HashesOf(clusters, clusters.Keys)
    {
      var k :| k in clusters && c == Members(clusters[k]);
    }
  }

  lemma SameMembersSameHash(s: seq<int>, t: seq<int>)
    requires NoDuplicates(s) && NoDuplicates(t) && Members(s) == Members(t)
    ensures GroupHash.Preimage(GroupHash.Sorted(s)) == GroupHash.Preimage(GroupHash.Sorted(t))
  {
    hide GroupHash.Preimage, GroupHash.Sorted;
    forall x
      ensures multiset(s)[x] == multiset(t)[x]
    {
      CountsOnce(s, x);
      CountsOnce(t, x);
      assert x in Members(s) <==> x in Members(t);
    }
    assert multiset(s) == multiset(t);
    GroupHash.PreimageIdentifiesMembers(s, t);
  }

  lemma {:induction false} CountsOnce(s: seq<int>, x: int)
    requires NoDuplicates(s)
    ensures multiset(s)[x] == if x in s then 1 else 0
  {
    if s != [] {
      var n := |s| - 1;
      CountsOnce(s[..n], x);
      assert s == s[..n] + [s[n]];
    }
  }

  // ----- the run ---------------------------------------------------------------------------------------

  /** The best score of every cluster. */
  method Confidences(pairs: seq<ScoredPair>, clusters: map<int, seq<int>>) returns (confidence: map<int, real>)
    ensures confidence.Keys == clusters.Keys
    ensures forall k :: k in clusters ==> IsConfidence(pairs, Members(clusters[k]), confidence[k])
  {
    hide IsTop;
    confidence := map[];
    var todo := clusters.Keys;
    while todo != {}
      invariant todo <= clusters.Keys && confidence.Keys == clusters.Keys - todo
      invariant forall k :: k in confidence ==> IsConfidence(pairs, Members(clusters[k]), confidence[k])
      decreases todo
    {
      NonEmpty(todo);
      var k :| k in todo;
      var top := TopPairForCluster(pairs, clusters[k]);
      confidence := confidence[k := if top.Some? then top.value.score.combined else 0.0];
      todo := todo - {k};
    }
  }

  lemma AllGrouped(
    t: Table, merchant: int, pairs: seq<ScoredPair>, clusters: map<int, seq<int>>, confidence: map<int, real>)
    requires WellGrouped(clusters) && confidence.Keys == clusters.Keys
    requires forall k :: k in clusters ==> IsConfidence(pairs, Members(clusters[k]), confidence[k])
    requires forall k :: k in clusters ==> Stored(t, merchant, clusters[k], confidence[k])
    ensures forall c :: c in Partition(clusters) ==> Grouped(t, merchant, pairs, c)
  {
    hide IsConfidence, Stored, NoDuplicates, Members;
    forall c | c in Partition(clusters)
      ensures Grouped(t, merchant, pairs, c)
    {
      var k :| k in clusters && c == Members(clusters[k]);
    }
  }

  /** What an error-free detection run leaves behind.  The pending hashes are exactly the group hashes that
      no reviewed or dismissed row holds; every group is stored; and apart from the cleared pending rows of
      the merchant, every row of the table survives with merchant, hash and status, only the finding of a
      row that is not merged and holds a group hash may change, and every new row is a pending one of the
      merchant with a group hash. */
  ghost predicate Detected(before: Table, t: Table, merchant: int, pairs: seq<ScoredPair>, base: int) {
    && HeldHashes(t, merchant) == HeldHashes(before, merchant)
    && PendingHashes(t, merchant) == GroupHashes(pairs) - HeldHashes(before, merchant)
    && (forall c :: c in Groups(pairs) ==> Grouped(t, merchant, pairs, c))
    && Framed(WithoutPending(before, merchant), t, merchant, GroupHashes(pairs), base)
  }

  lemma DetectedIntro(
    before: Table, t: Table, merchant: int, pairs: seq<ScoredPair>, clusters: map<int, seq<int>>,
    confidence: map<int, real>, base: int)
    requires WellGrouped(clusters) && Partition(clusters) == Groups(pairs) && confidence.Keys == clusters.Keys
    requires forall k :: k in clusters ==> IsConfidence(pairs, Members(clusters[k]), confidence[k])
    requires forall k :: k in clusters ==> Stored(t, merchant, clusters[k], confidence[k])
    requires PendingHashes(t, merchant) == HashesOf(clusters, clusters.Keys) - HeldHashes(before, merchant)
    requires HeldHashes(t, merchant) == HeldHashes(before, merchant)
    requires Framed(WithoutPending(before, merchant), t, merchant, HashesOf(clusters, clusters.Keys), base)
    ensures Detected(before, t, merchant, pairs, base)
  {
    hide PendingHashes, HeldHashes, HashesOf, Groups, HashOf, Grouped, Stored, IsConfidence, WellGrouped, Framed;
    AllGrouped(t, merchant, pairs, clusters, confidence);
    ClusterHashes(clusters);
  }

  /** Below two customers nothing happens.  Otherwise every customer is normalised; the pairs are brute-force
      pairs, none twice, and with distinct ids all of them exactly when nothing is overlooked; the groups are
      the connected components of their accepted-edge graph, with distinct ids certain pairs in one group;
      and the table is as `Detected` says. */
  method RunDetection(repo: DuplicateRepo, merchant: int, rows: array<Customer>, o: ScoreOptions)
    returns (persisted: nat, pairs: seq<ScoredPair>)
    requires repo.Valid()
    modifies repo, rows
    ensures repo.Valid()
    ensures rows.Length < 2 ==> persisted == 0 && repo.rows == old(repo.rows) && rows[..] == old(rows[..])
    ensures rows.Length >= 2 ==> Risk.ScoredFrom(old(rows[..]), rows[..], o, pairs)
    ensures rows.Length >= 2 ==>
              persisted == |Groups(pairs)| && Detected(old(repo.rows), repo.rows, merchant, pairs, old(repo.nextId))
    ensures rows.Length >= 2 && Blocking.DistinctIds(old(rows[..])) ==>
              SharedIdentity.CertainTogether(old(rows[..]), o, Groups(pairs))
  {
    hide OneLive, Detected, Groups, PendingHashes, HeldHashes, HashesOf, Stored, IsConfidence, WellGrouped;
    hide Risk.ScoredFrom, DistinctHashes, Partition, Framed, WithoutPending;
    hide Blocking.DistinctIds, SharedIdentity.CertainTogether;
    ghost var raw := rows[..];
    if rows.Length < 2 {
      return 0, [];
    }
    var clusters;
    pairs, clusters := Risk.DetectClusters(rows, o);
    GroupsAre(pairs);
    assert Partition(clusters) == Groups(pairs);
    if Blocking.DistinctIds(raw) {
      SharedIdentity.CertainPairsAreGrouped(raw, rows[..], o, pairs);
    }
    var confidence := Confidences(pairs, clusters);
    persisted := repo.Rebuild(merchant, rows.Length, clusters, confidence);
    GroupedHashesDiffer(clusters);
    PartitionSize(clusters);
    DetectedIntro(old(repo.rows), repo.rows, merchant, pairs, clusters, confidence, old(repo.nextId));
  }

  lemma GroupsAre(pairs: seq<ScoredPair>)
    ensures Groups(pairs) == Graph.Components(Edges(pairs, Risk.DEFAULT_THRESHOLD))
  {
  }

  lemma {:induction false} PartitionSize(clusters: map<int, seq<int>>)
    requires WellGrouped(clusters)
    ensures |Partition(clusters)| == |clusters|
    decreases |clusters|
  {
    if clusters.Keys != {} {
      NonEmpty(clusters.Keys);
      var k :| k in clusters.Keys;
      var rest := clusters - {k};
      PartitionSize(rest);
      assert clusters.Keys == rest.Keys + {k};
      assert k in Members(clusters[k]);
      assert Members(clusters[k]) !in Partition(rest);
      assert Partition(clusters) == Partition(rest) + {Members(clusters[k])};
    } else {
      assert clusters == map[];
    }
  }
}
