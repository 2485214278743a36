/** Cluster formation and cluster measures (internal/services/identity/cluster.go). */
module Clustering {
  import opened Graph
  import opened Sets
  import Blocking
  import opened Scorer
  import opened UnionFindForest

  const ABSOLUTE_FLOOR := 0.70
  const PROXIMITY_RATIO := 0.90

  // ----- which pairs become edges ----------------------------------------------------------------

  predicate HasStrongSignal(s: Signals) {
    || s.emailExact
    || s.phoneExact
    || s.orderAddressExact
    || s.addressExact
    || (s.addressPartial && s.nameHigh)
    || (s.orderAddressPartial && s.nameHigh)
    || (s.emailLocalExact && s.nameHigh)
    || (s.phoneSuffix && s.nameHigh)
  }

  predicate Touches(p: ScoredPair, id: int) {
    p.a == id || p.b == id
  }

  /** Within the proximity ratio of every pair that shares a member with `p`. */
  predicate NearBest(pairs: seq<ScoredPair>, p: ScoredPair) {
    forall q :: q in pairs && (Touches(q, p.a) || Touches(q, p.b)) ==>
      p.score.combined >= q.score.combined * PROXIMITY_RATIO
  }

  predicate Accepted(pairs: seq<ScoredPair>, threshold: real, p: ScoredPair) {
    && HasStrongSignal(p.score.sig)
    && p.score.combined >= threshold
    && p.score.combined >= ABSOLUTE_FLOOR
    && NearBest(pairs, p)
  }

  /** The accepted-edge graph.  It depends on which pairs there are, not on their order. */
  function Edges(pairs: seq<ScoredPair>, threshold: real): set<Edge> {
    set p | p in pairs && Accepted(pairs, threshold, p) :: (p.a, p.b)
  }

  /** A partial address and a high name similarity are enough: such a pair alone, if it clears threshold
      and floor, is an edge. */
  lemma PartialAddressIsStrong(p: ScoredPair, threshold: real)
    requires p.score.sig.addressPartial && p.score.sig.nameHigh
    requires p.score.combined >= threshold && p.score.combined >= ABSOLUTE_FLOOR
    ensures Edges([p], threshold) == {(p.a, p.b)}
  {
    assert p in [p];
    assert Accepted([p], threshold, p);
  }

  /** The absolute floor takes over from every lower threshold, so the default of 0.65 never decides. */
  lemma ThresholdBelowFloorIsIdle(pairs: seq<ScoredPair>, threshold: real)
    requires threshold <= 0.70
    ensures Edges(pairs, threshold) == Edges(pairs, 0.70)
  {
    hide HasStrongSignal, NearBest;
    assert forall p :: Accepted(pairs, threshold, p) <==> Accepted(pairs, 0.70, p);
  }

  // ----- personal best scores --------------------------------------------------------------------

  function BestOf(best: map<int, real>, id: int): real {
    if id in best then best[id] else 0.0
  }

  /** `v` is the largest score among the pairs of `id`, or 0 if none is positive. */
  ghost predicate IsBest(pairs: seq<ScoredPair>, id: int, v: real) {
    && v >= 0.0
    && (forall q :: q in pairs && Touches(q, id) ==> q.score.combined <= v)
    && (v > 0.0 ==> exists q :: q in pairs && Touches(q, id) && q.score.combined == v)
  }

  method BestScores(pairs: seq<ScoredPair>) returns (best: map<int, real>)
    ensures forall id :: IsBest(pairs, id, BestOf(best, id))
  {
    best := map[];
    for n := 0 to |pairs|
      invariant forall id :: IsBest(pairs[..n], id, BestOf(best, id))
    {
      var p := pairs[n];
      ghost var before := best;
      if p.score.combined > BestOf(best, p.a) {
        best := best[p.a := p.score.combined];
      }
      if p.score.combined > BestOf(best, p.b) {
        best := best[p.b := p.score.combined];
      }
      forall id
        ensures IsBest(pairs[..n + 1], id, BestOf(best, id))
      {
        assert pairs[..n + 1] == pairs[..n] + [p];
        BestStep(pairs[..n], p, id, BestOf(before, id), BestOf(best, id));
      }
    }
    assert pairs[..|pairs|] == pairs;
  }

  lemma BestStep(pairs: seq<ScoredPair>, p: ScoredPair, id: int, v: real, v': real)
    requires IsBest(pairs, id, v)
    requires v' == if Touches(p, id) && p.score.combined > v then p.score.combined else v
    ensures IsBest(pairs + [p], id, v')
  {
    if v' > 0.0 {
      if v' == v {
        var q :| q in pairs && Touches(q, id) && q.score.combined == v;
        assert q in pairs + [p];
      } else {
        assert p in pairs + [p];
      }
    }
  }

  /** The two comparisons of the proximity guard say `NearBest`. */
  lemma ProximityGuard(pairs: seq<ScoredPair>, p: ScoredPair, bestA: real, bestB: real)
    requires p in pairs && p.score.combined >= ABSOLUTE_FLOOR
    requires IsBest(pairs, p.a, bestA) && IsBest(pairs, p.b, bestB)
    ensures NearBest(pairs, p) <==>
            p.score.combined >= bestA * PROXIMITY_RATIO && p.score.combined >= bestB * PROXIMITY_RATIO
  {
    assert Touches(p, p.a) && Touches(p, p.b);
    var qa :| qa in pairs && Touches(qa, p.a) && qa.score.combined == bestA;
    var qb :| qb in pairs && Touches(qb, p.b) && qb.score.combined == bestB;
  }

  // ----- representatives and connectedness ---------------------------------------------------------

  /** Equal representatives mean connected. */
  ghost predicate Represents(root: map<int, int>, es: set<Edge>) {
    && Vertices(es) <= root.Keys
    && (forall x :: x in root ==> root[x] in root)
    && (forall x, y :: x in root && y in root ==> (root[x] == root[y] <==> Connected(es, x, y)))
  }

  lemma KnownRepresents(root: map<int, int>, es: set<Edge>, id: int)
    requires Represents(root, es)
    ensures Represents(Known(root, id), es)
  {
    if id !in root {
      var root' := Known(root, id);
      forall x, y | x in root' && y in root'
        ensures root'[x] == root'[y] <==> Connected(es, x, y)
      {
        if x == y {
          ConnectedReflexive(es, x);
        } else if x == id || y == id {
          assert x != y && (x !in Vertices(es) || y !in Vertices(es));
          if Connected(es, x, y) {
            ConnectedStaysInVertices(es, x, y);
          }
        }
      }
    }
  }

  lemma JoinedRepresents(root: map<int, int>, es: set<Edge>, a: int, b: int, winner: int)
    requires Represents(root, es) && a in root && b in root && (winner == root[a] || winner == root[b])
    ensures Represents(Joined(root, a, b, winner), es + {(a, b)})
  {
    var root', es' := Joined(root, a, b, winner), es + {(a, b)};
    forall x, y | x in root' && y in root'
      ensures root'[x] == root'[y] <==> Connected(es', x, y)
    {
      AddEdge(es, a, b, x, y);
      ConnectedEitherWay(es, a, x);
      ConnectedEitherWay(es, b, x);
      ConnectedEitherWay(es, a, y);
      ConnectedEitherWay(es, b, y);
    }
  }

  lemma ConnectedEitherWay(es: set<Edge>, x: int, y: int)
    ensures Connected(es, x, y) == Connected(es, y, x)
  {
    if Connected(es, x, y) {
      ConnectedSymmetric(es, x, y);
    }
    if Connected(es, y, x) {
      ConnectedSymmetric(es, y, x);
    }
  }

  // ----- the result ------------------------------------------------------------------------------

  ghost function Members(s: seq<int>): set<int> {
    set x | x in s
  }

  predicate NoDuplicates(s: seq<int>) {
    forall i, j :: 0 <= i < j < |s| ==> s[i] != s[j]
  }

  ghost function Partition(groups: map<int, seq<int>>): set<set<int>> {
    set r | r in groups :: Members(groups[r])
  }

  /** Every listed group lists its members once, under one of them, and groups do not overlap. */
  ghost predicate WellGrouped(groups: map<int, seq<int>>) {
    && (forall r :: r in groups ==> NoDuplicates(groups[r]) && r in groups[r])
    && (forall r, q :: r in groups && q in groups && r != q ==> Members(groups[r]) !! Members(groups[q]))
  }

  /** `ClusterPairs`: the groups are exactly the connected components, of two or more members, of the
      accepted-edge graph. */
  method ClusterPairs(pairs: seq<ScoredPair>, threshold: real) returns (groups: map<int, seq<int>>)
    ensures WellGrouped(groups)
    ensures Partition(groups) == Components(Edges(pairs, threshold))
  {
    hide HasStrongSignal, IsBest, Components, Vertices;
    var uf := MergeAccepted(pairs, threshold);
    groups := CollectGroups(uf);
    GroupsAreComponents(groups, uf.root, Edges(pairs, threshold));
  }

  function EdgesUpTo(pairs: seq<ScoredPair>, threshold: real, n: nat): (es: set<Edge>)
    requires n <= |pairs|
  {
    if n == 0 then {}
    else if Accepted(pairs, threshold, pairs[n - 1]) then
      EdgesUpTo(pairs, threshold, n - 1) + {(pairs[n - 1].a, pairs[n - 1].b)}
    else EdgesUpTo(pairs, threshold, n - 1)
  }

  lemma {:induction false} EdgesUpToMembers(pairs: seq<ScoredPair>, threshold: real, n: nat)
    requires n <= |pairs|
    ensures forall e :: e in EdgesUpTo(pairs, threshold, n) <==>
              exists k :: 0 <= k < n && Accepted(pairs, threshold, pairs[k]) && e == (pairs[k].a, pairs[k].b)
  {
    hide Accepted;
    if n > 0 {
      EdgesUpToMembers(pairs, threshold, n - 1);
    }
  }

  lemma EdgesUpToAll(pairs: seq<ScoredPair>, threshold: real)
    ensures EdgesUpTo(pairs, threshold, |pairs|) == Edges(pairs, threshold)
  {
    hide Accepted;
    EdgesUpToMembers(pairs, threshold, |pairs|);
  }

  /** The edge loop: guards in source order, then `Union`. */
  method MergeAccepted(pairs: seq<ScoredPair>, threshold: real) returns (uf: UnionFind)
    ensures fresh(uf) && uf.Valid()
    ensures Represents(uf.root, Edges(pairs, threshold)) && uf.root.Keys == Vertices(Edges(pairs, threshold))
  {
    var bestScore := BestScores(pairs);
    uf := new UnionFind();
    hide HasStrongSignal, IsBest, NearBest, Forest, Known, Joined;
    EmptyRepresents();
    for n := 0 to |pairs|
      invariant fresh(uf) && uf.Valid()
      invariant Represents(uf.root, EdgesUpTo(pairs, threshold, n))
      invariant uf.root.Keys == Vertices(EdgesUpTo(pairs, threshold, n))
    {
      var p := pairs[n];
      if !HasStrongSignal(p.score.sig) {
        continue;
      }
      if p.score.combined < threshold {
        continue;
      }
      if p.score.combined < ABSOLUTE_FLOOR {
        continue;
      }
      ProximityGuard(pairs, p, BestOf(bestScore, p.a), BestOf(bestScore, p.b));
      if p.score.combined < BestOf(bestScore, p.a) * PROXIMITY_RATIO ||
         p.score.combined < BestOf(bestScore, p.b) * PROXIMITY_RATIO {
        continue;
      }
      ghost var root := uf.root;
      ghost var winner := uf.Union(p.a, p.b);
      UnionRepresents(root, EdgesUpTo(pairs, threshold, n), p.a, p.b, winner, uf.root);
    }
    EdgesUpToAll(pairs, threshold);
  }

  lemma EmptyRepresents()
    ensures Represents(map[], {}) && Vertices({}) == {}
  {
  }

  lemma UnionRepresents(root: map<int, int>, es: set<Edge>, a: int, b: int, winner: int, root': map<int, int>)
    requires Represents(root, es) && root.Keys == Vertices(es)
    requires var known := Known(Known(root, a), b);
             (winner == known[a] || winner == known[b]) && root' == Joined(known, a, b, winner)
    ensures Represents(root', es + {(a, b)}) && root'.Keys == Vertices(es + {(a, b)})
  {
    hide Represents, Vertices, Known, Joined;
    var one := Known(root, a);
    var two := Known(one, b);
    KnownRepresents(root, es, a);
    KnownRepresents(one, es, b);
    UnionKeys(root, Vertices(es), a, b, winner);
    JoinedRepresents(two, es, a, b, winner);
    VerticesOfOneMore(es, a, b);
  }

  lemma UnionKeys(root: map<int, int>, vertices: set<int>, a: int, b: int, winner: int)
    requires root.Keys == vertices
    ensures var known := Known(Known(root, a), b);
            a in known && b in known && Joined(known, a, b, winner).Keys == vertices + {a, b}
  {
    hide Known, Joined;
    KnownKeys(root, a);
    KnownKeys(Known(root, a), b);
    JoinedKeys(Known(Known(root, a), b), a, b, winner);
    assert vertices + {a} + {b} == vertices + {a, b};
  }

  lemma KnownKeys(root: map<int, int>, id: int)
    ensures Known(root, id).Keys == root.Keys + {id}
  {
  }

  lemma JoinedKeys(root: map<int, int>, a: int, b: int, winner: int)
    requires a in root && b in root
    ensures Joined(root, a, b, winner).Keys == root.Keys
  {
  }

  lemma VerticesOfOneMore(es: set<Edge>, a: int, b: int)
    ensures Vertices(es + {(a, b)}) == Vertices(es) + {a, b}
  {
    var fs := es + {(a, b)};
    assert (a, b) in fs;
    forall v | v in Vertices(es) + {a, b}
      ensures v in Vertices(fs)
    {
      if v != a && v != b {
        var e :| e in es && (e.0 == v || e.1 == v);
        assert e in fs;
      }
    }
  }

  /** What the collecting loop has built from the ids in `done`. */
  ghost predicate GroupedBy(groups: map<int, seq<int>>, root: map<int, int>, done: set<int>) {
    && (forall r :: r in groups ==> NoDuplicates(groups[r]) && groups[r] != [])
    && (forall r, x :: r in groups && x in groups[r] ==> x in done && x in root && root[x] == r)
    && (forall x :: x in done && x in root ==> root[x] in groups && x in groups[root[x]])
  }

  /** The ids whose class has company. */
  ghost function Paired(root: map<int, int>): set<int> {
    set x | x in root && |Class(root, root[x])| >= 2
  }

  /** The collecting loop, over the ids in any order, then the removal of singletons. */
  method CollectGroups(uf: UnionFind) returns (groups: map<int, seq<int>>)
    requires uf.Valid()
    modifies uf
    ensures uf.Valid() && uf.root == old(uf.root)
    ensures forall x :: x in uf.root ==> uf.root[x] in uf.root && uf.root[uf.root[x]] == uf.root[x]
    ensures GroupedBy(groups, uf.root, Paired(uf.root))
  {
    var all: map<int, seq<int>> := map[];
    ghost var root := uf.root;
    assert uf.parent.Keys == root.Keys;
    var todo := uf.parent.Keys;
    hide Forest;
    while todo != {}
      invariant uf.Valid() && uf.root == root && todo <= root.Keys
      invariant GroupedBy(all, root, root.Keys - todo)
      decreases todo
    {
      NonEmpty(todo);
      var id :| id in todo;
      var r, _ := uf.Find(id);
      GroupOneMore(all, root, root.Keys - todo, id);
      all := all[r := (if r in all then all[r] else []) + [id]];
      todo := todo - {id};
    }
    groups := map r | r in all && |all[r]| > 1 :: all[r];
    assert root.Keys - {} == root.Keys;
    DropSingletons(all, root, groups);
    forall x | x in root
      ensures root[x] in root && root[root[x]] == root[x]
    {
      RootsAreFixed(uf.parent, uf.rank, root, x);
    }
  }

  lemma GroupOneMore(groups: map<int, seq<int>>, root: map<int, int>, done: set<int>, id: int)
    requires GroupedBy(groups, root, done) && done <= root.Keys && id in root && id !in done
    ensures var r := root[id];
            forall todo :: todo == root.Keys - done ==>
              GroupedBy(groups[r := (if r in groups then groups[r] else []) + [id]], root, root.Keys - (todo - {id}))
  {
    var r := root[id];
    var old' := if r in groups then groups[r] else [];
    var groups' := groups[r := old' + [id]];
    forall todo | todo == root.Keys - done
      ensures GroupedBy(groups', root, root.Keys - (todo - {id}))
    {
      assert root.Keys - (todo - {id}) == done + {id};
      assert id !in old';
      forall q, x | q in groups' && x in groups'[q]
        ensures x in done + {id} && x in root && root[x] == q
      {
        if q == r && x in old' {
          assert r in groups;
        }
      }
    }
  }

  lemma DropSingletons(all: map<int, seq<int>>, root: map<int, int>, groups: map<int, seq<int>>)
    requires GroupedBy(all, root, root.Keys)
    requires groups == map r | r in all && |all[r]| > 1 :: all[r]
    ensures GroupedBy(groups, root, Paired(root))
  {
    forall r | r in all
      ensures |all[r]| == |Class(root, r)|
    {
      GroupIsClass(all, root, root.Keys, r);
      MembersSize(all[r]);
    }
  }

  lemma GroupIsClass(groups: map<int, seq<int>>, root: map<int, int>, done: set<int>, r: int)
    requires GroupedBy(groups, root, done) && r in groups
    requires forall x :: x in root && root[x] == r ==> x in done
    ensures Members(groups[r]) == Class(root, r)
  {
    forall x
      ensures x in Members(groups[r]) <==> x in Class(root, r)
    {
    }
  }

  lemma {:induction false} MembersSize(s: seq<int>)
    requires NoDuplicates(s)
    ensures |Members(s)| == |s|
  {
    if s != [] {
      var t := s[..|s| - 1];
      MembersSize(t);
      assert Members(s) == Members(t) + {s[|s| - 1]};
    }
  }

  lemma GroupsAreComponents(groups: map<int, seq<int>>, root: map<int, int>, es: set<Edge>)
    requires Represents(root, es) && root.Keys == Vertices(es)
    requires forall x :: x in root ==> root[root[x]] == root[x]
    requires GroupedBy(groups, root, Paired(root))
    ensures WellGrouped(groups)
    ensures Partition(groups) == Components(es)
  {
    forall r | r in groups
      ensures r in root && root[r] == r && r in groups[r]
      ensures Members(groups[r]) == Component(es, r) && Members(groups[r]) in Components(es)
      ensures Members(groups[r]) == Class(root, r)
    {
      GroupIsComponent(groups, root, es, r);
    }
    forall c | c in Components(es)
      ensures c in Partition(groups)
    {
      var x :| x in Vertices(es) && c == Component(es, x);
      ComponentIsClass(root, es, x);
      GroupIsComponent(groups, root, es, root[x]);
      ComponentIsClass(root, es, root[x]);
    }
  }

  lemma ComponentIsClass(root: map<int, int>, es: set<Edge>, x: int)
    requires Represents(root, es) && root.Keys == Vertices(es) && x in root
    ensures Component(es, x) == Class(root, root[x])
  {
    forall y
      ensures y in Component(es, x) <==> y in Class(root, root[x])
    {
    }
  }

  lemma GroupIsComponent(groups: map<int, seq<int>>, root: map<int, int>, es: set<Edge>, r: int)
    requires Represents(root, es) && root.Keys == Vertices(es)
    requires forall x :: x in root ==> root[root[x]] == root[x]
    requires GroupedBy(groups, root, Paired(root))
    requires r in groups
    ensures r in root && root[r] == r && r in groups[r]
    ensures Members(groups[r]) == Class(root, r) == Component(es, r)
    ensures Members(groups[r]) in Components(es)
  {
    var x := groups[r][0];
    assert x in groups[r];
    assert root[x] == r;
    ComponentIsClass(root, es, r);
    GroupIsClass(groups, root, Paired(root), r);
  }

  // ----- what the partition depends on ---------------------------------------------------------------

  /** Any two lists of the same pairs, in whatever order, give the same clusters. */
  lemma OrderDoesNotMatter(pairs: seq<ScoredPair>, pairs': seq<ScoredPair>, threshold: real)
    requires multiset(pairs) == multiset(pairs')
    ensures Components(Edges(pairs, threshold)) == Components(Edges(pairs', threshold))
  {
    forall p
      ensures p in pairs <==> p in pairs'
    {
      assert p in pairs <==> p in multiset(pairs);
      assert p in pairs' <==> p in multiset(pairs');
    }
    hide HasStrongSignal;
    assert forall p :: Accepted(pairs, threshold, p) <==> Accepted(pairs', threshold, p);
    assert Edges(pairs, threshold) == Edges(pairs', threshold);
  }

  /** Raising the threshold only splits: each new cluster lies inside an old one. */
  lemma HigherThresholdRefines(pairs: seq<ScoredPair>, low: real, high: real, c: set<int>)
    requires low <= high && c in Components(Edges(pairs, high))
    ensures exists d :: d in Components(Edges(pairs, low)) && c <= d
  {
    hide HasStrongSignal, NearBest;
    assert Edges(pairs, high) <= Edges(pairs, low);
    ComponentsRefine(Edges(pairs, high), Edges(pairs, low), c);
  }

  function RatioPower(k: nat): (r: real)
    ensures 0.0 < r <= 1.0
  {
    if k == 0 then 1.0 else PROXIMITY_RATIO * RatioPower(k - 1)
  }

  lemma EdgeKeepsBest(pairs: seq<ScoredPair>, threshold: real, x: int, y: int, bestX: real, bestY: real)
    requires Adjacent(Edges(pairs, threshold), x, y)
    requires IsBest(pairs, x, bestX) && IsBest(pairs, y, bestY)
    ensures bestY >= bestX * PROXIMITY_RATIO
  {
    var p :| p in pairs && Accepted(pairs, threshold, p) && ((p.a, p.b) == (x, y) || (p.a, p.b) == (y, x));
    assert Touches(p, x) && Touches(p, y);
    if bestX > 0.0 {
      var q :| q in pairs && Touches(q, x) && q.score.combined == bestX;
      assert p.score.combined >= q.score.combined * PROXIMITY_RATIO;
    }
  }

  /** Along k accepted edges, personal best scores differ by at most a factor 0.9^k either way. */
  lemma {:induction false} ProximityDecay(
    pairs: seq<ScoredPair>, threshold: real, path: seq<int>, x: int, y: int, bestX: real, bestY: real)
    requires IsPath(Edges(pairs, threshold), path, x, y)
    requires IsBest(pairs, x, bestX) && IsBest(pairs, y, bestY)
    ensures bestY >= bestX * RatioPower(|path| - 1)
    ensures bestX >= bestY * RatioPower(|path| - 1)
    decreases |path|
  {
    hide Edges, IsBest;
    if |path| == 1 {
      BestIsUnique(pairs, x, bestX, bestY);
    } else {
      var z := path[|path| - 2];
      assert Adjacent(Edges(pairs, threshold), path[|path| - 2], path[|path| - 2 + 1]);
      var bestZ := BestExists(pairs, z);
      ProximityDecay(pairs, threshold, path[..|path| - 1], x, z, bestX, bestZ);
      EdgeKeepsBest(pairs, threshold, z, y, bestZ, bestY);
      EdgeKeepsBest(pairs, threshold, y, z, bestY, bestZ);
      var r := RatioPower(|path| - 2);
      assert RatioPower(|path| - 1) == PROXIMITY_RATIO * r;
      Chain(bestX, bestZ, bestY, r);
      Chain'(bestY, bestZ, bestX, r);
    }
  }

  lemma Chain(x: real, z: real, y: real, r: real)
    requires z >= x * r && y >= z * PROXIMITY_RATIO
    ensures y >= x * (PROXIMITY_RATIO * r)
  {
    assert z * PROXIMITY_RATIO >= (x * r) * PROXIMITY_RATIO;
  }

  lemma Chain'(y: real, z: real, x: real, r: real)
    requires z >= y * PROXIMITY_RATIO && x >= z * r && r > 0.0
    ensures x >= y * (PROXIMITY_RATIO * r)
  {
    assert z * r >= (y * PROXIMITY_RATIO) * r;
  }

  lemma BestIsUnique(pairs: seq<ScoredPair>, id: int, v: real, w: real)
    requires IsBest(pairs, id, v) && IsBest(pairs, id, w)
    ensures v == w
  {
  }

  lemma {:induction false} BestExists(pairs: seq<ScoredPair>, id: int) returns (v: real)
    ensures IsBest(pairs, id, v)
  {
    if pairs == [] {
      v := 0.0;
    } else {
      var p := pairs[|pairs| - 1];
      var w := BestExists(pairs[..|pairs| - 1], id);
      v := if Touches(p, id) && p.score.combined > w then p.score.combined else w;
      BestStep(pairs[..|pairs| - 1], p, id, w, v);
      assert pairs == pairs[..|pairs| - 1] + [p];
    }
  }

  // ----- cluster measures ----------------------------------------------------------------------------

  predicate InsideCluster(p: ScoredPair, c: set<int>) {
    p.a in c && p.b in c
  }

  function CountInside(pairs: seq<ScoredPair>, c: set<int>, n: nat): (k: nat)
    requires n <= |pairs|
  {
    if n == 0 then 0 else CountInside(pairs, c, n - 1) + if InsideCluster(pairs[n - 1], c) then 1 else 0
  }

  ghost function Density(pairs: seq<ScoredPair>, members: seq<int>): real {
    var n := |members|;
    if n <= 2 then 1.0
    else
      NonZeroPossible(n);
      CountInside(pairs, Members(members), |pairs|) as real / (n * (n - 1) / 2) as real
  }

  lemma NonZeroPossible(n: nat)
    requires n > 2
    ensures n * (n - 1) / 2 >= n
  {
    assert n * (n - 1) >= n * 2;
  }

  method ClusterDensity(pairs: seq<ScoredPair>, memberIDs: seq<int>) returns (density: real)
    ensures density == Density(pairs, memberIDs)
  {
    var n := |memberIDs|;
    if n <= 2 {
      return 1.0;
    }
    NonZeroPossible(n);
    var possible := (n * (n - 1) / 2) as real;
    var memberSet := CollectMembers(memberIDs);
    var actual := 0;
    for i := 0 to |pairs|
      invariant actual == CountInside(pairs, memberSet, i)
    {
      if pairs[i].a in memberSet && pairs[i].b in memberSet {
        actual := actual + 1;
      }
    }
    density := actual as real / possible;
  }

  method CollectMembers(ids: seq<int>) returns (memberSet: set<int>)
    ensures memberSet == Members(ids)
  {
    memberSet := {};
    for i := 0 to |ids|
      invariant memberSet == Members(ids[..i])
    {
      assert ids[..i + 1] == ids[..i] + [ids[i]];
      memberSet := memberSet + {ids[i]};
    }
    assert ids[..|ids|] == ids;
  }

  /** Pairs as `scorePairs` returns them for distinct ids: no pair twice, no customer with itself. */
  predicate ProperPairs(pairs: seq<ScoredPair>) {
    && Blocking.NoRepeats(pairs)
    && (forall p :: p in pairs ==> p.a != p.b)
  }

  function Ordered(p: ScoredPair): Edge {
    Blocking.PairKey(p)
  }

  function OrderedInside(pairs: seq<ScoredPair>, c: set<int>, n: nat): set<Edge>
    requires n <= |pairs|
  {
    set k | 0 <= k < n && InsideCluster(pairs[k], c) :: Ordered(pairs[k])
  }

  lemma {:induction false} CountIsOrderedPairs(pairs: seq<ScoredPair>, c: set<int>, n: nat)
    requires n <= |pairs| && ProperPairs(pairs)
    ensures CountInside(pairs, c, n) == |OrderedInside(pairs, c, n)|
  {
    hide OrderedInside, InsideCluster, Ordered, ProperPairs;
    if n == 0 {
      NothingInside(pairs, c);
    } else {
      CountIsOrderedPairs(pairs, c, n - 1);
      OneMoreInside(pairs, c, n);
      NewInside(pairs, c, n);
    }
  }

  lemma NothingInside(pairs: seq<ScoredPair>, c: set<int>)
    ensures OrderedInside(pairs, c, 0) == {}
  {
  }

  lemma OneMoreInside(pairs: seq<ScoredPair>, c: set<int>, n: nat)
    requires 0 < n <= |pairs|
    ensures OrderedInside(pairs, c, n) ==
            OrderedInside(pairs, c, n - 1) + if InsideCluster(pairs[n - 1], c) then {Ordered(pairs[n - 1])} else {}
  {
    hide InsideCluster, Ordered;
  }

  lemma NewInside(pairs: seq<ScoredPair>, c: set<int>, n: nat)
    requires 0 < n <= |pairs| && ProperPairs(pairs)
    ensures Ordered(pairs[n - 1]) !in OrderedInside(pairs, c, n - 1)
  {
    hide InsideCluster, Blocking.PairKey;
  }

  lemma {:induction false} AcceptedEdgesCounted(pairs: seq<ScoredPair>, threshold: real, c: set<int>, n: nat)
    requires n <= |pairs|
    ensures |Inside(EdgesUpTo(pairs, threshold, n), c)| <= CountInside(pairs, c, n)
  {
    hide Accepted;
    if n > 0 {
      AcceptedEdgesCounted(pairs, threshold, c, n - 1);
      var p := pairs[n - 1];
      var before, after := EdgesUpTo(pairs, threshold, n - 1), EdgesUpTo(pairs, threshold, n);
      if Accepted(pairs, threshold, p) && InsideCluster(p, c) {
        assert Inside(after, c) == Inside(before, c) + {(p.a, p.b)};
      } else {
        assert Inside(after, c) == Inside(before, c);
      }
    }
  }

  /** A cluster of n members holds at least n - 1 and at most n(n-1)/2 scored pairs. */
  lemma ClusterEdgeCount(pairs: seq<ScoredPair>, threshold: real, c: set<int>)
    requires c in Components(Edges(pairs, threshold)) && ProperPairs(pairs)
    ensures |c| - 1 <= CountInside(pairs, c, |pairs|)
    ensures 2 * CountInside(pairs, c, |pairs|) <= |c| * (|c| - 1)
  {
    hide Accepted, Components, Component;
    ComponentNeedsEdges(Edges(pairs, threshold), c);
    EdgesUpToAll(pairs, threshold);
    AcceptedEdgesCounted(pairs, threshold, c, |pairs|);
    CountIsOrderedPairs(pairs, c, |pairs|);
    OrderedAreEdges(pairs, c);
    EdgesAtMostPairs(OrderedInside(pairs, c, |pairs|), c);
  }

  lemma OrderedAreEdges(pairs: seq<ScoredPair>, c: set<int>)
    requires ProperPairs(pairs)
    ensures NoRepeats(OrderedInside(pairs, c, |pairs|))
    ensures forall e :: e in OrderedInside(pairs, c, |pairs|) ==> e.0 in c && e.1 in c
  {
    forall k | 0 <= k < |pairs|
      ensures pairs[k].a != pairs[k].b
    {
      assert pairs[k] in pairs;
    }
  }

  /** Density of a formed cluster of n >= 3 members: between 2/n and 1. */
  lemma DensityBounds(pairs: seq<ScoredPair>, threshold: real, members: seq<int>)
    requires ProperPairs(pairs) && NoDuplicates(members) && |members| >= 3
    requires Members(members) in Components(Edges(pairs, threshold))
    ensures 2.0 / |members| as real <= Density(pairs, members) <= 1.0
  {
    MembersSize(members);
    ClusterEdgeCount(pairs, threshold, Members(members));
    DensityArithmetic(CountInside(pairs, Members(members), |pairs|), |members|);
  }

  lemma DensityArithmetic(count: nat, n: nat)
    requires n >= 3 && n - 1 <= count && 2 * count <= n * (n - 1)
    ensures n * (n - 1) / 2 > 0
    ensures 2.0 / n as real <= count as real / (n * (n - 1) / 2) as real <= 1.0
  {
    NonZeroPossible(n);
    EvenProduct(n);
    PairsTimesMembers(count, n);
    DensityQuotients(count, n, n * (n - 1) / 2);
  }

  lemma PairsTimesMembers(count: nat, n: nat)
    requires n - 1 <= count
    ensures n * (n - 1) <= count * n
  {
    var more: nat := count - (n - 1);
    assert count * n == n * (n - 1) + more * n;
  }

  lemma DensityQuotients(count: nat, n: nat, possible: nat)
    requires n > 0 && possible > 0
    requires count <= possible && 2 * possible <= count * n
    ensures 2.0 / n as real <= count as real / possible as real <= 1.0
  {
    CrossMultiply(2, n, count, possible);
    CrossMultiply(count, possible, 1, 1);
  }

  lemma {:induction false} EvenProduct(n: nat)
    requires n > 0
    ensures n * (n - 1) % 2 == 0
  {
    if n > 1 {
      EvenProduct(n - 1);
      assert n * (n - 1) == (n - 1) * (n - 2) + 2 * (n - 1);
    }
  }

  lemma CrossMultiply(a: nat, b: nat, c: nat, d: nat)
    requires b > 0 && d > 0 && a * d <= c * b
    ensures a as real / b as real <= c as real / d as real
  {
    var x, y := a as real / b as real, c as real / d as real;
    assert x * b as real == a as real && y * d as real == c as real;
    assert (a * d) as real <= (c * b) as real;
    assert (a * d) as real == a as real * d as real && (c * b) as real == c as real * b as real;
    if x > y {
      Product(x, y, b as real, d as real);
    }
  }

  lemma Product(x: real, y: real, b: real, d: real)
    requires x > y && b > 0.0 && d > 0.0
    ensures (x * b) * d > (y * d) * b
  {
    var bd := b * d;
    assert bd > 0.0;
    assert x * bd > y * bd;
    assert (x * b) * d == x * bd && (y * d) * b == y * bd;
  }

  // ----- weakest edge and top pair -------------------------------------------------------------------

  /** The lowest score inside the cluster, or 1 if no pair lies inside. */
  ghost predicate IsWeakest(pairs: seq<ScoredPair>, c: set<int>, w: real) {
    if exists p :: p in pairs && InsideCluster(p, c) then
      && (exists p :: p in pairs && InsideCluster(p, c) && p.score.combined == w)
      && (forall p :: p in pairs && InsideCluster(p, c) ==> w <= p.score.combined)
    else w == 1.0
  }

  method WeakestClusterEdge(pairs: seq<ScoredPair>, memberIDs: seq<int>) returns (weakest: real)
    ensures if |memberIDs| <= 1 then weakest == 1.0 else IsWeakest(pairs, Members(memberIDs), weakest)
  {
    if |memberIDs| <= 1 {
      return 1.0;
    }
    var memberSet := CollectMembers(memberIDs);
    weakest := 1.0;
    var found := false;
    for i := 0 to |pairs|
      invariant found <==> exists k :: 0 <= k < i && InsideCluster(pairs[k], memberSet)
      invariant found ==> exists k :: 0 <= k < i && InsideCluster(pairs[k], memberSet) && pairs[k].score.combined == weakest
      invariant forall k :: 0 <= k < i && InsideCluster(pairs[k], memberSet) ==> weakest <= pairs[k].score.combined
      invariant !found ==> weakest == 1.0
    {
      var p := pairs[i];
      if p.a in memberSet && p.b in memberSet {
        if !found || p.score.combined < weakest {
          weakest := p.score.combined;
          found := true;
        }
      }
    }
    if !found {
      return 1.0;
    }
  }

  predicate IsTopAt(pairs: seq<ScoredPair>, c: set<int>, k: nat)
    requires k < |pairs|
  {
    InsideCluster(pairs[k], c) &&
    forall m :: 0 <= m < |pairs| && InsideCluster(pairs[m], c) ==>
      pairs[m].score.combined <= pairs[k].score.combined &&
      (m < k ==> pairs[m].score.combined < pairs[k].score.combined)
  }

  /** The first of the highest-scoring pairs inside the cluster. */
  ghost predicate IsTop(pairs: seq<ScoredPair>, c: set<int>, top: Option<ScoredPair>) {
    match top
    case None => forall p :: p in pairs ==> !InsideCluster(p, c)
    case Some(t) => exists k :: 0 <= k < |pairs| && t == pairs[k] && IsTopAt(pairs, c, k)
  }

  lemma TopStep(pairs: seq<ScoredPair>, p: ScoredPair, c: set<int>, top: Option<ScoredPair>)
    requires IsTop(pairs, c, top)
    ensures IsTop(pairs + [p], c,
                  if InsideCluster(p, c) && (top.None? || p.score.combined > top.value.score.combined) then Some(p) else top)
  {
    var pairs' := pairs + [p];
    assert pairs'[|pairs|] == p;
    forall m | 0 <= m < |pairs|
      ensures pairs'[m] == pairs[m] && pairs[m] in pairs
    {
    }
    if InsideCluster(p, c) && (top.None? || p.score.combined > top.value.score.combined) {
      assert IsTopAt(pairs', c, |pairs|);
    } else if top.Some? {
      var k :| 0 <= k < |pairs| && top.value == pairs[k] && IsTopAt(pairs, c, k);
      assert IsTopAt(pairs', c, k);
    }
  }

  method TopPairForCluster(pairs: seq<ScoredPair>, memberIDs: seq<int>) returns (top: Option<ScoredPair>)
    ensures IsTop(pairs, Members(memberIDs), top)
  {
    hide IsTop;
    var memberSet := CollectMembers(memberIDs);
    top := None;
    NoTop(memberSet);
    assert pairs[..0] == [];
    for i := 0 to |pairs|
      invariant IsTop(pairs[..i], memberSet, top)
    {
      var p := pairs[i];
      assert pairs[..i + 1] == pairs[..i] + [p];
      TopStep(pairs[..i], p, memberSet, top);
      if p.a in memberSet && p.b in memberSet {
        if top.None? || p.score.combined > top.value.score.combined {
          top := Some(p);
        }
      }
    }
    assert pairs[..|pairs|] == pairs;
  }

  lemma NoTop(c: set<int>)
    ensures IsTop([], c, None)
  {
  }

  /** A formed cluster always has a top pair; its score reaches both the threshold and the floor, and
      the weakest edge does not exceed it. */
  lemma FormedClusterHasTop(
    pairs: seq<ScoredPair>, threshold: real, c: set<int>, top: Option<ScoredPair>, weakest: real)
    requires c in Components(Edges(pairs, threshold))
    requires IsTop(pairs, c, top) && IsWeakest(pairs, c, weakest)
    ensures top.Some?
    ensures top.value.score.combined >= threshold && top.value.score.combined >= ABSOLUTE_FLOOR
    ensures weakest <= top.value.score.combined
  {
    hide HasStrongSignal, NearBest;
    var es := Edges(pairs, threshold);
    ComponentNeedsEdges(es, c);
    assert |Inside(es, c)| > 0;
    var e :| e in Inside(es, c);
    var p :| p in pairs && Accepted(pairs, threshold, p) && e == (p.a, p.b);
    assert InsideCluster(p, c);
  }
}
