/** The disjoint-set forest used for clustering (internal/services/identity/cluster.go). */
module UnionFindForest {

  function Pow2(n: nat): (p: nat)
    ensures p > n
  {
    if n == 0 then 1 else 2 * Pow2(n - 1)
  }

  lemma {:induction false} Pow2Monotone(m: nat, n: nat)
    requires m <= n
    ensures Pow2(m) <= Pow2(n)
  {
    if m < n {
      Pow2Monotone(m, n - 1);
    }
  }

  /** All ids whose representative is `r`. */
  ghost function Class(root: map<int, int>, r: int): set<int> {
    set x | x in root && root[x] == r
  }

  /** What the parent and rank maps mean: `root` sends every id to its representative, ranks grow
      strictly along parent links, and a representative of rank k stands for at least 2^k ids. */
  ghost predicate Forest(parent: map<int, int>, rank: map<int, nat>, root: map<int, int>) {
    && parent.Keys == rank.Keys == root.Keys
    && (forall x {:trigger Linked(parent, rank, root, x)} :: x in root ==> Linked(parent, rank, root, x))
    && Populous(rank, root)
  }

  ghost predicate Populous(rank: map<int, nat>, root: map<int, int>)
    requires rank.Keys == root.Keys
  {
    forall r {:trigger Class(root, r)} :: r in root && root[r] == r ==> Pow2(rank[r]) <= |Class(root, r)|
  }

  /** How far the rank of an id is below that of its representative. */
  ghost function RankGap(rank: map<int, nat>, root: map<int, int>, id: int): nat {
    if id in root && id in rank && root[id] in rank && rank[id] <= rank[root[id]]
    then rank[root[id]] - rank[id]
    else 0
  }

  ghost predicate Linked(parent: map<int, int>, rank: map<int, nat>, root: map<int, int>, x: int)
    requires parent.Keys == rank.Keys == root.Keys && x in root
  {
    && parent[x] in root
    && root[x] in root
    && root[root[x]] == root[x]
    && root[parent[x]] == root[x]
    && (parent[x] == x <==> root[x] == x)
    && (parent[x] != x ==> rank[x] < rank[parent[x]])
    && (root[x] != x ==> rank[x] < rank[root[x]])
  }

  /** The ids known after a look-up of `id`: a new id starts as its own representative. */
  ghost function Known(root: map<int, int>, id: int): map<int, int> {
    if id in root then root else root[id := id]
  }

  /** The two classes of `a` and `b` become one, represented by `winner`; other ids are untouched. */
  ghost function Joined(root: map<int, int>, a: int, b: int, winner: int): map<int, int>
    requires a in root && b in root
  {
    map x | x in root :: if root[x] == root[a] || root[x] == root[b] then winner else root[x]
  }

  lemma FreshKeepsForest(parent: map<int, int>, rank: map<int, nat>, root: map<int, int>, id: int)
    requires Forest(parent, rank, root) && id !in root
    ensures Forest(parent[id := id], rank[id := 0], root[id := id])
  {
    hide Populous, Linked;
    forall x | x in root
      ensures Linked(parent[id := id], rank[id := 0], root[id := id], x)
    {
      FreshKeepsLinked(parent, rank, root, id, x);
    }
    assert Linked(parent[id := id], rank[id := 0], root[id := id], id) by {
      FreshIsLinked(parent, rank, root, id);
    }
    RootsAreKnown(parent, rank, root);
    FreshKeepsPopulous(rank, root, id);
  }

  lemma FreshKeepsLinked(parent: map<int, int>, rank: map<int, nat>, root: map<int, int>, id: int, x: int)
    requires parent.Keys == rank.Keys == root.Keys && id !in root && x in root && Linked(parent, rank, root, x)
    ensures Linked(parent[id := id], rank[id := 0], root[id := id], x)
  {
  }

  lemma FreshIsLinked(parent: map<int, int>, rank: map<int, nat>, root: map<int, int>, id: int)
    requires parent.Keys == rank.Keys == root.Keys
    ensures Linked(parent[id := id], rank[id := 0], root[id := id], id)
  {
  }

  lemma RootsAreKnown(parent: map<int, int>, rank: map<int, nat>, root: map<int, int>)
    requires Forest(parent, rank, root)
    ensures forall x :: x in root ==> root[x] in root
  {
    hide Populous;
    forall x | x in root
      ensures root[x] in root
    {
      assert Linked(parent, rank, root, x);
    }
  }

  lemma FreshKeepsPopulous(rank: map<int, nat>, root: map<int, int>, id: int)
    requires rank.Keys == root.Keys && Populous(rank, root) && id !in root
    requires forall x :: x in root ==> root[x] in root
    ensures Populous(rank[id := 0], root[id := id])
  {
    var root' := root[id := id];
    forall r | r in root' && root'[r] == r
      ensures Pow2(rank[id := 0][r]) <= |Class(root', r)|
    {
      if r == id {
        assert id in Class(root', id);
      } else {
        assert Class(root', r) == Class(root, r);
      }
    }
  }

  lemma CompressKeepsForest(parent: map<int, int>, rank: map<int, nat>, root: map<int, int>, id: int)
    requires Forest(parent, rank, root) && id in root
    ensures Forest(parent[id := root[id]], rank, root)
  {
    assert Linked(parent, rank, root, id);
    assert Linked(parent, rank, root, root[id]);
    forall x | x in root
      ensures Linked(parent[id := root[id]], rank, root, x)
    {
      assert Linked(parent, rank, root, x);
    }
  }

  /** The rank rule of `Union`: on a tie the surviving root moves up. */
  function Raised(rank: map<int, nat>, ra: int, rb: int): map<int, nat>
    requires ra in rank && rb in rank
  {
    if rank[ra] == rank[rb] then rank[ra := rank[ra] + 1] else rank
  }

  /** Hanging root `rb` below root `ra`, with the rank rule of `Union`. */
  lemma AttachKeepsForest(parent: map<int, int>, rank: map<int, nat>, root: map<int, int>, ra: int, rb: int)
    requires Forest(parent, rank, root)
    requires ra in root && rb in root && root[ra] == ra && root[rb] == rb && ra != rb
    requires rank[rb] <= rank[ra]
    ensures Forest(parent[rb := ra], Raised(rank, ra, rb),
                   Joined(root, ra, rb, ra))
  {
    var root' := Joined(root, ra, rb, ra);
    var parent' := parent[rb := ra];
    var rank' := Raised(rank, ra, rb);
    assert Linked(parent, rank, root, ra) && Linked(parent, rank, root, rb);
    forall x | x in root
      ensures Linked(parent', rank', root', x)
    {
      assert Linked(parent, rank, root, x);
    }
    AttachKeepsPopulous(rank, root, ra, rb);
  }

  lemma AttachKeepsPopulous(rank: map<int, nat>, root: map<int, int>, ra: int, rb: int)
    requires rank.Keys == root.Keys && Populous(rank, root)
    requires ra in root && rb in root && root[ra] == ra && root[rb] == rb && ra != rb
    requires rank[rb] <= rank[ra]
    ensures Populous(Raised(rank, ra, rb), Joined(root, ra, rb, ra))
  {
    var root' := Joined(root, ra, rb, ra);
    var rank' := Raised(rank, ra, rb);
    forall r | r in root' && root'[r] == r
      ensures Pow2(rank'[r]) <= |Class(root', r)|
    {
      if r == ra {
        JoinedClass(root, ra, rb);
        assert Pow2(rank[ra]) <= |Class(root, ra)| && Pow2(rank[rb]) <= |Class(root, rb)|;
      } else {
        assert Class(root', r) == Class(root, r);
      }
    }
  }

  lemma JoinedClass(root: map<int, int>, ra: int, rb: int)
    requires ra in root && rb in root && root[ra] == ra && root[rb] == rb && ra != rb
    ensures Class(Joined(root, ra, rb, ra), ra) == Class(root, ra) + Class(root, rb)
    ensures |Class(Joined(root, ra, rb, ra), ra)| == |Class(root, ra)| + |Class(root, rb)|
  {
    assert Class(root, ra) !! Class(root, rb);
    assert Class(Joined(root, ra, rb, ra), ra) == Class(root, ra) + Class(root, rb);
  }

  class UnionFind {
    var parent: map<int, int>
    var rank: map<int, nat>
    ghost var root: map<int, int>

    ghost predicate Valid()
      reads this
    {
      Forest(parent, rank, root)
    }

    constructor ()
      ensures Valid() && root == map[]
    {
      parent, rank, root := map[], map[], map[];
    }

    /** `depth` counts the recursive calls made: at most log2 of the size of the class. */
    method Find(id: int) returns (r: int, ghost depth: nat)
      requires Valid()
      modifies this
      ensures Valid()
      ensures root == Known(old(root), id)
      ensures r == root[id] && parent[id] == r
      ensures rank == if id in old(rank) then old(rank) else old(rank)[id := 0]
      ensures forall x :: x in old(parent) ==> parent[x] == old(parent[x]) || parent[x] == root[x]
      ensures depth <= RankGap(rank, root, id)
      ensures Pow2(depth) <= |Class(root, r)|
      decreases RankGap(rank, root, id)
    {
      depth := 0;
      if id !in parent {
        FreshKeepsForest(parent, rank, root, id);
        parent := parent[id := id];
        rank := rank[id := 0];
        root := root[id := id];
      }
      assert Linked(parent, rank, root, id);
      if parent[id] != id {
        assert Linked(parent, rank, root, parent[id]);
        r, depth := Find(parent[id]);
        depth := depth + 1;
        CompressKeepsForest(parent, rank, root, id);
        parent := parent[id := r];
      }
      r := parent[id];
      assert Linked(parent, rank, root, r);
      Pow2Monotone(depth, rank[r]);
    }

    method Union(a: int, b: int) returns (ghost winner: int)
      requires Valid()
      modifies this
      ensures Valid()
      ensures var known := Known(Known(old(root), a), b);
              && (winner == known[a] || winner == known[b])
              && root == Joined(known, a, b, winner)
    {
      var ra, _ := Find(a);
      var rb, _ := Find(b);
      ghost var known := root;
      RootsAreFixed(parent, rank, root, a);
      RootsAreFixed(parent, rank, root, b);
      winner := ra;
      if ra == rb {
        JoinedTrivially(known, a, b);
        return;
      }
      if rank[ra] < rank[rb] {
        ra, rb := rb, ra;
      }
      winner := ra;
      JoinedByRoots(known, a, b, ra, rb);
      Attach(ra, rb);
    }

    /** The assignments that end `Union`: root `rb` now hangs below root `ra`. */
    method Attach(ra: int, rb: int)
      requires Valid()
      requires ra in root && rb in root && root[ra] == ra && root[rb] == rb && ra != rb
      requires ra in rank && rb in rank && rank[rb] <= rank[ra]
      modifies this
      ensures Valid()
      ensures parent == old(parent)[rb := ra] && rank == Raised(old(rank), ra, rb)
      ensures root == Joined(old(root), ra, rb, ra)
    {
      AttachKeepsForest(parent, rank, root, ra, rb);
      hide Forest, Joined;
      parent := parent[rb := ra];
      if rank[ra] == rank[rb] {
        rank := rank[ra := rank[ra] + 1];
      }
      root := Joined(root, ra, rb, ra);
    }
  }

  lemma RootsAreFixed(parent: map<int, int>, rank: map<int, nat>, root: map<int, int>, x: int)
    requires Forest(parent, rank, root) && x in root
    ensures root[x] in root && root[root[x]] == root[x]
  {
    assert Linked(parent, rank, root, x);
  }

  lemma JoinedTrivially(root: map<int, int>, a: int, b: int)
    requires a in root && b in root && root[a] == root[b]
    ensures Joined(root, a, b, root[a]) == root
  {
  }

  lemma JoinedByRoots(root: map<int, int>, a: int, b: int, ra: int, rb: int)
    requires a in root && b in root && ra in root && rb in root && root[ra] == ra && root[rb] == rb
    requires (root[a] == ra && root[b] == rb) || (root[a] == rb && root[b] == ra)
    ensures Joined(root, ra, rb, ra) == Joined(root, a, b, ra)
  {
  }
}
