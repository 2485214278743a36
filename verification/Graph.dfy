/** Undirected graphs on customer ids: paths, connected components, and how many edges a component needs. */
module Graph {
  import opened Sets

  type Edge = (int, int)

  predicate Adjacent(es: set<Edge>, x: int, y: int) {
    (x, y) in es || (y, x) in es
  }

  predicate IsPath(es: set<Edge>, p: seq<int>, x: int, y: int) {
    && |p| > 0
    && p[0] == x
    && p[|p| - 1] == y
    && forall k :: 0 <= k < |p| - 1 ==> Adjacent(es, p[k], p[k + 1])
  }

  ghost predicate Connected(es: set<Edge>, x: int, y: int) {
    exists p :: IsPath(es, p, x, y)
  }

  function Vertices(es: set<Edge>): set<int> {
    (set e | e in es :: e.0) + (set e | e in es :: e.1)
  }

  ghost function Component(es: set<Edge>, x: int): set<int> {
    set y | y in Vertices(es) && Connected(es, x, y)
  }

  /** The connected components with at least two members. */
  ghost function Components(es: set<Edge>): set<set<int>> {
    set x | x in Vertices(es) && |Component(es, x)| >= 2 :: Component(es, x)
  }

  // ----- connectedness is an equivalence -------------------------------------------------------

  lemma ConnectedReflexive(es: set<Edge>, x: int)
    ensures Connected(es, x, x)
  {
    assert IsPath(es, [x], x, x);
  }

  lemma ConnectedSymmetric(es: set<Edge>, x: int, y: int)
    requires Connected(es, x, y)
    ensures Connected(es, y, x)
  {
    var p :| IsPath(es, p, x, y);
    var q := seq(|p|, k requires 0 <= k < |p| => p[|p| - 1 - k]);
    forall k | 0 <= k < |q| - 1
      ensures Adjacent(es, q[k], q[k + 1])
    {
      var m := |p| - 2 - k;
      assert Adjacent(es, p[m], p[m + 1]);
    }
    assert IsPath(es, q, y, x);
  }

  lemma PathThenPath(es: set<Edge>, p: seq<int>, q: seq<int>, x: int, y: int, z: int)
    requires IsPath(es, p, x, y) && IsPath(es, q, y, z)
    ensures IsPath(es, p + q[1..], x, z)
  {
    var r := p + q[1..];
    forall k | 0 <= k < |r| - 1
      ensures Adjacent(es, r[k], r[k + 1])
    {
      if k < |p| - 1 {
        assert r[k] == p[k] && r[k + 1] == p[k + 1];
      } else {
        var m := k - (|p| - 1);
        assert r[k] == q[m] && r[k + 1] == q[m + 1];
      }
    }
  }

  lemma ConnectedTransitive(es: set<Edge>, x: int, y: int, z: int)
    requires Connected(es, x, y) && Connected(es, y, z)
    ensures Connected(es, x, z)
  {
    var p :| IsPath(es, p, x, y);
    var q :| IsPath(es, q, y, z);
    PathThenPath(es, p, q, x, y, z);
  }

  lemma AdjacentConnected(es: set<Edge>, x: int, y: int)
    requires Adjacent(es, x, y)
    ensures Connected(es, x, y)
  {
    assert IsPath(es, [x, y], x, y);
  }

  lemma ConnectedMonotone(es: set<Edge>, fs: set<Edge>, x: int, y: int)
    requires es <= fs && Connected(es, x, y)
    ensures Connected(fs, x, y)
  {
    var p :| IsPath(es, p, x, y);
    assert forall k :: 0 <= k < |p| - 1 ==> Adjacent(es, p[k], p[k + 1]) && Adjacent(fs, p[k], p[k + 1]);
    assert IsPath(fs, p, x, y);
  }

  // ----- one more edge ---------------------------------------------------------------------------

  ghost predicate ConnectedVia(es: set<Edge>, a: int, b: int, x: int, y: int) {
    || Connected(es, x, y)
    || (Connected(es, x, a) && Connected(es, b, y))
    || (Connected(es, x, b) && Connected(es, a, y))
  }

  lemma {:induction false} PathWithEdge(es: set<Edge>, a: int, b: int, p: seq<int>, x: int, y: int)
    requires IsPath(es + {(a, b)}, p, x, y)
    ensures ConnectedVia(es, a, b, x, y)
    decreases |p|
  {
    if |p| == 1 {
      ConnectedReflexive(es, x);
    } else {
      var z := p[|p| - 2];
      assert Adjacent(es + {(a, b)}, p[|p| - 2], p[|p| - 2 + 1]);
      PathWithEdge(es, a, b, p[..|p| - 1], x, z);
      StepVia(es, a, b, x, z, y);
    }
  }

  lemma StepVia(es: set<Edge>, a: int, b: int, x: int, z: int, y: int)
    requires ConnectedVia(es, a, b, x, z) && Adjacent(es + {(a, b)}, z, y)
    ensures ConnectedVia(es, a, b, x, y)
  {
    ConnectedReflexive(es, a);
    ConnectedReflexive(es, b);
    if Adjacent(es, z, y) {
      AdjacentConnected(es, z, y);
      if Connected(es, x, z) {
        ConnectedTransitive(es, x, z, y);
      } else if Connected(es, x, a) && Connected(es, b, z) {
        ConnectedTransitive(es, b, z, y);
      } else {
        ConnectedTransitive(es, a, z, y);
      }
    }
  }

  /** Adding an edge joins the two classes of its endpoints and changes nothing else. */
  lemma AddEdge(es: set<Edge>, a: int, b: int, x: int, y: int)
    ensures Connected(es + {(a, b)}, x, y) <==> ConnectedVia(es, a, b, x, y)
  {
    var fs := es + {(a, b)};
    if Connected(fs, x, y) {
      var p :| IsPath(fs, p, x, y);
      PathWithEdge(es, a, b, p, x, y);
    }
    if ConnectedVia(es, a, b, x, y) {
      assert Adjacent(fs, a, b) && Adjacent(fs, b, a);
      AdjacentConnected(fs, a, b);
      AdjacentConnected(fs, b, a);
      if Connected(es, x, y) {
        ConnectedMonotone(es, fs, x, y);
      } else if Connected(es, x, a) && Connected(es, b, y) {
        Bridge(es, fs, x, a, b, y);
      } else {
        Bridge(es, fs, x, b, a, y);
      }
    }
  }

  lemma Bridge(es: set<Edge>, fs: set<Edge>, x: int, a: int, b: int, y: int)
    requires es <= fs && Connected(es, x, a) && Connected(fs, a, b) && Connected(es, b, y)
    ensures Connected(fs, x, y)
  {
    ConnectedMonotone(es, fs, x, a);
    ConnectedMonotone(es, fs, b, y);
    ConnectedTransitive(fs, x, a, b);
    ConnectedTransitive(fs, x, b, y);
  }

  lemma ConnectedStaysInVertices(es: set<Edge>, x: int, y: int)
    requires Connected(es, x, y) && x != y
    ensures x in Vertices(es) && y in Vertices(es)
  {
    var p :| IsPath(es, p, x, y);
    assert Adjacent(es, p[0], p[0 + 1]);
    assert Adjacent(es, p[|p| - 2], p[|p| - 2 + 1]);
  }

  // ----- components ------------------------------------------------------------------------------

  lemma SameComponent(es: set<Edge>, x: int, y: int)
    requires Connected(es, x, y)
    ensures Component(es, x) == Component(es, y)
  {
    ConnectedSymmetric(es, x, y);
    forall z | z in Vertices(es)
      ensures z in Component(es, x) <==> z in Component(es, y)
    {
      if Connected(es, x, z) {
        ConnectedTransitive(es, y, x, z);
      }
      if Connected(es, y, z) {
        ConnectedTransitive(es, x, y, z);
      }
    }
  }

  lemma ComponentsDisjoint(es: set<Edge>, c: set<int>, d: set<int>)
    requires c in Components(es) && d in Components(es) && c != d
    ensures c !! d
  {
    var x :| x in Vertices(es) && c == Component(es, x);
    var y :| y in Vertices(es) && d == Component(es, y);
    forall z | z in c && z in d
      ensures false
    {
      SameComponent(es, x, z);
      SameComponent(es, y, z);
    }
  }

  /** Fewer edges only split: every component lies inside a component of the larger graph. */
  lemma ComponentsRefine(es: set<Edge>, fs: set<Edge>, c: set<int>)
    requires es <= fs && c in Components(es)
    ensures exists d :: d in Components(fs) && c <= d
  {
    var x :| x in Vertices(es) && c == Component(es, x);
    var d := Component(fs, x);
    assert Vertices(es) <= Vertices(fs);
    forall y | y in c
      ensures y in d
    {
      ConnectedMonotone(es, fs, x, y);
    }
    SubsetSize(c, d);
    assert d in Components(fs);
  }

  // ----- a component of n members needs n - 1 edges --------------------------------------------

  function Inside(es: set<Edge>, s: set<int>): set<Edge> {
    set e | e in es && e.0 in s && e.1 in s
  }

  lemma {:induction false} Crossing(es: set<Edge>, s: set<int>, p: seq<int>, x: int, y: int) returns (u: int, w: int)
    requires IsPath(es, p, x, y) && x in s && y !in s
    ensures u in s && w !in s && Adjacent(es, u, w) && Connected(es, x, w)
    decreases |p|
  {
    var z := p[|p| - 2];
    assert Adjacent(es, p[|p| - 2], p[|p| - 2 + 1]);
    if z in s {
      return z, y;
    }
    u, w := Crossing(es, s, p[..|p| - 1], x, z);
  }

  lemma {:induction false} GrowTree(es: set<Edge>, x: int, c: set<int>, t: set<int>)
    requires c == Component(es, x) && x in t && t <= c
    requires |Inside(es, t)| >= |t| - 1
    ensures |Inside(es, c)| >= |c| - 1
    decreases |c - t|
  {
    if t != c {
      var y :| y in c && y !in t;
      var p :| IsPath(es, p, x, y);
      var u, w := Crossing(es, t, p, x, y);
      var e := if (u, w) in es then (u, w) else (w, u);
      var t' := t + {w};
      assert w in Vertices(es);
      SubsetSize(Inside(es, t) + {e}, Inside(es, t'));
      assert c - t == (c - t') + {w};
      GrowTree(es, x, c, t');
    }
  }

  lemma ComponentNeedsEdges(es: set<Edge>, c: set<int>)
    requires c in Components(es)
    ensures |Inside(es, c)| >= |c| - 1
  {
    var x :| x in Vertices(es) && c == Component(es, x);
    ConnectedReflexive(es, x);
    GrowTree(es, x, c, {x});
  }

  // ----- at most one edge per unordered pair -----------------------------------------------------

  ghost predicate NoRepeats(es: set<Edge>) {
    forall e :: e in es ==> e.0 < e.1
  }

  function EdgesAt(es: set<Edge>, v: int): set<Edge> {
    set e | e in es && (e.0 == v || e.1 == v)
  }

  lemma {:induction false} EdgesAtMostPairs(es: set<Edge>, s: set<int>)
    requires NoRepeats(es) && forall e :: e in es ==> e.0 in s && e.1 in s
    ensures 2 * |es| <= |s| * (|s| - 1)
    decreases |s|
  {
    if es == {} {
      NonNegativeProduct(|s|);
    } else {
      var someEdge :| someEdge in es;
      var v := someEdge.0;
      EdgesAtMostPairs(es - EdgesAt(es, v), s - {v});
      EdgesAtVertex(EdgesAt(es, v), v, s - {v});
      EdgesSplit(es, v);
      hide NoRepeats, EdgesAt;
      OneFewer(|es - EdgesAt(es, v)|, |EdgesAt(es, v)|, |s|);
    }
  }

  lemma EdgesSplit(es: set<Edge>, v: int)
    ensures |es| == |es - EdgesAt(es, v)| + |EdgesAt(es, v)|
  {
    assert es == (es - EdgesAt(es, v)) + EdgesAt(es, v);
  }

  lemma NonNegativeProduct(n: nat)
    ensures n * (n - 1) >= 0
  {
  }

  lemma OneFewer(kept: nat, gone: nat, n: nat)
    requires n > 0 && 2 * kept <= (n - 1) * (n - 1 - 1) && gone <= n - 1
    ensures 2 * (kept + gone) <= n * (n - 1)
  {
    assert (n - 1) * (n - 1 - 1) + 2 * (n - 1) == n * (n - 1);
  }

  lemma {:induction false} EdgesAtVertex(es: set<Edge>, v: int, others: set<int>)
    requires NoRepeats(es) && v !in others
    requires forall e :: e in es ==> (e.0 == v && e.1 in others) || (e.1 == v && e.0 in others)
    ensures |es| <= |others|
    decreases |others|
  {
    if es == {} {
    } else {
      var e :| e in es;
      var w := if e.0 == v then e.1 else e.0;
      EdgesAtVertex(es - {e}, v, others - {w});
    }
  }
}
