/** Directed graphs given by successor lists, and the depth-first check with a path set that
    flow-discovery.ts and validation.ts both perform. */
module Graphs {
  type Graph<V> = map<V, seq<V>>

  /** A successor that is not a node leads nowhere. */
  ghost predicate Edge<V>(g: Graph<V>, v: V, w: V) {
    v in g && w in g && w in g[v]
  }

  ghost predicate Walk<V>(g: Graph<V>, p: seq<V>) {
    && p != [] && (forall i | 0 <= i < |p| :: p[i] in g)
    && forall i | 0 < i < |p| :: Edge(g, p[i - 1], p[i])
  }

  /** A walk with at least one edge that ends where it began. */
  ghost predicate IsCycle<V>(g: Graph<V>, p: seq<V>) {
    Walk(g, p) && |p| > 1 && p[0] == p[|p| - 1]
  }

  ghost predicate Acyclic<V(!new)>(g: Graph<V>) {
    forall p :: !IsCycle(g, p)
  }

  ghost predicate Reaches<V(!new)>(g: Graph<V>, v: V, w: V) {
    exists p :: Walk(g, p) && p[0] == v && p[|p| - 1] == w
  }

  /** The check: no node may be met again while it is on the path. */
  predicate Accepts<V>(g: Graph<V>, v: V, path: set<V>)
    requires v in g
    decreases g.Keys - path
  {
    v !in path && forall i | 0 <= i < |g[v]| :: g[v][i] in g ==> Accepts(g, g[v][i], path + {v})
  }

  /** A walk from `v` that comes back to the path or to itself. */
  ghost predicate Returns<V>(g: Graph<V>, v: V, path: set<V>, p: seq<V>) {
    && Walk(g, p) && p[0] == v
    && (p[|p| - 1] in path || exists i :: 0 <= i < |p| - 1 && p[i] == p[|p| - 1])
  }

  lemma {:induction false} ReturningWalkIsRejected<V(!new)>(g: Graph<V>, v: V, path: set<V>, p: seq<V>)
    requires v in g && Returns(g, v, path, p)
    ensures !Accepts(g, v, path)
    decreases |p|
  {
    if v !in path {
      var w, q := p[1], p[1..];
      assert Edge(g, p[0], p[1]);
      var i :| 0 <= i < |g[v]| && g[v][i] == w;
      assert Walk(g, q) by {
        forall k | 0 < k < |q| ensures Edge(g, q[k - 1], q[k]) { assert Edge(g, p[k], p[k + 1]); }
      }
      if p[|p| - 1] !in path {
        var k :| 0 <= k < |p| - 1 && p[k] == p[|p| - 1];
        if k > 0 { assert q[k - 1] == q[|q| - 1]; }
      }
      assert Returns(g, w, path + {v}, q);
      ReturningWalkIsRejected(g, w, path + {v}, q);
    }
  }

  lemma {:induction false} RejectionHasAWalk<V(!new)>(g: Graph<V>, v: V, path: set<V>) returns (p: seq<V>)
    requires v in g && !Accepts(g, v, path)
    ensures Returns(g, v, path, p)
    decreases g.Keys - path
  {
    if v in path {
      p := [v];
    } else {
      var i :| 0 <= i < |g[v]| && g[v][i] in g && !Accepts(g, g[v][i], path + {v});
      var w := g[v][i];
      var q := RejectionHasAWalk(g, w, path + {v});
      p := [v] + q;
      assert Walk(g, p) by {
        forall k | 0 < k < |p| ensures Edge(g, p[k - 1], p[k]) {
          if k > 1 { assert Edge(g, q[k - 2], q[k - 1]); }
        }
      }
      if q[|q| - 1] !in path {
        if q[|q| - 1] == v {
          assert p[0] == p[|p| - 1];
        } else {
          var k :| 0 <= k < |q| - 1 && q[k] == q[|q| - 1];
          assert p[k + 1] == p[|p| - 1];
        }
      }
    }
  }

  /** From one node, the check with an empty path accepts exactly when no cycle can be reached. */
  lemma AcceptsMeansNoReachableCycle<V(!new)>(g: Graph<V>, v: V)
    requires v in g
    ensures Accepts(g, v, {}) <==> forall c :: IsCycle(g, c) ==> !Reaches(g, v, c[0])
  {
    if Accepts(g, v, {}) {
      forall c | IsCycle(g, c) ensures !Reaches(g, v, c[0]) {
        if Reaches(g, v, c[0]) {
          var p :| Walk(g, p) && p[0] == v && p[|p| - 1] == c[0];
          var whole := p + c[1..];
          JoinedWalk(g, p, c);
          assert whole[|p| - 1] == whole[|whole| - 1];
          assert Returns(g, v, {}, whole);
          ReturningWalkIsRejected(g, v, {}, whole);
        }
      }
    } else {
      var p := RejectionHasAWalk(g, v, {});
      var i :| 0 <= i < |p| - 1 && p[i] == p[|p| - 1];
      var c := p[i..];
      PartOfWalk(g, p, i, |p|);
      PartOfWalk(g, p, 0, i + 1);
      assert IsCycle(g, c);
      assert p[..i + 1][0] == v && p[..i + 1][i] == c[0];
      assert p[0..i + 1] == p[..i + 1];
      assert Reaches(g, v, c[0]);
    }
  }

  lemma PartOfWalk<V(!new)>(g: Graph<V>, p: seq<V>, lo: nat, hi: nat)
    requires Walk(g, p) && lo < hi <= |p|
    ensures Walk(g, p[lo..hi])
  {
    var q := p[lo..hi];
    forall k | 0 < k < |q| ensures Edge(g, q[k - 1], q[k]) { assert Edge(g, p[lo + k - 1], p[lo + k]); }
  }

  lemma JoinedWalk<V(!new)>(g: Graph<V>, p: seq<V>, q: seq<V>)
    requires Walk(g, p) && Walk(g, q) && p[|p| - 1] == q[0]
    ensures Walk(g, p + q[1..])
  {
    var whole := p + q[1..];
    forall k | 0 < k < |whole| ensures Edge(g, whole[k - 1], whole[k]) {
      if k < |p| { assert Edge(g, p[k - 1], p[k]); } else { assert Edge(g, q[k - |p|], q[k - |p| + 1]); }
    }
  }

  /** From every node: the check accepts exactly the acyclic graphs. */
  lemma AllAcceptMeansAcyclic<V(!new)>(g: Graph<V>)
    ensures (forall v | v in g :: Accepts(g, v, {})) <==> Acyclic(g)
  {
    forall v | v in g ensures Acyclic(g) ==> Accepts(g, v, {}) {
      AcceptsMeansNoReachableCycle(g, v);
    }
    if !Acyclic(g) {
      var c :| IsCycle(g, c);
      assert Returns(g, c[0], {}, c);
      ReturningWalkIsRejected(g, c[0], {}, c);
    }
  }
}
