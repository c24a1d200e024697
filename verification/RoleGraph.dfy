/** Paths and cycles in the role inheritance relation. */
module RoleGraph {
  import opened Basics

  type Role = string

  /** For each parent role, the roles it inherits directly. */
  type Graph = map<Role, seq<Role>>

  predicate Edge(g: Graph, a: Role, b: Role) {
    a in g && b in g[a]
  }

  predicate IsPath(g: Graph, p: seq<Role>) {
    p != [] && forall i :: 0 <= i < |p| - 1 ==> Edge(g, p[i], p[i + 1])
  }

  predicate Joins(g: Graph, a: Role, p: seq<Role>, b: Role) {
    IsPath(g, p) && p[0] == a && p[|p| - 1] == b
  }

  /** b is a or inherited from a, directly or not. */
  ghost predicate Star(g: Graph, a: Role, b: Role) {
    exists p :: Joins(g, a, p, b)
  }

  /** b is inherited from a along at least one edge. */
  ghost predicate Reaches(g: Graph, a: Role, b: Role) {
    exists m :: Edge(g, a, m) && Star(g, m, b)
  }

  ghost predicate Acyclic(g: Graph) {
    forall a :: !Reaches(g, a, a)
  }

  function Add(g: Graph, parent: Role, child: Role): Graph {
    g[parent := (if parent in g then g[parent] else []) + [child]]
  }

  function Of(edges: seq<(Role, Role)>): Graph {
    if edges == [] then map[]
    else Add(Of(edges[..|edges| - 1]), edges[|edges| - 1].0, edges[|edges| - 1].1)
  }

  /** Every role the graph mentions. */
  function Roles(g: Graph): set<Role> {
    g.Keys + set a, b | a in g && b in g[a] :: b
  }

  // ------------------------------------------------------------------- paths

  lemma StarSelf(g: Graph, a: Role)
    ensures Star(g, a, a)
  {
    assert Joins(g, a, [a], a);
  }

  lemma StarTrans(g: Graph, a: Role, b: Role, c: Role)
    requires Star(g, a, b) && Star(g, b, c)
    ensures Star(g, a, c)
  {
    var p :| Joins(g, a, p, b);
    var q :| Joins(g, b, q, c);
    var r := p + q[1..];
    forall i | 0 <= i < |r| - 1 ensures Edge(g, r[i], r[i + 1]) {
      if i >= |p| - 1 { assert r[i] == q[i - (|p| - 1)]; }
    }
    assert Joins(g, a, r, c);
  }

  lemma StarEdge(g: Graph, a: Role, b: Role)
    requires Edge(g, a, b)
    ensures Star(g, a, b)
  {
    assert Joins(g, a, [a, b], b);
  }

  lemma StarCases(g: Graph, a: Role, b: Role)
    ensures Star(g, a, b) <==> a == b || Reaches(g, a, b)
  {
    if Star(g, a, b) {
      var p :| Joins(g, a, p, b);
      if |p| > 1 {
        assert Joins(g, p[1], p[1..], b);
        assert Edge(g, a, p[1]);
      }
    }
    if a == b { StarSelf(g, a); }
    if Reaches(g, a, b) {
      var m :| Edge(g, a, m) && Star(g, m, b);
      StarEdge(g, a, m);
      StarTrans(g, a, m, b);
    }
  }

  /** A set closed under edges holds everything its members reach. */
  lemma {:induction false} ClosedHoldsPath(g: Graph, closed: set<Role>, p: seq<Role>)
    requires forall a, b :: a in closed && Edge(g, a, b) ==> b in closed
    requires IsPath(g, p) && p[0] in closed
    ensures p[|p| - 1] in closed
    decreases |p|
  {
    if |p| > 1 {
      assert Edge(g, p[0], p[1]);
      ClosedHoldsPath(g, closed, p[1..]);
    }
  }

  lemma ClosedHoldsStar(g: Graph, closed: set<Role>, a: Role)
    requires forall a, b :: a in closed && Edge(g, a, b) ==> b in closed
    requires a in closed
    ensures forall b :: Star(g, a, b) ==> b in closed
  {
    forall b | Star(g, a, b) ensures b in closed {
      var p :| Joins(g, a, p, b);
      ClosedHoldsPath(g, closed, p);
    }
  }

  // ------------------------------------------------------------------ cycles

  /** A finish order: each role comes after everything it inherits directly. */
  ghost predicate Finished(g: Graph, order: seq<Role>) {
    forall i, b :: 0 <= i < |order| && Edge(g, order[i], b) ==> b in order[..i]
  }

  lemma {:induction false} FinishedPathDescends(g: Graph, order: seq<Role>, i: nat, p: seq<Role>) returns (j: nat)
    requires Finished(g, order) && i < |order|
    requires IsPath(g, p) && p[0] == order[i]
    ensures j <= i && order[j] == p[|p| - 1] && (|p| > 1 ==> j < i)
    decreases |p|
  {
    j := i;
    if |p| > 1 {
      assert Edge(g, p[0], p[1]);
      var k :| 0 <= k < i && order[..i][k] == p[1];
      j := FinishedPathDescends(g, order, k, p[1..]);
    }
  }

  lemma FinishedIsAcyclic(g: Graph, order: seq<Role>)
    requires Finished(g, order) && Distinct(order)
    requires g.Keys <= set r | r in order
    ensures Acyclic(g)
  {
    forall a ensures !Reaches(g, a, a) {
      if Reaches(g, a, a) {
        var m :| Edge(g, a, m) && Star(g, m, a);
        var p :| Joins(g, m, p, a);
        var q := [a] + p;
        assert IsPath(g, q);
        assert a in order;
        var i :| 0 <= i < |order| && order[i] == a;
        var j := FinishedPathDescends(g, order, i, q);
      }
    }
  }

  /** An edge back to a role on the current path closes a cycle. */
  lemma BackEdgeCycles(g: Graph, path: seq<Role>, b: Role)
    requires IsPath(g, path) && Edge(g, path[|path| - 1], b) && b in path
    ensures !Acyclic(g)
  {
    var i :| 0 <= i < |path| && path[i] == b;
    var last := path[|path| - 1];
    assert Joins(g, b, path[i..], last);
    StarCases(g, b, last);
    if b != last {
      var m :| Edge(g, b, m) && Star(g, m, last);
      StarEdge(g, last, b);
      StarTrans(g, m, last, b);
      assert Reaches(g, b, b);
    } else {
      StarSelf(g, b);
      assert Reaches(g, b, b);
    }
  }

  lemma EdgeOfAdd(g: Graph, parent: Role, child: Role, a: Role, b: Role)
    ensures Edge(Add(g, parent, child), a, b) <==> Edge(g, a, b) || (a == parent && b == child)
  {
  }

  /** A path that may use the new edge either avoids it or splits around it. */
  lemma {:induction false} PathAroundNewEdge(g: Graph, parent: Role, child: Role, p: seq<Role>)
    requires IsPath(Add(g, parent, child), p)
    ensures Star(g, p[0], p[|p| - 1]) || (Star(g, p[0], parent) && Star(g, child, p[|p| - 1]))
    decreases |p|
  {
    if |p| == 1 {
      StarSelf(g, p[0]);
    } else {
      PathAroundNewEdge(g, parent, child, p[1..]);
      assert Edge(Add(g, parent, child), p[0], p[1]);
      EdgeOfAdd(g, parent, child, p[0], p[1]);
      if Edge(g, p[0], p[1]) {
        StarEdge(g, p[0], p[1]);
        if Star(g, p[1], p[|p| - 1]) {
          StarTrans(g, p[0], p[1], p[|p| - 1]);
        } else {
          StarTrans(g, p[0], p[1], parent);
        }
      } else {
        StarSelf(g, parent);
      }
    }
  }

  ghost predicate Subgraph(g: Graph, h: Graph) {
    forall a, b :: Edge(g, a, b) ==> Edge(h, a, b)
  }

  lemma SubgraphStar(g: Graph, h: Graph, a: Role, b: Role)
    requires Subgraph(g, h) && Star(g, a, b)
    ensures Star(h, a, b)
  {
    var p :| Joins(g, a, p, b);
    forall i | 0 <= i < |p| - 1 ensures Edge(h, p[i], p[i + 1]) {
      assert Edge(g, p[i], p[i + 1]);
    }
    assert Joins(h, a, p, b);
  }

  lemma SubgraphReaches(g: Graph, h: Graph, a: Role, b: Role)
    requires Subgraph(g, h) && Reaches(g, a, b)
    ensures Reaches(h, a, b)
  {
    var m :| Edge(g, a, m) && Star(g, m, b);
    SubgraphStar(g, h, m, b);
    assert Edge(h, a, m);
  }

  lemma AddIsSubgraph(g: Graph, parent: Role, child: Role)
    ensures Subgraph(g, Add(g, parent, child))
  {
  }

  lemma AddClosesCycle(g: Graph, parent: Role, child: Role)
    requires Star(g, child, parent)
    ensures !Acyclic(Add(g, parent, child))
  {
    var h := Add(g, parent, child);
    AddIsSubgraph(g, parent, child);
    SubgraphStar(g, h, child, parent);
    EdgeOfAdd(g, parent, child, parent, child);
    assert Reaches(h, parent, parent);
  }

  /** A new edge closes a cycle exactly when its child already leads to its parent. */
  lemma NewEdgeCycles(g: Graph, parent: Role, child: Role)
    requires Acyclic(g)
    ensures Acyclic(Add(g, parent, child)) <==> !Star(g, child, parent)
  {
    var h := Add(g, parent, child);
    if Star(g, child, parent) {
      AddClosesCycle(g, parent, child);
    }
    if !Acyclic(h) {
      var a :| Reaches(h, a, a);
      var m :| Edge(h, a, m) && Star(h, m, a);
      var p :| Joins(h, m, p, a);
      PathAroundNewEdge(g, parent, child, p);
      EdgeOfAdd(g, parent, child, a, m);
      if Edge(g, a, m) {
        assert !Star(g, m, a) by {
          if Star(g, m, a) { assert Reaches(g, a, a); }
        }
        StarEdge(g, a, m);
        StarTrans(g, child, a, m);
        StarTrans(g, child, m, parent);
      }
    }
  }

  // --------------------------------------------------------- edges as a list

  lemma {:induction false} EdgesOf(edges: seq<(Role, Role)>, a: Role, b: Role)
    ensures Edge(Of(edges), a, b) <==> (a, b) in edges
    decreases |edges|
  {
    if edges != [] {
      var n := |edges| - 1;
      EdgesOf(edges[..n], a, b);
      EdgeOfAdd(Of(edges[..n]), edges[n].0, edges[n].1, a, b);
      assert edges == edges[..n] + [edges[n]];
    }
  }

  lemma OfSubset(edges: seq<(Role, Role)>, others: seq<(Role, Role)>)
    requires forall e :: e in edges ==> e in others
    ensures Subgraph(Of(edges), Of(others))
  {
    forall a, b | Edge(Of(edges), a, b) ensures Edge(Of(others), a, b) {
      EdgesOf(edges, a, b);
      EdgesOf(others, a, b);
    }
  }

  /** Whether adding one edge after another never closes a cycle. */
  ghost predicate Buildable(edges: seq<(Role, Role)>) {
    forall k :: 0 <= k < |edges| ==> !Star(Of(edges[..k]), edges[k].1, edges[k].0)
  }

  lemma SubgraphAcyclic(g: Graph, h: Graph)
    requires Subgraph(g, h) && Acyclic(h)
    ensures Acyclic(g)
  {
    forall a ensures !Reaches(g, a, a) {
      if Reaches(g, a, a) { SubgraphReaches(g, h, a, a); }
    }
  }

  /** A list of edges can be added in order exactly when it has no cycle. */
  lemma {:induction false} BuildableIffAcyclic(edges: seq<(Role, Role)>)
    ensures Buildable(edges) <==> Acyclic(Of(edges))
    decreases |edges|
  {
    if edges == [] {
      assert forall a, b :: !Edge(Of(edges), a, b);
    } else {
      var n := |edges| - 1;
      var before := edges[..n];
      BuildableIffAcyclic(before);
      assert forall k :: 0 <= k < n ==> before[..k] == edges[..k];
      if Acyclic(Of(before)) {
        NewEdgeCycles(Of(before), edges[n].0, edges[n].1);
      } else {
        AddIsSubgraph(Of(before), edges[n].0, edges[n].1);
        if Acyclic(Of(edges)) { SubgraphAcyclic(Of(before), Of(edges)); }
      }
    }
  }

  /** An acyclic list builds without a rejection in every order, and every
      order gives the same inheritance. */
  lemma AnyOrderBuilds(edges: seq<(Role, Role)>, reordered: seq<(Role, Role)>)
    requires Acyclic(Of(edges)) && multiset(edges) == multiset(reordered)
    ensures Buildable(reordered)
    ensures forall a, b :: Reaches(Of(edges), a, b) <==> Reaches(Of(reordered), a, b)
  {
    forall e | e in edges ensures e in reordered { assert e in multiset(edges); }
    forall e | e in reordered ensures e in edges { assert e in multiset(reordered); }
    OfSubset(edges, reordered);
    OfSubset(reordered, edges);
    SubgraphAcyclic(Of(reordered), Of(edges));
    BuildableIffAcyclic(reordered);
    forall a, b ensures Reaches(Of(edges), a, b) <==> Reaches(Of(reordered), a, b) {
      if Reaches(Of(edges), a, b) { SubgraphReaches(Of(edges), Of(reordered), a, b); }
      if Reaches(Of(reordered), a, b) { SubgraphReaches(Of(reordered), Of(edges), a, b); }
    }
  }
}
