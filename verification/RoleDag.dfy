/** The role graph with its precomputed closure, and the storage-side check of
    a role list: three-colour searches proved against paths. */
module RoleDag {
  import opened Basics
  import opened RoleGraph

  function DirectRoles(g: Graph, a: Role): seq<Role> {
    if a in g then g[a] else []
  }

  /** A depth-first search in progress: the open roles form a path that leads to
      next, and the done roles are in finish order. */
  ghost predicate Searching(g: Graph, visited: map<Role, bool>, path: seq<Role>, order: seq<Role>) {
    && visited.Keys <= Roles(g)
    && (forall r :: r in path <==> r in visited && visited[r])
    && (forall r :: r in order <==> r in visited && !visited[r])
    && (path != [] ==> IsPath(g, path))
    && Finished(g, order) && Distinct(order)
  }

  lemma DoneSearchIsAcyclic(g: Graph, visited: map<Role, bool>, order: seq<Role>)
    requires Searching(g, visited, [], order) && g.Keys <= visited.Keys
    ensures Acyclic(g)
  {
    FinishedIsAcyclic(g, order);
  }

  /** Opening a role extends the path, closing it extends the finish order. */
  lemma OpenRole(g: Graph, visited: map<Role, bool>, path: seq<Role>, order: seq<Role>, a: Role)
    requires Searching(g, visited, path, order) && a in Roles(g) && a !in visited
    requires path != [] ==> Edge(g, path[|path| - 1], a)
    ensures Searching(g, visited[a := true], path + [a], order)
  {
  }

  lemma CloseRole(g: Graph, visited: map<Role, bool>, path: seq<Role>, order: seq<Role>, a: Role)
    requires Searching(g, visited, path + [a], order) && a !in path
    requires forall b :: Edge(g, a, b) ==> b in order
    ensures Searching(g, visited[a := false], path, order + [a])
  {
    var done := order + [a];
    forall i, b | 0 <= i < |done| && Edge(g, done[i], b) ensures b in done[..i] {
      assert done[..i] == if i < |order| then order[..i] else order;
    }
    assert a in path + [a];
    assert forall r :: r in path + [a] <==> r in path || r == a;
    if path != [] {
      assert IsPath(g, path) by {
        forall i | 0 <= i < |path| - 1 ensures Edge(g, path[i], path[i + 1]) {
          assert (path + [a])[i] == path[i] && (path + [a])[i + 1] == path[i + 1];
        }
      }
    }
  }

  lemma RolesHasEdges(g: Graph, a: Role, b: Role)
    requires Edge(g, a, b)
    ensures a in Roles(g) && b in Roles(g)
  {
  }

  /** One run of the engine's cycle test; a role is absent from visited while
      white, true while grey and false once black. */
  class CycleSearch {
    const adj: Graph
    var visited: map<Role, bool>
    ghost var path: seq<Role>
    ghost var order: seq<Role>

    constructor (adj: Graph)
      ensures this.adj == adj && visited == map[] && path == [] && order == []
    {
      this.adj := adj;
      visited, path, order := map[], [], [];
    }

    method Dfs(node: Role) returns (cyclic: bool)
      requires node in Roles(adj) && node !in visited
      requires Searching(adj, visited, path, order)
      requires path != [] ==> Edge(adj, path[|path| - 1], node)
      modifies this
      ensures cyclic ==> !Acyclic(adj)
      ensures !cyclic ==> Searching(adj, visited, path, order) && path == old(path)
      ensures !cyclic ==> forall r :: r in old(order) ==> r in order
      ensures !cyclic ==> old(visited).Keys <= visited.Keys && node in visited && !visited[node]
      decreases Roles(adj) - visited.Keys
    {
      OpenRole(adj, visited, path, order, node);
      visited := visited[node := true];
      path := path + [node];
      ghost var open := path;
      var neighbours := DirectRoles(adj, node);
      var i := 0;
      while i < |neighbours|
        invariant 0 <= i <= |neighbours|
        invariant Searching(adj, visited, path, order) && path == open
        invariant old(visited).Keys + {node} <= visited.Keys
        invariant forall k :: 0 <= k < i ==> neighbours[k] in order
      {
        var neighbour := neighbours[i];
        assert Edge(adj, node, neighbour);
        RolesHasEdges(adj, node, neighbour);
        if neighbour in visited && visited[neighbour] {
          BackEdgeCycles(adj, path, neighbour);
          return true;
        }
        if neighbour !in visited {
          cyclic := Dfs(neighbour);
          if cyclic { return; }
        }
        i := i + 1;
      }
      CloseRole(adj, visited, old(path), order, node);
      visited := visited[node := false];
      path := old(path);
      order := order + [node];
      cyclic := false;
    }
  }

  method HasCycle(adj: Graph) returns (cyclic: bool)
    ensures cyclic <==> !Acyclic(adj)
  {
    var search := new CycleSearch(adj);
    var todo := adj.Keys;
    while todo != {}
      invariant search.adj == adj && todo <= adj.Keys
      invariant Searching(adj, search.visited, [], search.order) && search.path == []
      invariant adj.Keys - todo <= search.visited.Keys
      decreases |todo|
    {
      var node :| node in todo;
      if node !in search.visited {
        cyclic := search.Dfs(node);
        if cyclic { return; }
      }
      todo := todo - {node};
    }
    DoneSearchIsAcyclic(adj, search.visited, search.order);
    cyclic := false;
  }

  class RoleDag {
    var adj: Graph
    var closure: map<Role, set<Role>>
    var inherited: map<Role, seq<Role>>

    /** The closure and the role lists are those of the graph. */
    ghost predicate Valid()
      reads this
    {
      && Acyclic(adj)
      && closure.Keys == adj.Keys && inherited.Keys == adj.Keys
      && Summarised(adj, closure, inherited)
    }

    constructor ()
      ensures Valid() && adj == map[]
    {
      adj, closure, inherited := map[], map[], map[];
      new;
      assert forall a, b :: !Edge(adj, a, b);
    }

    /** An edge is accepted exactly when it closes no cycle, and a rejected one
        changes nothing. */
    method AddInheritance(parent: Role, child: Role) returns (ok: bool)
      requires Valid()
      modifies this
      ensures Valid()
      ensures ok <==> parent != child && !Reaches(old(adj), child, parent)
      ensures ok ==> adj == Add(old(adj), parent, child)
      ensures !ok ==> adj == old(adj) && closure == old(closure) && inherited == old(inherited)
    {
      if parent == child { return false; }
      NewEdgeCycles(adj, parent, child);
      StarCases(adj, child, parent);
      var extended := Add(adj, parent, child);
      var cyclic := HasCycle(extended);
      if cyclic { return false; }
      adj := extended;
      RebuildTransitiveClosure();
      ok := true;
    }

    method RebuildTransitiveClosure()
      requires Acyclic(adj)
      modifies this`closure, this`inherited
      ensures Valid()
    {
      closure, inherited := map[], map[];
      var todo := adj.Keys;
      while todo != {}
        invariant todo <= adj.Keys
        invariant closure.Keys == adj.Keys - todo && inherited.Keys == adj.Keys - todo
        invariant Summarised(adj, closure, inherited)
        decreases |todo|
      {
        var node :| node in todo;
        var reached, roles := InheritedFrom(node);
        SummariseOne(adj, closure, inherited, node, reached, roles);
        closure := closure[node := reached];
        inherited := inherited[node := roles];
        todo := todo - {node};
      }
    }

    method InheritedFrom(node: Role) returns (reached: set<Role>, roles: seq<Role>)
      requires Acyclic(adj)
      ensures IsClosure(adj, node, reached)
      ensures ListsInherited(adj, node, roles)
    {
      var visited := DfsCollect(node, {});
      CollectedIsClosure(adj, node, visited);
      reached := visited - {node};
      roles := ListOf(node, reached);
    }

    /** Everything found is inherited, and every new role's own roles are found. */
    method DfsCollect(node: Role, seen: set<Role>) returns (visited: set<Role>)
      requires node !in seen
      ensures seen + {node} <= visited
      ensures forall r :: r in visited - seen ==> Star(adj, node, r)
      ensures forall r, b :: r in visited - seen && Edge(adj, r, b) ==> b in visited
      decreases Roles(adj) + {node} - seen
    {
      visited := seen + {node};
      StarSelf(adj, node);
      var neighbours := DirectRoles(adj, node);
      var i := 0;
      while i < |neighbours|
        invariant 0 <= i <= |neighbours|
        invariant seen + {node} <= visited
        invariant forall r :: r in visited - seen ==> Star(adj, node, r)
        invariant forall r, b :: r in visited - seen - {node} && Edge(adj, r, b) ==> b in visited
        invariant forall k :: 0 <= k < i ==> neighbours[k] in visited
      {
        var neighbour := neighbours[i];
        assert Edge(adj, node, neighbour);
        if neighbour !in visited {
          StarEdge(adj, node, neighbour);
          RolesHasEdges(adj, node, neighbour);
          ghost var before := visited;
          visited := DfsCollect(neighbour, visited);
          forall r | r in visited - before ensures Star(adj, node, r) {
            StarTrans(adj, node, neighbour, r);
          }
        }
        i := i + 1;
      }
    }

    method IsDescendant(parent: Role, child: Role) returns (yes: bool)
      requires Valid()
      ensures yes <==> Star(adj, parent, child)
    {
      StarCases(adj, parent, child);
      if parent == child { return true; }
      if parent !in closure { return false; }
      yes := child in closure[parent];
    }

    method GetInheritedRoles(role: Role) returns (roles: seq<Role>)
      requires Valid()
      ensures ListsInherited(adj, role, roles)
    {
      if role in inherited { return inherited[role]; }
      StarSelf(adj, role);
      forall b ensures Star(adj, role, b) <==> b == role { StarCases(adj, role, b); }
      roles := [role];
    }
  }

  ghost predicate Summarised(g: Graph, closure: map<Role, set<Role>>, inherited: map<Role, seq<Role>>) {
    && (forall a :: a in closure ==> IsClosure(g, a, closure[a]))
    && (forall a :: a in inherited ==> ListsInherited(g, a, inherited[a]))
  }

  lemma SummariseOne(g: Graph, closure: map<Role, set<Role>>, inherited: map<Role, seq<Role>>,
                     a: Role, reached: set<Role>, roles: seq<Role>)
    requires Summarised(g, closure, inherited)
    requires IsClosure(g, a, reached) && ListsInherited(g, a, roles)
    ensures Summarised(g, closure[a := reached], inherited[a := roles])
  {
  }

  ghost predicate IsClosure(g: Graph, a: Role, reached: set<Role>) {
    forall b :: b in reached <==> Reaches(g, a, b)
  }

  /** The role itself first, then each role it inherits, all once. */
  ghost predicate ListsInherited(g: Graph, a: Role, roles: seq<Role>) {
    && roles != [] && roles[0] == a
    && Distinct(roles)
    && forall b :: b in roles <==> Star(g, a, b)
  }

  /** In an acyclic graph the collected roles, less the start, are the closure. */
  lemma CollectedIsClosure(g: Graph, a: Role, visited: set<Role>)
    requires Acyclic(g) && a in visited
    requires forall r :: r in visited ==> Star(g, a, r)
    requires forall r, b :: r in visited && Edge(g, r, b) ==> b in visited
    ensures IsClosure(g, a, visited - {a})
    ensures forall b :: b in visited <==> Star(g, a, b)
  {
    ClosedHoldsStar(g, visited, a);
    forall b ensures b in visited - {a} <==> Reaches(g, a, b) {
      StarCases(g, a, b);
    }
  }

  method ListOf(first: Role, rest: set<Role>) returns (roles: seq<Role>)
    requires first !in rest
    ensures roles != [] && roles[0] == first && Distinct(roles)
    ensures forall r :: r in roles <==> r == first || r in rest
  {
    roles := [first];
    var todo := rest;
    while todo != {}
      invariant todo <= rest
      invariant roles != [] && roles[0] == first && Distinct(roles)
      invariant forall r :: r in roles <==> r == first || r in rest - todo
      decreases |todo|
    {
      var r :| r in todo;
      assert r !in roles;
      roles := roles + [r];
      todo := todo - {r};
    }
  }

  // ------------------------------------------------- the storage-side check

  const MAX_ROLE: nat := 255

  /** Why a role list is refused before its cycles are looked for. */
  predicate Acceptable(trim: string -> string, e: (Role, Role)) {
    && e.0 != "" && e.1 != "" && trim(e.0) == e.0 && trim(e.1) == e.1
    && |e.0| <= MAX_ROLE && |e.1| <= MAX_ROLE && e.0 != e.1
  }

  class RoleListCheck {
    const edges: Graph
    var visited: map<Role, bool>
    ghost var path: seq<Role>
    ghost var order: seq<Role>

    constructor (edges: Graph)
      ensures this.edges == edges && visited == map[] && path == [] && order == []
    {
      this.edges := edges;
      visited, path, order := map[], [], [];
    }

    /** Unlike the engine's search, this one looks at a role's colour on entry. */
    method Visit(node: Role) returns (ok: bool)
      requires node in Roles(edges)
      requires Searching(edges, visited, path, order)
      requires path != [] ==> Edge(edges, path[|path| - 1], node)
      modifies this
      ensures !ok ==> !Acyclic(edges)
      ensures ok ==> Searching(edges, visited, path, order) && path == old(path)
      ensures ok ==> forall r :: r in old(order) ==> r in order
      ensures ok ==> old(visited).Keys <= visited.Keys && node in order
      decreases Roles(edges) - visited.Keys, 1
    {
      if node in visited && visited[node] {
        BackEdgeCycles(edges, path, node);
        return false;
      }
      if node in visited { return true; }
      ok := Explore(node);
    }

    method Explore(node: Role) returns (ok: bool)
      requires node in Roles(edges) && node !in visited
      requires Searching(edges, visited, path, order)
      requires path != [] ==> Edge(edges, path[|path| - 1], node)
      modifies this
      ensures !ok ==> !Acyclic(edges)
      ensures ok ==> Searching(edges, visited, path, order) && path == old(path)
      ensures ok ==> forall r :: r in old(order) ==> r in order
      ensures ok ==> old(visited).Keys <= visited.Keys && node in order
      decreases Roles(edges) - visited.Keys, 0
    {
      OpenRole(edges, visited, path, order, node);
      visited := visited[node := true];
      path := path + [node];
      ghost var open := path;
      var children := DirectRoles(edges, node);
      var i := 0;
      while i < |children|
        invariant 0 <= i <= |children|
        invariant Searching(edges, visited, path, order) && path == open
        invariant old(visited).Keys + {node} <= visited.Keys
        invariant forall r :: r in old(order) ==> r in order
        invariant forall k :: 0 <= k < i ==> children[k] in order
      {
        assert Edge(edges, node, children[i]);
        RolesHasEdges(edges, node, children[i]);
        ok := Visit(children[i]);
        if !ok { return; }
        i := i + 1;
      }
      CloseRole(edges, visited, old(path), order, node);
      visited := visited[node := false];
      path := old(path);
      order := order + [node];
      ok := true;
    }
  }

  /** Both ends are trimmed, there, not too long, and two. */
  method CheckEndpoints(trim: string -> string, e: (Role, Role)) returns (ok: bool)
    ensures ok <==> Acceptable(trim, e)
  {
    var parent, child := trim(e.0), trim(e.1);
    if parent == "" || child == "" || parent != e.0 || child != e.1 { return false; }
    if |parent| > 255 || |child| > 255 { return false; }
    ok := parent != child;
  }

  /** The edge map of a list without malformed or repeated pairs. */
  method CollectEdges(trim: string -> string, list: seq<(Role, Role)>) returns (ok: bool, edges: Graph)
    ensures ok <==> (forall e :: e in list ==> Acceptable(trim, e)) && Distinct(list)
    ensures ok ==> edges == Of(list)
  {
    edges := map[];
    var seen: set<(Role, Role)> := {};
    var i := 0;
    while i < |list|
      invariant 0 <= i <= |list|
      invariant edges == Of(list[..i])
      invariant forall e :: e in seen <==> e in list[..i]
      invariant forall e :: e in list[..i] ==> Acceptable(trim, e)
      invariant Distinct(list[..i])
    {
      var e := list[i];
      var wellFormed := CheckEndpoints(trim, e);
      if !wellFormed { return false, edges; }
      if e in seen {
        var j :| 0 <= j < i && list[..i][j] == e;
        assert list[j] == list[i];
        return false, edges;
      }
      assert list[..i + 1] == list[..i] + [e] && list[..i + 1][..i] == list[..i];
      seen := seen + {e};
      edges := Add(edges, e.0, e.1);
      i := i + 1;
    }
    assert list[..i] == list;
    ok := true;
  }

  method ValidateRoleInheritances(trim: string -> string, list: seq<(Role, Role)>) returns (ok: bool)
    ensures ok <==> (forall e :: e in list ==> Acceptable(trim, e)) && Distinct(list) && Acyclic(Of(list))
  {
    var wellFormed, edges := CollectEdges(trim, list);
    if !wellFormed { return false; }
    var check := new RoleListCheck(edges);
    var todo := edges.Keys;
    while todo != {}
      invariant check.edges == edges && todo <= edges.Keys
      invariant Searching(edges, check.visited, [], check.order) && check.path == []
      invariant edges.Keys - todo <= check.visited.Keys
      decreases |todo|
    {
      var node :| node in todo;
      ok := check.Visit(node);
      if !ok { return; }
      todo := todo - {node};
    }
    DoneSearchIsAcyclic(edges, check.visited, check.order);
    ok := true;
  }

  /** Whatever order a stored role list is read back in, the engine adds every
      edge, and the roles inherited are those of the list. */
  method BuildRoles(list: seq<(Role, Role)>, ghost stored: seq<(Role, Role)>) returns (dag: RoleDag, ok: bool)
    ensures dag.Valid() && fresh(dag)
    ensures ok ==> dag.adj == Of(list)
    ensures ok <==> Acyclic(Of(list))
    ensures Acyclic(Of(stored)) && multiset(list) == multiset(stored) ==>
      ok && forall a, b :: Reaches(dag.adj, a, b) <==> Reaches(Of(stored), a, b)
  {
    dag := new RoleDag();
    BuildableIffAcyclic(list);
    if Acyclic(Of(stored)) && multiset(list) == multiset(stored) {
      AnyOrderBuilds(stored, list);
    }
    var i := 0;
    while i < |list|
      invariant 0 <= i <= |list|
      invariant dag.Valid() && fresh(dag) && dag.adj == Of(list[..i])
    {
      StarCases(dag.adj, list[i].1, list[i].0);
      ok := dag.AddInheritance(list[i].0, list[i].1);
      if !ok { return; }
      assert list[..i + 1][..i] == list[..i];
      i := i + 1;
    }
    assert list[..i] == list;
    ok := true;
  }
}
