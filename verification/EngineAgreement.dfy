/** Engines that have loaded one revision decide alike, whenever and in whatever
    order each of them read it. */
module EngineAgreement {
  import opened Expr
  import opened RoleGraph
  import opened PolicyTrie
  import opened Decision
  import RoleDag
  import R = Replication

  // ------------------------------------------------------------ one request

  /** The same request, asked over two role graphs with the same inheritance. */
  ghost predicate Alike(x: Request, y: Request) {
    && x.subject == y.subject && x.resource == y.resource && x.attributes == y.attributes
    && (forall a, b :: x.descends(a, b) == y.descends(a, b))
  }

  lemma RelateAlike(lib: Library, x: Request, y: Request, op: Op, v: Value, w: Value)
    requires Alike(x, y) && !op.And? && !op.Or?
    ensures Relate(lib, x, op, v, w) == Relate(lib, y, op, v, w)
  {
    if op.In? && v.Str? && w.Str? {
      assert x.descends(TrimRole(v.text), TrimRole(w.text)) == y.descends(TrimRole(v.text), TrimRole(w.text));
    }
  }

  lemma AttributeAlike(lib: Library, x: Request, y: Request, scope: Scope, field: string, t: ValueType)
    requires Alike(x, y)
    ensures Attribute(lib, x, scope, field, t) == Attribute(lib, y, scope, field, t)
  {
    hide ReadAs;
  }

  lemma ComparedAlike(lib: Library, x: Request, y: Request, op: Op, v: Outcome, w: Outcome)
    requires Alike(x, y) && !op.And? && !op.Or?
    ensures Compared(lib, x, op, v, w) == Compared(lib, y, op, v, w)
  {
    hide Relate;
    if v.Yields? && w.Yields? { RelateAlike(lib, x, y, op, v.value, w.value); }
  }

  lemma {:induction false} EvalAlike(lib: Library, x: Request, y: Request, e: Expr)
    requires Alike(x, y)
    ensures Eval(lib, x, e) == Eval(lib, y, e)
    decreases e
  {
    hide Alike;
    hide Attribute;
    hide Compared;
    match e
    case Lit(_) =>
    case Var(scope, field) => AttributeAlike(lib, x, y, scope, field, StringType);
    case Not(c) => EvalAlike(lib, x, y, c);
    case Neg(c) => EvalAlike(lib, x, y, c);
    case Bin(op, l, r) =>
      EvalAlike(lib, x, y, l);
      EvalAlike(lib, x, y, r);
      if !op.And? && !op.Or? {
        var v := if l.Var? then Attribute(lib, x, l.scope, l.field, Expected(op, r)) else Eval(lib, x, l);
        if l.Var? { AttributeAlike(lib, x, y, l.scope, l.field, Expected(op, r)); }
        ComparedAlike(lib, x, y, op, v, Eval(lib, x, r));
      }
  }

  lemma SatisfiedAlike(lib: Library, x: Request, y: Request, p: Policy)
    requires Alike(x, y)
    ensures Satisfied(lib, x, p) <==> Satisfied(lib, y, p)
  {
    hide Eval;
    if p.condition.Some? { EvalAlike(lib, x, y, p.condition.value); }
  }

  // -------------------------------------------------------- one policy set

  /** The same policies in any order, and the same inheritance. */
  ghost predicate SameSet(added: seq<Policy>, added': seq<Policy>, g: Graph, g': Graph) {
    && (forall p :: p in added <==> p in added')
    && (forall a, b :: Star(g, a, b) <==> Star(g', a, b))
  }

  lemma ConsultedAlike(hash: string -> Hash, added: seq<Policy>, added': seq<Policy>, g: Graph, g': Graph, subject: string,
                       action: string, resource: string, p: Policy)
    requires SameSet(added, added', g, g')
    ensures Consulted(hash, added, g, subject, action, resource, p)
       <==> Consulted(hash, added', g', subject, action, resource, p)
  {
    hide Star;
    hide Skipped;
  }

  /** The verdict and its reason depend on nothing else. */
  lemma DecidesAlike(lib: Library, hash: string -> Hash, added: seq<Policy>, added': seq<Policy>, g: Graph, g': Graph,
                     x: Request, y: Request, action: string, r: DecisionResult, r': DecisionResult)
    requires SameSet(added, added', g, g') && Alike(x, y)
    requires Decides(lib, hash, added, g, x, action, r) && Decides(lib, hash, added', g', y, action, r')
    ensures r.verdict == r'.verdict && r.reason == r'.reason
  {
    hide Satisfied;
    hide Consulted;
    hide SameSet;
    forall p ensures Satisfied(lib, x, p) <==> Satisfied(lib, y, p) { SatisfiedAlike(lib, x, y, p); }
    forall p ensures Consulted(hash, added, g, x.subject, action, x.resource, p)
                <==> Consulted(hash, added', g', x.subject, action, x.resource, p)
    {
      ConsultedAlike(hash, added, added', g, g', x.subject, action, x.resource, p);
    }
    assert x.subject == y.subject && x.resource == y.resource;
    hide Alike;
    FindsAlike(lib, hash, added, added', g, g', x, y, action, Permit);
    FindsAlike(lib, hash, added, added', g, g', x, y, action, Forbid);
  }

  lemma FindsAlike(lib: Library, hash: string -> Hash, added: seq<Policy>, added': seq<Policy>, g: Graph, g': Graph,
                   x: Request, y: Request, action: string, effect: Effect)
    requires x.subject == y.subject && x.resource == y.resource
    requires forall p :: Satisfied(lib, x, p) <==> Satisfied(lib, y, p)
    requires forall p :: Consulted(hash, added, g, x.subject, action, x.resource, p)
                    <==> Consulted(hash, added', g', x.subject, action, x.resource, p)
    ensures Finds(lib, hash, added, g, x, action, effect) <==> Finds(lib, hash, added', g', y, action, effect)
  {
    hide Satisfied;
    hide Consulted;
    if Finds(lib, hash, added, g, x, action, effect) {
      var p :| Consulted(hash, added, g, x.subject, action, x.resource, p) && p.effect == effect && Satisfied(lib, x, p);
      assert Consulted(hash, added', g', y.subject, action, y.resource, p);
    }
    if Finds(lib, hash, added', g', y, action, effect) {
      var p :| Consulted(hash, added', g', y.subject, action, y.resource, p) && p.effect == effect && Satisfied(lib, y, p);
      assert Consulted(hash, added, g, x.subject, action, x.resource, p);
    }
  }

  // ------------------------------------------------------------ one bundle

  function Compiled(compile: R.Source -> Policy, sources: seq<R.Source>): (r: seq<Policy>)
    ensures |r| == |sources| && forall i :: 0 <= i < |r| ==> r[i] == compile(sources[i])
  {
    seq(|sources|, i requires 0 <= i < |sources| => compile(sources[i]))
  }

  /** The index and the role graph of a snapshot; none if an edge is rejected. */
  method BuildTenantTrie(compile: R.Source -> Policy, hash: string -> Hash, x: R.Snapshot)
    returns (built: bool, trie: TrieRoot, dag: RoleDag.RoleDag)
    ensures trie.Valid() && dag.Valid() && fresh(trie) && fresh(dag) && trie.hash == hash
    ensures built <==> Acyclic(Of(x.roles))
    ensures built ==> trie.added == Compiled(compile, x.sources) && dag.adj == Of(x.roles)
  {
    trie := new TrieRoot(hash);
    dag, built := RoleDag.BuildRoles(x.roles, x.roles);
    if !built { return; }
    var i := 0;
    while i < |x.sources|
      invariant 0 <= i <= |x.sources| && trie.Valid() && fresh(trie) && trie.hash == hash
      invariant dag.Valid() && dag.adj == Of(x.roles)
      invariant trie.added == Compiled(compile, x.sources[..i])
    {
      trie.AddPolicy(compile(x.sources[i]));
      assert Compiled(compile, x.sources[..i + 1]) == Compiled(compile, x.sources[..i]) + [compile(x.sources[i])];
      i := i + 1;
    }
    assert x.sources[..i] == x.sources;
  }

  lemma SameSources(x: seq<R.Source>, y: seq<R.Source>, policies: map<R.PolicyId, string>, s: R.Source)
    requires R.Enumerates(x, policies) && R.Enumerates(y, policies) && s in x
    ensures s in y
  {
    var i :| 0 <= i < |x| && x[i] == s;
    assert (s.0, policies[s.0]) in y;
  }

  lemma SameCompiled(compile: R.Source -> Policy, x: seq<R.Source>, y: seq<R.Source>, policies: map<R.PolicyId, string>,
                     p: Policy)
    requires R.Enumerates(x, policies) && R.Enumerates(y, policies) && p in Compiled(compile, x)
    ensures p in Compiled(compile, y)
  {
    var i :| 0 <= i < |x| && Compiled(compile, x)[i] == p;
    SameSources(x, y, policies, x[i]);
    var j :| 0 <= j < |y| && y[j] == x[i];
    assert Compiled(compile, y)[j] == p;
  }

  /** Two readings of one bundle give the same policies and inheritance. */
  lemma ReadingsAlike(compile: R.Source -> Policy, x: R.Snapshot, y: R.Snapshot, b: R.Bundle)
    requires R.Reads(x, b) && R.Reads(y, b) && Acyclic(Of(x.roles))
    ensures SameSet(Compiled(compile, x.sources), Compiled(compile, y.sources), Of(x.roles), Of(y.roles))
  {
    hide R.Enumerates;
    hide Acyclic;
    hide Star;
    hide Reaches;
    forall p ensures p in Compiled(compile, x.sources) <==> p in Compiled(compile, y.sources) {
      if p in Compiled(compile, x.sources) { SameCompiled(compile, x.sources, y.sources, b.policies, p); }
      if p in Compiled(compile, y.sources) { SameCompiled(compile, y.sources, x.sources, b.policies, p); }
    }
    AnyOrderBuilds(x.roles, y.roles);
    forall a, c ensures Star(Of(x.roles), a, c) <==> Star(Of(y.roles), a, c) {
      StarCases(Of(x.roles), a, c);
      StarCases(Of(y.roles), a, c);
    }
  }

  // --------------------------------------------------------------- the claim

  /** What an engine that built the snapshot answers: its decision over the
      policies and roles of the snapshot. */
  ghost predicate Answers(lib: Library, compile: R.Source -> Policy, hash: string -> Hash, x: R.Snapshot, rq: Request,
                          action: string, r: DecisionResult) {
    && (forall a, b :: rq.descends(a, b) <==> Star(Of(x.roles), a, b))
    && Decides(lib, hash, Compiled(compile, x.sources), Of(x.roles), rq, action, r)
  }

  /** An engine answers from what it built. */
  method Serve(lib: Library, compile: R.Source -> Policy, hash: string -> Hash, x: R.Snapshot, subject: string,
               action: string, resource: string, attributes: map<string, string>)
    returns (r: DecisionResult, ghost rq: Request)
    requires Acyclic(Of(x.roles))
    ensures rq.subject == subject && rq.resource == resource && rq.attributes == attributes
    ensures Answers(lib, compile, hash, x, rq, action, r)
  {
    hide Decides;
    hide Star;
    hide Acyclic;
    var built, trie, dag := BuildTenantTrie(compile, hash, x);
    rq := RequestFor(dag, subject, resource, attributes);
    RequestSeesRoles(dag, subject, resource, attributes);
    r := EvaluatePermission(lib, trie, dag, subject, action, resource, attributes);
  }

  /** In every run, engines that have loaded one revision of a tenant give the
      same verdict for the same reason to every request, whenever each of them
      loaded it and in whatever order its rows came. */
  lemma SameRevisionSameDecision(compiles: seq<R.Source> -> bool, compile: R.Source -> Policy, lib: Library,
                                 hash: string -> Hash, states: seq<R.State>, steps: seq<R.Step>, i: nat, d: R.EngineId,
                                 j: nat, e: R.EngineId, t: R.Tenant, rq: Request, rq': Request, action: string,
                                 r: DecisionResult, r': DecisionResult)
    requires R.IsRun(compiles, states, steps) && i <= j < |states|
    requires t in R.Loaded(states[i], d) && t in R.Loaded(states[j], e)
    requires R.Loaded(states[i], d)[t].revision == R.Loaded(states[j], e)[t].revision
    requires rq.subject == rq'.subject && rq.resource == rq'.resource && rq.attributes == rq'.attributes
    requires Answers(lib, compile, hash, R.Loaded(states[i], d)[t], rq, action, r)
    requires Answers(lib, compile, hash, R.Loaded(states[j], e)[t], rq', action, r')
    ensures r.verdict == r'.verdict && r.reason == r'.reason
  {
    hide R.IsRun;
    hide R.Reads;
    hide Decides;
    hide Star;
    hide Acyclic;
    var x, y := R.Loaded(states[i], d)[t], R.Loaded(states[j], e)[t];
    var b := R.SameRevisionSameBundle(compiles, states, steps, i, d, j, e, t);
    ReadingsAlike(compile, x, y, b);
    assert Alike(rq, rq');
    DecidesAlike(lib, hash, Compiled(compile, x.sources), Compiled(compile, y.sources), Of(x.roles), Of(y.roles), rq, rq',
                 action, r, r');
  }
}
