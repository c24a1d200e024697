/** The permission decision over the whole engine: role closure, index, scratch
    evaluator and the forbid-overrides loop, against the policies themselves. */
module Decision {
  import opened Basics
  import opened Expr
  import opened RoleGraph
  import opened PolicyTrie
  import RoleDag
  import ScratchEvaluator

  datatype Verdict = Allow | Deny

  datatype Reason = NoMatch | ForbidRule | PermitRule | DefaultDeny

  datatype DecisionResult = DecisionResult(verdict: Verdict, reason: Reason, explanation: Option<Policy>)

  function NormalizeAction(action: string): string {
    if "action:" <= action then action else "action:" + action
  }

  /** A condition that fails or is not a boolean satisfies neither when nor unless. */
  predicate Satisfied(lib: Library, rq: Request, p: Policy) {
    var o := if p.condition.Some? then Eval(lib, rq, p.condition.value) else TRUE;
    o.Yields? && o.value.Bool? && o.value.flag != p.unless
  }

  /** The policy speaks about this request: its principal is the subject or a
      role the subject inherits, and its resource and action are the request's,
      each unless left open. */
  ghost predicate InScope(g: Graph, subject: string, action: string, resource: string, p: Policy) {
    || Global(p)
    || (&& (Wildcard(p.principal) || Star(g, subject, Key(p.principal)))
        && (Wildcard(p.resource) || Key(p.resource) == resource)
        && (Wildcard(p.action) || Key(p.action) == NormalizeAction(action)))
  }

  /** What a role comparison in a condition sees of the role graph. */
  function RequestFor(dag: RoleDag.RoleDag, subject: string, resource: string, attributes: map<string, string>): Request
    reads dag
  {
    var closure := dag.closure;
    Request(subject, resource, attributes, (a, b) => a == b || (a in closure && b in closure[a]))
  }

  lemma RequestSeesRoles(dag: RoleDag.RoleDag, subject: string, resource: string, attributes: map<string, string>)
    requires dag.Valid()
    ensures forall a, b :: RequestFor(dag, subject, resource, attributes).descends(a, b) <==> Star(dag.adj, a, b)
  {
    forall a, b ensures RequestFor(dag, subject, resource, attributes).descends(a, b) <==> Star(dag.adj, a, b) {
      StarCases(dag.adj, a, b);
    }
  }

  /** The policies, of those added, that are looked at for a request. */
  ghost predicate Consulted(hash: string -> Hash, added: seq<Policy>, g: Graph, subject: string, action: string,
                            resource: string, p: Policy) {
    && p in added
    && InScope(g, subject, action, resource, p)
    && !Skipped(hash, p, NormalizeAction(action))
  }

  /** Some consulted policy of the effect holds. */
  ghost predicate Finds(lib: Library, hash: string -> Hash, added: seq<Policy>, g: Graph, rq: Request, action: string,
                        effect: Effect) {
    exists p :: Consulted(hash, added, g, rq.subject, action, rq.resource, p) && p.effect == effect && Satisfied(lib, rq, p)
  }

  /** Forbid overrides: allowed exactly when some consulted permit holds and no
      consulted forbid does; the explanation is such a policy. */
  ghost predicate Decides(lib: Library, hash: string -> Hash, added: seq<Policy>, g: Graph, rq: Request, action: string,
                          r: DecisionResult) {
    && (r.verdict.Allow? <==> Finds(lib, hash, added, g, rq, action, Permit) && !Finds(lib, hash, added, g, rq, action, Forbid))
    && (r.verdict.Allow? ==> r.explanation.Some?)
    && (r.explanation.Some? ==>
          && Consulted(hash, added, g, rq.subject, action, rq.resource, r.explanation.value)
          && Satisfied(lib, rq, r.explanation.value)
          && (r.explanation.value.effect.Permit? <==> r.verdict.Allow?))
    && (r.reason.NoMatch? <==> forall p :: !Consulted(hash, added, g, rq.subject, action, rq.resource, p))
    && (r.reason.ForbidRule? <==> Finds(lib, hash, added, g, rq, action, Forbid))
    && (r.reason.PermitRule? <==> r.verdict.Allow?)
  }

  lemma ScopeIsMatch(dag: RoleDag.RoleDag, roles: seq<string>, subject: string, action: string, resource: string, p: Policy)
    requires RoleDag.ListsInherited(dag.adj, subject, roles)
    ensures Matches(p, roles, [resource], NormalizeAction(action)) <==> InScope(dag.adj, subject, action, resource, p)
  {
  }

  lemma LookedUp(trie: TrieRoot, dag: RoleDag.RoleDag, roles: seq<string>, subject: string, action: string,
                 resource: string, p: Policy)
    requires trie.Valid() && RoleDag.ListsInherited(dag.adj, subject, roles)
    ensures p in trie.Returned([], roles, [resource], NormalizeAction(action))
      <==> Consulted(trie.hash, trie.added, dag.adj, subject, action, resource, p)
  {
    var act := NormalizeAction(action);
    var found := trie.Returned([], roles, [resource], act);
    trie.IndexEqualsScan(roles, [resource], act);
    FilteredCount(trie.hash, trie.added, roles, [resource], act, p);
    ScopeIsMatch(dag, roles, subject, action, resource, p);
    assert p in found <==> p in multiset(found);
    assert p in trie.added <==> p in multiset(trie.added);
  }

  /** Whether one matched policy holds; each evaluation reuses the scratch slots. */
  method Holds(ctx: ScratchEvaluator.EvalContext, p: Policy) returns (yes: bool)
    requires ctx.Valid()
    modifies ctx`count, ctx.nodes, ctx.buffers
    ensures ctx.Valid()
    ensures yes <==> Satisfied(ctx.lib, ctx.request, p)
  {
    ctx.count := 0;
    var v: Value;
    if p.condition.Some? {
      var a := ctx.Evaluate(p.condition.value);
      if a.Failed? { return false; }
      v := ctx.Load(a.ref);
    } else {
      v := Bool(true);
    }
    yes := v.Bool? && v.flag != p.unless;
  }

  /** The forbid-overrides loop: it stops at the first forbid that holds. */
  method FirstOf(ctx: ScratchEvaluator.EvalContext, matched: seq<Policy>)
    returns (forbid: Option<Policy>, permit: Option<Policy>)
    requires ctx.Valid()
    modifies ctx`count, ctx.nodes, ctx.buffers
    ensures forbid.Some? <==> exists p :: p in matched && p.effect.Forbid? && Satisfied(ctx.lib, ctx.request, p)
    ensures forbid.Some? ==> forbid.value in matched && forbid.value.effect.Forbid?
                             && Satisfied(ctx.lib, ctx.request, forbid.value)
    ensures forbid.None? ==> (permit.Some? <==>
      exists p :: p in matched && p.effect.Permit? && Satisfied(ctx.lib, ctx.request, p))
    ensures permit.Some? ==> permit.value in matched && permit.value.effect.Permit?
                             && Satisfied(ctx.lib, ctx.request, permit.value)
  {
    forbid, permit := None, None;
    var i := 0;
    while i < |matched|
      invariant 0 <= i <= |matched| && ctx.Valid() && forbid.None?
      invariant forall k :: 0 <= k < i && matched[k].effect.Forbid? ==> !Satisfied(ctx.lib, ctx.request, matched[k])
      invariant permit.None? ==>
        forall k :: 0 <= k < i && matched[k].effect.Permit? ==> !Satisfied(ctx.lib, ctx.request, matched[k])
      invariant permit.Some? ==> permit.value in matched && permit.value.effect.Permit?
                                 && Satisfied(ctx.lib, ctx.request, permit.value)
    {
      var p := matched[i];
      var yes := Holds(ctx, p);
      if yes {
        if p.effect.Forbid? {
          forbid := Some(p);
          return;
        } else if permit.None? {
          permit := Some(p);
        }
      }
      i := i + 1;
    }
  }

  /** What the loop finds among the consulted policies decides. */
  lemma LoopDecides(lib: Library, hash: string -> Hash, added: seq<Policy>, g: Graph, rq: Request, action: string,
                    matched: seq<Policy>, forbid: Option<Policy>, permit: Option<Policy>) returns (r: DecisionResult)
    requires forall p :: p in matched <==> Consulted(hash, added, g, rq.subject, action, rq.resource, p)
    requires matched != []
    requires forbid.Some? <==> exists p :: p in matched && p.effect.Forbid? && Satisfied(lib, rq, p)
    requires forbid.Some? ==> forbid.value in matched && forbid.value.effect.Forbid? && Satisfied(lib, rq, forbid.value)
    requires forbid.None? ==> (permit.Some? <==> exists p :: p in matched && p.effect.Permit? && Satisfied(lib, rq, p))
    requires permit.Some? ==> permit.value in matched && permit.value.effect.Permit? && Satisfied(lib, rq, permit.value)
    ensures r == Outcome(forbid, permit) && Decides(lib, hash, added, g, rq, action, r)
  {
    hide Satisfied;
    hide Consulted;
    r := Outcome(forbid, permit);
    assert matched[0] in matched;
  }

  function Outcome(forbid: Option<Policy>, permit: Option<Policy>): DecisionResult {
    if forbid.Some? then DecisionResult(Deny, ForbidRule, forbid)
    else if permit.Some? then DecisionResult(Allow, PermitRule, permit)
    else DecisionResult(Deny, DefaultDeny, None)
  }

  lemma NothingDecides(lib: Library, hash: string -> Hash, added: seq<Policy>, g: Graph, rq: Request, action: string)
    requires forall p :: !Consulted(hash, added, g, rq.subject, action, rq.resource, p)
    ensures Decides(lib, hash, added, g, rq, action, DecisionResult(Deny, NoMatch, None))
  {
    hide Satisfied;
    hide Consulted;
  }

  /** The decision over the policies added to the index and the roles in the
      graph, whatever order either came in. */
  method EvaluatePermission(lib: Library, trie: TrieRoot, dag: RoleDag.RoleDag, subject: string, action: string,
                            resource: string, attributes: map<string, string>) returns (r: DecisionResult)
    requires trie.Valid() && dag.Valid()
    ensures Decides(lib, trie.hash, trie.added, dag.adj, RequestFor(dag, subject, resource, attributes), action, r)
  {
    hide Satisfied;
    hide Consulted;
    hide Decides;
    var roles := dag.GetInheritedRoles(subject);
    var matched := trie.LookupPoliciesInto([], roles, [resource], NormalizeAction(action));
    var rq := RequestFor(dag, subject, resource, attributes);
    forall p ensures p in matched <==> Consulted(trie.hash, trie.added, dag.adj, subject, action, resource, p) {
      LookedUp(trie, dag, roles, subject, action, resource, p);
    }
    if |matched| == 0 {
      NothingDecides(lib, trie.hash, trie.added, dag.adj, rq, action);
      return DecisionResult(Deny, NoMatch, None);
    }
    var ctx := new ScratchEvaluator.EvalContext(lib, rq);
    var forbid, permit := FirstOf(ctx, matched);
    ghost var decided := LoopDecides(lib, trie.hash, trie.added, dag.adj, rq, action, matched, forbid, permit);
    r := Outcome(forbid, permit);
  }

  /** When the action does not hash like "any", every policy in scope is consulted. */
  lemma NothingInScopeSkipped(hash: string -> Hash, added: seq<Policy>, g: Graph, subject: string, action: string,
                              resource: string, p: Policy)
    requires hash(NormalizeAction(action)) != hash(ANY)
    ensures Consulted(hash, added, g, subject, action, resource, p) <==> p in added && InScope(g, subject, action, resource, p)
  {
  }

  /** A scope clause that is left open. */
  predicate LeftOpen(scope: Option<ScopeNode>) {
    scope == None || scope.value.op == ScopeOp.Any
  }

  /** A scope clause that names this text: type, colon and id. */
  predicate Spells(scope: Option<ScopeNode>, text: string) {
    scope != None && scope.value.op != ScopeOp.Any && text == scope.value.entityType + ":" + scope.value.entityId
  }

  /** Which policies speak about a request, by what their clauses spell: the
      principal the subject or a role it inherits, the resource the requested one,
      the action the requested one with or without its prefix. A policy open in
      principal and resource speaks about every request. */
  lemma ScopeAsText(g: Graph, subject: string, action: string, resource: string, p: Policy)
    ensures InScope(g, subject, action, resource, p) <==>
            || (LeftOpen(p.principal) && LeftOpen(p.resource))
            || (&& (LeftOpen(p.principal) || exists role :: Spells(p.principal, role) && Star(g, subject, role))
                && (LeftOpen(p.resource) || Spells(p.resource, resource))
                && (LeftOpen(p.action) || Spells(p.action, if "action:" <= action then action else "action:" + action)))
  {
    hide Star;
    if !LeftOpen(p.principal) {
      assert Spells(p.principal, Key(p.principal));
    }
  }
}
