/** The policy index: three levels of hash buckets, proved against a linear scan
    for any hash function. */
module PolicyTrie {
  import opened Basics
  import opened Expr

  datatype ScopeOp = Equals | Within | Any

  datatype ScopeNode = ScopeNode(op: ScopeOp, entityType: string, entityId: string)

  datatype Effect = Permit | Forbid

  datatype Policy = Policy(
    id: string,
    effect: Effect,
    principal: Option<ScopeNode>,
    action: Option<ScopeNode>,
    resource: Option<ScopeNode>,
    condition: Option<Expr>,
    unless: bool)

  const ANY: string := "any"

  predicate Wildcard(scope: Option<ScopeNode>) {
    scope.None? || scope.value.op.Any?
  }

  /** The key under which a scope clause is indexed. */
  function Key(scope: Option<ScopeNode>): (key: string)
    ensures key == ANY <==> Wildcard(scope)
  {
    if Wildcard(scope) then ANY
    else
      var key := scope.value.entityType + ":" + scope.value.entityId;
      assert key[|scope.value.entityType|] == ':';
      assert ':' !in ANY;
      key
  }

  predicate Global(p: Policy) {
    Wildcard(p.principal) && Wildcard(p.resource)
  }

  datatype Place = Place(subject: string, resource: string, action: string)

  function PlaceOf(p: Policy): Place {
    Place(Key(p.principal), Key(p.resource), Key(p.action))
  }

  // -------------------------------------------------------- one bucket level

  type Hash = int

  /** A node keeps its own key, so colliding keys stay apart in a bucket. */
  datatype Node<V> = Node(key: string, value: V)

  type Table<V> = map<Hash, seq<Node<V>>>

  function Bucket<V>(t: Table<V>, h: Hash): seq<Node<V>> {
    if h in t then t[h] else []
  }

  function FindIn<V>(nodes: seq<Node<V>>, key: string): Option<V> {
    if nodes == [] then None
    else if nodes[0].key == key then Some(nodes[0].value)
    else FindIn(nodes[1..], key)
  }

  function Find<V>(hash: string -> Hash, t: Table<V>, key: string): Option<V> {
    FindIn(Bucket(t, hash(key)), key)
  }

  function PutIn<V>(nodes: seq<Node<V>>, key: string, value: V): seq<Node<V>> {
    if nodes == [] then [Node(key, value)]
    else if nodes[0].key == key then [Node(key, value)] + nodes[1..]
    else [nodes[0]] + PutIn(nodes[1..], key, value)
  }

  function Put<V>(hash: string -> Hash, t: Table<V>, key: string, value: V): Table<V> {
    t[hash(key) := PutIn(Bucket(t, hash(key)), key, value)]
  }

  lemma {:induction false} FindInPut<V>(nodes: seq<Node<V>>, key: string, value: V, k: string)
    ensures FindIn(PutIn(nodes, key, value), k) == if k == key then Some(value) else FindIn(nodes, k)
  {
    if nodes != [] && nodes[0].key != key {
      FindInPut(nodes[1..], key, value, k);
      assert PutIn(nodes, key, value)[1..] == PutIn(nodes[1..], key, value);
    } else if nodes != [] {
      assert PutIn(nodes, key, value)[1..] == nodes[1..];
    }
  }

  lemma FindPut<V>(hash: string -> Hash, t: Table<V>, key: string, value: V, k: string)
    ensures Find(hash, Put(hash, t, key, value), k) == if k == key then Some(value) else Find(hash, t, k)
  {
    FindInPut(Bucket(t, hash(key)), key, value, k);
  }

  method FindNode<V>(nodes: seq<Node<V>>, key: string) returns (r: Option<V>)
    ensures r == FindIn(nodes, key)
  {
    var i := 0;
    while i < |nodes|
      invariant 0 <= i <= |nodes|
      invariant FindIn(nodes, key) == FindIn(nodes[i..], key)
    {
      if nodes[i].key == key { return Some(nodes[i].value); }
      assert nodes[i..][1..] == nodes[i + 1..];
      i := i + 1;
    }
    r := None;
  }

  // ------------------------------------------------------------ three levels

  type Actions = Table<seq<Policy>>
  type Resources = Table<Actions>
  type Subjects = Table<Resources>

  function OrEmpty<V>(found: Option<Table<V>>): Table<V> {
    if found.Some? then found.value else map[]
  }

  function InActions(hash: string -> Hash, actions: Actions, a: string): seq<Policy> {
    var found := Find(hash, actions, a);
    if found.Some? then found.value else []
  }

  /** The policies stored at a place. */
  function Leaf(hash: string -> Hash, subjects: Subjects, at: Place): seq<Policy> {
    var resources := OrEmpty(Find(hash, subjects, at.subject));
    var actions := OrEmpty(Find(hash, resources, at.resource));
    InActions(hash, actions, at.action)
  }

  function AddAt(hash: string -> Hash, subjects: Subjects, at: Place, p: Policy): Subjects {
    var resources := OrEmpty(Find(hash, subjects, at.subject));
    var actions := OrEmpty(Find(hash, resources, at.resource));
    var actions' := Put(hash, actions, at.action, InActions(hash, actions, at.action) + [p]);
    Put(hash, subjects, at.subject, Put(hash, resources, at.resource, actions'))
  }

  lemma LeafAfterAdd(hash: string -> Hash, subjects: Subjects, at: Place, p: Policy, other: Place)
    ensures Leaf(hash, AddAt(hash, subjects, at, p), other)
         == Leaf(hash, subjects, other) + if other == at then [p] else []
  {
    var resources := OrEmpty(Find(hash, subjects, at.subject));
    var actions := OrEmpty(Find(hash, resources, at.resource));
    var leaf := InActions(hash, actions, at.action) + [p];
    var actions' := Put(hash, actions, at.action, leaf);
    FindPut(hash, subjects, at.subject, Put(hash, resources, at.resource, actions'), other.subject);
    FindPut(hash, resources, at.resource, actions', other.resource);
    FindPut(hash, actions, at.action, leaf, other.action);
  }

  // ------------------------------------------------------------ linear scan

  /** The policies among added that belong at one place. */
  function Under(added: seq<Policy>, at: Place): seq<Policy> {
    if added == [] then []
    else
      var p := added[|added| - 1];
      Under(added[..|added| - 1], at) + if !Global(p) && PlaceOf(p) == at then [p] else []
  }

  function Globals(added: seq<Policy>): seq<Policy> {
    if added == [] then []
    else
      var p := added[|added| - 1];
      Globals(added[..|added| - 1]) + if Global(p) then [p] else []
  }

  lemma {:induction false} UnderCount(added: seq<Policy>, at: Place, p: Policy)
    ensures multiset(Under(added, at))[p] == if !Global(p) && PlaceOf(p) == at then multiset(added)[p] else 0
    decreases |added|
  {
    if added != [] {
      UnderCount(added[..|added| - 1], at, p);
      assert added == added[..|added| - 1] + [added[|added| - 1]];
    }
  }

  lemma {:induction false} GlobalsCount(added: seq<Policy>, p: Policy)
    ensures multiset(Globals(added))[p] == if Global(p) then multiset(added)[p] else 0
    decreases |added|
  {
    if added != [] {
      GlobalsCount(added[..|added| - 1], p);
      assert added == added[..|added| - 1] + [added[|added| - 1]];
    }
  }

  // ------------------------------------------------------------------ lookup

  ghost predicate Indexes(hash: string -> Hash, subjects: Subjects, added: seq<Policy>) {
    forall at :: Leaf(hash, subjects, at) == Under(added, at)
  }

  /** The actions looked up: "any" is skipped when it hashes like the action. */
  predicate Tried(hash: string -> Hash, action: string, a: string) {
    a == action || (a == ANY && hash(action) != hash(ANY))
  }

  /** The buffer after lookup has visited one resource, one subject, all subjects. */
  function AfterResource(hash: string -> Hash, added: seq<Policy>, buf: seq<Policy>, s: string, r: string,
                         action: string): seq<Policy>
  {
    var first := buf + Under(added, Place(s, r, action));
    if hash(action) == hash(ANY) then first else first + Under(added, Place(s, r, ANY))
  }

  function AfterSubject(hash: string -> Hash, added: seq<Policy>, buf: seq<Policy>, s: string,
                        resources: seq<string>, action: string): seq<Policy>
  {
    if resources == [] then buf
    else
      var before := AfterSubject(hash, added, buf, s, resources[..|resources| - 1], action);
      AfterResource(hash, added, before, s, resources[|resources| - 1], action)
  }

  function AfterSubjects(hash: string -> Hash, added: seq<Policy>, buf: seq<Policy>, names: seq<string>,
                         resources: seq<string>, action: string): seq<Policy>
  {
    if names == [] then buf
    else
      var before := AfterSubjects(hash, added, buf, names[..|names| - 1], resources, action);
      AfterSubject(hash, added, before, names[|names| - 1], resources, action)
  }

  lemma AfterResourceCount(hash: string -> Hash, added: seq<Policy>, buf: seq<Policy>, s: string, r: string,
                           action: string, p: Policy)
    ensures multiset(AfterResource(hash, added, buf, s, r, action))[p] == multiset(buf)[p]
      + if !Global(p) && PlaceOf(p).subject == s && PlaceOf(p).resource == r && Tried(hash, action, PlaceOf(p).action)
        then multiset(added)[p] else 0
  {
    var first := buf + Under(added, Place(s, r, action));
    UnderCount(added, Place(s, r, action), p);
    assert multiset(first)[p] == multiset(buf)[p] + multiset(Under(added, Place(s, r, action)))[p];
    if hash(action) != hash(ANY) {
      UnderCount(added, Place(s, r, ANY), p);
      assert action != ANY;
    }
  }

  lemma {:induction false} AfterSubjectCount(hash: string -> Hash, added: seq<Policy>, buf: seq<Policy>, s: string,
                                             resources: seq<string>, action: string, p: Policy)
    requires Distinct(resources)
    ensures multiset(AfterSubject(hash, added, buf, s, resources, action))[p] == multiset(buf)[p]
      + if !Global(p) && PlaceOf(p).subject == s && PlaceOf(p).resource in resources
           && Tried(hash, action, PlaceOf(p).action)
        then multiset(added)[p] else 0
    decreases |resources|
  {
    if resources != [] {
      var n := |resources| - 1;
      AfterSubjectCount(hash, added, buf, s, resources[..n], action, p);
      var before := AfterSubject(hash, added, buf, s, resources[..n], action);
      AfterResourceCount(hash, added, before, s, resources[n], action, p);
      assert resources == resources[..n] + [resources[n]];
    }
  }

  lemma {:induction false} AfterSubjectsCount(hash: string -> Hash, added: seq<Policy>, buf: seq<Policy>,
                                              names: seq<string>, resources: seq<string>, action: string, p: Policy)
    requires Distinct(names) && Distinct(resources)
    ensures multiset(AfterSubjects(hash, added, buf, names, resources, action))[p] == multiset(buf)[p]
      + if !Global(p) && PlaceOf(p).subject in names && PlaceOf(p).resource in resources
           && Tried(hash, action, PlaceOf(p).action)
        then multiset(added)[p] else 0
    decreases |names|
  {
    if names != [] {
      var n := |names| - 1;
      AfterSubjectsCount(hash, added, buf, names[..n], resources, action, p);
      var before := AfterSubjects(hash, added, buf, names[..n], resources, action);
      AfterSubjectCount(hash, added, before, names[n], resources, action, p);
      assert names == names[..n] + [names[n]];
    }
  }

  function WithAny(list: seq<string>): seq<string> {
    if ANY in list then list else list + [ANY]
  }

  const SCRATCH: nat := 32

  /** The list with "any", in the scratch buffer when it fits. */
  method EnsureAnyInto(list: seq<string>, scratch: array<string>) returns (r: seq<string>)
    requires scratch.Length == SCRATCH
    modifies scratch
    ensures r == WithAny(list)
  {
    var i := 0;
    while i < |list|
      invariant 0 <= i <= |list|
      invariant ANY !in list[..i]
    {
      if list[i] == ANY { return list; }
      i := i + 1;
    }
    var n := if |list| < SCRATCH then |list| else SCRATCH;
    var j := 0;
    while j < n
      invariant 0 <= j <= n
      invariant scratch[..j] == list[..j]
    {
      scratch[j] := list[j];
      j := j + 1;
    }
    if n < SCRATCH {
      scratch[n] := ANY;
      assert scratch[..n + 1] == list + [ANY];
      return scratch[..n + 1];
    }
    r := list + [ANY];
  }

  /** Where a request's policies are expected: each level by key or by "any". */
  predicate Matches(p: Policy, subjects: seq<string>, resources: seq<string>, action: string) {
    || Global(p)
    || (&& (Key(p.principal) in subjects || Wildcard(p.principal))
        && (Key(p.resource) in resources || Wildcard(p.resource))
        && (Key(p.action) == action || Wildcard(p.action)))
  }

  /** A policy for any action that lookup skips: the action only hashes like "any". */
  predicate Skipped(hash: string -> Hash, p: Policy, action: string) {
    hash(action) == hash(ANY) && action != ANY && Wildcard(p.action) && !Global(p)
  }

  class TrieRoot {
    const hash: string -> Hash
    var globals: seq<Policy>
    var subjects: Subjects
    ghost var added: seq<Policy>

    ghost predicate Valid()
      reads this
    {
      globals == Globals(added) && Indexes(hash, subjects, added)
    }

    constructor (hash: string -> Hash)
      ensures Valid() && added == [] && this.hash == hash
    {
      this.hash := hash;
      globals, subjects, added := [], map[], [];
    }

    method AddPolicy(p: Policy)
      requires Valid()
      modifies this
      ensures Valid() && added == old(added) + [p]
    {
      hide FindIn;
      hide PutIn;
      added := added + [p];
      assert added[..|added| - 1] == old(added);
      if Global(p) {
        globals := globals + [p];
        return;
      }
      var at := PlaceOf(p);
      var resources := FindNode(Bucket(subjects, hash(at.subject)), at.subject);
      var actions := FindNode(Bucket(OrEmpty(resources), hash(at.resource)), at.resource);
      var leaf := FindNode(Bucket(OrEmpty(actions), hash(at.action)), at.action);
      var actions' := Put(hash, OrEmpty(actions), at.action, (if leaf.Some? then leaf.value else []) + [p]);
      var resources' := Put(hash, OrEmpty(resources), at.resource, actions');
      subjects := Put(hash, subjects, at.subject, resources');
      assert subjects == AddAt(hash, old(subjects), at, p);
      forall other ensures Leaf(hash, subjects, other) == Under(added, other) {
        LeafAfterAdd(hash, old(subjects), at, p, other);
      }
      hide Leaf;
      hide AddAt;
    }

    lemma NothingBelow(buf: seq<Policy>, s: string, resources: seq<string>, action: string)
      requires Valid() && Find(hash, subjects, s).None?
      ensures AfterSubject(hash, added, buf, s, resources, action) == buf
      decreases |resources|
    {
      if resources != [] {
        var n := |resources| - 1;
        NothingBelow(buf, s, resources[..n], action);
        assert Leaf(hash, subjects, Place(s, resources[n], action)) == [];
        assert Leaf(hash, subjects, Place(s, resources[n], ANY)) == [];
      }
    }

    lemma NothingAt(buf: seq<Policy>, s: string, r: string, action: string)
      requires Valid() && Find(hash, subjects, s).Some? && Find(hash, Find(hash, subjects, s).value, r).None?
      ensures AfterResource(hash, added, buf, s, r, action) == buf
    {
      assert Leaf(hash, subjects, Place(s, r, action)) == [];
      assert Leaf(hash, subjects, Place(s, r, ANY)) == [];
    }

    /** The policies of one subject and resource. */
    method LookupActions(buf: seq<Policy>, actions: Actions, action: string, ghost s: string, ghost r: string)
      returns (out: seq<Policy>)
      requires Valid() && Find(hash, subjects, s).Some?
      requires Find(hash, Find(hash, subjects, s).value, r) == Some(actions)
      ensures out == AfterResource(hash, added, buf, s, r, action)
    {
      out := buf;
      var tried := [action, ANY];
      var i := 0;
      assert Leaf(hash, subjects, Place(s, r, action)) == Under(added, Place(s, r, action));
      assert Leaf(hash, subjects, Place(s, r, ANY)) == Under(added, Place(s, r, ANY));
      while i < 2
        invariant 0 <= i <= 2
        invariant i == 0 ==> out == buf
        invariant i == 1 ==> out == buf + Under(added, Place(s, r, action))
        invariant i == 2 ==> out == AfterResource(hash, added, buf, s, r, action)
      {
        if !(i == 1 && hash(action) == hash(ANY)) {
          var found := FindNode(Bucket(actions, hash(tried[i])), tried[i]);
          if found.Some? {
            out := out + found.value;
          }
        }
        i := i + 1;
      }
    }

    method LookupResources(buf: seq<Policy>, below: Resources, resources: seq<string>, action: string, ghost s: string)
      returns (out: seq<Policy>)
      requires Valid() && Find(hash, subjects, s) == Some(below)
      ensures out == AfterSubject(hash, added, buf, s, resources, action)
    {
      out := buf;
      var i := 0;
      while i < |resources|
        invariant 0 <= i <= |resources|
        invariant out == AfterSubject(hash, added, buf, s, resources[..i], action)
      {
        var r := resources[i];
        assert resources[..i + 1][..i] == resources[..i];
        var actions := FindNode(Bucket(below, hash(r)), r);
        if actions.Some? {
          out := LookupActions(out, actions.value, action, s, r);
        } else {
          NothingAt(out, s, r, action);
        }
        i := i + 1;
      }
      assert resources[..i] == resources;
    }

    method LookupPoliciesInto(buf: seq<Policy>, names: seq<string>, resources: seq<string>, action: string)
      returns (out: seq<Policy>)
      requires Valid()
      ensures out == Returned(buf, names, resources, action)
    {
      out := buf + globals;
      var subScratch := new string[SCRATCH];
      var resScratch := new string[SCRATCH];
      var subjectsWithAny := EnsureAnyInto(names, subScratch);
      var resourcesWithAny := EnsureAnyInto(resources, resScratch);
      var i := 0;
      while i < |subjectsWithAny|
        invariant 0 <= i <= |subjectsWithAny|
        invariant out == AfterSubjects(hash, added, buf + globals, subjectsWithAny[..i], resourcesWithAny, action)
      {
        var s := subjectsWithAny[i];
        assert subjectsWithAny[..i + 1][..i] == subjectsWithAny[..i];
        var below := FindNode(Bucket(subjects, hash(s)), s);
        if below.Some? {
          out := LookupResources(out, below.value, resourcesWithAny, action, s);
        } else {
          NothingBelow(out, s, resourcesWithAny, action);
        }
        i := i + 1;
      }
      assert subjectsWithAny[..i] == subjectsWithAny;
    }

    /** The buffer after a lookup. */
    ghost function Returned(buf: seq<Policy>, names: seq<string>, resources: seq<string>, action: string): seq<Policy>
      reads this
    {
      AfterSubjects(hash, added, buf + globals, WithAny(names), WithAny(resources), action)
    }

    /** For distinct names the index returns what one pass over everything
        added returns, each policy as often as it was added. */
    lemma IndexEqualsScan(names: seq<string>, resources: seq<string>, action: string)
      requires Valid() && Distinct(names) && Distinct(resources)
      ensures multiset(Returned([], names, resources, action))
           == multiset(Filtered(hash, added, names, resources, action))
    {
      var out := Returned([], names, resources, action);
      assert [] + globals == globals;
      forall p ensures multiset(out)[p] == multiset(Filtered(hash, added, names, resources, action))[p] {
        SameCount(hash, added, names, resources, action, p);
      }
    }

    /** Index equals scan, for every hash function, exactly when nothing in
        scope is skipped. */
    lemma IndexExact(names: seq<string>, resources: seq<string>, action: string)
      requires Valid() && Distinct(names) && Distinct(resources)
      ensures multiset(Returned([], names, resources, action))
                == multiset(Matching(added, names, resources, action))
        <==> forall p :: p in added && Matches(p, names, resources, action) ==> !Skipped(hash, p, action)
    {
      IndexEqualsScan(names, resources, action);
      MissesNothing(hash, added, names, resources, action);
    }
  }

  /** One pass over everything added, less what the hash makes lookup skip. */
  function Filtered(hash: string -> Hash, added: seq<Policy>, names: seq<string>, resources: seq<string>,
                    action: string): seq<Policy>
  {
    if added == [] then []
    else
      var p := added[|added| - 1];
      Filtered(hash, added[..|added| - 1], names, resources, action)
      + if Matches(p, names, resources, action) && !Skipped(hash, p, action) then [p] else []
  }

  lemma CountOneMore(s: seq<Policy>, q: Policy, p: Policy)
    ensures multiset(s + [q])[p] == multiset(s)[p] + if p == q then 1 else 0
  {
  }

  lemma {:induction false} FilteredCount(hash: string -> Hash, added: seq<Policy>, names: seq<string>,
                                         resources: seq<string>, action: string, p: Policy)
    ensures multiset(Filtered(hash, added, names, resources, action))[p]
      == if Matches(p, names, resources, action) && !Skipped(hash, p, action) then multiset(added)[p] else 0
    decreases |added|
  {
    hide Matches;
    hide Skipped;
    if added != [] {
      var q, front := added[|added| - 1], added[..|added| - 1];
      FilteredCount(hash, front, names, resources, action, p);
      assert added == front + [q];
      CountOneMore(front, q, p);
      CountOneMore(Filtered(hash, front, names, resources, action), q, p);
      assert Filtered(hash, front, names, resources, action) + [] == Filtered(hash, front, names, resources, action);
    }
  }

  lemma VisitedMatches(hash: string -> Hash, names: seq<string>, resources: seq<string>, action: string, p: Policy)
    ensures Matches(p, names, resources, action) && !Skipped(hash, p, action)
      <==> || Global(p)
           || (&& PlaceOf(p).subject in WithAny(names) && PlaceOf(p).resource in WithAny(resources)
               && Tried(hash, action, PlaceOf(p).action))
  {
  }

  lemma SameCount(hash: string -> Hash, added: seq<Policy>, names: seq<string>, resources: seq<string>,
                  action: string, p: Policy)
    requires Distinct(names) && Distinct(resources)
    ensures multiset(AfterSubjects(hash, added, Globals(added), WithAny(names), WithAny(resources), action))[p]
         == multiset(Filtered(hash, added, names, resources, action))[p]
  {
    AfterSubjectsCount(hash, added, Globals(added), WithAny(names), WithAny(resources), action, p);
    GlobalsCount(added, p);
    FilteredCount(hash, added, names, resources, action, p);
    VisitedMatches(hash, names, resources, action, p);
  }

  /** The plain reference: everything in scope, whatever the hash. */
  function Matching(added: seq<Policy>, names: seq<string>, resources: seq<string>, action: string): seq<Policy> {
    if added == [] then []
    else
      var p := added[|added| - 1];
      Matching(added[..|added| - 1], names, resources, action)
      + if Matches(p, names, resources, action) then [p] else []
  }

  lemma {:induction false} MatchingCount(added: seq<Policy>, names: seq<string>, resources: seq<string>,
                                         action: string, p: Policy)
    ensures multiset(Matching(added, names, resources, action))[p]
      == if Matches(p, names, resources, action) then multiset(added)[p] else 0
    decreases |added|
  {
    hide Matches;
    if added != [] {
      var q, front := added[|added| - 1], added[..|added| - 1];
      MatchingCount(front, names, resources, action, p);
      assert added == front + [q];
      CountOneMore(front, q, p);
      CountOneMore(Matching(front, names, resources, action), q, p);
      assert Matching(front, names, resources, action) + [] == Matching(front, names, resources, action);
    }
  }

  /** The index misses nothing exactly when no policy in scope is for any action
      while the requested action only hashes like "any". */
  lemma MissesNothing(hash: string -> Hash, added: seq<Policy>, names: seq<string>, resources: seq<string>,
                      action: string)
    ensures multiset(Filtered(hash, added, names, resources, action))
              == multiset(Matching(added, names, resources, action))
      <==> forall p :: p in added && Matches(p, names, resources, action) ==> !Skipped(hash, p, action)
  {
    var indexed := multiset(Filtered(hash, added, names, resources, action));
    var scanned := multiset(Matching(added, names, resources, action));
    forall p ensures p in added <==> p in multiset(added) {}
    forall p ensures indexed[p] == scanned[p]
        <==> (p in added && Matches(p, names, resources, action) ==> !Skipped(hash, p, action))
    {
      FilteredCount(hash, added, names, resources, action, p);
      MatchingCount(added, names, resources, action, p);
    }
    if forall p :: p in added && Matches(p, names, resources, action) ==> !Skipped(hash, p, action) {
      assert indexed == scanned;
    }
  }

  /** Under every hash that takes an action for "any", a policy for any action
      in scope is missed. */
  lemma CollisionSkips(hash: string -> Hash, action: string, p: Policy)
    requires action != ANY && hash(action) == hash(ANY)
    requires !Global(p) && Wildcard(p.resource) && Wildcard(p.action)
    ensures Matching([p], [Key(p.principal)], [], action) == [p]
    ensures Filtered(hash, [p], [Key(p.principal)], [], action) == []
  {
    var none: seq<Policy> := [p][..0];
    assert Matching(none, [Key(p.principal)], [], action) == [];
    assert Filtered(hash, none, [Key(p.principal)], [], action) == [];
  }
}
