/** Snapshot replication: policy storage with tenant revisions, role graphs
    being replaced, fetches in flight, and the copy-on-write state of the engines
    they are installed into. */
module Replication {
  import opened RoleGraph
  import RoleDag

  type Tenant = string
  type PolicyId = string
  type Worker = int
  type EngineId = int

  datatype PolicyRow = PolicyRow(text: string, active: bool)

  /** A stored inheritance and the revision whose transaction inserted it. */
  datatype RoleRow = RoleRow(edge: (Role, Role), born: nat)

  datatype TenantRow = TenantRow(policies: map<PolicyId, PolicyRow>, roles: seq<RoleRow>, revision: nat)

  /** What a tenant's decisions depend on. */
  datatype Bundle = Bundle(policies: map<PolicyId, string>, roles: seq<(Role, Role)>)

  type Source = (PolicyId, string)

  /** A bundle as one fetch read it: rows come in no particular order. */
  datatype Fetched = Fetched(engine: EngineId, tenant: Tenant, requested: nat, snapshot: Snapshot)

  /** An immutable in-memory policy set; its index is built from these lists. */
  datatype Snapshot = Snapshot(sources: seq<Source>, roles: seq<(Role, Role)>, revision: nat)

  /** A role replacement that has deleted what was committed at revision `at`
      and has yet to insert its own rows. */
  datatype Replacing = Replacing(tenant: Tenant, at: nat, roles: seq<(Role, Role)>)

  /** `fenced` says whether the writers share an ERP policy fence. */
  datatype State = State(
    fenced: bool,
    db: map<Tenant, TenantRow>,
    history: map<(Tenant, nat), Bundle>,
    writers: map<Worker, Replacing>,
    fetches: map<Worker, Fetched>,
    engines: map<EngineId, map<Tenant, Snapshot>>)

  datatype Step =
    | CreateTenant(tenant: Tenant)
    | CreatePolicy(tenant: Tenant, id: PolicyId, text: string)
    | UpdatePolicy(tenant: Tenant, id: PolicyId, text: string)
    | PublishPolicy(tenant: Tenant, id: PolicyId)
    | DeletePolicy(tenant: Tenant, id: PolicyId)
    | BeginReplace(worker: Worker, tenant: Tenant, roles: seq<(Role, Role)>)
    | CommitReplace(worker: Worker)
    | AbortReplace(worker: Worker)
    | Fetch(worker: Worker, engine: EngineId, tenant: Tenant, requested: nat, sources: seq<Source>,
            roles: seq<(Role, Role)>)
    | Install(worker: Worker)
    | Abandon(worker: Worker)
    | Unload(engine: EngineId, tenant: Tenant)

  // ----------------------------------------------------------------- storage

  function Edges(rows: seq<RoleRow>): (r: seq<(Role, Role)>)
    ensures |r| == |rows| && forall i :: 0 <= i < |rows| ==> r[i] == rows[i].edge
  {
    seq(|rows|, i requires 0 <= i < |rows| => rows[i].edge)
  }

  function ActiveBundle(row: TenantRow): Bundle {
    Bundle(map id | id in row.policies && row.policies[id].active :: row.policies[id].text, Edges(row.roles))
  }

  function Bump(row: TenantRow): TenantRow {
    row.(revision := row.revision + 1)
  }

  function Updated(row: TenantRow, id: PolicyId, text: string): TenantRow
    requires id in row.policies
  {
    var row' := row.(policies := row.policies[id := PolicyRow(text, false)]);
    if row.policies[id].active then Bump(row') else row'
  }

  function Published(row: TenantRow, id: PolicyId): TenantRow
    requires id in row.policies
  {
    Bump(row.(policies := row.policies[id := row.policies[id].(active := true)]))
  }

  /** What a `DELETE` that ran at revision `at` leaves: the rows inserted since. */
  function Survivors(rows: seq<RoleRow>, at: nat): seq<RoleRow> {
    if rows == [] then []
    else (if rows[0].born > at then [rows[0]] else []) + Survivors(rows[1..], at)
  }

  function Inserted(roles: seq<(Role, Role)>, born: nat): (r: seq<RoleRow>)
    ensures Edges(r) == roles
  {
    seq(|roles|, i requires 0 <= i < |roles| => RoleRow(roles[i], born))
  }

  function Replaced(row: TenantRow, r: Replacing): TenantRow {
    Bump(row.(roles := Survivors(row.roles, r.at) + Inserted(r.roles, row.revision + 1)))
  }

  /** The whole transaction of a policy call: what the tenant's row becomes. */
  function RowAfter(row: TenantRow, step: Step): TenantRow {
    match step
    case CreatePolicy(_, id, text) => row.(policies := row.policies[id := PolicyRow(text, false)])
    case UpdatePolicy(_, id, text) => if id in row.policies then Updated(row, id, text) else row
    case PublishPolicy(_, id) => if id in row.policies then Published(row, id) else row
    case DeletePolicy(_, id) => if id in row.policies then Bump(row.(policies := row.policies - {id})) else row
    case _ => row
  }

  predicate Stores(step: Step) {
    step.CreatePolicy? || step.UpdatePolicy? || step.PublishPolicy? || step.DeletePolicy?
  }

  /** A commit; a revision's bundle is recorded when the revision is made. */
  function Commit(s: State, t: Tenant, row: TenantRow): State
    requires t in s.db
  {
    var history := if row.revision == s.db[t].revision then s.history
                   else s.history[(t, row.revision) := ActiveBundle(row)];
    s.(db := s.db[t := row], history := history)
  }

  // ------------------------------------------------------------------ engines

  predicate Enumerates(sources: seq<Source>, policies: map<PolicyId, string>) {
    && |sources| == |policies|
    && (forall i, j :: 0 <= i < j < |sources| ==> sources[i].0 != sources[j].0)
    && (forall i :: 0 <= i < |sources| ==> sources[i].0 in policies && policies[sources[i].0] == sources[i].1)
    && (forall id :: id in policies ==> (id, policies[id]) in sources)
  }

  predicate Reads(snapshot: Snapshot, b: Bundle) {
    Enumerates(snapshot.sources, b.policies) && multiset(snapshot.roles) == multiset(b.roles)
  }

  predicate Stale(loaded: map<Tenant, Snapshot>, t: Tenant, revision: nat) {
    t in loaded && revision > 0 && revision < loaded[t].revision
  }

  predicate Duplicate(loaded: map<Tenant, Snapshot>, t: Tenant, revision: nat) {
    t in loaded && revision > 0 && revision == loaded[t].revision
  }

  /** The policies compile, the request is not ahead of the bundle, and the role
      graph builds. */
  ghost predicate Builds(compiles: seq<Source> -> bool, f: Fetched) {
    compiles(f.snapshot.sources) && f.requested <= f.snapshot.revision && Acyclic(Of(f.snapshot.roles))
  }

  /** Installing keeps the last good snapshot when the new one does not build or
      its revision is not newer. */
  ghost function Installed(compiles: seq<Source> -> bool, loaded: map<Tenant, Snapshot>, f: Fetched): map<Tenant, Snapshot> {
    if !Builds(compiles, f) then loaded
    else if Stale(loaded, f.tenant, f.snapshot.revision) || Duplicate(loaded, f.tenant, f.snapshot.revision) then loaded
    else loaded[f.tenant := f.snapshot]
  }

  function Loaded(s: State, e: EngineId): map<Tenant, Snapshot> {
    if e in s.engines then s.engines[e] else map[]
  }

  // -------------------------------------------------------------------- runs

  /** Whether a replacement of the tenant's roles is under way. */
  predicate Replacement(s: State, t: Tenant) {
    exists w | w in s.writers :: s.writers[w].tenant == t
  }

  ghost predicate Enabled(s: State, step: Step) {
    match step
    case CreateTenant(t) => t !in s.db
    case BeginReplace(w, t, roles) =>
      w !in s.writers && t in s.db && Acyclic(Of(roles)) && (s.fenced ==> !Replacement(s, t))
    case CommitReplace(w) =>
      && w in s.writers && s.writers[w].tenant in s.db
      && var kept := Edges(Survivors(s.db[s.writers[w].tenant].roles, s.writers[w].at));
      && forall e :: e in s.writers[w].roles ==> e !in kept
    case AbortReplace(w) => w in s.writers
    case Fetch(w, _, t, _, sources, roles) =>
      w !in s.fetches && t in s.db && Reads(Snapshot(sources, roles, s.db[t].revision), ActiveBundle(s.db[t]))
    case Install(w) => w in s.fetches
    case Abandon(w) => w in s.fetches
    case Unload(e, t) => t in Loaded(s, e)
    case CreatePolicy(t, id, _) => t in s.db && id !in s.db[t].policies
    case _ => step.tenant in s.db
  }

  ghost function Apply(compiles: seq<Source> -> bool, s: State, step: Step): State
    requires Enabled(s, step)
  {
    match step
    case CreateTenant(t) =>
      var row := TenantRow(map[], [], 1);
      s.(db := s.db[t := row], history := s.history[(t, 1) := ActiveBundle(row)])
    case BeginReplace(w, t, roles) => s.(writers := s.writers[w := Replacing(t, s.db[t].revision, roles)])
    case CommitReplace(w) =>
      var r := s.writers[w];
      Commit(s, r.tenant, Replaced(s.db[r.tenant], r)).(writers := s.writers - {w})
    case AbortReplace(w) => s.(writers := s.writers - {w})
    case Fetch(w, e, t, requested, sources, roles) =>
      s.(fetches := s.fetches[w := Fetched(e, t, requested, Snapshot(sources, roles, s.db[t].revision))])
    case Install(w) =>
      var f := s.fetches[w];
      s.(fetches := s.fetches - {w}, engines := s.engines[f.engine := Installed(compiles, Loaded(s, f.engine), f)])
    case Abandon(w) => s.(fetches := s.fetches - {w})
    case Unload(e, t) => s.(engines := s.engines[e := Loaded(s, e) - {t}])
    case _ => Commit(s, step.tenant, RowAfter(s.db[step.tenant], step))
  }

  predicate Init(s: State) {
    s == State(s.fenced, map[], map[], map[], map[], map[])
  }

  /** The states of a run, one longer than its steps. */
  ghost predicate IsRun(compiles: seq<Source> -> bool, states: seq<State>, steps: seq<Step>) {
    && |states| == |steps| + 1 && Init(states[0])
    && forall i :: 0 <= i < |steps| ==> Enabled(states[i], steps[i]) && states[i + 1] == Apply(compiles, states[i], steps[i])
  }

  // -------------------------------------------------------------- invariants

  lemma PolicyMakesRevision(row: TenantRow, step: Step)
    requires step.CreatePolicy? ==> step.id !in row.policies
    ensures RowAfter(row, step).revision == row.revision || RowAfter(row, step).revision == row.revision + 1
    ensures RowAfter(row, step).revision == row.revision ==> ActiveBundle(RowAfter(row, step)) == ActiveBundle(row)
    ensures RowAfter(row, step).roles == row.roles
  {
  }

  /** Every change of the active policies or roles makes a new revision. */
  lemma ChangeMakesRevision(compiles: seq<Source> -> bool, s: State, step: Step, t: Tenant)
    requires Enabled(s, step) && t in s.db
    ensures var s' := Apply(compiles, s, step);
      && t in s'.db && (s'.db[t].revision == s.db[t].revision || s'.db[t].revision == s.db[t].revision + 1)
      && (s'.db[t].revision == s.db[t].revision ==> ActiveBundle(s'.db[t]) == ActiveBundle(s.db[t]))
  {
    hide Survivors;
    hide Reads;
    hide Installed;
    if Stores(step) { PolicyMakesRevision(s.db[step.tenant], step); }
    hide ActiveBundle;
    hide RowAfter;
  }

  /** The current revision is recorded with the current bundle. */
  ghost predicate CurrentOk(s: State, t: Tenant)
    requires t in s.db
  {
    var now := (t, s.db[t].revision);
    now in s.history && s.history[now] == ActiveBundle(s.db[t])
  }

  ghost predicate DbOk(s: State) {
    && (forall t :: t in s.db ==> CurrentOk(s, t))
    && (forall t, n :: (t, n) in s.history ==> t in s.db && 1 <= n <= s.db[t].revision)
  }

  ghost predicate Extends(h: map<(Tenant, nat), Bundle>, h': map<(Tenant, nat), Bundle>) {
    forall k :: k in h ==> k in h' && h'[k] == h[k]
  }

  /** A snapshot is the bundle of a revision the database has made. */
  ghost predicate Agrees(h: map<(Tenant, nat), Bundle>, t: Tenant, x: Snapshot) {
    (t, x.revision) in h && Reads(x, h[(t, x.revision)])
  }

  ghost predicate FetchesOk(h: map<(Tenant, nat), Bundle>, fetches: map<Worker, Fetched>) {
    forall w :: w in fetches ==> Agrees(h, fetches[w].tenant, fetches[w].snapshot)
  }

  ghost predicate LoadedOk(h: map<(Tenant, nat), Bundle>, loaded: map<Tenant, Snapshot>) {
    forall t :: t in loaded ==> Agrees(h, t, loaded[t]) && Acyclic(Of(loaded[t].roles))
  }

  ghost predicate EnginesOk(s: State) {
    forall e :: LoadedOk(s.history, Loaded(s, e))
  }

  ghost predicate Inv(s: State) {
    DbOk(s) && FetchesOk(s.history, s.fetches) && EnginesOk(s)
  }

  lemma ExtendedFetches(h: map<(Tenant, nat), Bundle>, h': map<(Tenant, nat), Bundle>, fetches: map<Worker, Fetched>)
    requires Extends(h, h') && FetchesOk(h, fetches)
    ensures FetchesOk(h', fetches)
  {
    hide Reads;
  }

  lemma ExtendedLoaded(h: map<(Tenant, nat), Bundle>, h': map<(Tenant, nat), Bundle>, loaded: map<Tenant, Snapshot>)
    requires Extends(h, h') && LoadedOk(h, loaded)
    ensures LoadedOk(h', loaded)
  {
    hide Reads;
    hide Acyclic;
  }

  lemma CommitExtends(s: State, t: Tenant, row: TenantRow)
    requires DbOk(s) && t in s.db
    requires row.revision == s.db[t].revision || row.revision == s.db[t].revision + 1
    ensures Extends(s.history, Commit(s, t, row).history)
  {
    hide ActiveBundle;
  }

  /** No step rewrites the bundle of a revision. */
  lemma HistoryGrows(compiles: seq<Source> -> bool, s: State, step: Step)
    requires DbOk(s) && Enabled(s, step)
    ensures Extends(s.history, Apply(compiles, s, step).history)
  {
    hide Survivors;
    hide Reads;
    hide Installed;
    if Stores(step) {
      PolicyMakesRevision(s.db[step.tenant], step);
      CommitExtends(s, step.tenant, RowAfter(s.db[step.tenant], step));
    } else if step.CommitReplace? {
      var r := s.writers[step.worker];
      CommitExtends(s, r.tenant, Replaced(s.db[r.tenant], r));
    }
    hide ActiveBundle;
    hide RowAfter;
  }

  lemma CommitKeepsDb(s: State, t: Tenant, row: TenantRow)
    requires DbOk(s) && t in s.db
    requires row.revision == s.db[t].revision || row.revision == s.db[t].revision + 1
    requires row.revision == s.db[t].revision ==> ActiveBundle(row) == ActiveBundle(s.db[t])
    ensures DbOk(Commit(s, t, row))
  {
    hide ActiveBundle;
  }

  lemma StepKeepsDb(compiles: seq<Source> -> bool, s: State, step: Step)
    requires DbOk(s) && Enabled(s, step)
    ensures DbOk(Apply(compiles, s, step))
  {
    hide Survivors;
    hide Reads;
    hide Installed;
    if Stores(step) {
      PolicyMakesRevision(s.db[step.tenant], step);
      CommitKeepsDb(s, step.tenant, RowAfter(s.db[step.tenant], step));
    } else if step.CommitReplace? {
      var r := s.writers[step.worker];
      CommitKeepsDb(s, r.tenant, Replaced(s.db[r.tenant], r));
    }
    hide ActiveBundle;
    hide RowAfter;
  }

  lemma StepKeepsFetches(compiles: seq<Source> -> bool, s: State, step: Step)
    requires Inv(s) && Enabled(s, step)
    ensures FetchesOk(Apply(compiles, s, step).history, Apply(compiles, s, step).fetches)
  {
    hide ActiveBundle;
    hide Reads;
    hide RowAfter;
    hide Replaced;
    HistoryGrows(compiles, s, step);
    ExtendedFetches(s.history, Apply(compiles, s, step).history, s.fetches);
    if step.Fetch? { assert CurrentOk(s, step.tenant); }
  }

  lemma InstallKeeps(compiles: seq<Source> -> bool, h: map<(Tenant, nat), Bundle>, loaded: map<Tenant, Snapshot>, f: Fetched)
    requires LoadedOk(h, loaded) && Agrees(h, f.tenant, f.snapshot)
    ensures LoadedOk(h, Installed(compiles, loaded, f))
  {
    hide Agrees;
    hide Acyclic;
  }

  /** A step leaves an engine's snapshots alone, unloads one, or installs one. */
  lemma EngineSteps(compiles: seq<Source> -> bool, s: State, step: Step, e: EngineId)
    requires Enabled(s, step)
    ensures var loaded' := Loaded(Apply(compiles, s, step), e);
      || loaded' == Loaded(s, e)
      || (step.Unload? && loaded' == Loaded(s, e) - {step.tenant})
      || (step.Install? && loaded' == Installed(compiles, Loaded(s, e), s.fetches[step.worker]))
  {
    hide ActiveBundle;
    hide Reads;
    hide Acyclic;
    hide RowAfter;
    hide Replaced;
    hide Installed;
  }

  lemma StepKeepsEngines(compiles: seq<Source> -> bool, s: State, step: Step)
    requires Inv(s) && Enabled(s, step)
    ensures EnginesOk(Apply(compiles, s, step))
  {
    hide Apply;
    hide DbOk;
    hide Loaded;
    hide Agrees;
    hide Acyclic;
    hide Installed;
    hide Extends;
    HistoryGrows(compiles, s, step);
    var s' := Apply(compiles, s, step);
    forall e ensures LoadedOk(s'.history, Loaded(s', e)) {
      EngineSteps(compiles, s, step, e);
      assert LoadedOk(s.history, Loaded(s, e));
      if step.Install? { InstallKeeps(compiles, s.history, Loaded(s, e), s.fetches[step.worker]); }
      assert LoadedOk(s.history, Loaded(s', e));
      ExtendedLoaded(s.history, s'.history, Loaded(s', e));
    }
  }

  /** Only the current revision is ever recorded. */
  lemma NewRecordIsCurrent(compiles: seq<Source> -> bool, s: State, step: Step, t: Tenant, n: nat)
    requires Enabled(s, step) && (t, n) in Apply(compiles, s, step).history && (t, n) !in s.history
    ensures t in Apply(compiles, s, step).db && Apply(compiles, s, step).db[t].revision == n
  {
    hide ActiveBundle;
    hide Survivors;
  }

  lemma StepOfRun(compiles: seq<Source> -> bool, states: seq<State>, steps: seq<Step>, i: nat)
    requires IsRun(compiles, states, steps) && i < |steps|
    ensures Enabled(states[i], steps[i]) && states[i + 1] == Apply(compiles, states[i], steps[i])
  {
    hide Enabled;
    hide Apply;
  }

  lemma {:induction false} RunKeepsInv(compiles: seq<Source> -> bool, states: seq<State>, steps: seq<Step>, i: nat)
    requires IsRun(compiles, states, steps) && i < |states|
    ensures Inv(states[i])
  {
    hide Apply;
    hide Enabled;
    if i > 0 {
      StepOfRun(compiles, states, steps, i - 1);
      RunKeepsInv(compiles, states, steps, i - 1);
      StepKeepsDb(compiles, states[i - 1], steps[i - 1]);
      StepKeepsFetches(compiles, states[i - 1], steps[i - 1]);
      StepKeepsEngines(compiles, states[i - 1], steps[i - 1]);
    }
  }

  lemma HistoryOfStep(compiles: seq<Source> -> bool, states: seq<State>, steps: seq<Step>, i: nat)
    requires IsRun(compiles, states, steps) && i < |steps|
    ensures Extends(states[i].history, states[i + 1].history)
  {
    hide Apply;
    hide Enabled;
    hide Extends;
    StepOfRun(compiles, states, steps, i);
    RunKeepsInv(compiles, states, steps, i);
    HistoryGrows(compiles, states[i], steps[i]);
  }

  lemma {:induction false} HistoryOfRun(compiles: seq<Source> -> bool, states: seq<State>, steps: seq<Step>, i: nat, j: nat)
    requires IsRun(compiles, states, steps) && i <= j < |states|
    ensures Extends(states[i].history, states[j].history)
    decreases j - i
  {
    hide Apply;
    hide Enabled;
    if i < j {
      HistoryOfRun(compiles, states, steps, i, j - 1);
      HistoryOfStep(compiles, states, steps, j - 1);
    }
  }

  // -------------------------------------------------------------- the claims

  /** A tenant's revision determines its bundle, over the whole run. */
  lemma RevisionDeterminesBundle(compiles: seq<Source> -> bool, states: seq<State>, steps: seq<Step>,
                                 i: nat, j: nat, t: Tenant)
    requires IsRun(compiles, states, steps) && i <= j < |states|
    requires t in states[i].db && t in states[j].db && states[i].db[t].revision == states[j].db[t].revision
    ensures ActiveBundle(states[i].db[t]) == ActiveBundle(states[j].db[t])
  {
    hide IsRun;
    hide ActiveBundle;
    RunKeepsInv(compiles, states, steps, i);
    RunKeepsInv(compiles, states, steps, j);
    HistoryOfRun(compiles, states, steps, i, j);
    assert CurrentOk(states[i], t) && CurrentOk(states[j], t);
  }

  lemma RecordedAtStep(compiles: seq<Source> -> bool, states: seq<State>, steps: seq<Step>, i: nat, t: Tenant, n: nat)
    requires IsRun(compiles, states, steps) && i < |steps| && (t, n) in states[i + 1].history
    ensures (t, n) in states[i].history || (t in states[i + 1].db && states[i + 1].db[t].revision == n)
  {
    hide Apply;
    hide Enabled;
    StepOfRun(compiles, states, steps, i);
    if (t, n) !in states[i].history { NewRecordIsCurrent(compiles, states[i], steps[i], t, n); }
  }

  /** Every recorded revision was the current one at some time. */
  lemma {:induction false} MadeAt(compiles: seq<Source> -> bool, states: seq<State>, steps: seq<Step>,
                                  j: nat, t: Tenant, n: nat) returns (i: nat)
    requires IsRun(compiles, states, steps) && j < |states| && (t, n) in states[j].history
    ensures i <= j && t in states[i].db && states[i].db[t].revision == n
    decreases j
  {
    hide Apply;
    hide Enabled;
    if t in states[j].db && states[j].db[t].revision == n {
      i := j;
    } else {
      RecordedAtStep(compiles, states, steps, j - 1, t, n);
      i := MadeAt(compiles, states, steps, j - 1, t, n);
    }
  }

  /** Whatever an engine has loaded is the bundle that some earlier state had at
      the loaded revision, and that revision is not ahead of the database. */
  lemma SnapshotAgreement(compiles: seq<Source> -> bool, states: seq<State>, steps: seq<Step>, j: nat, e: EngineId,
                          t: Tenant)
    requires IsRun(compiles, states, steps) && j < |states| && t in Loaded(states[j], e)
    ensures t in states[j].db && 1 <= Loaded(states[j], e)[t].revision <= states[j].db[t].revision
    ensures exists i :: 0 <= i <= j && t in states[i].db && states[i].db[t].revision == Loaded(states[j], e)[t].revision
                        && Reads(Loaded(states[j], e)[t], ActiveBundle(states[i].db[t]))
  {
    hide IsRun;
    hide Reads;
    hide ActiveBundle;
    RunKeepsInv(compiles, states, steps, j);
    var x := Loaded(states[j], e)[t];
    assert LoadedOk(states[j].history, Loaded(states[j], e));
    var i := MadeAt(compiles, states, steps, j, t, x.revision);
    RunKeepsInv(compiles, states, steps, i);
    HistoryOfRun(compiles, states, steps, i, j);
    assert CurrentOk(states[i], t);
  }

  /** Two engines that have loaded one revision have read one bundle, whenever
      they did, and have built its role graph. */
  lemma SameRevisionSameBundle(compiles: seq<Source> -> bool, states: seq<State>, steps: seq<Step>,
                               i: nat, d: EngineId, j: nat, e: EngineId, t: Tenant) returns (b: Bundle)
    requires IsRun(compiles, states, steps) && i <= j < |states|
    requires t in Loaded(states[i], d) && t in Loaded(states[j], e)
    requires Loaded(states[i], d)[t].revision == Loaded(states[j], e)[t].revision
    ensures Reads(Loaded(states[i], d)[t], b) && Reads(Loaded(states[j], e)[t], b)
    ensures Acyclic(Of(Loaded(states[i], d)[t].roles))
  {
    hide IsRun;
    hide Acyclic;
    hide Reads;
    RunKeepsInv(compiles, states, steps, i);
    RunKeepsInv(compiles, states, steps, j);
    HistoryOfRun(compiles, states, steps, i, j);
    assert LoadedOk(states[i].history, Loaded(states[i], d)) && LoadedOk(states[j].history, Loaded(states[j], e));
    b := states[j].history[(t, Loaded(states[j], e)[t].revision)];
  }

  /** One step moves a loaded snapshot only forward. */
  lemma StepMovesForward(compiles: seq<Source> -> bool, s: State, step: Step, e: EngineId, t: Tenant)
    requires Inv(s) && Enabled(s, step)
    requires t in Loaded(s, e) && t in Loaded(Apply(compiles, s, step), e)
    ensures Loaded(Apply(compiles, s, step), e)[t] == Loaded(s, e)[t]
         || Loaded(Apply(compiles, s, step), e)[t].revision > Loaded(s, e)[t].revision
  {
    hide ActiveBundle;
    hide Reads;
    hide Acyclic;
    hide Replaced;
    hide RowAfter;
    if step.Install? {
      var f := s.fetches[step.worker];
      assert Agrees(s.history, f.tenant, f.snapshot);
    }
  }

  lemma OthersUntouched(compiles: seq<Source> -> bool, s: State, step: Step, e: EngineId, t: Tenant)
    requires Enabled(s, step)
    requires step.Install? ==> s.fetches[step.worker].engine != e || s.fetches[step.worker].tenant != t
    requires step.Unload? ==> step.engine != e || step.tenant != t
    ensures t in Loaded(Apply(compiles, s, step), e) <==> t in Loaded(s, e)
    ensures t in Loaded(s, e) ==> Loaded(Apply(compiles, s, step), e)[t] == Loaded(s, e)[t]
  {
    hide ActiveBundle;
    hide Replaced;
    hide RowAfter;
    hide Reads;
  }

  /** While a tenant stays loaded its revision never moves back, and an equal
      revision is the same snapshot. */
  lemma {:induction false} NeverMovesBack(compiles: seq<Source> -> bool, states: seq<State>, steps: seq<Step>,
                                          i: nat, j: nat, e: EngineId, t: Tenant)
    requires IsRun(compiles, states, steps) && i <= j < |states|
    requires forall k :: i <= k <= j ==> t in Loaded(states[k], e)
    ensures Loaded(states[i], e)[t].revision <= Loaded(states[j], e)[t].revision
    ensures Loaded(states[i], e)[t].revision == Loaded(states[j], e)[t].revision ==>
              Loaded(states[i], e)[t] == Loaded(states[j], e)[t]
    decreases j - i
  {
    hide Apply;
    hide Enabled;
    hide Inv;
    hide Loaded;
    if i < j {
      NeverMovesBack(compiles, states, steps, i, j - 1, e, t);
      StepOfRun(compiles, states, steps, j - 1);
      RunKeepsInv(compiles, states, steps, j - 1);
      StepMovesForward(compiles, states[j - 1], steps[j - 1], e, t);
    }
  }

  // -------------------------------------------------- role graphs that build

  lemma {:induction false} NothingSurvives(rows: seq<RoleRow>, at: nat)
    ensures Survivors(rows, at) == [] <==> forall i :: 0 <= i < |rows| ==> rows[i].born <= at
    decreases |rows|
  {
    if rows != [] {
      NothingSurvives(rows[1..], at);
      if Survivors(rows, at) == [] {
        forall i | 0 <= i < |rows| ensures rows[i].born <= at {
          if i > 0 { assert rows[i] == rows[1..][i - 1]; }
        }
      } else if rows[0].born <= at {
        var i :| 0 <= i < |rows[1..]| && rows[1..][i].born > at;
        assert rows[i + 1].born > at;
      }
    }
  }

  /** A replacement stores exactly its own list if and only if no row was
      inserted since it deleted. */
  lemma ReplacesExactly(row: TenantRow, r: Replacing)
    ensures Edges(Replaced(row, r).roles) == r.roles <==> forall i :: 0 <= i < |row.roles| ==> row.roles[i].born <= r.at
  {
    NothingSurvives(row.roles, r.at);
    var kept := Survivors(row.roles, r.at);
    assert |Edges(Replaced(row, r).roles)| == |kept| + |r.roles|;
    if kept == [] { assert kept + Inserted(r.roles, row.revision + 1) == Inserted(r.roles, row.revision + 1); }
  }

  /** Writers behind one fence: a tenant has at most one, and nothing has been
      inserted since it deleted. */
  ghost predicate SerialOk(s: State) {
    && (forall w :: w in s.writers ==> Acyclic(Of(s.writers[w].roles)))
    && (forall w :: w in s.writers && s.writers[w].tenant in s.db ==>
          NoneSince(s.db[s.writers[w].tenant].roles, s.writers[w].at))
    && (forall w, v :: w in s.writers && v in s.writers && s.writers[w].tenant == s.writers[v].tenant ==> w == v)
    && (forall t :: t in s.db ==> NoneSince(s.db[t].roles, s.db[t].revision))
    && (forall w :: w in s.writers ==> s.writers[w].tenant in s.db)
  }

  predicate NoneSince(rows: seq<RoleRow>, at: nat) {
    forall i :: 0 <= i < |rows| ==> rows[i].born <= at
  }

  ghost predicate RecordsOk(h: map<(Tenant, nat), Bundle>) {
    forall k :: k in h ==> Acyclic(Of(h[k].roles))
  }

  ghost predicate Serial(s: State) {
    s.fenced && SerialOk(s) && RecordsOk(s.history) && forall t :: t in s.db ==> Acyclic(Of(Edges(s.db[t].roles)))
  }

  lemma EmptyIsAcyclic()
    ensures Acyclic(Of([]))
  {
    assert forall a, b :: !Edge(Of([]), a, b);
  }

  lemma BundleRoles(row: TenantRow)
    ensures ActiveBundle(row).roles == Edges(row.roles)
  {
  }

  lemma SerialPolicy(s: State, t: Tenant, row: TenantRow)
    requires Serial(s) && t in s.db && row.roles == s.db[t].roles && s.db[t].revision <= row.revision
    ensures Serial(Commit(s, t, row))
  {
    hide Acyclic;
    hide Of;
    BundleRoles(row);
    hide ActiveBundle;
  }

  lemma SerialReplacement(s: State, w: Worker) returns (row: TenantRow)
    requires Serial(s) && w in s.writers
    ensures row == Replaced(s.db[s.writers[w].tenant], s.writers[w]) && row.revision == s.db[s.writers[w].tenant].revision + 1
    ensures Edges(row.roles) == s.writers[w].roles && NoneSince(row.roles, row.revision)
  {
    hide Acyclic;
    var r := s.writers[w];
    row := Replaced(s.db[r.tenant], r);
    ReplacesExactly(s.db[r.tenant], r);
    NothingSurvives(s.db[r.tenant].roles, r.at);
  }

  /** The only writer of its tenant stores its own list. */
  lemma SerialCommit(s: State, w: Worker, row: TenantRow)
    requires Serial(s) && w in s.writers && row.revision == s.db[s.writers[w].tenant].revision + 1
    requires Edges(row.roles) == s.writers[w].roles && NoneSince(row.roles, row.revision)
    ensures Serial(Commit(s, s.writers[w].tenant, row).(writers := s.writers - {w}))
  {
    hide Acyclic;
    hide Of;
    hide Edges;
    hide NoneSince;
    BundleRoles(row);
    hide ActiveBundle;
  }

  lemma SerialBegin(s: State, w: Worker, t: Tenant, roles: seq<(Role, Role)>)
    requires Serial(s) && Enabled(s, BeginReplace(w, t, roles))
    ensures Serial(s.(writers := s.writers[w := Replacing(t, s.db[t].revision, roles)]))
  {
    hide Acyclic;
    hide Of;
    hide NoneSince;
    forall v | v in s.writers ensures s.writers[v].tenant != t { assert !Replacement(s, t); }
  }

  lemma SerialCreate(s: State, t: Tenant)
    requires Serial(s) && t !in s.db
    ensures var row := TenantRow(map[], [], 1);
      Serial(s.(db := s.db[t := row], history := s.history[(t, 1) := ActiveBundle(row)]))
  {
    var row := TenantRow(map[], [], 1);
    BundleRoles(row);
    EmptyIsAcyclic();
    assert Edges(row.roles) == [];
    hide Acyclic;
    hide Of;
    hide ActiveBundle;
  }

  lemma SerialDrop(s: State, s': State)
    requires Serial(s) && s'.fenced == s.fenced && s'.db == s.db && s'.history == s.history
    requires forall w :: w in s'.writers ==> w in s.writers && s'.writers[w] == s.writers[w]
    ensures Serial(s')
  {
    hide Acyclic;
    hide Of;
    hide NoneSince;
  }

  lemma StepKeepsSerial(compiles: seq<Source> -> bool, s: State, step: Step)
    requires Serial(s) && Enabled(s, step)
    ensures Serial(Apply(compiles, s, step))
  {
    hide Serial;
    hide Reads;
    hide Installed;
    hide Survivors;
    match step
    case CreateTenant(t) => SerialCreate(s, t);
    case BeginReplace(w, t, roles) => SerialBegin(s, w, t, roles);
    case CommitReplace(w) =>
      var row := SerialReplacement(s, w);
      SerialCommit(s, w, row);
    case CreatePolicy(t, _, _) =>
      PolicyMakesRevision(s.db[t], step);
      SerialPolicy(s, t, RowAfter(s.db[t], step));
    case UpdatePolicy(t, _, _) =>
      PolicyMakesRevision(s.db[t], step);
      SerialPolicy(s, t, RowAfter(s.db[t], step));
    case PublishPolicy(t, _) =>
      PolicyMakesRevision(s.db[t], step);
      SerialPolicy(s, t, RowAfter(s.db[t], step));
    case DeletePolicy(t, _) =>
      PolicyMakesRevision(s.db[t], step);
      SerialPolicy(s, t, RowAfter(s.db[t], step));
    case _ => SerialDrop(s, Apply(compiles, s, step));
  }

  lemma {:induction false} RunKeepsSerial(compiles: seq<Source> -> bool, states: seq<State>, steps: seq<Step>, i: nat)
    requires IsRun(compiles, states, steps) && i < |states| && states[0].fenced
    ensures Serial(states[i])
  {
    hide Apply;
    hide Enabled;
    hide Acyclic;
    if i > 0 {
      StepOfRun(compiles, states, steps, i - 1);
      RunKeepsSerial(compiles, states, steps, i - 1);
      StepKeepsSerial(compiles, states[i - 1], steps[i - 1]);
    }
  }

  /** Behind one fence the roles of every fetched bundle build without a
      rejected edge. */
  lemma FetchedRolesBuild(compiles: seq<Source> -> bool, states: seq<State>, steps: seq<Step>, j: nat, w: Worker)
    requires IsRun(compiles, states, steps) && j < |states| && w in states[j].fetches && states[0].fenced
    ensures Buildable(states[j].fetches[w].snapshot.roles)
  {
    hide IsRun;
    hide Acyclic;
    hide Buildable;
    hide Enumerates;
    RunKeepsInv(compiles, states, steps, j);
    RunKeepsSerial(compiles, states, steps, j);
    var f := states[j].fetches[w];
    assert Agrees(states[j].history, f.tenant, f.snapshot);
    AnyOrderBuilds(states[j].history[(f.tenant, f.snapshot.revision)].roles, f.snapshot.roles);
  }

  // ------------------------------------------------------ what steps achieve

  /** What each policy call does to the stored and to the active policies: a new
      or updated policy is a draft, publishing makes its text active, and only a
      change of what is active makes a revision. */
  predicate PolicyEffect(row: TenantRow, step: Step, row': TenantRow)
    requires Stores(step)
  {
    var id, known := step.id, step.id in row.policies;
    var active, active' := ActiveBundle(row).policies, ActiveBundle(row').policies;
    && (step.CreatePolicy? ==>
          && row'.policies == row.policies[id := PolicyRow(step.text, false)]
          && active' == active && row'.revision == row.revision)
    && (step.UpdatePolicy? && known ==>
          && row'.policies == row.policies[id := PolicyRow(step.text, false)]
          && active' == active - {id} && row'.revision == row.revision + (if id in active then 1 else 0))
    && (step.PublishPolicy? && known ==>
          active' == active[id := row.policies[id].text] && row'.revision == row.revision + 1)
    && (step.DeletePolicy? && known ==>
          && row'.policies == row.policies - {id}
          && active' == active - {id} && row'.revision == row.revision + 1)
    && (!known && !step.CreatePolicy? ==> row' == row)
    && ActiveBundle(row').roles == ActiveBundle(row).roles
  }

  lemma RowEffects(row: TenantRow, step: Step)
    requires Stores(step) && (step.CreatePolicy? ==> step.id !in row.policies)
    ensures PolicyEffect(row, step, RowAfter(row, step))
  {
  }

  lemma PolicyEffects(compiles: seq<Source> -> bool, s: State, step: Step)
    requires Enabled(s, step) && Stores(step)
    ensures var s' := Apply(compiles, s, step);
      && step.tenant in s'.db && PolicyEffect(s.db[step.tenant], step, s'.db[step.tenant])
      && (forall u :: u in s.db && u != step.tenant ==> u in s'.db && s'.db[u] == s.db[u])
  {
    assert Apply(compiles, s, step).db == s.db[step.tenant := RowAfter(s.db[step.tenant], step)];
    RowEffects(s.db[step.tenant], step);
    hide Apply;
    hide PolicyEffect;
    hide RowAfter;
  }

  /** A fetch reads the policies, the roles and the revision of the instant: each
      active policy once with its text, and no other. */
  lemma FetchReads(compiles: seq<Source> -> bool, s: State, step: Step)
    requires Enabled(s, step) && step.Fetch?
    ensures var f, b := Apply(compiles, s, step).fetches[step.worker], ActiveBundle(s.db[step.tenant]);
      && f.tenant == step.tenant && f.engine == step.engine && f.requested == step.requested
      && f.snapshot.revision == s.db[step.tenant].revision && multiset(f.snapshot.roles) == multiset(b.roles)
      && |f.snapshot.sources| == |b.policies|
      && forall id, text :: (id, text) in f.snapshot.sources <==> id in b.policies && b.policies[id] == text
  {
    hide ActiveBundle;
  }

  lemma {:induction false} SomeEnumeration(policies: map<PolicyId, string>) returns (sources: seq<Source>)
    ensures Enumerates(sources, policies)
    decreases |policies|
  {
    if policies == map[] {
      sources := [];
    } else {
      var id :| id in policies;
      var rest := policies - {id};
      assert policies == rest[id := policies[id]];
      var others := SomeEnumeration(rest);
      sources := others + [(id, policies[id])];
    }
  }

  /** Every stored bundle can be fetched. */
  lemma FetchPossible(s: State, w: Worker, e: EngineId, t: Tenant, requested: nat) returns (step: Step)
    requires t in s.db && w !in s.fetches
    ensures step.Fetch? && step.worker == w && step.engine == e && step.tenant == t && step.requested == requested
    ensures Enabled(s, step)
  {
    hide ActiveBundle;
    hide Enumerates;
    var b := ActiveBundle(s.db[t]);
    var sources := SomeEnumeration(b.policies);
    step := Fetch(w, e, t, requested, sources, b.roles);
  }

  lemma InstallOutcome(compiles: seq<Source> -> bool, loaded: map<Tenant, Snapshot>, f: Fetched)
    requires compiles(f.snapshot.sources) && f.requested <= f.snapshot.revision && Acyclic(Of(f.snapshot.roles))
    requires f.snapshot.revision > 0
    ensures var loaded' := Installed(compiles, loaded, f);
      if f.tenant !in loaded || loaded[f.tenant].revision < f.snapshot.revision
      then loaded' == loaded[f.tenant := f.snapshot] else loaded' == loaded
  {
    hide Acyclic;
    hide Of;
  }

  /** In every run, installing a fetched bundle that builds leaves the engine at
      least at its revision, and with exactly that bundle if it had none or an
      older one. */
  lemma InstallTakesEffect(compiles: seq<Source> -> bool, states: seq<State>, steps: seq<Step>, i: nat)
    requires IsRun(compiles, states, steps) && i < |steps| && steps[i].Install? && steps[i].worker in states[i].fetches
    requires var f := states[i].fetches[steps[i].worker];
      compiles(f.snapshot.sources) && f.requested <= f.snapshot.revision && Acyclic(Of(f.snapshot.roles))
    ensures var f := states[i].fetches[steps[i].worker];
      var before, after := Loaded(states[i], f.engine), Loaded(states[i + 1], f.engine);
      && f.tenant in after && after[f.tenant].revision >= f.snapshot.revision
      && (f.tenant !in before || before[f.tenant].revision < f.snapshot.revision ==> after[f.tenant] == f.snapshot)
      && (f.tenant in before && before[f.tenant].revision >= f.snapshot.revision ==> after[f.tenant] == before[f.tenant])
  {
    var f := states[i].fetches[steps[i].worker];
    RunKeepsInv(compiles, states, steps, i);
    StepOfRun(compiles, states, steps, i);
    assert Agrees(states[i].history, f.tenant, f.snapshot);
    hide Acyclic;
    hide Of;
    hide Reads;
    hide ActiveBundle;
    hide IsRun;
    InstallOutcome(compiles, Loaded(states[i], f.engine), f);
    InstallApplies(compiles, states[i], steps[i].worker);
    hide Installed;
    hide Apply;
  }

  lemma InstallApplies(compiles: seq<Source> -> bool, s: State, w: Worker)
    requires Enabled(s, Install(w))
    ensures Loaded(Apply(compiles, s, Install(w)), s.fetches[w].engine)
         == Installed(compiles, Loaded(s, s.fetches[w].engine), s.fetches[w])
    ensures Apply(compiles, s, Install(w)).db == s.db
  {
  }

  /** A bundle fetched at the revision the database still has brings its engine
      up to date: what is loaded is then the bundle of the database. */
  lemma InstallConverges(compiles: seq<Source> -> bool, states: seq<State>, steps: seq<Step>, i: nat)
    requires IsRun(compiles, states, steps) && i < |steps| && steps[i].Install? && steps[i].worker in states[i].fetches
    requires var f := states[i].fetches[steps[i].worker];
      && compiles(f.snapshot.sources) && f.requested <= f.snapshot.revision && Acyclic(Of(f.snapshot.roles))
      && f.tenant in states[i].db && f.snapshot.revision == states[i].db[f.tenant].revision
    ensures var f := states[i].fetches[steps[i].worker];
      var after := Loaded(states[i + 1], f.engine);
      && f.tenant in after && f.tenant in states[i + 1].db && after[f.tenant].revision == states[i + 1].db[f.tenant].revision
      && Reads(after[f.tenant], ActiveBundle(states[i + 1].db[f.tenant]))
  {
    var f := states[i].fetches[steps[i].worker];
    InstallTakesEffect(compiles, states, steps, i);
    RunKeepsInv(compiles, states, steps, i + 1);
    StepOfRun(compiles, states, steps, i);
    InstallApplies(compiles, states[i], steps[i].worker);
    hide Acyclic;
    hide Of;
    hide Reads;
    hide ActiveBundle;
    hide IsRun;
    hide Apply;
    hide Enabled;
    assert LoadedOk(states[i + 1].history, Loaded(states[i + 1], f.engine)) && CurrentOk(states[i + 1], f.tenant);
  }

  // ------------------------------------------------------- the engine's code

  /** The engine's state pointer: every write replaces the whole tenant map. */
  class Engine {
    const compiles: seq<Source> -> bool
    var tenants: map<Tenant, Snapshot>

    constructor (compiles: seq<Source> -> bool)
      ensures tenants == map[] && this.compiles == compiles
    {
      this.compiles := compiles;
      tenants := map[];
    }

    /** The old map copied, less one tenant. */
    method CopyWithout(t: Tenant) returns (copy: map<Tenant, Snapshot>)
      ensures copy == tenants - {t}
    {
      copy := map[];
      var todo := tenants.Keys;
      while todo != {}
        invariant todo <= tenants.Keys
        invariant copy == (map k | k in tenants && k !in todo && k != t :: tenants[k])
        decreases |todo|
      {
        var k :| k in todo;
        if k != t { copy := copy[k := tenants[k]]; }
        todo := todo - {k};
      }
    }

    /** Syncing one fetched bundle is the install step of a run; it fails exactly
        when the bundle does not build. */
    method SyncTenantWithRevision(f: Fetched) returns (ok: bool)
      modifies this
      ensures tenants == Installed(compiles, old(tenants), f)
      ensures ok <==>
                compiles(f.snapshot.sources) && f.requested <= f.snapshot.revision && Acyclic(Of(f.snapshot.roles))
      ensures var kept := f.tenant in old(tenants) && 0 < f.snapshot.revision <= old(tenants)[f.tenant].revision;
        tenants == if ok && !kept then old(tenants)[f.tenant := f.snapshot] else old(tenants)
    {
      if !compiles(f.snapshot.sources) { return false; }
      if f.requested > f.snapshot.revision { return false; }
      var dag, built := RoleDag.BuildRoles(f.snapshot.roles, f.snapshot.roles);
      if !built { return false; }
      if Stale(tenants, f.tenant, f.snapshot.revision) { return true; }
      if Duplicate(tenants, f.tenant, f.snapshot.revision) { return true; }
      var copy := CopyWithout(f.tenant);
      tenants := copy[f.tenant := f.snapshot];
      ok := true;
    }

    method UnloadTenant(t: Tenant)
      modifies this
      ensures tenants == old(tenants) - {t}
    {
      if t !in tenants { return; }
      var copy := CopyWithout(t);
      tenants := copy;
    }
  }
}
