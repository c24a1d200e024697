/** When a confirmation is bound to the order's lines: exactly when it begins
    beside no editor from before the delegation.

    Such an editor saw the order as not delegated, so a line it adds leaves the
    order row alone. If it commits between the confirmation's snapshot and the
    confirmation's lock on the order, the confirmation executes without having
    seen that line. */
module Exposure {
  import opened Basics
  import opened ErpDatabase
  import opened CommitProtocol
  import opened CommitInvariants
  import opened CommitSafety

  // ------------------------------------------------------------------- runs

  lemma {:induction false} RunExtends(s: State, steps: seq<Step>, step: Step)
    requires IsRun(s, steps) && Enabled(After(s, steps), step)
    ensures IsRun(s, steps + [step]) && After(s, steps + [step]) == Apply(After(s, steps), step)
    decreases |steps|
  {
    hide Enabled;
    hide Apply;
    if steps == [] {
      assert [step][1..] == [];
    } else {
      RunExtends(Apply(s, steps[0]), steps[1..], step);
      assert (steps + [step])[1..] == steps[1..] + [step];
    }
  }

  /** A run from `s` in which `t` begins to confirm `o` and, as its last step,
      executes it, by approval or directly. */
  ghost predicate Confirms(s: State, t: TxnId, o: OrderId, approved: bool, steps: seq<Step>) {
    && |steps| >= 2 && IsRun(s, steps)
    && steps[0] == ByConfirm(t, BeginConfirm(o))
    && (forall i | 1 <= i < |steps| :: !Begins(steps[i], t))
    && Executes(steps[|steps| - 1], t)
    && After(s, steps).log != [] && LastOf(After(s, steps).log).approved == approved
  }

  predicate Begins(step: Step, t: TxnId) {
    step.ByConfirm? && step.t == t && step.confirm.BeginConfirm?
  }

  predicate Executes(step: Step, t: TxnId) {
    step.ByConfirm? && step.t == t && step.confirm.CommitExecution?
  }

  function LastOf(log: seq<Execution>): Execution
    requires log != []
  {
    log[|log| - 1]
  }

  /** What was executed is the order with all its lines as they then stood. */
  predicate BoundToLines(s: State)
    requires s.log != []
  {
    LastOf(s.log).current == Some(LastOf(s.log).signed)
  }

  // -------------------------------------------------- not exposed, so bound

  /** If `t` is a confirmation, it is of `o` and began exposed or not as said. */
  predicate Tracks(s: State, t: TxnId, o: OrderId, exposed: bool) {
    t in s.txns && s.txns[t].job.Confirm? ==> s.txns[t].job.order == o && s.txns[t].job.exposed == exposed
  }

  lemma TracksConfirm(s: State, u: TxnId, act: ConfirmAct, t: TxnId, o: OrderId, exposed: bool)
    requires Tracks(s, t, o, exposed) && ConfirmEnabled(s, u, act) && !(u == t && act.BeginConfirm?)
    ensures Tracks(ConfirmApply(s, u, act), t, o, exposed)
  {
    hide SignedIntent;
    hide Record;
    hide Exposed;
    hide ExecutionWrites;
    hide PendingWrites;
  }

  lemma TracksEdit(s: State, u: TxnId, act: EditAct, t: TxnId, o: OrderId, exposed: bool)
    requires Tracks(s, t, o, exposed) && EditEnabled(s, u, act)
    ensures Tracks(EditApply(s, u, act), t, o, exposed)
  {}

  lemma TracksPdp(s: State, act: PdpAct, t: TxnId, o: OrderId, exposed: bool)
    requires Tracks(s, t, o, exposed) && PdpEnabled(s, act)
    ensures Tracks(PdpApply(s, act), t, o, exposed)
  {
    assert PdpApply(s, act).txns == s.txns;
  }

  lemma TracksStep(s: State, step: Step, t: TxnId, o: OrderId, exposed: bool)
    requires Tracks(s, t, o, exposed) && Enabled(s, step) && !Begins(step, t)
    ensures Tracks(Apply(s, step), t, o, exposed)
  {
    hide ConfirmApply;
    hide ConfirmEnabled;
    hide EditApply;
    hide EditEnabled;
    hide PdpApply;
    hide PdpEnabled;
    match step
    case ByConfirm(u, act) => TracksConfirm(s, u, act, t, o, exposed);
    case ByEdit(u, act) => TracksEdit(s, u, act, t, o, exposed);
    case ByPdp(act) => TracksPdp(s, act, t, o, exposed);
  }

  lemma TracksExecution(s: State, step: Step, t: TxnId, o: OrderId, exposed: bool)
    requires Tracks(s, t, o, exposed) && Enabled(s, step) && Executes(step, t)
    ensures Apply(s, step).log != [] && LastOf(Apply(s, step).log).exposed == exposed
  {}

  lemma {:induction false} TracksRun(s: State, steps: seq<Step>, t: TxnId, o: OrderId, exposed: bool)
    requires IsRun(s, steps) && steps != [] && Tracks(s, t, o, exposed)
    requires forall i | 0 <= i < |steps| :: !Begins(steps[i], t)
    requires Executes(steps[|steps| - 1], t)
    ensures After(s, steps).log != [] && LastOf(After(s, steps).log).exposed == exposed
    decreases |steps|
  {
    hide Enabled;
    hide Apply;
    if |steps| == 1 {
      TracksExecution(s, steps[0], t, o, exposed);
      assert steps[1..] == [];
    } else {
      TracksStep(s, steps[0], t, o, exposed);
      TracksRun(Apply(s, steps[0]), steps[1..], t, o, exposed);
    }
  }

  lemma BeginTracks(s: State, t: TxnId, o: OrderId)
    requires Enabled(s, ByConfirm(t, BeginConfirm(o)))
    ensures Tracks(Apply(s, ByConfirm(t, BeginConfirm(o))), t, o, Exposed(s, o))
  {}

  /** A confirmation that begins beside no stale editor executes the lines that
      stand at its commit. */
  lemma ShieldedIsBound(s: State, t: TxnId, o: OrderId, approved: bool, steps: seq<Step>)
    requires Reachable(s) && Confirms(s, t, o, approved, steps) && !Exposed(s, o)
    ensures BoundToLines(After(s, steps))
  {
    hide Apply;
    hide Enabled;
    BeginTracks(s, t, o);
    TracksRun(Apply(s, steps[0]), steps[1..], t, o, false);
    ReachableInv(s);
    RunKeepsInv(s, steps);
    hide MvccInv;
    assert LastOf(After(s, steps).log) in After(s, steps).log;
  }

  // ------------------------------------------------------ ready to execute

  /** Nobody has locked or shares any of the rows. */
  predicate Free(s: State, ks: set<Key>) {
    forall u | u in s.txns :: s.txns[u].locks !! ks && s.txns[u].shares !! ks
  }

  /** The rows a confirmation locks. */
  function Needs(db: Db, o: OrderId, c: Command): set<Key> {
    {OrderKey(o), AttemptKey(c), ApprovalKey(c), FenceOf(c), EpochKey, PolicyKey(c.tenant)} + LineKeys(db, o)
  }

  /** The order belongs to the command's grant, which is current and not revoked,
      and the PDP has allowed the command under the revision of an open fence. */
  predicate Permits(s: State, o: OrderId, c: Command, a: Answer) {
    var r := Get(s.db, OrderKey(o));
    var g := Get(s.db, GrantKey(c.grant));
    var p := Get(s.db, PolicyKey(c.tenant));
    && r.OrderRow? && r.tenant == c.tenant && r.grantId == Some(c.grant)
    && a in s.answers && a.allow && !a.needsApproval && a.tenant == c.tenant
    && Get(s.db, FenceOf(c)) != FenceRow(true) && Get(s.db, EpochKey).EpochRow?
    && p.PolicyRow? && p.ready && p.revision == a.revision
    && g.GrantRow? && g.active && g.validFrom <= s.clock < g.until
  }

  /** The command is new. */
  predicate Fresh(s: State, o: OrderId, c: Command)
    requires Get(s.db, OrderKey(o)).OrderRow?
  {
    var r := Get(s.db, OrderKey(o));
    && Get(s.db, AttemptKey(c)) == Gone
    && (if r.nonce.Some? then r.nonce.value == c.nonce else c.nonce !in s.nonces)
  }

  /** The command waits for its execution under an approval of the order as it
      stands. */
  predicate Granted(s: State, o: OrderId, c: Command)
    requires Get(s.db, OrderKey(o)).OrderRow?
  {
    var r := Get(s.db, OrderKey(o));
    var attempt := Get(s.db, AttemptKey(c));
    var approval := Get(s.db, ApprovalKey(c));
    && r.nonce == Some(c.nonce) && r.state == ToApprove
    && attempt.AttemptRow? && attempt.attempt == ApprovalRequired && attempt.order == o && s.clock < attempt.validUntil
    && approval.ApprovalRow? && approval.approval == Approved && approval.subject == o && s.clock < approval.expiresAt
    && approval.intent == IntentOf(o, r, c.nonce, s.db)
  }

  /** Nothing but another transaction can keep `t` from executing `c`. */
  predicate Ready(s: State, t: TxnId, o: OrderId, approved: bool, c: Command, a: Answer) {
    && t !in s.txns && Free(s, Needs(s.db, o, c)) && Permits(s, o, c, a)
    && (if approved then Granted(s, o, c) else Fresh(s, o, c))
  }
}
