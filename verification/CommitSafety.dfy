/** The safety of delegated confirmation, over every run of the protocol. */
module CommitSafety {
  import opened Basics
  import opened ErpDatabase
  import opened CommitProtocol
  import opened CommitInvariants
  import opened CommitSteps

  // ------------------------------------------- what one execution must satisfy

  /** Every answer it relied on was given under the PDP revision of the commit. */
  predicate DecidedUnderCurrentPolicy(e: Execution) {
    e.answers != [] && forall a | a in e.answers :: a.revision == e.pdpRevision
  }

  /** The signed intent is the one that was approved, and, unless an editor from
      before the delegation was open when the confirmation began, it is the
      intent of the order and lines as they stand at the commit. */
  predicate IntentBound(e: Execution) {
    && (e.approved ==> e.stored == Some(e.signed))
    && (!e.exposed ==> e.current == Some(e.signed))
  }

  predicate Unrevoked(e: Execution) {
    e.fence != FenceRow(true)
  }

  predicate AuthorityCurrent(e: Execution) {
    e.authorityRead == e.authorityNow
  }

  predicate InTime(e: Execution) {
    var k := GrantKey(e.command.grant);
    && e.at < e.deadline
    && k in e.authorityNow && e.authorityNow[k].GrantRow? && e.authorityNow[k].active
    && e.authorityNow[k].validFrom <= e.at < e.authorityNow[k].until
  }

  predicate Safe(e: Execution) {
    DecidedUnderCurrentPolicy(e) && IntentBound(e) && Unrevoked(e) && AuthorityCurrent(e) && InTime(e)
  }

  /** It was decided by answers of the PDP that allow it: directly by one that
      asks for nothing more, or after an approval by two, of which the first, the
      approver's, asks for nothing more. */
  predicate Permitted(answers: set<Answer>, e: Execution) {
    && (forall a | a in e.answers :: a in answers && a.allow && a.tenant == e.command.tenant && a.revision == e.pdpRevision)
    && (!e.approved ==> |e.answers| == 1 && !e.answers[0].needsApproval)
    && (e.approved ==> |e.answers| == 2 && !e.answers[0].needsApproval)
  }

  lemma SameAuthority(a: Db, b: Db)
    requires forall k :: GuardOf(k) == Some(EpochKey) ==> Get(a, k) == Get(b, k)
    ensures AuthorityOf(a) == AuthorityOf(b)
  {
    forall k | k in AuthorityOf(a) || k in AuthorityOf(b)
      ensures k in AuthorityOf(a) && k in AuthorityOf(b) && AuthorityOf(a)[k] == AuthorityOf(b)[k]
    {
      assert GuardOf(k) == Some(EpochKey);
      assert Get(a, k) == Get(b, k);
    }
  }

  /** While the epoch is locked, the users and grants read are the current ones. */
  lemma AuthorityIsCurrent(db: Db, tx: Txn)
    requires SnapOk(db, tx) && EpochKey in tx.locks
    ensures AuthorityOf(tx.snap) == AuthorityOf(db)
  {
    SameAuthority(tx.snap, db);
  }

  /** While a delegated order is locked, its lines are the current ones although
      new lines carry no lock, if the confirmation began beside no stale editor. */
  lemma IntentIsCurrent(db: Db, tx: Txn)
    requires SnapOk(db, tx) && tx.job.Confirm? && OrderKey(tx.job.order) in tx.locks
    requires Shielded(tx) && LinesOk(db, tx)
    ensures CurrentIntent(db, tx.job) == Some(SignedIntent(tx))
  {
    var o := tx.job.order;
    assert Get(tx.snap, OrderKey(o)) == Get(db, OrderKey(o));
    SameLines(tx.snap, db, o);
  }

  lemma PolicyIsCurrent(s: State, t: TxnId)
    requires ConfirmAt(s, t, AuthorityHeld) && ViewOk(s.db, s.txns[t]) && FencesOk(s) && AnswersOk(s)
    ensures forall a | a in s.txns[t].job.answers :: a.revision == PdpRevision(s, s.txns[t].job.command.tenant)
  {
    var tn := s.txns[t].job.command.tenant;
    assert FenceOk(tn, Get(s.db, PolicyKey(tn)), PdpRevision(s, tn), s.fetched, s.answers, s.writers);
  }

  lemma ExecutionIsPermitted(s: State, t: TxnId)
    requires ConfirmAt(s, t, AuthorityHeld) && OrderSeen(s.txns[t]).OrderRow? && HeardOk(s.answers, s.txns[t])
    requires forall a | a in s.txns[t].job.answers :: a.revision == PdpRevision(s, s.txns[t].job.command.tenant)
    ensures Permitted(s.answers, Record(s, s.txns[t]))
  {
    hide SignedIntent;
    hide CurrentIntent;
    hide StoredIntent;
    hide AuthorityOf;
    hide Deadline;
  }

  lemma ExecutionIsBound(s: State, t: TxnId)
    requires ConfirmAt(s, t, AuthorityHeld) && SnapOk(s.db, s.txns[t]) && ViewOk(s.db, s.txns[t])
    requires Shielded(s.txns[t]) ==> LinesOk(s.db, s.txns[t])
    ensures IntentBound(Record(s, s.txns[t]))
  {
    hide LinesOk;
    hide AuthorityOf;
    hide Deadline;
    hide SignedIntent;
    hide CurrentIntent;
    if !s.txns[t].job.exposed {
      assert Shielded(s.txns[t]);
      IntentIsCurrent(s.db, s.txns[t]);
    }
  }

  lemma ExecutionIsTimely(s: State, t: TxnId)
    requires ConfirmAt(s, t, AuthorityHeld) && SnapOk(s.db, s.txns[t]) && ConfirmOk(s.txns[t])
    requires DeadlineHolds(s.txns[t], s.clock)
    ensures AuthorityCurrent(Record(s, s.txns[t])) && InTime(Record(s, s.txns[t]))
  {
    hide SignedIntent;
    hide CurrentIntent;
    hide StoredIntent;
    hide Deadline;
    AuthorityIsCurrent(s.db, s.txns[t]);
    hide SnapOk;
    assert GrantKey(s.txns[t].job.command.grant) in AuthorityOf(s.txns[t].snap);
  }

  lemma ExecutionIsUnrevoked(s: State, t: TxnId)
    requires ConfirmAt(s, t, AuthorityHeld) && ViewOk(s.db, s.txns[t])
    ensures Unrevoked(Record(s, s.txns[t]))
  {
    hide SignedIntent;
    hide CurrentIntent;
    hide StoredIntent;
    hide AuthorityOf;
    hide Deadline;
  }

  lemma ExecutionIsSafe(s: State, t: TxnId, state: OrderState)
    requires ConfirmEnabled(s, t, CommitExecution(state))
    requires SnapOk(s.db, s.txns[t]) && ViewOk(s.db, s.txns[t]) && FencesOk(s) && AnswersOk(s)
    requires Shielded(s.txns[t]) ==> LinesOk(s.db, s.txns[t])
    ensures Safe(Record(s, s.txns[t])) && Permitted(s.answers, Record(s, s.txns[t]))
  {
    hide SnapOk;
    hide LinesOk;
    hide Record;
    hide SignedIntent;
    hide Deadline;
    hide IntentBound;
    hide AuthorityCurrent;
    hide InTime;
    hide Unrevoked;
    hide Permitted;
    assert HeardOk(s.answers, s.txns[t]);
    PolicyIsCurrent(s, t);
    ExecutionIsPermitted(s, t);
    ExecutionIsBound(s, t);
    ExecutionIsTimely(s, t);
    ExecutionIsUnrevoked(s, t);
    ExecutionIsDecided(s, t);
  }

  lemma ExecutionIsDecided(s: State, t: TxnId)
    requires ConfirmAt(s, t, AuthorityHeld) && ConfirmOk(s.txns[t])
    requires forall a | a in s.txns[t].job.answers :: a.revision == PdpRevision(s, s.txns[t].job.command.tenant)
    ensures DecidedUnderCurrentPolicy(Record(s, s.txns[t]))
  {
    hide SignedIntent;
    hide CurrentIntent;
    hide StoredIntent;
    hide AuthorityOf;
    hide Deadline;
  }

  // ----------------------------------------------------------- the invariant

  ghost predicate Inv(s: State) {
    && MvccInv(s.db, s.txns) && TxnsOk(s.txns) && LinesInv(s.db, s.txns)
    && FencesOk(s) && AnswersOk(s)
    && CommandInv(s) && NonceInv(s) && RevokeInv(s)
    && (forall e | e in s.log :: Safe(e) && Permitted(s.answers, e))
  }

  lemma InitOk(s: State)
    requires Init(s)
    ensures Inv(s)
  {
    hide SnapOk;
    hide TxnOk;
    hide HeardOk;
    hide Safe;
    forall k ensures Get(s.db, k) == Gone || k in s.db {}
  }

  lemma LogStaysSafe(s: State, t: TxnId, act: ConfirmAct)
    requires ConfirmEnabled(s, t, act) && Inv(s)
    ensures forall e | e in ConfirmApply(s, t, act).log :: Safe(e) && Permitted(ConfirmApply(s, t, act).answers, e)
  {
    hide MvccInv;
    hide CommandInv;
    hide NonceInv;
    hide RevokeInv;
    hide FencesOk;
    hide Safe;
    hide Permitted;
    if act.CommitExecution? {
      ViewHolds(s, t);
      SnapHolds(s, t);
      ExecutionIsSafe(s, t, act.state);
    }
  }

  lemma SnapHolds(s: State, t: TxnId)
    requires MvccInv(s.db, s.txns) && t in s.txns
    ensures SnapOk(s.db, s.txns[t])
  {}

  lemma ConfirmKeepsInv(s: State, t: TxnId, act: ConfirmAct)
    requires ConfirmEnabled(s, t, act) && Inv(s)
    ensures Inv(ConfirmApply(s, t, act))
  {
    hide ConfirmApply;
    hide ConfirmEnabled;
    hide MvccInv;
    hide TxnsOk;
    hide LinesInv;
    hide FencesOk;
    hide AnswersOk;
    hide CommandInv;
    hide NonceInv;
    hide RevokeInv;
    hide Safe;
    hide Permitted;
    if t in s.txns && s.txns[t].job.Confirm? { ViewHolds(s, t); }
    MvccConfirmStep(s, t, act);
    TxnsConfirm(s, t, act);
    LinesConfirmStep(s, t, act);
    FencesConfirm(s, t, act);
    AnswersConfirm(s, t, act);
    CommandsConfirm(s, t, act);
    NonceConfirm(s, t, act);
    RevokeConfirm(s, t, act);
    LogStaysSafe(s, t, act);
  }

  lemma EditKeepsInv(s: State, t: TxnId, act: EditAct)
    requires EditEnabled(s, t, act) && Inv(s)
    ensures Inv(EditApply(s, t, act))
  {
    MvccEditStep(s, t, act);
    TxnsEdit(s, t, act);
    LinesEditStep(s, t, act);
    FencesEdit(s, t, act);
    AnswersEdit(s, t, act);
    CommandsEdit(s, t, act);
    NonceEdit(s, t, act);
    RevokeEdit(s, t, act);
  }

  lemma PdpKeepsInv(s: State, act: PdpAct)
    requires PdpEnabled(s, act) && Inv(s)
    ensures Inv(PdpApply(s, act))
  {
    MvccPdpStep(s, act);
    LinesPdpStep(s, act);
    FencesPdp(s, act);
    AnswersPdp(s, act);
    CommandsPdp(s, act);
    NoncePdp(s, act);
    RevokePdp(s, act);
  }

  lemma StepKeepsInv(s: State, step: Step)
    requires Enabled(s, step) && Inv(s)
    ensures Inv(Apply(s, step))
  {
    match step
    case ByConfirm(t, act) => ConfirmKeepsInv(s, t, act);
    case ByEdit(t, act) => EditKeepsInv(s, t, act);
    case ByPdp(act) => PdpKeepsInv(s, act);
  }

  lemma {:induction false} RunKeepsInv(s: State, steps: seq<Step>)
    requires IsRun(s, steps) && Inv(s)
    ensures Inv(After(s, steps))
    decreases |steps|
  {
    if steps != [] {
      StepKeepsInv(s, steps[0]);
      RunKeepsInv(Apply(s, steps[0]), steps[1..]);
    }
  }

  /** States some run from an initial state leads to. */
  ghost predicate Reachable(s: State) {
    exists start, steps :: Init(start) && IsRun(start, steps) && After(start, steps) == s
  }

  lemma ReachableInv(s: State)
    requires Reachable(s)
    ensures Inv(s)
  {
    var start, steps :| Init(start) && IsRun(start, steps) && After(start, steps) == s;
    InitOk(start);
    RunKeepsInv(start, steps);
  }

  // ------------------------------------------------------------ main theorems

  /** Policy fence: however writers, bootstraps, answers, edits and crashes
      interleave, each committed execution was decided under exactly the PDP
      revision of its commit, under current local authority, and in time. */
  lemma PolicyFenceSafety(s: State, e: Execution)
    requires Reachable(s) && e in s.log
    ensures e.answers != [] && forall a | a in e.answers :: a.revision == e.pdpRevision
    ensures e.authorityRead == e.authorityNow && InTime(e)
  {
    ReachableInv(s);
  }

  /** Nothing executes that the PDP did not allow: each execution relied on
      answers the PDP gave for its tenant under the revision of its commit, all of
      which allow; a direct one on an answer that asks for no approval. */
  lemma ExecutionWasAllowed(s: State, e: Execution)
    requires Reachable(s) && e in s.log
    ensures forall a | a in e.answers ::
              && a in s.answers && a.allow && a.tenant == e.command.tenant && a.revision == e.pdpRevision
              && (a.tenant, a.revision) in s.fetched
    ensures !e.approved ==> |e.answers| == 1 && !e.answers[0].needsApproval
    ensures e.approved ==> |e.answers| == 2 && !e.answers[0].needsApproval
  {
    ReachableInv(s);
  }

  /** Intent binding: an approved execution signed the intent its approval
      stored, and an execution that began beside no editor from before the
      delegation signed the intent of the order and all its lines at the commit. */
  lemma ApprovedIntentBinding(s: State, e: Execution)
    requires Reachable(s) && e in s.log
    ensures e.approved ==> e.stored == Some(e.signed)
    ensures !e.exposed ==> e.current == Some(e.signed)
  {
    ReachableInv(s);
  }

  /** At most once: no command executes twice, no stored attempt is pending, an
      attempt is executed exactly when the log shows it, and a command id is
      never shared by two orders. */
  lemma AtMostOnce(s: State)
    requires Reachable(s)
    ensures forall i, j | 0 <= i < j < |s.log| :: s.log[i].command != s.log[j].command
    ensures forall c :: Get(s.db, AttemptKey(c)).AttemptRow? ==> Get(s.db, AttemptKey(c)).attempt != AttemptPending
    ensures forall c :: InLog(s.log, c) <==>
                        Get(s.db, AttemptKey(c)).AttemptRow? && Get(s.db, AttemptKey(c)).attempt == Executed
    ensures forall c: Command, d: Command | c.nonce == d.nonce
              && Get(s.db, AttemptKey(c)).AttemptRow? && Get(s.db, AttemptKey(d)).AttemptRow? ::
              Get(s.db, AttemptKey(c)).order == Get(s.db, AttemptKey(d)).order
  {
    ReachableInv(s);
    forall c ensures CommandOk(s.log, c, Get(s.db, AttemptKey(c)), Get(s.db, ApprovalKey(c))) {}
    forall c: Command, d: Command | c.nonce == d.nonce
      && Get(s.db, AttemptKey(c)).AttemptRow? && Get(s.db, AttemptKey(d)).AttemptRow?
      ensures Get(s.db, AttemptKey(c)).order == Get(s.db, AttemptKey(d)).order
    {
      assert HoldsNonce(s.db, Get(s.db, AttemptKey(c)).order) && HoldsNonce(s.db, Get(s.db, AttemptKey(d)).order);
    }
  }

  // ------------------------------------------------------ what never comes back

  predicate Terminal(a: ApprovalState) {
    a.Rejected? || a.Invalidated? || a.Expired? || a.Consumed?
  }

  /** The life of an approval: created pending, approved once, then ended once. */
  predicate ApprovalMove(p: Row, q: Row) {
    || q == p
    || (p == Gone && q.ApprovalRow? && q.approval == Pending)
    || (p.ApprovalRow? && q.ApprovalRow? && q.subject == p.subject && q.intent == p.intent
        && ((p.approval == Pending && q.approval == Approved)
            || (p.approval == Approved && (q.approval == Invalidated || q.approval == Expired || q.approval == Consumed))))
  }

  predicate ReadyRow(r: Row) {
    r.PolicyRow? && r.ready
  }

  /** What one step may change: approvals along their life, tombstones never
      back, and executions only past an open fence. */
  ghost predicate Moves(s: State, s': State) {
    && s.log <= s'.log
    && (forall i | |s.log| <= i < |s'.log| ::
          && Get(s.db, FenceOf(s'.log[i].command)) != FenceRow(true)
          && ReadyRow(Get(s.db, PolicyKey(s'.log[i].command.tenant))))
    && (forall c :: ApprovalMove(Get(s.db, ApprovalKey(c)), Get(s'.db, ApprovalKey(c))))
    && (forall tn, g :: Get(s.db, FenceKey(tn, g)) == FenceRow(true) ==> Get(s'.db, FenceKey(tn, g)) == FenceRow(true))
  }

  lemma ExecutionMoves(s: State, t: TxnId, state: OrderState)
    requires ConfirmAt(s, t, AuthorityHeld) && ViewOk(s.db, s.txns[t])
    ensures Moves(s, Commit(s, t, ExecutionWrites(s.txns[t], state)).(log := s.log + [Record(s, s.txns[t])]))
  {
    hide SignedIntent;
    hide CurrentIntent;
    hide StoredIntent;
    hide AuthorityOf;
    hide IntentOf;
    hide Deadline;
    hide ExecutionWrites;
    hide Get;
    var s' := Commit(s, t, ExecutionWrites(s.txns[t], state)).(log := s.log + [Record(s, s.txns[t])]);
    forall d ensures ApprovalMove(Get(s.db, ApprovalKey(d)), Get(s'.db, ApprovalKey(d))) {
      ExecutionRows(s.db, s.txns[t], state, d);
    }
    forall tn, g | Get(s.db, FenceKey(tn, g)) == FenceRow(true) ensures Get(s'.db, FenceKey(tn, g)) == FenceRow(true) {
      ExecutionRows(s.db, s.txns[t], state, Command(tn, g, 0));
    }
  }

  lemma PendingMoves(s: State, t: TxnId)
    requires ConfirmAt(s, t, Parked) && OrderSeen(s.txns[t]).OrderRow?
    requires Get(s.db, ApprovalKey(s.txns[t].job.command)) == Gone
    ensures Moves(s, Commit(s, t, PendingWrites(s.txns[t])))
  {
    hide NextOrder;
    hide IntentOf;
    hide Deadline;
  }

  lemma TerminalMoves(s: State, t: TxnId)
    requires ConfirmEnabled(s, t, CommitTerminal) && ViewOk(s.db, s.txns[t])
    ensures Moves(s, ConfirmApply(s, t, CommitTerminal))
  {
    TerminalCommits(s, t);
    hide SignedIntent;
  }

  lemma UnchangedMoves(s: State, s': State)
    requires s'.db == s.db && s'.log == s.log
    ensures Moves(s, s')
  {}

  lemma ConfirmMoves(s: State, t: TxnId, act: ConfirmAct)
    requires ConfirmEnabled(s, t, act)
    requires t in s.txns && s.txns[t].job.Confirm? ==> ViewOk(s.db, s.txns[t])
    ensures Moves(s, ConfirmApply(s, t, act))
  {
    hide Moves;
    hide SignedIntent;
    match act
    case CommitExecution(state) =>
      ExecutionCommits(s, t, state);
      ExecutionMoves(s, t, state);
    case CommitPending =>
      PendingCommits(s, t);
      assert CanLock(s, t, ApprovalKey(s.txns[t].job.command));
      PendingMoves(s, t);
    case CommitTerminal => TerminalMoves(s, t);
    case _ => UnchangedMoves(s, ConfirmApply(s, t, act));
  }

  lemma EditMoves(s: State, t: TxnId, act: EditAct)
    requires EditEnabled(s, t, act)
    requires act.CommitEdit? ==> TxnOk(s.txns[t]) && SnapOk(s.db, s.txns[t])
    ensures Moves(s, EditApply(s, t, act))
  {
    if act.CommitEdit? {
      CommitEditMoves(s, t);
    } else {
      EditWritesLater(s, t, act);
    }
    hide EditEnabled;
    hide EditApply;
  }

  lemma CommitEditMoves(s: State, t: TxnId)
    requires EditEnabled(s, t, CommitEdit) && TxnOk(s.txns[t]) && SnapOk(s.db, s.txns[t])
    ensures Moves(s, EditApply(s, t, CommitEdit))
  {
    hide TxnOk;
    hide SnapOk;
    forall c ensures ApprovalMove(Get(s.db, ApprovalKey(c)), Get(s.db + s.txns[t].writes, ApprovalKey(c))) {
      EditedRows(s.db, s.txns[t], c);
    }
    forall tn, g ensures FenceKey(tn, g) !in s.txns[t].writes { EditsNoFence(s.txns[t], tn, g); }
  }

  lemma PdpMoves(s: State, act: PdpAct)
    requires PdpEnabled(s, act)
    ensures Moves(s, PdpApply(s, act))
  {}

  /** Every step moves approvals only along their life, never takes a tombstone
      back, and executes only past an open fence without a tombstone. */
  lemma StepMoves(s: State, step: Step)
    requires Enabled(s, step) && Inv(s)
    ensures Moves(s, Apply(s, step))
  {
    match step
    case ByConfirm(t, act) =>
      if t in s.txns && s.txns[t].job.Confirm? { ViewHolds(s, t); }
      ConfirmMoves(s, t, act);
    case ByEdit(t, act) => EditMoves(s, t, act);
    case ByPdp(act) => PdpMoves(s, act);
  }

  lemma {:induction false} TerminalRun(s: State, steps: seq<Step>, c: Command)
    requires Inv(s) && IsRun(s, steps)
    requires Get(s.db, ApprovalKey(c)).ApprovalRow? && Terminal(Get(s.db, ApprovalKey(c)).approval)
    ensures Get(After(s, steps).db, ApprovalKey(c)) == Get(s.db, ApprovalKey(c))
    decreases |steps|
  {
    hide ConfirmEnabled;
    hide EditEnabled;
    hide PdpEnabled;
    hide ConfirmApply;
    hide EditApply;
    hide PdpApply;
    if steps != [] {
      StepMoves(s, steps[0]);
      assert ApprovalMove(Get(s.db, ApprovalKey(c)), Get(Apply(s, steps[0]).db, ApprovalKey(c)));
      StepKeepsInv(s, steps[0]);
      TerminalRun(Apply(s, steps[0]), steps[1..], c);
    }
  }

  /** A terminal approval never changes again. */
  lemma TerminalApprovalsNeverChange(s: State, steps: seq<Step>, c: Command)
    requires Reachable(s) && IsRun(s, steps)
    requires Get(s.db, ApprovalKey(c)).ApprovalRow? && Terminal(Get(s.db, ApprovalKey(c)).approval)
    ensures Get(After(s, steps).db, ApprovalKey(c)) == Get(s.db, ApprovalKey(c))
  {
    ReachableInv(s);
    TerminalRun(s, steps, c);
  }

  predicate IsConsumed(db: Db, c: Command) {
    Get(db, ApprovalKey(c)).ApprovalRow? && Get(db, ApprovalKey(c)).approval == Consumed
  }

  /** The attempt of `c` is executed and its order final. */
  predicate ExecutedFinal(db: Db, c: Command) {
    var a := Get(db, AttemptKey(c));
    && a.AttemptRow? && a.attempt == Executed
    && Get(db, OrderKey(a.order)).OrderRow? && Get(db, OrderKey(a.order)).state == Final
  }

  predicate IsApproved(db: Db, c: Command) {
    Get(db, ApprovalKey(c)).ApprovalRow? && Get(db, ApprovalKey(c)).approval == Approved
  }

  lemma ConsumedByExecution(s: State, t: TxnId, state: OrderState, c: Command)
    requires ConfirmAt(s, t, AuthorityHeld) && ViewOk(s.db, s.txns[t]) && (s.txns[t].job.approved ==> state == Final)
    requires IsConsumed(s.db + ExecutionWrites(s.txns[t], state), c) && !IsConsumed(s.db, c)
    ensures state == Final && ExecutedFinal(s.db + ExecutionWrites(s.txns[t], state), c) && IsApproved(s.db, c)
  {
    hide Deadline;
    hide SignedIntent;
    ExecutionRows(s.db, s.txns[t], state, c);
    assert Get(s.db + ExecutionWrites(s.txns[t], state), OrderKey(s.txns[t].job.order)) == NextOrder(s.txns[t], state);
    hide ExecutionWrites;
  }

  lemma ConsumedByConfirm(s: State, t: TxnId, act: ConfirmAct, c: Command)
    requires ConfirmEnabled(s, t, act) && IsConsumed(ConfirmApply(s, t, act).db, c) && !IsConsumed(s.db, c)
    requires t in s.txns && s.txns[t].job.Confirm? ==> ViewOk(s.db, s.txns[t])
    ensures act == CommitExecution(Final) && ExecutedFinal(ConfirmApply(s, t, act).db, c) && IsApproved(s.db, c)
  {
    hide SignedIntent;
    hide IntentOf;
    hide Deadline;
    hide Record;
    hide ExecutionWrites;
    match act
    case CommitExecution(state) =>
      ExecutionCommits(s, t, state);
      ConsumedByExecution(s, t, state, c);
    case CommitPending => PendingCommits(s, t);
    case CommitTerminal => TerminalCommits(s, t);
    case _ =>
  }

  lemma ConsumedNotByEdit(s: State, t: TxnId, act: EditAct, c: Command)
    requires EditEnabled(s, t, act) && !IsConsumed(s.db, c)
    requires act.CommitEdit? ==> TxnOk(s.txns[t])
    ensures !IsConsumed(EditApply(s, t, act).db, c)
  {}

  /** An approval becomes consumed only in the commit that executes its attempt
      and leaves its order final. */
  lemma ConsumedOnlyByExecution(s: State, step: Step, c: Command)
    requires Enabled(s, step) && Reachable(s) && IsConsumed(Apply(s, step).db, c) && !IsConsumed(s.db, c)
    ensures step.ByConfirm? && step.confirm == CommitExecution(Final)
    ensures IsApproved(s.db, c) && ExecutedFinal(Apply(s, step).db, c)
  {
    hide ConfirmApply;
    hide ConfirmEnabled;
    hide EditApply;
    hide EditEnabled;
    hide PdpApply;
    hide PdpEnabled;
    hide MvccInv;
    hide TxnsOk;
    hide ConfirmOk;
    ReachableInv(s);
    match step
    case ByConfirm(t, act) =>
      if t in s.txns && s.txns[t].job.Confirm? { ViewHolds(s, t); }
      ConsumedByConfirm(s, t, act, c);
    case ByEdit(t, act) =>
      EditorOk(s, t, act);
      ConsumedNotByEdit(s, t, act, c);
    case ByPdp(act) => ConsumedNotByPdp(s, act, c);
  }

  lemma EditorOk(s: State, t: TxnId, act: EditAct)
    requires EditEnabled(s, t, act) && TxnsOk(s.txns)
    ensures act.CommitEdit? ==> t in s.txns && TxnOk(s.txns[t])
  {
    hide TxnOk;
  }

  lemma ConsumedNotByPdp(s: State, act: PdpAct, c: Command)
    requires PdpEnabled(s, act) && !IsConsumed(s.db, c)
    ensures !IsConsumed(PdpApply(s, act).db, c)
  {}

  predicate Revoked(s: State, tenant: Tenant, grant: GrantId) {
    Get(s.db, FenceKey(tenant, grant)) == FenceRow(true)
  }

  lemma {:induction false} TombstoneRun(s: State, steps: seq<Step>, tenant: Tenant, grant: GrantId)
    requires Inv(s) && IsRun(s, steps) && Revoked(s, tenant, grant)
    ensures Revoked(After(s, steps), tenant, grant)
    ensures s.log <= After(s, steps).log
    ensures forall i | |s.log| <= i < |After(s, steps).log| ::
              FenceOf(After(s, steps).log[i].command) != FenceKey(tenant, grant)
    decreases |steps|
  {
    hide ConfirmEnabled;
    hide EditEnabled;
    hide PdpEnabled;
    hide ConfirmApply;
    hide EditApply;
    hide PdpApply;
    if steps != [] {
      StepMoves(s, steps[0]);
      StepKeepsInv(s, steps[0]);
      TombstoneRun(Apply(s, steps[0]), steps[1..], tenant, grant);
    }
  }

  /** Once the tombstone of a grant is committed it stays, and nothing executes
      under that grant again. */
  lemma TombstoneIsFinal(s: State, steps: seq<Step>, tenant: Tenant, grant: GrantId)
    requires Reachable(s) && IsRun(s, steps) && Revoked(s, tenant, grant)
    ensures Revoked(After(s, steps), tenant, grant)
    ensures s.log <= After(s, steps).log
    ensures forall i | |s.log| <= i < |After(s, steps).log| ::
              FenceOf(After(s, steps).log[i].command) != FenceKey(tenant, grant)
  {
    ReachableInv(s);
    TombstoneRun(s, steps, tenant, grant);
  }

  /** A revocation that got past its first step has its tombstone, whether the
      PDP publication succeeded or not. */
  lemma RevocationHasTombstone(s: State, id: int)
    requires Reachable(s) && id in s.revokers
    ensures Revoked(s, s.revokers[id].tenant, s.revokers[id].grant)
  {
    ReachableInv(s);
  }

  // ---------------------------------------------------------- crashed writers

  predicate ClosedBy(s: State, tenant: Tenant, token: Token) {
    var r := Get(s.db, PolicyKey(tenant));
    r.PolicyRow? && !r.ready && r.publication == Some(token)
  }

  predicate NeverLifts(steps: seq<Step>, token: Token) {
    forall i | 0 <= i < |steps| :: steps[i] != ByPdp(LiftBarrier(token))
  }

  lemma ClosedConfirm(s: State, t: TxnId, act: ConfirmAct, tenant: Tenant, token: Token)
    requires ConfirmEnabled(s, t, act) && ClosedBy(s, tenant, token)
    requires t in s.txns ==> TxnOk(s.txns[t])
    ensures ClosedBy(ConfirmApply(s, t, act), tenant, token)
  {
    PoliciesKept(s, t, act, tenant);
    hide ConfirmApply;
    hide ConfirmEnabled;
    hide TxnOk;
  }

  lemma ClosedEdit(s: State, t: TxnId, act: EditAct, tenant: Tenant, token: Token)
    requires EditEnabled(s, t, act) && ClosedBy(s, tenant, token) && (t in s.txns ==> TxnOk(s.txns[t]))
    ensures ClosedBy(EditApply(s, t, act), tenant, token)
  {}

  lemma ClosedPdp(s: State, act: PdpAct, tenant: Tenant, token: Token)
    requires PdpEnabled(s, act) && ClosedBy(s, tenant, token) && act != LiftBarrier(token)
    ensures ClosedBy(PdpApply(s, act), tenant, token)
  {}

  lemma ClosedStep(s: State, step: Step, tenant: Tenant, token: Token)
    requires Enabled(s, step) && TxnsOk(s.txns) && ClosedBy(s, tenant, token) && step != ByPdp(LiftBarrier(token))
    ensures ClosedBy(Apply(s, step), tenant, token)
  {
    match step
    case ByConfirm(t, act) => ClosedConfirm(s, t, act, tenant, token);
    case ByEdit(t, act) => ClosedEdit(s, t, act, tenant, token);
    case ByPdp(act) => ClosedPdp(s, act, tenant, token);
  }

  lemma {:induction false} ClosedRun(s: State, steps: seq<Step>, tenant: Tenant, token: Token)
    requires Inv(s) && IsRun(s, steps) && ClosedBy(s, tenant, token) && NeverLifts(steps, token)
    ensures ClosedBy(After(s, steps), tenant, token)
    ensures s.log <= After(s, steps).log
    ensures forall i | |s.log| <= i < |After(s, steps).log| :: After(s, steps).log[i].command.tenant != tenant
    decreases |steps|
  {
    hide ConfirmEnabled;
    hide EditEnabled;
    hide PdpEnabled;
    hide ConfirmApply;
    hide EditApply;
    hide PdpApply;
    if steps != [] {
      assert steps[0] != ByPdp(LiftBarrier(token));
      ClosedStep(s, steps[0], tenant, token);
      StepMoves(s, steps[0]);
      StepKeepsInv(s, steps[0]);
      assert NeverLifts(steps[1..], token) by {
        forall i | 0 <= i < |steps[1..]| ensures steps[1..][i] != ByPdp(LiftBarrier(token)) {
          assert steps[1..][i] == steps[i + 1];
        }
      }
      ClosedRun(Apply(s, steps[0]), steps[1..], tenant, token);
    }
  }

  /** A publication that stops before lifting its barrier leaves the tenant
      closed: nothing executes for it until that same writer lifts. */
  lemma CrashedPublicationFailsClosed(s: State, steps: seq<Step>, tenant: Tenant, token: Token)
    requires Reachable(s) && IsRun(s, steps) && ClosedBy(s, tenant, token) && NeverLifts(steps, token)
    ensures ClosedBy(After(s, steps), tenant, token)
    ensures s.log <= After(s, steps).log
    ensures forall i | |s.log| <= i < |After(s, steps).log| :: After(s, steps).log[i].command.tenant != tenant
  {
    ReachableInv(s);
    ClosedRun(s, steps, tenant, token);
  }
}
