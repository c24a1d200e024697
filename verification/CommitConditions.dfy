/** What each commit of a confirmation finds in the database and what it leaves
    there, row by row. */
module CommitConditions {
  import opened Basics
  import opened ErpDatabase
  import opened CommitProtocol
  import opened CommitInvariants
  import opened CommitSteps
  import opened CommitSafety

  // ---------------------------------------------------------- intents and rows

  /** An intent that says exactly what the rows of its order say. */
  ghost predicate Shows(db: Db, o: OrderId, i: Intent) {
    var r := Get(db, OrderKey(o));
    && r.OrderRow? && i.order == o && i.tenant == r.tenant && i.grant == r.grantId && i.body == r.body
    && i.state == r.state && i.version == r.version && r.nonce == Some(i.command)
    && (forall k | k in i.lines :: k.LineKey? && k.owner == o)
    && (forall l :: LineKey(o, l) in i.lines <==> Get(db, LineKey(o, l)).LineRow?)
    && (forall l | LineKey(o, l) in i.lines :: i.lines[LineKey(o, l)] == Get(db, LineKey(o, l)).content)
  }

  lemma IntentShows(db: Db, o: OrderId, c: Nonce)
    requires Get(db, OrderKey(o)).OrderRow? && Get(db, OrderKey(o)).nonce == Some(c)
    ensures Shows(db, o, IntentOf(o, Get(db, OrderKey(o)), c, db))
  {}

  /** The same of an order whose command id is about to be stored, which makes a
      new version of its row. */
  ghost predicate Signs(db: Db, o: OrderId, n: Nonce, i: Intent) {
    var r := Get(db, OrderKey(o));
    && r.OrderRow? && i.order == o && i.tenant == r.tenant && i.grant == r.grantId && i.body == r.body
    && i.command == n && i.state == r.state && i.version == r.version + (if r.nonce == None then 1 else 0)
    && (forall k | k in i.lines :: k.LineKey? && k.owner == o)
    && (forall l :: LineKey(o, l) in i.lines <==> Get(db, LineKey(o, l)).LineRow?)
    && (forall l | LineKey(o, l) in i.lines :: i.lines[LineKey(o, l)] == Get(db, LineKey(o, l)).content)
  }

  lemma IntentSigns(db: Db, o: OrderId, n: Nonce)
    requires Get(db, OrderKey(o)).OrderRow?
    ensures Signs(db, o, n, IntentOf(o, WithNonce(Get(db, OrderKey(o)), n), n, db))
  {}

  /** Lines other than those of the order, and rows other than its own, have no
      part in it. */
  lemma ShowsAfter(db: Db, db': Db, o: OrderId, c: Nonce, i: Intent)
    requires Get(db', OrderKey(o)).OrderRow? && Get(db', OrderKey(o)).nonce == Some(c)
    requires i == IntentOf(o, Get(db', OrderKey(o)), c, db)
    requires forall l :: Get(db', LineKey(o, l)) == Get(db, LineKey(o, l))
    ensures Shows(db', o, i)
  {
    forall k | GuardOf(k) == Some(OrderKey(o)) ensures Get(db, k) == Get(db', k) {
      assert k == LineKey(o, k.line);
    }
    SameLines(db, db', o);
    IntentShows(db', o, c);
  }

  // ------------------------------------------------------------------ execution

  lemma OnlyExecutionLogs(s: State, step: Step)
    requires Enabled(s, step) && Apply(s, step).log != s.log
    ensures step.ByConfirm? && step.confirm.CommitExecution?
  {
    hide ConfirmEnabled;
    hide ConfirmApply;
    hide EditEnabled;
    hide EditApply;
    hide PdpEnabled;
    hide PdpApply;
    match step
    case ByConfirm(t, act) => if !act.CommitExecution? { ConfirmLogsNothing(s, t, act); }
    case ByEdit(t, act) => EditLogsNothing(s, t, act);
    case ByPdp(act) => PdpLogsNothing(s, act);
  }

  lemma ConfirmLogsNothing(s: State, t: TxnId, act: ConfirmAct)
    requires ConfirmEnabled(s, t, act) && !act.CommitExecution?
    ensures ConfirmApply(s, t, act).log == s.log
  {
    hide SignedIntent;
    hide PendingWrites;
    hide TerminalWrites;
    if !Commits(act) {
      Uncommitted(s, t, act);
      hide ConfirmEnabled;
      hide ConfirmApply;
    }
  }

  lemma PdpLogsNothing(s: State, act: PdpAct)
    requires PdpEnabled(s, act)
    ensures PdpApply(s, act).log == s.log
  {
    hide Barrier;
    hide Lift;
  }

  lemma EditLogsNothing(s: State, t: TxnId, act: EditAct)
    requires EditEnabled(s, t, act)
    ensures EditApply(s, t, act).log == s.log
  {
    hide Touched;
    hide Inserts;
  }

  /** What was true in the database at the instant of the commit. */
  ghost predicate Found(s: State, t: TxnId, e: Execution)
    requires t in s.txns
  {
    var c := e.command;
    var order := Get(s.db, OrderKey(e.order));
    var policy := Get(s.db, PolicyKey(c.tenant));
    var grant := Get(s.db, GrantKey(c.grant));
    && order.OrderRow? && order.delegated && order.tenant == c.tenant && order.grantId == Some(c.grant)
    && (order.nonce == None || order.nonce == Some(c.nonce))
    && Get(s.db, FenceKey(c.tenant, c.grant)) != FenceRow(true)
    && policy.PolicyRow? && policy.ready && (forall a | a in e.answers :: a.revision == policy.revision)
    && Get(s.db, EpochKey).EpochRow?
    && grant.GrantRow? && grant.active && grant.validFrom <= s.clock < grant.until
    && (forall u :: Get(s.txns[t].snap, UserKey(u)) == Get(s.db, UserKey(u)))
    && (forall g :: Get(s.txns[t].snap, GrantKey(g)) == Get(s.db, GrantKey(g)))
  }

  /** What the log keeps of it: the intent signed on what the transaction saw, the
      one that stands, the one approved, and the fence, users and grants of both. */
  ghost predicate Recorded(s: State, t: TxnId, e: Execution)
    requires t in s.txns
  {
    var c, approval := e.command, Get(s.db, ApprovalKey(e.command));
    && e.at == s.clock && e.fence == Get(s.db, FenceKey(c.tenant, c.grant))
    && Signs(s.txns[t].snap, e.order, c.nonce, e.signed)
    && e.current.Some? && Signs(s.db, e.order, c.nonce, e.current.value)
    && (e.stored == if approval.ApprovalRow? then Some(approval.intent) else None)
    && (forall u :: Get(e.authorityRead, UserKey(u)) == Get(s.txns[t].snap, UserKey(u))
                 && Get(e.authorityNow, UserKey(u)) == Get(s.db, UserKey(u)))
    && (forall g :: Get(e.authorityRead, GrantKey(g)) == Get(s.txns[t].snap, GrantKey(g))
                 && Get(e.authorityNow, GrantKey(g)) == Get(s.db, GrantKey(g)))
  }

  ghost predicate FoundDirect(s: State, e: Execution) {
    && Get(s.db, AttemptKey(e.command)) == Gone
    && Get(s.db, GrantKey(e.command.grant)).GrantRow? && e.deadline == Get(s.db, GrantKey(e.command.grant)).until
  }

  ghost predicate FoundApproved(s: State, e: Execution) {
    var attempt := Get(s.db, AttemptKey(e.command));
    var approval := Get(s.db, ApprovalKey(e.command));
    && Get(s.db, OrderKey(e.order)).OrderRow? && Get(s.db, OrderKey(e.order)).state == ToApprove
    && attempt.AttemptRow? && attempt.attempt == ApprovalRequired && attempt.order == e.order
    && s.clock < attempt.validUntil && e.deadline == attempt.validUntil
    && approval.ApprovalRow? && approval.approval == Approved && approval.subject == e.order
    && s.clock < approval.expiresAt && approval.intent == e.signed
    && (!e.exposed ==> Shows(s.db, e.order, approval.intent))
  }

  /** What the commit changes, and that it changes nothing else. */
  ghost predicate Left(db: Db, db': Db, e: Execution) {
    var c := e.command;
    var order := Get(db, OrderKey(e.order));
    var order' := Get(db', OrderKey(e.order));
    && order.OrderRow? && order'.OrderRow? && order'.nonce == Some(c.nonce) && order'.version == order.version + 1
    && order' == order.(nonce := order'.nonce, version := order'.version, state := order'.state)
    && Get(db', AttemptKey(c)) == AttemptRow(e.order, Executed, e.deadline)
    && Get(db', FenceKey(c.tenant, c.grant)) == FenceRow(false)
    && (e.approved ==>
          && order'.state == Final
          && Get(db, ApprovalKey(c)).ApprovalRow?
          && Get(db', ApprovalKey(c)) == Get(db, ApprovalKey(c)).(approval := Consumed))
    && (!e.approved ==> Get(db', ApprovalKey(c)) == Get(db, ApprovalKey(c)))
    && (forall k | k != OrderKey(e.order) && k != AttemptKey(c) && k != ApprovalKey(c) && k != FenceKey(c.tenant, c.grant) ::
          Get(db', k) == Get(db, k))
  }

  lemma CommitFinds(s: State, t: TxnId)
    requires ConfirmAt(s, t, AuthorityHeld) && SnapOk(s.db, s.txns[t]) && ViewOk(s.db, s.txns[t])
    requires DeadlineHolds(s.txns[t], s.clock)
    ensures Found(s, t, Record(s, s.txns[t]))
  {
    hide SignedIntent;
    hide CurrentIntent;
    hide StoredIntent;
    hide AuthorityOf;
    hide Deadline;
    var tx := s.txns[t];
    assert forall k | GuardOf(k) == Some(EpochKey) :: Get(tx.snap, k) == Get(s.db, k);
    assert GuardOf(GrantKey(tx.job.command.grant)) == Some(EpochKey);
    assert OrderSeen(tx).delegated;
    hide SnapOk;
  }

  lemma CommitRecords(s: State, t: TxnId)
    requires ConfirmAt(s, t, AuthorityHeld) && OrderSeen(s.txns[t]).OrderRow?
    requires Get(s.db, OrderKey(s.txns[t].job.order)).OrderRow?
    ensures Recorded(s, t, Record(s, s.txns[t]))
  {
    var tx := s.txns[t];
    var o, n := tx.job.order, tx.job.command.nonce;
    IntentSigns(tx.snap, o, n);
    IntentSigns(s.db, o, n);
    hide Signs;
    hide IntentOf;
    hide WithNonce;
    hide Deadline;
    hide PdpRevision;
    AuthorityRows(tx.snap);
    AuthorityRows(s.db);
    hide AuthorityOf;
  }

  lemma AuthorityRows(db: Db)
    ensures forall k: Key | k.UserKey? || k.GrantKey? :: Get(AuthorityOf(db), k) == Get(db, k)
  {}

  lemma CommitFindsDirect(s: State, t: TxnId)
    requires ConfirmAt(s, t, AuthorityHeld) && ViewOk(s.db, s.txns[t]) && !s.txns[t].job.approved
    requires DeadlineHolds(s.txns[t], s.clock) && Found(s, t, Record(s, s.txns[t]))
    ensures FoundDirect(s, Record(s, s.txns[t]))
  {
    hide SignedIntent;
    hide CurrentIntent;
    hide StoredIntent;
    hide AuthorityOf;
  }

  lemma CommitFindsApproved(s: State, t: TxnId)
    requires ConfirmAt(s, t, AuthorityHeld) && ViewOk(s.db, s.txns[t]) && s.txns[t].job.approved
    requires DeadlineHolds(s.txns[t], s.clock) && IntentBound(Record(s, s.txns[t]))
    ensures FoundApproved(s, Record(s, s.txns[t]))
  {
    var tx := s.txns[t];
    var e := Record(s, tx);
    hide AuthorityOf;
    hide SignedIntent;
    if !e.exposed {
      var o, c := tx.job.order, tx.job.command;
      var r := Get(s.db, OrderKey(o));
      assert r.nonce == Some(c.nonce);
      assert e.current == Some(IntentOf(o, r, c.nonce, s.db));
      IntentShows(s.db, o, c.nonce);
    }
  }

  lemma CommitLeaves(s: State, t: TxnId, state: OrderState)
    requires ConfirmAt(s, t, AuthorityHeld) && ViewOk(s.db, s.txns[t]) && (s.txns[t].job.approved ==> state == Final)
    ensures Left(s.db, s.db + ExecutionWrites(s.txns[t], state), Record(s, s.txns[t]))
  {
    var tx := s.txns[t];
    ExecutionRows(s.db, tx, state, tx.job.command);
    OtherRows(s.db, tx, state);
    NextRow(tx, state);
    hide NextOrder;
    hide ExecutionWrites;
    hide SignedIntent;
    hide CurrentIntent;
    hide StoredIntent;
    hide AuthorityOf;
    hide Deadline;
  }

  lemma NextRow(tx: Txn, state: OrderState)
    requires tx.job.Confirm? && OrderSeen(tx).OrderRow?
    requires OrderSeen(tx).nonce.Some? ==> OrderSeen(tx).nonce == Some(tx.job.command.nonce)
    ensures var r := OrderSeen(tx);
      NextOrder(tx, state) == r.(nonce := Some(tx.job.command.nonce), version := r.version + 1, state := state)
  {
  }

  lemma OtherRows(db: Db, tx: Txn, state: OrderState)
    requires tx.job.Confirm? && OrderSeen(tx).OrderRow? && (tx.job.approved ==> ApprovalSeen(tx).ApprovalRow?)
    ensures var db', c := db + ExecutionWrites(tx, state), tx.job.command;
      && Get(db', OrderKey(tx.job.order)) == NextOrder(tx, state)
      && forall k | k != OrderKey(tx.job.order) && k != AttemptKey(c) && k != ApprovalKey(c) && k != FenceOf(c) ::
           Get(db', k) == Get(db, k)
  {
    hide NextOrder;
    hide Deadline;
  }

  /** Every execution, when it commits, finds the order delegated under a grant
      that is current and not revoked, the fence open at the revision of all its
      answers, and what it read of users and grants unchanged; a direct one finds
      its command new, an approved one an unexpired approval of exactly the order
      and lines that stand there. It marks the attempt executed and the approval
      consumed, and changes nothing else. */
  lemma ExecutionConditions(s: State, step: Step, e: Execution)
    requires Reachable(s) && Enabled(s, step) && Apply(s, step).log == s.log + [e]
    ensures step.ByConfirm? && step.confirm.CommitExecution? && step.t in s.txns
    ensures Found(s, step.t, e) && Recorded(s, step.t, e) && Left(s.db, Apply(s, step).db, e)
    ensures if e.approved then FoundApproved(s, e) else FoundDirect(s, e)
  {
    hide Found;
    hide Recorded;
    hide FoundDirect;
    hide FoundApproved;
    hide Left;
    hide ViewOk;
    hide ConfirmOk;
    hide SnapOk;
    hide EditEnabled;
    hide EditApply;
    hide PdpEnabled;
    hide PdpApply;
    OnlyExecutionLogs(s, step);
    var t, state := step.t, step.confirm.state;
    ReachableInv(s);
    ViewHolds(s, t);
    SnapHolds(s, t);
    LogEntry(s, t, state, e);
    CommitFinds(s, t);
    CommitRecords(s, t);
    CommitLeaves(s, t, state);
    if e.approved {
      ExecutionBinds(s, t);
      CommitFindsApproved(s, t);
    } else {
      CommitFindsDirect(s, t);
    }
  }

  lemma LogEntry(s: State, t: TxnId, state: OrderState, e: Execution)
    requires ConfirmEnabled(s, t, CommitExecution(state)) && ConfirmOk(s.txns[t])
    requires ConfirmApply(s, t, CommitExecution(state)).log == s.log + [e]
    ensures e == Record(s, s.txns[t])
    ensures ConfirmApply(s, t, CommitExecution(state)).db == s.db + ExecutionWrites(s.txns[t], state)
  {
    hide Record;
    hide ExecutionWrites;
    ExecutionCommits(s, t, state);
    var log := ConfirmApply(s, t, CommitExecution(state)).log;
    assert log[|s.log|] == e && log[|s.log|] == Record(s, s.txns[t]);
  }

  lemma ExecutionBinds(s: State, t: TxnId)
    requires Inv(s) && ConfirmAt(s, t, AuthorityHeld) && SnapOk(s.db, s.txns[t]) && ViewOk(s.db, s.txns[t])
    ensures IntentBound(Record(s, s.txns[t]))
  {
    hide SnapOk;
    hide ViewOk;
    hide LinesOk;
    hide IntentBound;
    hide Record;
    hide Shielded;
    LinesHold(s.db, s.txns, t);
    ExecutionIsBound(s, t);
  }

  lemma LinesHold(db: Db, txns: map<TxnId, Txn>, t: TxnId)
    requires LinesInv(db, txns) && t in txns
    ensures Shielded(txns[t]) ==> LinesOk(db, txns[t])
  {
    hide LinesOk;
  }

  // --------------------------------------------------------------------- parking

  /** What a parked confirmation leaves: the order awaiting approval, and an
      approval still to be given for the order as it now stands. */
  ghost predicate Parked(db: Db, db': Db, j: Job, until: int)
    requires j.Confirm?
  {
    var c, o := j.command, j.order;
    var order := Get(db, OrderKey(o));
    var order' := Get(db', OrderKey(o));
    var approval := Get(db', ApprovalKey(c));
    && order.OrderRow? && order'.OrderRow? && order'.nonce == Some(c.nonce) && order'.version == order.version + 1
    && order' == order.(nonce := order'.nonce, version := order'.version, state := ToApprove)
    && Get(db', AttemptKey(c)) == AttemptRow(o, ApprovalRequired, until)
    && approval.ApprovalRow? && approval.approval == Pending && approval.subject == o
    && (!j.exposed ==> Shows(db', o, approval.intent))
    && (forall k | k != OrderKey(o) && k != AttemptKey(c) && k != ApprovalKey(c) :: Get(db', k) == Get(db, k))
  }

  lemma ParkedRows(s: State, t: TxnId)
    requires ConfirmAt(s, t, Stage.Parked) && ViewOk(s.db, s.txns[t]) && SnapOk(s.db, s.txns[t])
    requires Shielded(s.txns[t]) ==> LinesOk(s.db, s.txns[t])
    ensures Parked(s.db, s.db + PendingWrites(s.txns[t]), s.txns[t].job, Deadline(s.txns[t]))
  {
    hide Deadline;
    hide SignedIntent;
    hide Shows;
    var tx := s.txns[t];
    var o, db' := tx.job.order, s.db + PendingWrites(tx);
    assert OrderSeen(tx).delegated;
    hide SnapOk;
    if !tx.job.exposed {
      ParkedLines(s.db, tx, db');
      ShowsAfter(tx.snap, db', o, tx.job.command.nonce, Get(db', ApprovalKey(tx.job.command)).intent);
    }
    hide IntentOf;
    hide LinesOk;
  }

  lemma ParkedLines(db: Db, tx: Txn, db': Db)
    requires tx.job.Confirm? && LinesOk(db, tx) && ViewOk(db, tx) && !tx.job.stage.Begun?
    requires OrderSeen(tx).OrderRow? && db' == db + PendingWrites(tx)
    ensures forall l :: Get(db', LineKey(tx.job.order, l)) == Get(tx.snap, LineKey(tx.job.order, l))
  {
    hide Deadline;
    hide SignedIntent;
    hide IntentOf;
    hide NextOrder;
    forall l ensures Get(db', LineKey(tx.job.order, l)) == Get(tx.snap, LineKey(tx.job.order, l)) {
      assert GuardOf(LineKey(tx.job.order, l)) == Some(OrderKey(tx.job.order));
    }
  }

  lemma AppearsByParking(s: State, step: Step, c: Command)
    requires Enabled(s, step) && Inv(s)
    requires Get(s.db, ApprovalKey(c)) == Gone && Get(Apply(s, step).db, ApprovalKey(c)) != Gone
    ensures step.ByConfirm? && step.confirm.CommitPending? && step.t in s.txns && s.txns[step.t].job.command == c
  {
    StepTouches(s, step, c);
  }

  /** The steps that may change the approval of a command. */
  lemma StepTouches(s: State, step: Step, c: Command)
    requires Enabled(s, step) && Inv(s) && Get(Apply(s, step).db, ApprovalKey(c)) != Get(s.db, ApprovalKey(c))
    ensures step.ByConfirm? ==> Commits(step.confirm) && step.t in s.txns && s.txns[step.t].job.Confirm?
                                && s.txns[step.t].job.command == c
    ensures step.ByConfirm? && step.confirm.CommitExecution? ==> Get(s.db, ApprovalKey(c)).ApprovalRow?
    ensures step.ByConfirm? && step.confirm.CommitTerminal? ==> Get(s.db, ApprovalKey(c)).ApprovalRow?
    ensures step.ByEdit? ==> step.edit.CommitEdit? && step.t in s.txns && ApprovalKey(c) in s.txns[step.t].writes
                             && Get(s.db, ApprovalKey(c)).ApprovalRow?
    ensures !step.ByPdp?
  {
    hide MvccInv;
    hide TxnsOk;
    hide ConfirmEnabled;
    hide ConfirmApply;
    hide EditEnabled;
    hide EditApply;
    hide PdpEnabled;
    hide PdpApply;
    match step
    case ByConfirm(t, act) =>
      if t in s.txns && s.txns[t].job.Confirm? { ViewHolds(s, t); }
      ConfirmTouches(s, t, act, c);
    case ByEdit(t, act) => EditTouches(s, t, act, c);
    case ByPdp(act) => PdpTouches(s, act, c);
  }

  lemma ConfirmTouches(s: State, t: TxnId, act: ConfirmAct, c: Command)
    requires ConfirmEnabled(s, t, act) && (t in s.txns && s.txns[t].job.Confirm? ==> ViewOk(s.db, s.txns[t]))
    requires Get(ConfirmApply(s, t, act).db, ApprovalKey(c)) != Get(s.db, ApprovalKey(c))
    ensures Commits(act) && t in s.txns && s.txns[t].job.Confirm? && s.txns[t].job.command == c
    ensures act.CommitExecution? || act.CommitTerminal? ==> s.txns[t].job.approved && Get(s.db, ApprovalKey(c)).ApprovalRow?
  {
    hide ConfirmApply;
    hide ConfirmEnabled;
    hide ViewOk;
    hide ConfirmOk;
    hide Record;
    hide ExecutionWrites;
    hide PendingWrites;
    hide TerminalWrites;
    CommitsConfirmation(s, t, act);
    if !Commits(act) {
      Uncommitted(s, t, act);
    } else {
      ViewIsConfirm(s.db, s.txns[t]);
      match act
      case CommitExecution(state) =>
        ExecutionCommits(s, t, state);
        ExecutionTouches(s.db, s.txns[t], state, c);
      case CommitPending =>
        PendingCommits(s, t);
        PendingTouches(s.db, s.txns[t], c);
      case CommitTerminal =>
        TerminalCommits(s, t);
        TerminalTouches(s.db, s.txns[t], c);
    }
  }

  lemma ViewIsConfirm(db: Db, tx: Txn)
    requires tx.job.Confirm? && ViewOk(db, tx)
    ensures ConfirmOk(tx)
    ensures !tx.job.stage.Begun? ==> OrderSeen(tx).OrderRow?
    ensures tx.job.approved ==> ApprovalSeen(tx).ApprovalRow?
    ensures tx.job.stage.Terminating? ==> tx.job.approved
  {}

  lemma ExecutionTouches(db: Db, tx: Txn, state: OrderState, c: Command)
    requires tx.job.Confirm? && ViewOk(db, tx) && tx.job.stage == AuthorityHeld
    requires Get(db + ExecutionWrites(tx, state), ApprovalKey(c)) != Get(db, ApprovalKey(c))
    ensures tx.job.command == c && tx.job.approved && Get(db, ApprovalKey(c)).ApprovalRow?
  {
    hide ExecutionWrites;
    hide SignedIntent;
    hide Deadline;
    ExecutionRows(db, tx, state, c);
  }

  lemma PendingTouches(db: Db, tx: Txn, c: Command)
    requires tx.job.Confirm? && OrderSeen(tx).OrderRow?
    requires Get(db + PendingWrites(tx), ApprovalKey(c)) != Get(db, ApprovalKey(c))
    ensures tx.job.command == c
  {
    hide NextOrder;
    hide IntentOf;
    hide Deadline;
  }

  lemma TerminalTouches(db: Db, tx: Txn, c: Command)
    requires tx.job.Confirm? && ViewOk(db, tx) && tx.job.stage.Terminating? && ApprovalSeen(tx).ApprovalRow?
    requires Get(db + TerminalWrites(tx), ApprovalKey(c)) != Get(db, ApprovalKey(c))
    ensures tx.job.command == c && Get(db, ApprovalKey(c)).ApprovalRow?
  {
    hide SignedIntent;
  }

  lemma EditTouches(s: State, t: TxnId, act: EditAct, c: Command)
    requires EditEnabled(s, t, act) && MvccInv(s.db, s.txns) && TxnsOk(s.txns)
    requires Get(EditApply(s, t, act).db, ApprovalKey(c)) != Get(s.db, ApprovalKey(c))
    ensures act.CommitEdit? && t in s.txns && ApprovalKey(c) in s.txns[t].writes && Get(s.db, ApprovalKey(c)).ApprovalRow?
  {
    assert act.CommitEdit?;
    var tx := s.txns[t];
    assert TxnOk(tx) && SnapOk(s.db, tx);
    hide EditEnabled;
    hide EditApply;
    hide ConfirmOk;
    hide OrdersOk;
    assert ApprovalKey(c) in tx.locks ==> Get(tx.snap, ApprovalKey(c)) == Get(s.db, ApprovalKey(c));
  }

  lemma PdpTouches(s: State, act: PdpAct, c: Command)
    requires PdpEnabled(s, act)
    ensures Get(PdpApply(s, act).db, ApprovalKey(c)) == Get(s.db, ApprovalKey(c))
  {}

  /** An approval comes into being only for a command that the PDP allows and asks
      to have approved, and it is for the order as the same commit leaves it. */
  lemma ParkingConditions(s: State, step: Step, c: Command)
    requires Reachable(s) && Enabled(s, step)
    requires Get(s.db, ApprovalKey(c)) == Gone && Get(Apply(s, step).db, ApprovalKey(c)) != Gone
    ensures step.ByConfirm? && step.t in s.txns && s.txns[step.t].job.Confirm?
    ensures var j := s.txns[step.t].job;
      && j.command == c && |j.answers| == 1 && j.answers[0] in s.answers
      && j.answers[0].allow && j.answers[0].needsApproval && j.answers[0].tenant == c.tenant
    ensures var j, grant := s.txns[step.t].job, Get(s.txns[step.t].snap, GrantKey(c.grant));
      Parked(s.db, Apply(s, step).db, j, if grant.GrantRow? then grant.until else 0)
  {
    hide Parked;
    hide SnapOk;
    hide ViewOk;
    hide LinesOk;
    hide ConfirmOk;
    hide Shielded;
    hide EditEnabled;
    hide EditApply;
    hide PdpEnabled;
    hide PdpApply;
    ReachableInv(s);
    AppearsByParking(s, step, c);
    var t := step.t;
    ViewHolds(s, t);
    SnapHolds(s, t);
    LinesHold(s.db, s.txns, t);
    assert HeardOk(s.answers, s.txns[t]);
    ParkedIsDirect(s.db, s.txns[t]);
    PendingCommits(s, t);
    ParkedRows(s, t);
  }

  lemma ParkedIsDirect(db: Db, tx: Txn)
    requires tx.job.Confirm? && ViewOk(db, tx) && tx.job.stage.Parked?
    ensures !tx.job.approved && ConfirmOk(tx)
  {}

  // ---------------------------------------------------- giving and ending approvals

  /** An approval is given only while its order awaits it, under a grant that was
      active when the approver looked and that it does not outlive. */
  lemma ApprovalConditions(s: State, step: Step, c: Command)
    requires Reachable(s) && Enabled(s, step)
    requires Get(s.db, ApprovalKey(c)).ApprovalRow? && Get(s.db, ApprovalKey(c)).approval == Pending
    requires IsApproved(Apply(s, step).db, c)
    ensures step.ByEdit? && step.t in s.txns
    ensures var g := Get(s.txns[step.t].snap, GrantKey(c.grant));
      g.GrantRow? && g.active && Get(Apply(s, step).db, ApprovalKey(c)).expiresAt <= g.until
    ensures var o := Get(s.db, ApprovalKey(c)).subject;
      Get(s.db, OrderKey(o)).OrderRow? && Get(s.db, OrderKey(o)).state == ToApprove
    ensures Get(Apply(s, step).db, ApprovalKey(c)).intent == Get(s.db, ApprovalKey(c)).intent
  {
    hide ConfirmEnabled;
    hide ConfirmApply;
    hide PdpEnabled;
    hide PdpApply;
    hide MvccInv;
    hide TxnsOk;
    hide LinesInv;
    ReachableInv(s);
    StepTouches(s, step, c);
    match step
    case ByConfirm(t, act) =>
      ViewHolds(s, t);
      ConfirmNeverApproves(s, t, act, c);
    case ByEdit(t, act) => IssueFinds(s, t, c);
    case ByPdp(_) =>
  }

  lemma ConfirmNeverApproves(s: State, t: TxnId, act: ConfirmAct, c: Command)
    requires ConfirmEnabled(s, t, act) && (t in s.txns && s.txns[t].job.Confirm? ==> ViewOk(s.db, s.txns[t]))
    requires !IsApproved(s.db, c)
    ensures !IsApproved(ConfirmApply(s, t, act).db, c)
  {
    ConfirmMoves(s, t, act);
    hide ConfirmApply;
    hide ConfirmEnabled;
    assert ApprovalMove(Get(s.db, ApprovalKey(c)), Get(ConfirmApply(s, t, act).db, ApprovalKey(c)));
    if IsApproved(ConfirmApply(s, t, act).db, c) {
      assert Get(s.db, ApprovalKey(c)).ApprovalRow? && Get(s.db, ApprovalKey(c)).approval == Pending;
      ConfirmKeepsPending(s, t, act, c);
    }
  }

  lemma ConfirmKeepsPending(s: State, t: TxnId, act: ConfirmAct, c: Command)
    requires ConfirmEnabled(s, t, act) && (t in s.txns && s.txns[t].job.Confirm? ==> ViewOk(s.db, s.txns[t]))
    requires Get(s.db, ApprovalKey(c)).ApprovalRow? && Get(s.db, ApprovalKey(c)).approval == Pending
    ensures Get(ConfirmApply(s, t, act).db, ApprovalKey(c)) == Get(s.db, ApprovalKey(c))
  {
    hide ConfirmApply;
    hide ConfirmEnabled;
    hide ViewOk;
    if Get(ConfirmApply(s, t, act).db, ApprovalKey(c)) != Get(s.db, ApprovalKey(c)) {
      ConfirmTouches(s, t, act, c);
      ParkedFindsNone(s, t, act);
    }
  }

  /** A confirmation that stores an approval found none, and one that ends an
      approval found it given. */
  lemma ParkedFindsNone(s: State, t: TxnId, act: ConfirmAct)
    requires ConfirmEnabled(s, t, act) && Commits(act) && t in s.txns && s.txns[t].job.Confirm? && ViewOk(s.db, s.txns[t])
    ensures var p := Get(s.db, ApprovalKey(s.txns[t].job.command));
      if act.CommitPending? then p == Gone else s.txns[t].job.approved ==> p.ApprovalRow? && p.approval == Approved
  {
    hide SignedIntent;
  }

  /** Whichever step opens an approver's transaction finds the approval pending,
      its order waiting for it, and the grant in force at that time. */
  lemma ApproverFinds(s: State, step: Step, t: TxnId) returns (c: Command)
    requires Enabled(s, step) && t !in s.txns && t in Apply(s, step).txns && Apply(s, step).txns[t].job.Issue?
    ensures var tx, p, g := Apply(s, step).txns[t], Get(s.db, ApprovalKey(c)), Get(s.db, GrantKey(c.grant));
      && tx.snap == s.db && tx.writes.Keys == {ApprovalKey(c)}
      && p.ApprovalRow? && p.approval == Pending && Get(s.db, OrderKey(p.subject)).OrderRow?
      && Get(s.db, OrderKey(p.subject)).state == ToApprove
      && g.GrantRow? && g.active && s.clock < g.until
  {
    hide ConfirmEnabled;
    hide ConfirmApply;
    hide EditEnabled;
    hide EditApply;
    hide PdpEnabled;
    hide PdpApply;
    match step
    case ByConfirm(u, act) => ConfirmOpensNoIssue(s, u, act, t);
    case ByEdit(u, act) => c := EditOpensIssue(s, u, act, t);
    case ByPdp(act) => PdpOpensNone(s, act);
  }

  lemma PdpOpensNone(s: State, act: PdpAct)
    requires PdpEnabled(s, act)
    ensures PdpApply(s, act).txns == s.txns
  {
    hide Barrier;
    hide Lift;
  }

  lemma EditOpensIssue(s: State, u: TxnId, act: EditAct, t: TxnId) returns (c: Command)
    requires EditEnabled(s, u, act) && t !in s.txns && t in EditApply(s, u, act).txns && EditApply(s, u, act).txns[t].job.Issue?
    ensures var tx, p, g := EditApply(s, u, act).txns[t], Get(s.db, ApprovalKey(c)), Get(s.db, GrantKey(c.grant));
      && tx.snap == s.db && tx.writes.Keys == {ApprovalKey(c)}
      && p.ApprovalRow? && p.approval == Pending && Get(s.db, OrderKey(p.subject)).OrderRow?
      && Get(s.db, OrderKey(p.subject)).state == ToApprove
      && g.GrantRow? && g.active && s.clock < g.until
  {
    hide Touched;
    hide Inserts;
    assert act.IssueCapability?;
    c := act.command;
  }

  lemma ConfirmOpensNoIssue(s: State, u: TxnId, act: ConfirmAct, t: TxnId)
    requires ConfirmEnabled(s, u, act) && t !in s.txns && t in ConfirmApply(s, u, act).txns
    ensures !ConfirmApply(s, u, act).txns[t].job.Issue?
  {
    if IsHold(act) { HoldsOwn(s, u, act); } else { NotHolding(s, u, act); }
  }

  lemma IssueFinds(s: State, t: TxnId, c: Command)
    requires EditEnabled(s, t, CommitEdit) && MvccInv(s.db, s.txns) && TxnsOk(s.txns) && ApprovalKey(c) in s.txns[t].writes
    ensures var p := Get(s.db, ApprovalKey(c));
      && p.ApprovalRow? && Get(s.db, OrderKey(p.subject)).OrderRow? && Get(s.db, OrderKey(p.subject)).state == ToApprove
      && Get(s.db + s.txns[t].writes, ApprovalKey(c)).ApprovalRow?
      && Get(s.db + s.txns[t].writes, ApprovalKey(c)).intent == p.intent
      && var g := Get(s.txns[t].snap, GrantKey(c.grant));
      && g.GrantRow? && g.active && Get(s.db + s.txns[t].writes, ApprovalKey(c)).expiresAt <= g.until
  {
    var tx := s.txns[t];
    assert TxnOk(tx) && SnapOk(s.db, tx);
    hide EditEnabled;
    hide ConfirmOk;
    hide OrdersOk;
    assert Get(tx.snap, ApprovalKey(c)) == Get(s.db, ApprovalKey(c));
  }

  /** A confirmation about to declare an approval expired has seen it expire. */
  ghost predicate ClockOk(s: State) {
    forall t | t in s.txns :: ExpiryOk(s.clock, s.txns[t])
  }

  predicate ExpiryOk(now: int, tx: Txn) {
    tx.job.Confirm? && tx.job.stage == Terminating(Expired) ==>
      ApprovalSeen(tx).ApprovalRow? && ApprovalSeen(tx).expiresAt <= now
  }

  lemma ExpiryHold(s: State, t: TxnId, act: ConfirmAct)
    requires ConfirmEnabled(s, t, act) && IsHold(act)
    ensures ExpiryOk(s.clock, ConfirmApply(s, t, act).txns[t])
  {
    hide SignedIntent;
    hide LineKeys;
    hide Claim;
  }

  lemma ClockConfirm(s: State, t: TxnId, act: ConfirmAct)
    requires ConfirmEnabled(s, t, act) && ClockOk(s)
    ensures ClockOk(ConfirmApply(s, t, act))
  {
    hide ConfirmApply;
    hide ConfirmEnabled;
    hide ExpiryOk;
    if IsHold(act) {
      ExpiryHold(s, t, act);
      HoldsOwn(s, t, act);
      Uncommitted(s, t, act);
    } else {
      NotHolding(s, t, act);
    }
  }

  /** Any other statement group begins the confirmation or ends it. */
  lemma NotHolding(s: State, t: TxnId, act: ConfirmAct)
    requires ConfirmEnabled(s, t, act) && !IsHold(act)
    ensures var s' := ConfirmApply(s, t, act);
      && s'.clock == s.clock
      && (forall u | u in s'.txns && u != t :: u in s.txns && s'.txns[u] == s.txns[u])
      && (t in s'.txns ==> ExpiryOk(s.clock, s'.txns[t]))
  {
    hide SignedIntent;
    hide Record;
    hide ExecutionWrites;
    hide PendingWrites;
    hide TerminalWrites;
    hide Exposed;
  }

  lemma ClockEdit(s: State, t: TxnId, act: EditAct)
    requires EditEnabled(s, t, act) && ClockOk(s)
    ensures ClockOk(EditApply(s, t, act))
  {
    forall u | u in EditApply(s, t, act).txns ensures ExpiryOk(s.clock, EditApply(s, t, act).txns[u]) {
      assert u in s.txns ==> ExpiryOk(s.clock, s.txns[u]);
    }
  }

  lemma ClockPdp(s: State, act: PdpAct)
    requires PdpEnabled(s, act) && ClockOk(s)
    ensures ClockOk(PdpApply(s, act))
  {
    assert PdpApply(s, act).txns == s.txns && s.clock <= PdpApply(s, act).clock;
    forall u | u in s.txns ensures ExpiryOk(PdpApply(s, act).clock, s.txns[u]) {
      assert ExpiryOk(s.clock, s.txns[u]);
    }
  }

  lemma ClockStep(s: State, step: Step)
    requires Enabled(s, step) && ClockOk(s)
    ensures ClockOk(Apply(s, step))
  {
    hide ClockOk;
    match step
    case ByConfirm(t, act) => ClockConfirm(s, t, act);
    case ByEdit(t, act) => ClockEdit(s, t, act);
    case ByPdp(act) => ClockPdp(s, act);
  }

  lemma {:induction false} ClockRun(s: State, steps: seq<Step>)
    requires IsRun(s, steps) && ClockOk(s)
    ensures ClockOk(After(s, steps))
    decreases |steps|
  {
    hide Enabled;
    hide Apply;
    hide ClockOk;
    if steps != [] {
      ClockStep(s, steps[0]);
      ClockRun(Apply(s, steps[0]), steps[1..]);
    }
  }

  lemma ReachableClock(s: State)
    requires Reachable(s)
    ensures ClockOk(s)
  {
    hide IsRun;
    hide After;
    var start, steps :| Init(start) && IsRun(start, steps) && After(start, steps) == s;
    ClockRun(start, steps);
  }

  predicate IsExpired(db: Db, c: Command) {
    Get(db, ApprovalKey(c)).ApprovalRow? && Get(db, ApprovalKey(c)).approval == Expired
  }

  /** An approval is declared expired only once it is. */
  lemma ExpiryConditions(s: State, step: Step, c: Command)
    requires Reachable(s) && Enabled(s, step) && IsExpired(Apply(s, step).db, c) && !IsExpired(s.db, c)
    ensures IsApproved(s.db, c) && Get(s.db, ApprovalKey(c)).expiresAt <= s.clock
  {
    hide ConfirmEnabled;
    hide ConfirmApply;
    hide EditEnabled;
    hide EditApply;
    hide PdpEnabled;
    hide PdpApply;
    hide MvccInv;
    hide TxnsOk;
    hide LinesInv;
    hide ViewOk;
    ReachableInv(s);
    ReachableClock(s);
    StepMoves(s, step);
    assert ApprovalMove(Get(s.db, ApprovalKey(c)), Get(Apply(s, step).db, ApprovalKey(c)));
    StepTouches(s, step, c);
    match step
    case ByConfirm(t, act) =>
      ViewHolds(s, t);
      ExpiresByTerminal(s, t, act, c);
    case ByEdit(t, act) => EditNeverExpires(s, t, act, c);
    case ByPdp(_) =>
  }

  lemma ExpiresByTerminal(s: State, t: TxnId, act: ConfirmAct, c: Command)
    requires ConfirmEnabled(s, t, act) && t in s.txns && s.txns[t].job.Confirm? && ViewOk(s.db, s.txns[t])
    requires Commits(act) && s.txns[t].job.command == c && ExpiryOk(s.clock, s.txns[t])
    requires IsExpired(ConfirmApply(s, t, act).db, c) && !IsExpired(s.db, c)
    ensures Get(s.db, ApprovalKey(c)).ApprovalRow? && Get(s.db, ApprovalKey(c)).expiresAt <= s.clock
  {
    hide SignedIntent;
    hide IntentOf;
    hide NextOrder;
    hide Deadline;
    hide Record;
    match act
    case CommitExecution(state) =>
      ExecutionCommits(s, t, state);
      hide ConfirmApply;
      ExecutionRows(s.db, s.txns[t], state, c);
      hide ExecutionWrites;
    case CommitPending =>
      PendingCommits(s, t);
      hide ConfirmApply;
    case CommitTerminal =>
      TerminalCommits(s, t);
      hide ConfirmApply;
  }

  lemma EditNeverExpires(s: State, t: TxnId, act: EditAct, c: Command)
    requires EditEnabled(s, t, act) && TxnsOk(s.txns) && !IsExpired(s.db, c)
    ensures !IsExpired(EditApply(s, t, act).db, c)
  {
    if act.CommitEdit? { assert TxnOk(s.txns[t]); }
    hide ConfirmOk;
  }

  // ---------------------------------------------------------- reaching a final state

  predicate IsFinal(db: Db, o: OrderId) {
    Get(db, OrderKey(o)).OrderRow? && Get(db, OrderKey(o)).state == Final
  }

  predicate DelegatedFinal(db: Db, o: OrderId) {
    IsFinal(db, o) && Get(db, OrderKey(o)).delegated
  }

  lemma EditNeverFinal(s: State, t: TxnId, act: EditAct, o: OrderId)
    requires EditEnabled(s, t, act) && MvccInv(s.db, s.txns) && TxnsOk(s.txns) && !IsFinal(s.db, o)
    ensures !DelegatedFinal(EditApply(s, t, act).db, o)
  {
    if act.CommitEdit? {
      var tx := s.txns[t];
      assert TxnOk(tx) && SnapOk(s.db, tx);
      hide ConfirmOk;
      hide OrdersOk;
      if OrderKey(o) in tx.writes { assert Get(tx.snap, OrderKey(o)) == Get(s.db, OrderKey(o)); }
    }
  }

  lemma PdpNeverFinal(s: State, act: PdpAct, o: OrderId)
    requires PdpEnabled(s, act) && !IsFinal(s.db, o)
    ensures !IsFinal(PdpApply(s, act).db, o)
  {}

  lemma ConfirmFinal(s: State, t: TxnId, act: ConfirmAct, o: OrderId)
    requires ConfirmEnabled(s, t, act) && (t in s.txns && s.txns[t].job.Confirm? ==> ViewOk(s.db, s.txns[t]))
    requires !IsFinal(s.db, o) && IsFinal(ConfirmApply(s, t, act).db, o)
    ensures act.CommitExecution? && t in s.txns && s.txns[t].job.Confirm? && s.txns[t].job.order == o
  {
    hide ConfirmApply;
    hide ConfirmEnabled;
    hide ViewOk;
    hide ConfirmOk;
    hide Record;
    hide ExecutionWrites;
    hide PendingWrites;
    hide TerminalWrites;
    CommitsConfirmation(s, t, act);
    if !Commits(act) {
      Uncommitted(s, t, act);
    } else {
      ViewIsConfirm(s.db, s.txns[t]);
      match act
      case CommitExecution(state) =>
        ExecutionCommits(s, t, state);
        OtherRows(s.db, s.txns[t], state);
      case CommitPending =>
        PendingCommits(s, t);
        PendingNotFinal(s.db, s.txns[t], o);
      case CommitTerminal =>
        TerminalCommits(s, t);
        TerminalNotFinal(s.db, s.txns[t], o);
    }
  }

  lemma PendingNotFinal(db: Db, tx: Txn, o: OrderId)
    requires tx.job.Confirm? && OrderSeen(tx).OrderRow? && !IsFinal(db, o)
    ensures !IsFinal(db + PendingWrites(tx), o)
  {
    hide IntentOf;
    hide Deadline;
  }

  lemma TerminalNotFinal(db: Db, tx: Txn, o: OrderId)
    requires tx.job.Confirm? && tx.job.stage.Terminating? && ApprovalSeen(tx).ApprovalRow? && !IsFinal(db, o)
    ensures !IsFinal(db + TerminalWrites(tx), o)
  {}

  /** A delegated order becomes final only by an execution of its own, whoever
      writes it. */
  lemma FinalOnlyByExecution(s: State, step: Step, o: OrderId)
    requires Reachable(s) && Enabled(s, step) && DelegatedFinal(Apply(s, step).db, o) && !IsFinal(s.db, o)
    ensures step.ByConfirm? && step.confirm.CommitExecution?
    ensures var log := Apply(s, step).log; |log| == |s.log| + 1 && log[|s.log|].order == o
  {
    hide ConfirmEnabled;
    hide ConfirmApply;
    hide EditEnabled;
    hide EditApply;
    hide PdpEnabled;
    hide PdpApply;
    hide MvccInv;
    hide TxnsOk;
    hide LinesInv;
    hide ViewOk;
    ReachableInv(s);
    match step
    case ByConfirm(t, act) =>
      if t in s.txns && s.txns[t].job.Confirm? { ViewHolds(s, t); }
      ConfirmFinal(s, t, act, o);
      ViewIsConfirm(s.db, s.txns[t]);
      ExecutionCommits(s, t, act.state);
    case ByEdit(t, act) => EditNeverFinal(s, t, act, o);
    case ByPdp(act) => PdpNeverFinal(s, act, o);
  }

  // ---------------------------------------------------------------- terminations

  /** A confirmation that gives up an approval closes it as invalid or expired,
      and changes nothing else. */
  lemma TerminationCloses(s: State, t: TxnId)
    requires Reachable(s) && Enabled(s, ByConfirm(t, CommitTerminal))
    ensures var s', key := Apply(s, ByConfirm(t, CommitTerminal)), ApprovalKey(s.txns[t].job.command);
      && IsApproved(s.db, key.command) && Get(s.db, key).subject == s.txns[t].job.order
      && (Get(s'.db, key) == Get(s.db, key).(approval := Invalidated)
          || Get(s'.db, key) == Get(s.db, key).(approval := Expired))
      && (forall k | k != key :: Get(s'.db, k) == Get(s.db, k)) && s'.log == s.log && s'.txns == s.txns - {t}
  {
    hide Inv;
    hide Reachable;
    hide SignedIntent;
    TerminalView(s, t);
    hide ConfirmEnabled;
    hide ConfirmOk;
    hide ViewOk;
  }

  lemma TerminalView(s: State, t: TxnId)
    requires Reachable(s) && ConfirmEnabled(s, t, CommitTerminal)
    ensures var tx := s.txns[t];
      && ApprovalSeen(tx) == Get(s.db, ApprovalKey(tx.job.command)) && ApprovalSeen(tx).approval == Approved
      && ApprovalSeen(tx).subject == tx.job.order && (tx.job.stage.outcome.Invalidated? || tx.job.stage.outcome.Expired?)
      && ConfirmApply(s, t, CommitTerminal) == Commit(s, t, TerminalWrites(tx))
  {
    hide Reachable;
    hide SignedIntent;
    ReachableInv(s);
    ViewHolds(s, t);
    ViewIsConfirm(s.db, s.txns[t]);
    TerminalCommits(s, t);
    hide ConfirmApply;
    hide TerminalWrites;
  }
}
