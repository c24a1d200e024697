/** Every step of the protocol keeps the invariants. */
module CommitSteps {
  import opened Basics
  import opened ErpDatabase
  import opened CommitProtocol
  import opened CommitInvariants

  /** What each commit of a confirmation leaves in the database: its last writes
      and nothing of the row it claimed with. */
  lemma ExecutionCommits(s: State, t: TxnId, state: OrderState)
    requires ConfirmEnabled(s, t, CommitExecution(state)) && ConfirmOk(s.txns[t])
    ensures ConfirmApply(s, t, CommitExecution(state))
         == Commit(s, t, ExecutionWrites(s.txns[t], state)).(log := s.log + [Record(s, s.txns[t])])
  {
    ClaimOverwritten(s.txns[t], ExecutionWrites(s.txns[t], state));
  }

  lemma PendingCommits(s: State, t: TxnId)
    requires ConfirmEnabled(s, t, CommitPending) && ConfirmOk(s.txns[t])
    ensures ConfirmApply(s, t, CommitPending) == Commit(s, t, PendingWrites(s.txns[t]))
  {
    ClaimOverwritten(s.txns[t], PendingWrites(s.txns[t]));
  }

  lemma TerminalCommits(s: State, t: TxnId)
    requires ConfirmEnabled(s, t, CommitTerminal) && ConfirmOk(s.txns[t])
    ensures ConfirmApply(s, t, CommitTerminal) == Commit(s, t, TerminalWrites(s.txns[t]))
  {
    ClaimOverwritten(s.txns[t], TerminalWrites(s.txns[t]));
  }

  predicate Commits(act: ConfirmAct) {
    act.CommitExecution? || act.CommitPending? || act.CommitTerminal?
  }

  lemma CommitsConfirmation(s: State, t: TxnId, act: ConfirmAct)
    requires ConfirmEnabled(s, t, act)
    ensures Commits(act) ==> t in s.txns && s.txns[t].job.Confirm?
    ensures act.CommitExecution? ==> ConfirmAt(s, t, AuthorityHeld)
    ensures act.CommitPending? ==> ConfirmAt(s, t, Parked)
    ensures act.CommitTerminal? ==> s.txns[t].job.stage.Terminating? && ApprovalSeen(s.txns[t]).ApprovalRow?
  {}

  /** Short of a commit, a confirmation changes nothing but itself. */
  lemma Uncommitted(s: State, t: TxnId, act: ConfirmAct)
    requires ConfirmEnabled(s, t, act) && !Commits(act)
    ensures ConfirmApply(s, t, act)
         == s.(txns := ConfirmApply(s, t, act).txns, nonces := ConfirmApply(s, t, act).nonces)
    ensures !act.HoldOrder? ==> ConfirmApply(s, t, act).nonces == s.nonces
  {
    hide SignedIntent;
    hide Exposed;
    hide Claim;
    hide LineKeys;
  }

  // ------------------------------------------------------ snapshots and locks

  lemma ConfirmWritesGuard(db: Db, tx: Txn, w: Db)
    requires tx.job.Confirm? && ViewOk(db, tx) && Past(tx.job.stage)
    requires forall k | k in w :: k == OrderKey(tx.job.order) || k.AttemptKey? || k.ApprovalKey? || k.FenceKey?
    requires OrderKey(tx.job.order) in w ==> exists st :: w[OrderKey(tx.job.order)] == NextOrder(tx, st)
    requires OrdersOk(db)
    ensures Guarding(db, w)
  {}

  lemma ExecutionWritesLocked(tx: Txn, state: OrderState)
    requires tx.job.Confirm? && ConfirmOk(tx) && tx.job.stage == AuthorityHeld
    ensures ExecutionWrites(tx, state).Keys <= tx.locks
  {}

  lemma EditWritesGuard(s: State, tx: Txn)
    requires tx.job.Edit? && EditOk(tx) && SnapOk(s.db, tx)
    ensures Guarding(s.db, tx.writes)
  {
    forall k | k in tx.writes ensures Get(tx.snap, k) == Get(s.db, k) {}
  }

  lemma MvccExecution(s: State, t: TxnId, state: OrderState)
    requires ConfirmAt(s, t, AuthorityHeld) && MvccInv(s.db, s.txns) && ViewOk(s.db, s.txns[t])
    ensures MvccInv(s.db + ExecutionWrites(s.txns[t], state), s.txns - {t})
  {
    hide SnapOk;
    hide SignedIntent;
    hide Deadline;
    var tx := s.txns[t];
    var w := ExecutionWrites(tx, state);
    assert Guarding(s.db, w) by { ConfirmWritesGuard(s.db, tx, w); }
    ExecutionWritesLocked(tx, state);
    CommitKeepsMvcc(s, t, w);
  }

  lemma MvccPending(s: State, t: TxnId)
    requires ConfirmAt(s, t, Parked) && MvccInv(s.db, s.txns) && ViewOk(s.db, s.txns[t])
    requires CanLock(s, t, ApprovalKey(s.txns[t].job.command))
    ensures MvccInv(s.db + PendingWrites(s.txns[t]), s.txns - {t})
  {
    hide SnapOk;
    hide SignedIntent;
    hide Deadline;
    var tx := s.txns[t];
    var w := PendingWrites(tx);
    var held := tx.(locks := tx.locks + {ApprovalKey(tx.job.command)});
    assert Guarding(s.db, w) by { ConfirmWritesGuard(s.db, tx, w); }
    assert CanWrite(s, t, ApprovalKey(tx.job.command));
    LockKeepsMvcc(s, t, {ApprovalKey(tx.job.command)}, held);
    assert w.Keys <= held.locks;
    CommitKeepsMvcc(SetTxn(s, t, held), t, w);
    assert s.txns[t := held] - {t} == s.txns - {t};
  }

  lemma MvccTerminal(s: State, t: TxnId)
    requires ConfirmEnabled(s, t, CommitTerminal) && MvccInv(s.db, s.txns) && ViewOk(s.db, s.txns[t])
    ensures MvccInv(s.db + TerminalWrites(s.txns[t]), s.txns - {t})
  {
    var tx := s.txns[t];
    assert Guarding(s.db, TerminalWrites(tx)) by { ConfirmWritesGuard(s.db, tx, TerminalWrites(tx)); }
    CommitKeepsMvcc(s, t, TerminalWrites(tx));
  }

  lemma MvccEditCommit(s: State, t: TxnId)
    requires EditEnabled(s, t, CommitEdit) && MvccInv(s.db, s.txns) && TxnsOk(s.txns)
    ensures MvccInv(s.db + s.txns[t].writes, s.txns - {t})
  {
    var tx := s.txns[t];
    assert TxnOk(tx) && SnapOk(s.db, tx);
    hide SnapOk;
    hide TxnsOk;
    if tx.job.Edit? { EditWritesGuard(s, tx); } else { IssueWritesGuard(s.db, tx); }
    assert tx.writes.Keys <= tx.locks;
    hide TxnOk;
    hide Guarding;
    CommitKeepsMvcc(s, t, tx.writes);
  }

  lemma IssueWritesGuard(db: Db, tx: Txn)
    requires tx.job.Issue? && TxnOk(tx)
    ensures Guarding(db, tx.writes)
  {
    hide Version;
  }

  predicate IsHold(act: ConfirmAct) {
    act.HoldOrder? || act.ClaimCommand? || act.BindApproval? || act.TakeAnswer? || act.Terminate?
    || act.HoldFence? || act.HoldEpoch? || act.HoldPolicy?
  }

  /** The locks a statement group adds. */
  function NewLocks(tx: Txn, act: ConfirmAct): set<Key>
    requires tx.job.Confirm?
  {
    var c := tx.job.command;
    match act
    case HoldOrder(_) => {OrderKey(tx.job.order)}
    case ClaimCommand => {AttemptKey(c)} + LineKeys(tx.snap, tx.job.order)
    case BindApproval => {AttemptKey(c), ApprovalKey(c)} + LineKeys(tx.snap, tx.job.order)
    case HoldFence => {FenceOf(c)}
    case HoldEpoch => {EpochKey}
    case HoldPolicy => {PolicyKey(c.tenant)}
    case _ => {}
  }

  lemma MvccHold(s: State, t: TxnId, act: ConfirmAct)
    requires ConfirmEnabled(s, t, act) && IsHold(act) && MvccInv(s.db, s.txns)
    ensures MvccInv(s.db, s.txns[t := ConfirmApply(s, t, act).txns[t]])
  {
    LockKeepsMvcc(s, t, NewLocks(s.txns[t], act), ConfirmApply(s, t, act).txns[t]);
  }

  lemma MvccConfirmStep(s: State, t: TxnId, act: ConfirmAct)
    requires ConfirmEnabled(s, t, act) && MvccInv(s.db, s.txns)
    requires t in s.txns && s.txns[t].job.Confirm? ==> ViewOk(s.db, s.txns[t])
    ensures MvccInv(ConfirmApply(s, t, act).db, ConfirmApply(s, t, act).txns)
  {
    match act
    case CommitExecution(state) =>
      ExecutionCommits(s, t, state);
      MvccExecution(s, t, state);
    case CommitPending =>
      PendingCommits(s, t);
      MvccPending(s, t);
    case CommitTerminal =>
      TerminalCommits(s, t);
      MvccTerminal(s, t);
    case BeginConfirm(_) => BeginKeepsMvcc(s, t, ConfirmApply(s, t, act).txns[t]);
    case Abort => AbortKeepsMvcc(s, t);
    case _ => MvccHold(s, t, act);
  }

  function EditLocks(tx: Txn, act: EditAct): set<Key> {
    match act
    case CreateOrder(o, _) => {OrderKey(o)}
    case PutOrder(o, _) => {OrderKey(o)}
    case PutLine(o, line, _) => {LineKey(o, line)} + Touched(tx, o).Keys
    case PutAuthority(k, _) => {k, EpochKey}
    case _ => {}
  }

  lemma MvccPut(s: State, t: TxnId, act: EditAct)
    requires EditEnabled(s, t, act) && MvccInv(s.db, s.txns)
    requires act.CreateOrder? || act.PutOrder? || act.PutLine? || act.PutAuthority?
    ensures MvccInv(s.db, s.txns[t := EditApply(s, t, act).txns[t]])
  {
    LockKeepsMvcc(s, t, EditLocks(s.txns[t], act), EditApply(s, t, act).txns[t]);
  }

  lemma MvccEditStep(s: State, t: TxnId, act: EditAct)
    requires EditEnabled(s, t, act) && MvccInv(s.db, s.txns) && TxnsOk(s.txns)
    ensures MvccInv(EditApply(s, t, act).db, EditApply(s, t, act).txns)
  {
    match act
    case CommitEdit => MvccEditCommit(s, t);
    case BeginEdit => BeginKeepsMvcc(s, t, EditApply(s, t, act).txns[t]);
    case IssueCapability(_, _) => BeginKeepsMvcc(s, t, EditApply(s, t, act).txns[t]);
    case _ => MvccPut(s, t, act);
  }

  lemma MvccPdpStep(s: State, act: PdpAct)
    requires PdpEnabled(s, act) && MvccInv(s.db, s.txns) && TxnsOk(s.txns)
    ensures MvccInv(PdpApply(s, act).db, PdpApply(s, act).txns)
  {
    match act
    case Bootstrap(a) =>
      forall u | u in s.txns ensures PolicyKey(a.tenant) !in s.txns[u].locks {
        assert TxnOk(s.txns[u]) && SnapOk(s.db, s.txns[u]);
      }
      FenceWriteKeepsMvcc(s, PolicyKey(a.tenant), PolicyRow(1, a.revision, true, None));
    case CloseBarrier(token, tenant) =>
      FenceWriteKeepsMvcc(s, PolicyKey(tenant), Barrier(Get(s.db, PolicyKey(tenant)), token));
    case LiftBarrier(token) =>
      var w := s.writers[token];
      FenceWriteKeepsMvcc(s, PolicyKey(w.tenant), Lift(Get(s.db, PolicyKey(w.tenant)), w.phase.revision));
    case WriteTombstone(_, tenant, grant) => FenceWriteKeepsMvcc(s, FenceKey(tenant, grant), FenceRow(true));
    case _ =>
  }

  // ----------------------------------------------------------- lines of an order

  /** The lines an editor writes: their order is written with them unless it saw
      the order as not delegated. */
  lemma EditAccompanied(tx: Txn, o: OrderId)
    requires EditOk(tx) && tx.job.Edit? && !Stale(tx, o)
    ensures Accompanied(tx.writes, o)
  {}

  lemma WriterAccompanied(tx: Txn, o: OrderId)
    requires TxnOk(tx) && !tx.job.Confirm? && !Stale(tx, o)
    ensures Accompanied(tx.writes, o)
  {
    hide ConfirmOk;
    if tx.job.Edit? {
      hide EditOk;
      EditAccompanied(tx, o);
    }
  }

  lemma WriterGuards(s: State, tx: Txn)
    requires TxnOk(tx) && !tx.job.Confirm? && SnapOk(s.db, tx)
    ensures Guarding(s.db, tx.writes)
  {
    hide ConfirmOk;
    hide SnapOk;
    if tx.job.Edit? {
      hide EditOk;
      hide Guarding;
      EditWritesGuard(s, tx);
    }
  }

  lemma LinesEditCommit(s: State, t: TxnId)
    requires EditEnabled(s, t, CommitEdit) && MvccInv(s.db, s.txns) && TxnsOk(s.txns) && LinesInv(s.db, s.txns)
    ensures LinesInv(s.db + s.txns[t].writes, s.txns - {t})
  {
    hide TxnOk;
    hide SnapOk;
    hide Guarding;
    hide Accompanied;
    hide Stale;
    hide LinesOk;
    var tx := s.txns[t];
    WriterGuards(s, tx);
    forall u | u in s.txns && Shielded(s.txns[u]) ensures Accompanied(tx.writes, s.txns[u].job.order) {
      WriterAccompanied(tx, s.txns[u].job.order);
    }
    CommitKeepsLines(s, t, tx.writes);
  }

  lemma LinesEditStep(s: State, t: TxnId, act: EditAct)
    requires EditEnabled(s, t, act) && MvccInv(s.db, s.txns) && TxnsOk(s.txns) && LinesInv(s.db, s.txns)
    ensures LinesInv(EditApply(s, t, act).db, EditApply(s, t, act).txns)
  {
    hide LinesInv;
    hide MvccInv;
    hide TxnsOk;
    match act
    case CommitEdit => LinesEditCommit(s, t);
    case BeginEdit => BeginKeepsLines(s, t, EditApply(s, t, act).txns[t]);
    case IssueCapability(_, _) => BeginKeepsLines(s, t, EditApply(s, t, act).txns[t]);
    case _ => ContinueKeepsLines(s.db, s.txns, t, EditApply(s, t, act).txns[t]);
  }

  lemma LinesConfirmCommit(s: State, t: TxnId, w: Db)
    requires MvccInv(s.db, s.txns) && LinesInv(s.db, s.txns) && Guarding(s.db, w)
    requires forall k | k in w :: !k.LineKey?
    ensures LinesInv(s.db + w, s.txns - {t})
  {
    forall u | u in s.txns && Shielded(s.txns[u]) ensures Accompanied(w, s.txns[u].job.order) {}
    CommitKeepsLines(s, t, w);
  }

  lemma LinesExecution(s: State, t: TxnId, state: OrderState)
    requires ConfirmAt(s, t, AuthorityHeld) && MvccInv(s.db, s.txns) && LinesInv(s.db, s.txns)
    requires ViewOk(s.db, s.txns[t])
    ensures LinesInv(s.db + ExecutionWrites(s.txns[t], state), s.txns - {t})
  {
    hide LinesInv;
    hide SnapOk;
    var w := ExecutionWrites(s.txns[t], state);
    ConfirmWritesGuard(s.db, s.txns[t], w);
    LinesConfirmCommit(s, t, w);
  }

  lemma LinesPending(s: State, t: TxnId)
    requires ConfirmAt(s, t, Parked) && MvccInv(s.db, s.txns) && LinesInv(s.db, s.txns)
    requires ViewOk(s.db, s.txns[t])
    ensures LinesInv(s.db + PendingWrites(s.txns[t]), s.txns - {t})
  {
    hide LinesInv;
    hide SnapOk;
    var w := PendingWrites(s.txns[t]);
    ConfirmWritesGuard(s.db, s.txns[t], w);
    LinesConfirmCommit(s, t, w);
  }

  lemma LinesTerminal(s: State, t: TxnId)
    requires ConfirmEnabled(s, t, CommitTerminal) && MvccInv(s.db, s.txns) && LinesInv(s.db, s.txns)
    requires ViewOk(s.db, s.txns[t])
    ensures LinesInv(s.db + TerminalWrites(s.txns[t]), s.txns - {t})
  {
    hide LinesInv;
    hide SnapOk;
    var w := TerminalWrites(s.txns[t]);
    ConfirmWritesGuard(s.db, s.txns[t], w);
    LinesConfirmCommit(s, t, w);
  }

  lemma LinesConfirmStep(s: State, t: TxnId, act: ConfirmAct)
    requires ConfirmEnabled(s, t, act) && MvccInv(s.db, s.txns) && LinesInv(s.db, s.txns)
    requires t in s.txns && s.txns[t].job.Confirm? ==> ViewOk(s.db, s.txns[t])
    ensures LinesInv(ConfirmApply(s, t, act).db, ConfirmApply(s, t, act).txns)
  {
    hide LinesInv;
    hide MvccInv;
    match act
    case CommitExecution(state) =>
      ExecutionCommits(s, t, state);
      LinesExecution(s, t, state);
    case CommitPending =>
      PendingCommits(s, t);
      LinesPending(s, t);
    case CommitTerminal =>
      TerminalCommits(s, t);
      LinesTerminal(s, t);
    case BeginConfirm(_) => BeginKeepsLines(s, t, ConfirmApply(s, t, act).txns[t]);
    case Abort => LinesDrop(s.db, s.txns, t);
    case _ => ContinueKeepsLines(s.db, s.txns, t, ConfirmApply(s, t, act).txns[t]);
  }

  lemma LinesDrop(db: Db, txns: map<TxnId, Txn>, t: TxnId)
    requires LinesInv(db, txns)
    ensures LinesInv(db, txns - {t})
  {}

  /** No PDP step changes an order or a line. */
  lemma LinesPdpStep(s: State, act: PdpAct)
    requires PdpEnabled(s, act) && LinesInv(s.db, s.txns)
    ensures LinesInv(PdpApply(s, act).db, PdpApply(s, act).txns)
  {
    var s' := PdpApply(s, act);
    assert forall k: Key :: k.OrderKey? || k.LineKey? ==> Get(s'.db, k) == Get(s.db, k);
    forall t | t in s.txns && Shielded(s.txns[t]) ensures LinesOk(s'.db, s.txns[t]) {
      assert LinesOk(s.db, s.txns[t]);
    }
  }

  // ------------------------------------------------ what transactions have done

  lemma TxnHoldOrder(s: State, t: TxnId, minted: Nonce)
    requires ConfirmEnabled(s, t, HoldOrder(minted)) && TxnOk(s.txns[t])
    ensures TxnOk(ConfirmApply(s, t, HoldOrder(minted)).txns[t])
  {}

  lemma TxnClaim(s: State, t: TxnId)
    requires ConfirmEnabled(s, t, ClaimCommand) && TxnOk(s.txns[t])
    ensures TxnOk(ConfirmApply(s, t, ClaimCommand).txns[t])
  {}

  lemma TxnBind(s: State, t: TxnId)
    requires ConfirmEnabled(s, t, BindApproval) && TxnOk(s.txns[t])
    ensures TxnOk(ConfirmApply(s, t, BindApproval).txns[t])
  {}

  lemma TxnAnswer(s: State, t: TxnId, a: Answer)
    requires ConfirmEnabled(s, t, TakeAnswer(a)) && TxnOk(s.txns[t])
    ensures TxnOk(ConfirmApply(s, t, TakeAnswer(a)).txns[t])
  {}

  lemma TxnTerminate(s: State, t: TxnId, outcome: ApprovalState)
    requires ConfirmEnabled(s, t, Terminate(outcome)) && TxnOk(s.txns[t])
    ensures TxnOk(ConfirmApply(s, t, Terminate(outcome)).txns[t])
  {}

  lemma TxnHoldFence(s: State, t: TxnId)
    requires ConfirmEnabled(s, t, HoldFence) && TxnOk(s.txns[t])
    ensures TxnOk(ConfirmApply(s, t, HoldFence).txns[t])
  {}

  lemma TxnHoldEpoch(s: State, t: TxnId)
    requires ConfirmEnabled(s, t, HoldEpoch) && TxnOk(s.txns[t])
    ensures TxnOk(ConfirmApply(s, t, HoldEpoch).txns[t])
  {}

  lemma TxnHoldPolicy(s: State, t: TxnId)
    requires ConfirmEnabled(s, t, HoldPolicy) && TxnOk(s.txns[t])
    ensures TxnOk(ConfirmApply(s, t, HoldPolicy).txns[t])
  {}

  lemma TxnHold(s: State, t: TxnId, act: ConfirmAct)
    requires ConfirmEnabled(s, t, act) && IsHold(act) && TxnOk(s.txns[t])
    ensures TxnOk(ConfirmApply(s, t, act).txns[t])
  {
    match act
    case HoldOrder(m) => TxnHoldOrder(s, t, m);
    case ClaimCommand => TxnClaim(s, t);
    case BindApproval => TxnBind(s, t);
    case TakeAnswer(a) => TxnAnswer(s, t, a);
    case Terminate(o) => TxnTerminate(s, t, o);
    case HoldFence => TxnHoldFence(s, t);
    case HoldEpoch => TxnHoldEpoch(s, t);
    case HoldPolicy => TxnHoldPolicy(s, t);
  }

  /** The order rows a line edit leaves written. */
  lemma PutLineOrders(tx: Txn, o: OrderId, w: Db)
    requires EditOk(tx) && OrdersOk(tx.snap) && w == tx.writes + Touched(tx, o)
    ensures forall k | k in w && k.OrderKey? ::
      && w[k].OrderRow? && w[k].version == Version(Get(tx.snap, k)) + 1
      && (w[k].grantId.Some? ==> w[k].delegated)
      && (Get(tx.snap, k).OrderRow? ==>
            (Get(tx.snap, k).delegated ==> w[k].delegated) && w[k].nonce == Get(tx.snap, k).nonce)
      && (!Get(tx.snap, k).OrderRow? ==> w[k].nonce.None?)
      && (w[k].delegated && w[k].state == Final ==> Get(tx.snap, k).OrderRow? && Get(tx.snap, k).state == Final)
  {}

  /** Every line written has its order written, or read as not delegated. */
  lemma PutLineGuards(tx: Txn, o: OrderId, w: Db)
    requires EditOk(tx) && w == tx.writes + Touched(tx, o) && Get(tx.snap + tx.writes, OrderKey(o)).OrderRow?
    ensures OrderKey(o) in w || (Get(tx.snap, OrderKey(o)).OrderRow? && !Get(tx.snap, OrderKey(o)).delegated)
    ensures forall k | k in w && k.LineKey? ::
      OrderKey(k.owner) in w || (Get(tx.snap, OrderKey(k.owner)).OrderRow? && !Get(tx.snap, OrderKey(k.owner)).delegated)
  {
    assert Get(tx.snap + tx.writes, OrderKey(o)) ==
           if OrderKey(o) in tx.writes then tx.writes[OrderKey(o)] else Get(tx.snap, OrderKey(o));
  }

  lemma PutLineOk(tx: Txn, o: OrderId, line: LineId, row: Row, tx': Txn)
    requires EditOk(tx) && OrdersOk(tx.snap) && Get(tx.snap + tx.writes, OrderKey(o)).OrderRow?
    requires tx' == tx.(locks := tx.locks + ({LineKey(o, line)} + Touched(tx, o).Keys), shares := tx'.shares,
                        writes := (tx.writes + Touched(tx, o))[LineKey(o, line) := row])
    ensures EditOk(tx')
  {
    var w := tx.writes + Touched(tx, o);
    PutLineOrders(tx, o, w);
    PutLineGuards(tx, o, w);
    assert forall k | k in Touched(tx, o) :: k == OrderKey(o);
    hide Touched;
    hide OrdersOk;
    assert tx'.writes == w[LineKey(o, line) := row];
  }

  lemma TxnPutLine(s: State, t: TxnId, o: OrderId, line: LineId, row: Row)
    requires EditEnabled(s, t, PutLine(o, line, row)) && TxnOk(s.txns[t]) && OrdersOk(s.txns[t].snap)
    ensures TxnOk(EditApply(s, t, PutLine(o, line, row)).txns[t])
  {
    hide EditOk;
    hide ConfirmOk;
    var tx := s.txns[t];
    PutLineOk(tx, o, line, row, EditApply(s, t, PutLine(o, line, row)).txns[t]);
    assert forall k | k in Touched(tx, o) :: k.OrderKey?;
  }

  lemma TxnPutOrder(s: State, t: TxnId, act: EditAct)
    requires EditEnabled(s, t, act) && (act.CreateOrder? || act.PutOrder?)
    requires TxnOk(s.txns[t]) && OrdersOk(s.txns[t].snap)
    ensures TxnOk(EditApply(s, t, act).txns[t])
  {
    hide ConfirmOk;
  }

  lemma TxnPutAuthority(s: State, t: TxnId, k: Key, row: Row)
    requires EditEnabled(s, t, PutAuthority(k, row)) && TxnOk(s.txns[t])
    ensures TxnOk(EditApply(s, t, PutAuthority(k, row)).txns[t])
  {
    hide ConfirmOk;
  }

  lemma TxnEdit(s: State, t: TxnId, act: EditAct)
    requires EditEnabled(s, t, act) && !act.CommitEdit?
    requires t in s.txns ==> TxnOk(s.txns[t]) && OrdersOk(s.txns[t].snap)
    ensures TxnOk(EditApply(s, t, act).txns[t])
  {
    hide ConfirmOk;
    hide OrdersOk;
    match act
    case PutLine(o, line, row) => TxnPutLine(s, t, o, line, row);
    case PutAuthority(k, row) => TxnPutAuthority(s, t, k, row);
    case BeginEdit =>
    case IssueCapability(_, _) =>
    case _ => TxnPutOrder(s, t, act);
  }

  lemma TxnSet(txns: map<TxnId, Txn>, t: TxnId, tx: Txn)
    requires TxnsOk(txns) && TxnOk(tx)
    ensures TxnsOk(txns[t := tx])
  {}

  lemma TxnDrop(txns: map<TxnId, Txn>, t: TxnId)
    requires TxnsOk(txns)
    ensures TxnsOk(txns - {t})
  {}

  lemma TxnsConfirm(s: State, t: TxnId, act: ConfirmAct)
    requires ConfirmEnabled(s, t, act) && TxnsOk(s.txns)
    ensures TxnsOk(ConfirmApply(s, t, act).txns)
  {
    if IsHold(act) {
      TxnHold(s, t, act);
      TxnSet(s.txns, t, ConfirmApply(s, t, act).txns[t]);
    } else if !act.BeginConfirm? {
      TxnDrop(s.txns, t);
    }
  }

  lemma TxnsEdit(s: State, t: TxnId, act: EditAct)
    requires EditEnabled(s, t, act) && TxnsOk(s.txns) && MvccInv(s.db, s.txns)
    ensures TxnsOk(EditApply(s, t, act).txns)
  {
    if act.CommitEdit? {
      TxnDrop(s.txns, t);
    } else {
      assert t in s.txns ==> SnapOk(s.db, s.txns[t]);
      TxnEdit(s, t, act);
      TxnSet(s.txns, t, EditApply(s, t, act).txns[t]);
    }
  }

  // ------------------------------------------------------------ policy fence

  /** No confirmation changes the fence or the barrier of a policy. */
  lemma PoliciesKept(s: State, t: TxnId, act: ConfirmAct, tn: Tenant)
    requires ConfirmEnabled(s, t, act) && (t in s.txns && s.txns[t].job.Confirm? ==> ConfirmOk(s.txns[t]))
    ensures Get(ConfirmApply(s, t, act).db, PolicyKey(tn)) == Get(s.db, PolicyKey(tn))
  {
    hide SignedIntent;
    hide IntentOf;
    hide Deadline;
    hide Record;
    hide NextOrder;
    hide ConfirmApply;
    hide ConfirmEnabled;
    hide ConfirmOk;
    CommitsConfirmation(s, t, act);
    match act
    case CommitExecution(state) => ExecutionCommits(s, t, state);
    case CommitPending => PendingCommits(s, t);
    case CommitTerminal => TerminalCommits(s, t);
    case _ => Uncommitted(s, t, act);
  }

  lemma FencesConfirm(s: State, t: TxnId, act: ConfirmAct)
    requires ConfirmEnabled(s, t, act) && FencesOk(s)
    requires t in s.txns && s.txns[t].job.Confirm? ==> ConfirmOk(s.txns[t])
    ensures FencesOk(ConfirmApply(s, t, act))
  {
    hide ConfirmOk;
    hide FenceOk;
    forall tn { PoliciesKept(s, t, act, tn); }
  }

  lemma FencesEdit(s: State, t: TxnId, act: EditAct)
    requires EditEnabled(s, t, act) && TxnsOk(s.txns) && FencesOk(s)
    ensures FencesOk(EditApply(s, t, act))
  {
    if act.CommitEdit? { assert TxnOk(s.txns[t]); }
    hide FenceOk;
    hide Touched;
    hide Inserts;
    hide MustTouch;
    forall tn ensures Get(EditApply(s, t, act).db, PolicyKey(tn)) == Get(s.db, PolicyKey(tn)) {}
  }

  lemma FencesPdp(s: State, act: PdpAct)
    requires PdpEnabled(s, act) && FencesOk(s)
    ensures FencesOk(PdpApply(s, act))
  {
    var s' := PdpApply(s, act);
    forall tn ensures FenceOk(tn, Get(s'.db, PolicyKey(tn)), PdpRevision(s', tn), s'.fetched, s'.answers, s'.writers) {
      assert FenceOk(tn, Get(s.db, PolicyKey(tn)), PdpRevision(s, tn), s.fetched, s.answers, s.writers);
    }
  }

  lemma HeardHold(s: State, t: TxnId, act: ConfirmAct)
    requires ConfirmEnabled(s, t, act) && IsHold(act) && HeardOk(s.answers, s.txns[t])
    ensures HeardOk(s.answers, ConfirmApply(s, t, act).txns[t])
  {
    hide SignedIntent;
    hide LineKeys;
    hide Claim;
  }

  lemma AnswersHold(s: State, t: TxnId, act: ConfirmAct)
    requires ConfirmEnabled(s, t, act) && IsHold(act) && AnswersOk(s)
    ensures AnswersOk(ConfirmApply(s, t, act))
  {
    HeardHold(s, t, act);
    Uncommitted(s, t, act);
    var s' := ConfirmApply(s, t, act);
    assert s'.txns == s.txns[t := s'.txns[t]] by { HoldsOwn(s, t, act); }
    hide ConfirmApply;
    hide ConfirmEnabled;
    hide HeardOk;
  }

  lemma HoldsOwn(s: State, t: TxnId, act: ConfirmAct)
    requires ConfirmEnabled(s, t, act) && IsHold(act)
    ensures t in ConfirmApply(s, t, act).txns
    ensures ConfirmApply(s, t, act).txns == s.txns[t := ConfirmApply(s, t, act).txns[t]]
  {
    hide SignedIntent;
    hide LineKeys;
    hide Claim;
  }

  lemma AnswersDrop(s: State, s': State, t: TxnId)
    requires AnswersOk(s) && s'.txns == s.txns - {t}
    requires s'.answers == s.answers && s'.fetched == s.fetched && s'.policyRevisions == s.policyRevisions
    ensures AnswersOk(s')
  {
    hide HeardOk;
  }

  lemma AnswersConfirm(s: State, t: TxnId, act: ConfirmAct)
    requires ConfirmEnabled(s, t, act) && AnswersOk(s)
    ensures AnswersOk(ConfirmApply(s, t, act))
  {
    hide AnswersOk;
    hide Record;
    hide ExecutionWrites;
    hide PendingWrites;
    if IsHold(act) {
      AnswersHold(s, t, act);
    } else if act.BeginConfirm? {
      AnswersBegin(s, t, ConfirmApply(s, t, act).txns[t]);
    } else {
      AnswersDrop(s, ConfirmApply(s, t, act), t);
    }
  }

  lemma AnswersBegin(s: State, t: TxnId, tx: Txn)
    requires AnswersOk(s) && (tx.job.Confirm? ==> tx.job.stage.Begun? && tx.job.answers == [] && !tx.job.approved)
    ensures AnswersOk(SetTxn(s, t, tx))
  {
    assert HeardOk(s.answers, tx);
    hide HeardOk;
  }

  lemma AnswersEdit(s: State, t: TxnId, act: EditAct)
    requires EditEnabled(s, t, act) && AnswersOk(s)
    ensures AnswersOk(EditApply(s, t, act))
  {
    hide AnswersOk;
    if act.CommitEdit? {
      AnswersDrop(s, EditApply(s, t, act), t);
    } else {
      AnswersBegin(s, t, EditApply(s, t, act).txns[t]);
    }
  }

  lemma AnswersPdp(s: State, act: PdpAct)
    requires PdpEnabled(s, act) && FencesOk(s) && AnswersOk(s)
    ensures AnswersOk(PdpApply(s, act))
  {
    hide FenceOk;
    if act.FetchBundle? {
      var tn := act.tenant;
      assert PdpRevision(s, tn) >= 1 by { RevisionPositive(s, tn); }
    }
    forall t | t in s.txns ensures HeardOk(PdpApply(s, act).answers, s.txns[t]) {
      assert HeardOk(s.answers, s.txns[t]);
    }
  }

  lemma RevisionPositive(s: State, tn: Tenant)
    requires FencesOk(s)
    ensures PdpRevision(s, tn) >= 1
  {
    assert FenceOk(tn, Get(s.db, PolicyKey(tn)), PdpRevision(s, tn), s.fetched, s.answers, s.writers);
  }

  // ---------------------------------------------------- commands and approvals

  lemma LogGrows(log: seq<Execution>, e: Execution, d: Command)
    ensures InLog(log + [e], d) <==> InLog(log, d) || d == e.command
  {
    var longer := log + [e];
    assert longer[|log|] == e;
    if InLog(log, d) {
      var i :| 0 <= i < |log| && log[i].command == d;
      assert longer[i] == log[i];
    }
  }

  lemma NotYetExecuted(s: State, t: TxnId)
    requires ConfirmAt(s, t, AuthorityHeld) && CommandInv(s) && ViewOk(s.db, s.txns[t])
    ensures !InLog(s.log, s.txns[t].job.command)
  {
    var c := s.txns[t].job.command;
    assert CommandOk(s.log, c, Get(s.db, AttemptKey(c)), Get(s.db, ApprovalKey(c)));
  }

  /** The attempt, approval and fence rows after an execution. */
  lemma ExecutionRows(db: Db, tx: Txn, state: OrderState, d: Command)
    requires tx.job.Confirm? && OrderSeen(tx).OrderRow?
    requires tx.job.approved ==> ApprovalSeen(tx).ApprovalRow?
    ensures var db', c := db + ExecutionWrites(tx, state), tx.job.command;
      && Get(db', AttemptKey(d))
         == (if d == c then AttemptRow(tx.job.order, Executed, Deadline(tx)) else Get(db, AttemptKey(d)))
      && Get(db', ApprovalKey(d))
         == (if d == c && tx.job.approved then ApprovalSeen(tx).(approval := Consumed) else Get(db, ApprovalKey(d)))
      && Get(db', FenceOf(d)) == (if FenceOf(d) == FenceOf(c) then FenceRow(false) else Get(db, FenceOf(d)))
  {
    hide NextOrder;
    hide Deadline;
  }

  lemma ExecutedCommand(s: State, t: TxnId, state: OrderState, d: Command)
    requires ConfirmEnabled(s, t, CommitExecution(state)) && CommandInv(s) && ViewOk(s.db, s.txns[t])
    ensures var s' := ConfirmApply(s, t, CommitExecution(state));
      CommandOk(s'.log, d, Get(s'.db, AttemptKey(d)), Get(s'.db, ApprovalKey(d)))
  {
    ExecutionCommits(s, t, state);
    assert ConfirmAt(s, t, AuthorityHeld);
    hide ConfirmApply;
    hide ConfirmEnabled;
    hide SignedIntent;
    hide CurrentIntent;
    hide StoredIntent;
    hide AuthorityOf;
    hide IntentOf;
    hide Deadline;
    hide ExecutionWrites;
    hide Get;
    assert CommandOk(s.log, d, Get(s.db, AttemptKey(d)), Get(s.db, ApprovalKey(d)));
    LogGrows(s.log, Record(s, s.txns[t]), d);
    ExecutionRows(s.db, s.txns[t], state, d);
  }

  lemma CommandsExecution(s: State, t: TxnId, state: OrderState)
    requires ConfirmEnabled(s, t, CommitExecution(state)) && CommandInv(s) && ViewOk(s.db, s.txns[t])
    ensures CommandInv(ConfirmApply(s, t, CommitExecution(state)))
  {
    var s' := ConfirmApply(s, t, CommitExecution(state));
    forall d ensures CommandOk(s'.log, d, Get(s'.db, AttemptKey(d)), Get(s'.db, ApprovalKey(d))) {
      ExecutedCommand(s, t, state, d);
    }
    NotYetExecuted(s, t);
    ExecutionCommits(s, t, state);
    hide ConfirmApply;
    hide ConfirmEnabled;
    assert s'.log == s.log + [Record(s, s.txns[t])];
  }

  lemma PendingCommand(s: State, t: TxnId, d: Command)
    requires ConfirmAt(s, t, Parked) && CommandInv(s) && ViewOk(s.db, s.txns[t])
    ensures var db' := s.db + PendingWrites(s.txns[t]);
      CommandOk(s.log, d, Get(db', AttemptKey(d)), Get(db', ApprovalKey(d)))
  {
    hide NextOrder;
    hide IntentOf;
    hide Deadline;
    hide SignedIntent;
    assert CommandOk(s.log, d, Get(s.db, AttemptKey(d)), Get(s.db, ApprovalKey(d)));
  }

  lemma CommandsPending(s: State, t: TxnId)
    requires ConfirmEnabled(s, t, CommitPending) && CommandInv(s) && ViewOk(s.db, s.txns[t])
    ensures CommandInv(ConfirmApply(s, t, CommitPending))
  {
    PendingCommits(s, t);
    forall d { PendingCommand(s, t, d); }
    hide ConfirmApply;
    hide ConfirmEnabled;
    hide PendingWrites;
    hide CommandOk;
  }

  lemma CommandsTerminal(s: State, t: TxnId)
    requires ConfirmEnabled(s, t, CommitTerminal) && CommandInv(s) && ViewOk(s.db, s.txns[t])
    ensures CommandInv(ConfirmApply(s, t, CommitTerminal))
  {
    var s' := ConfirmApply(s, t, CommitTerminal);
    TerminalCommits(s, t);
    forall d ensures CommandOk(s'.log, d, Get(s'.db, AttemptKey(d)), Get(s'.db, ApprovalKey(d))) {
      assert CommandOk(s.log, d, Get(s.db, AttemptKey(d)), Get(s.db, ApprovalKey(d)));
    }
  }

  lemma CommandsConfirm(s: State, t: TxnId, act: ConfirmAct)
    requires ConfirmEnabled(s, t, act) && CommandInv(s)
    requires t in s.txns && s.txns[t].job.Confirm? ==> ViewOk(s.db, s.txns[t])
    ensures CommandInv(ConfirmApply(s, t, act))
  {
    if act.CommitExecution? { CommandsExecution(s, t, act.state); }
    else if act.CommitPending? { CommandsPending(s, t); }
    else if act.CommitTerminal? { CommandsTerminal(s, t); }
  }

  lemma EditWritesLater(s: State, t: TxnId, act: EditAct)
    requires EditEnabled(s, t, act) && !act.CommitEdit?
    ensures EditApply(s, t, act).db == s.db && EditApply(s, t, act).log == s.log
  {
    hide Touched;
    hide Inserts;
  }

  lemma EditsNoFence(tx: Txn, tenant: Tenant, grant: GrantId)
    requires !tx.job.Confirm? && TxnOk(tx)
    ensures FenceKey(tenant, grant) !in tx.writes
  {
    hide Version;
  }

  /** Of attempts and approvals, an edit only approves what is pending. */
  lemma EditedRows(db: Db, tx: Txn, c: Command)
    requires !tx.job.Confirm? && TxnOk(tx) && SnapOk(db, tx)
    ensures Get(db + tx.writes, AttemptKey(c)) == Get(db, AttemptKey(c))
    ensures var p, q := Get(db, ApprovalKey(c)), Get(db + tx.writes, ApprovalKey(c));
      || q == p
      || (p.ApprovalRow? && p.approval == Pending && q.ApprovalRow?
          && q == p.(approval := Approved, expiresAt := q.expiresAt))
  {
    hide OrdersOk;
    hide IsGuard;
    hide Version;
    hide GuardOf;
    var k := ApprovalKey(c);
    assert k in tx.writes ==> tx.job.Issue? && k in tx.locks;
    assert k in tx.writes ==> Get(tx.snap, k) == Get(db, k);
    hide SnapOk;
  }

  lemma CommandsCommitEdit(s: State, t: TxnId)
    requires EditEnabled(s, t, CommitEdit) && CommandInv(s) && TxnOk(s.txns[t]) && SnapOk(s.db, s.txns[t])
    ensures CommandInv(EditApply(s, t, CommitEdit))
  {
    hide TxnOk;
    hide SnapOk;
    var s' := EditApply(s, t, CommitEdit);
    forall d ensures CommandOk(s'.log, d, Get(s'.db, AttemptKey(d)), Get(s'.db, ApprovalKey(d))) {
      assert CommandOk(s.log, d, Get(s.db, AttemptKey(d)), Get(s.db, ApprovalKey(d)));
      EditedRows(s.db, s.txns[t], d);
    }
  }

  lemma CommandsEdit(s: State, t: TxnId, act: EditAct)
    requires EditEnabled(s, t, act) && CommandInv(s)
    requires act.CommitEdit? ==> TxnOk(s.txns[t]) && SnapOk(s.db, s.txns[t])
    ensures CommandInv(EditApply(s, t, act))
  {
    hide TxnOk;
    hide SnapOk;
    if act.CommitEdit? {
      CommandsCommitEdit(s, t);
    } else {
      EditWritesLater(s, t, act);
    }
    hide EditEnabled;
    hide EditApply;
  }

  lemma CommandsPdp(s: State, act: PdpAct)
    requires PdpEnabled(s, act) && CommandInv(s)
    ensures CommandInv(PdpApply(s, act))
  {
    var s' := PdpApply(s, act);
    forall d ensures CommandOk(s'.log, d, Get(s'.db, AttemptKey(d)), Get(s'.db, ApprovalKey(d))) {
      assert CommandOk(s.log, d, Get(s.db, AttemptKey(d)), Get(s.db, ApprovalKey(d)));
    }
  }

  // -------------------------------------------------------------- revocations

  /** A confirmation never writes over a tombstone. */
  lemma TombstonesKept(s: State, t: TxnId, state: OrderState, i: int)
    requires ConfirmAt(s, t, AuthorityHeld) && RevokeInv(s) && ViewOk(s.db, s.txns[t]) && i in s.revokers
    ensures Get(s.db + ExecutionWrites(s.txns[t], state), FenceKey(s.revokers[i].tenant, s.revokers[i].grant)) == FenceRow(true)
  {
    hide SignedIntent;
    hide Deadline;
    hide ExecutionWrites;
    ExecutionRows(s.db, s.txns[t], state, Command(s.revokers[i].tenant, s.revokers[i].grant, 0));
  }

  lemma RevokeConfirm(s: State, t: TxnId, act: ConfirmAct)
    requires ConfirmEnabled(s, t, act) && RevokeInv(s)
    requires t in s.txns && s.txns[t].job.Confirm? ==> ViewOk(s.db, s.txns[t])
    ensures RevokeInv(ConfirmApply(s, t, act))
  {
    hide SignedIntent;
    hide IntentOf;
    hide Deadline;
    hide Record;
    hide NextOrder;
    hide ConfirmApply;
    hide ConfirmEnabled;
    hide ConfirmOk;
    hide ExecutionWrites;
    CommitsConfirmation(s, t, act);
    match act
    case CommitExecution(state) =>
      ExecutionCommits(s, t, state);
      forall i | i in s.revokers { TombstonesKept(s, t, state, i); }
    case CommitPending => PendingCommits(s, t);
    case CommitTerminal => TerminalCommits(s, t);
    case _ => Uncommitted(s, t, act);
  }

  lemma RevokeEdit(s: State, t: TxnId, act: EditAct)
    requires EditEnabled(s, t, act) && RevokeInv(s)
    requires act.CommitEdit? ==> TxnOk(s.txns[t])
    ensures RevokeInv(EditApply(s, t, act))
  {}

  lemma RevokePdp(s: State, act: PdpAct)
    requires PdpEnabled(s, act) && RevokeInv(s)
    ensures RevokeInv(PdpApply(s, act))
  {}

  // -------------------------------------------------------------- command ids

  lemma NonceHoldOrder(s: State, t: TxnId, minted: Nonce)
    requires ConfirmEnabled(s, t, HoldOrder(minted)) && NonceInv(s)
    ensures NonceInv(ConfirmApply(s, t, HoldOrder(minted)))
  {
    var s' := ConfirmApply(s, t, HoldOrder(minted));
    var o := s.txns[t].job.order;
    var n := s'.txns[t].job.command.nonce;
    assert CanLock(s, t, OrderKey(o));
    forall u | Staged(s', u) && u != t ensures Staged(s, u) && s'.txns[u] == s.txns[u] {}
    if Get(s.db, OrderKey(o)).nonce.Some? { assert HoldsNonce(s.db, o); }
  }

  /** Nothing that command ids depend on differs, except that transactions ended. */
  ghost predicate NonceAgree(s: State, s': State) {
    && s'.nonces == s.nonces
    && (forall p :: HoldsNonce(s'.db, p) <==> HoldsNonce(s.db, p))
    && (forall p | HoldsNonce(s.db, p) :: Get(s'.db, OrderKey(p)).nonce == Get(s.db, OrderKey(p)).nonce)
    && (forall c :: Get(s'.db, AttemptKey(c)) == Get(s.db, AttemptKey(c)))
    && (forall u | Staged(s', u) :: Staged(s, u)
          && s'.txns[u].job.command == s.txns[u].job.command && s'.txns[u].job.order == s.txns[u].job.order)
  }

  lemma NonceSame(s: State, s': State)
    requires NonceInv(s) && NonceAgree(s, s')
    ensures NonceInv(s')
  {}

  lemma StagedStays(s: State, t: TxnId, act: ConfirmAct, u: TxnId)
    requires ConfirmEnabled(s, t, act) && !Commits(act) && !act.HoldOrder? && Staged(ConfirmApply(s, t, act), u)
    ensures var s' := ConfirmApply(s, t, act);
      Staged(s, u) && s'.txns[u].job.command == s.txns[u].job.command && s'.txns[u].job.order == s.txns[u].job.order
  {
    hide SignedIntent;
    hide Exposed;
    hide Deadline;
    hide LineKeys;
  }

  lemma NonceHold(s: State, t: TxnId, act: ConfirmAct)
    requires ConfirmEnabled(s, t, act) && NonceInv(s) && !Commits(act) && !act.HoldOrder?
    ensures NonceInv(ConfirmApply(s, t, act))
  {
    hide NonceInv;
    hide HoldsNonce;
    hide ConfirmApply;
    hide ConfirmEnabled;
    Uncommitted(s, t, act);
    forall u | Staged(ConfirmApply(s, t, act), u) { StagedStays(s, t, act, u); }
    NonceSame(s, ConfirmApply(s, t, act));
  }

  /** Storing the command id on the order it was minted for, and the attempt
      beside it, keeps command ids on one order each. */
  lemma NonceCommit(s: State, t: TxnId, w: Db, state: OrderState, attempt: Row)
    requires t in s.txns && s.txns[t].job.Confirm? && Past(s.txns[t].job.stage)
    requires NonceInv(s) && ViewOk(s.db, s.txns[t])
    requires OrderKey(s.txns[t].job.order) in w && AttemptKey(s.txns[t].job.command) in w
    requires w[OrderKey(s.txns[t].job.order)] == NextOrder(s.txns[t], state)
    requires attempt.AttemptRow? && attempt.order == s.txns[t].job.order
    requires w[AttemptKey(s.txns[t].job.command)] == attempt
    requires forall k | k in w && k.OrderKey? :: k.order == s.txns[t].job.order
    requires forall k | k in w && k.AttemptKey? :: k.command == s.txns[t].job.command
    ensures NonceInv(Commit(s, t, w))
  {
    var s' := Commit(s, t, w);
    var o, n := s.txns[t].job.order, s.txns[t].job.command.nonce;
    assert Staged(s, t);
    assert Get(s'.db, OrderKey(o)).nonce == Some(n);
    forall p | p != o ensures Get(s'.db, OrderKey(p)) == Get(s.db, OrderKey(p)) {}
    forall p ensures HoldsNonce(s.db, p) ==> HoldsNonce(s'.db, p) && Get(s'.db, OrderKey(p)).nonce == Get(s.db, OrderKey(p)).nonce {}
    forall p | HoldsNonce(s'.db, p) && p != o ensures HoldsNonce(s.db, p) && Get(s.db, OrderKey(p)).nonce != Some(n) {}
    forall u | Staged(s', u) ensures Staged(s, u) && s'.txns[u] == s.txns[u] {}
    forall c | Get(s'.db, AttemptKey(c)).AttemptRow? && c != s.txns[t].job.command
      ensures Get(s'.db, AttemptKey(c)) == Get(s.db, AttemptKey(c)) {}
  }

  lemma EditOrderNonce(s: State, t: TxnId, p: OrderId)
    requires EditEnabled(s, t, CommitEdit) && TxnOk(s.txns[t]) && SnapOk(s.db, s.txns[t])
    ensures var db' := s.db + s.txns[t].writes;
      && (HoldsNonce(db', p) <==> HoldsNonce(s.db, p))
      && (HoldsNonce(s.db, p) ==> Get(db', OrderKey(p)).nonce == Get(s.db, OrderKey(p)).nonce)
  {
    hide ConfirmOk;
    var tx := s.txns[t];
    if OrderKey(p) in tx.writes { assert Get(tx.snap, OrderKey(p)) == Get(s.db, OrderKey(p)); }
  }

  lemma EditAttempts(s: State, t: TxnId, c: Command)
    requires EditEnabled(s, t, CommitEdit) && TxnOk(s.txns[t])
    ensures Get(s.db + s.txns[t].writes, AttemptKey(c)) == Get(s.db, AttemptKey(c))
  {
    hide ConfirmOk;
    assert AttemptKey(c) !in s.txns[t].writes;
  }

  lemma NonceEditCommit(s: State, t: TxnId)
    requires EditEnabled(s, t, CommitEdit) && NonceInv(s) && TxnOk(s.txns[t]) && SnapOk(s.db, s.txns[t])
    ensures NonceInv(EditApply(s, t, CommitEdit))
  {
    hide NonceInv;
    hide HoldsNonce;
    hide TxnOk;
    hide SnapOk;
    forall p { EditOrderNonce(s, t, p); }
    forall c { EditAttempts(s, t, c); }
    NonceSame(s, EditApply(s, t, CommitEdit));
  }

  lemma NonceConfirm(s: State, t: TxnId, act: ConfirmAct)
    requires ConfirmEnabled(s, t, act) && NonceInv(s)
    requires t in s.txns && s.txns[t].job.Confirm? ==> ViewOk(s.db, s.txns[t])
    ensures NonceInv(ConfirmApply(s, t, act))
  {
    hide NonceInv;
    hide ConfirmApply;
    match act
    case HoldOrder(m) => NonceHoldOrder(s, t, m);
    case CommitExecution(state) => NonceExecution(s, t, state);
    case CommitPending => NoncePending(s, t);
    case CommitTerminal => NonceTerminal(s, t);
    case _ => NonceHold(s, t, act);
  }

  /** The log has no part in it. */
  lemma NonceLog(s: State, log: seq<Execution>)
    requires NonceInv(s)
    ensures NonceInv(s.(log := log))
  {
    hide NonceInv;
    hide HoldsNonce;
    NonceSame(s, s.(log := log));
  }

  lemma NonceExecuted(s: State, t: TxnId, state: OrderState)
    requires ConfirmAt(s, t, AuthorityHeld) && NonceInv(s) && ViewOk(s.db, s.txns[t])
    ensures NonceInv(Commit(s, t, ExecutionWrites(s.txns[t], state)))
  {
    hide NonceInv;
    hide SignedIntent;
    hide Deadline;
    hide NextOrder;
    var w := ExecutionWrites(s.txns[t], state);
    NonceCommit(s, t, w, state, w[AttemptKey(s.txns[t].job.command)]);
  }

  lemma NonceExecution(s: State, t: TxnId, state: OrderState)
    requires ConfirmEnabled(s, t, CommitExecution(state)) && NonceInv(s) && ViewOk(s.db, s.txns[t])
    ensures NonceInv(ConfirmApply(s, t, CommitExecution(state)))
  {
    hide NonceInv;
    hide Record;
    ExecutionCommits(s, t, state);
    NonceExecuted(s, t, state);
    NonceLog(Commit(s, t, ExecutionWrites(s.txns[t], state)), s.log + [Record(s, s.txns[t])]);
    hide ConfirmApply;
    hide ConfirmEnabled;
    hide ExecutionWrites;
  }

  lemma NoncePending(s: State, t: TxnId)
    requires ConfirmEnabled(s, t, CommitPending) && NonceInv(s) && ViewOk(s.db, s.txns[t])
    ensures NonceInv(ConfirmApply(s, t, CommitPending))
  {
    hide NonceInv;
    hide HoldsNonce;
    hide IntentOf;
    hide Deadline;
    PendingCommits(s, t);
    assert ConfirmAt(s, t, Parked);
    hide ConfirmApply;
    hide ConfirmEnabled;
    var w := PendingWrites(s.txns[t]);
    NonceCommit(s, t, w, ToApprove, w[AttemptKey(s.txns[t].job.command)]);
  }

  lemma NonceTerminal(s: State, t: TxnId)
    requires ConfirmEnabled(s, t, CommitTerminal) && NonceInv(s) && ConfirmOk(s.txns[t])
    ensures NonceInv(ConfirmApply(s, t, CommitTerminal))
  {
    var s' := ConfirmApply(s, t, CommitTerminal);
    TerminalCommits(s, t);
    forall o ensures Get(s'.db, OrderKey(o)) == Get(s.db, OrderKey(o)) {}
    forall o ensures HoldsNonce(s'.db, o) <==> HoldsNonce(s.db, o) {}
    forall c ensures Get(s'.db, AttemptKey(c)) == Get(s.db, AttemptKey(c)) {}
    forall u | Staged(s', u) ensures Staged(s, u) && s'.txns[u] == s.txns[u] {}
  }

  lemma NonceEdit(s: State, t: TxnId, act: EditAct)
    requires EditEnabled(s, t, act) && NonceInv(s)
    requires act.CommitEdit? ==> TxnOk(s.txns[t]) && SnapOk(s.db, s.txns[t])
    ensures NonceInv(EditApply(s, t, act))
  {
    if act.CommitEdit? {
      NonceEditCommit(s, t);
    } else {
      var s' := EditApply(s, t, act);
      forall u | Staged(s', u) ensures Staged(s, u) && s'.txns[u] == s.txns[u] {}
    }
  }

  lemma NoncePdp(s: State, act: PdpAct)
    requires PdpEnabled(s, act) && NonceInv(s)
    ensures NonceInv(PdpApply(s, act))
  {
    var s' := PdpApply(s, act);
    forall o ensures Get(s'.db, OrderKey(o)) == Get(s.db, OrderKey(o)) {}
    forall o ensures HoldsNonce(s'.db, o) <==> HoldsNonce(s.db, o) {}
    forall c ensures Get(s'.db, AttemptKey(c)) == Get(s.db, AttemptKey(c)) {}
    forall u | Staged(s', u) ensures Staged(s, u) && s'.txns[u] == s.txns[u] {}
  }
}
