/** No line comes to stand under an order that a confirmation or an approver
    holds: the insert waits for them, and they for the insert. */
module LineExclusion {
  import opened Basics
  import opened ErpDatabase
  import opened CommitProtocol
  import opened CommitInvariants
  import opened CommitSteps
  import opened CommitSafety

  /** What a confirmation or an approver has locked, nobody else shares. */
  ghost predicate Apart(txns: map<TxnId, Txn>) {
    forall t, u | t in txns && u in txns && t != u && !txns[t].job.Edit? :: txns[t].locks !! txns[u].shares
  }

  /** Only orders are shared, among them the order of every new line, and only
      editors write lines. */
  ghost predicate InsertsShare(tx: Txn) {
    && (!tx.job.Edit? ==> forall k | k in tx.writes :: !k.LineKey?)
    && (forall k | k in tx.shares :: k.OrderKey?)
    && (forall o, l | Get(tx.writes, LineKey(o, l)).LineRow? && !Get(tx.snap, LineKey(o, l)).LineRow? ::
          OrderKey(o) in tx.shares)
  }

  ghost predicate SharesOk(txns: map<TxnId, Txn>) {
    Apart(txns) && forall t | t in txns :: InsertsShare(txns[t])
  }

  /** A transaction may change its locks and shares like this. */
  ghost predicate Fits(txns: map<TxnId, Txn>, t: TxnId, tx: Txn) {
    && InsertsShare(tx)
    && forall u | u in txns && u != t ::
         (!tx.job.Edit? ==> tx.locks !! txns[u].shares) && (!txns[u].job.Edit? ==> txns[u].locks !! tx.shares)
  }

  lemma SetFits(txns: map<TxnId, Txn>, t: TxnId, tx: Txn)
    requires SharesOk(txns) && Fits(txns, t, tx)
    ensures SharesOk(txns[t := tx])
  {
    hide InsertsShare;
  }

  lemma RemoveFits(txns: map<TxnId, Txn>, t: TxnId)
    requires SharesOk(txns)
    ensures SharesOk(txns - {t})
  {
    hide InsertsShare;
  }

  // ------------------------------------------------------------- confirmations

  /** A step that keeps the transaction open locks rows that it may lock. */
  ghost predicate LocksMore(s: State, t: TxnId, tx: Txn, more: set<Key>)
    requires t in s.txns
  {
    && tx.job.Confirm? && tx.shares == s.txns[t].shares && tx.snap == s.txns[t].snap
    && tx.locks == s.txns[t].locks + more && (forall k | k in more :: CanLock(s, t, k))
    && (forall k | k in tx.writes :: k in s.txns[t].writes || !k.LineKey?)
  }

  lemma LocksFit(s: State, t: TxnId, tx: Txn, more: set<Key>)
    requires SharesOk(s.txns) && t in s.txns && s.txns[t].job.Confirm? && LocksMore(s, t, tx, more)
    ensures Fits(s.txns, t, tx)
  {
    assert InsertsShare(s.txns[t]);
    forall u | u in s.txns && u != t ensures tx.locks !! s.txns[u].shares {
      assert s.txns[t].locks !! s.txns[u].shares;
    }
    forall u | u in s.txns && u != t && !s.txns[u].job.Edit? ensures s.txns[u].locks !! tx.shares {
      assert s.txns[u].locks !! s.txns[t].shares;
    }
  }

  predicate Ends(act: ConfirmAct) {
    act.CommitExecution? || act.CommitPending? || act.CommitTerminal? || act.Abort?
  }

  lemma ConfirmLocks(s: State, t: TxnId, act: ConfirmAct) returns (tx: Txn, more: set<Key>)
    requires ConfirmEnabled(s, t, act) && !act.BeginConfirm? && !Ends(act)
    ensures t in s.txns && s.txns[t].job.Confirm?
    ensures ConfirmApply(s, t, act).txns == s.txns[t := tx] && LocksMore(s, t, tx, more)
  {
    if act.ClaimCommand? || act.BindApproval? {
      tx, more := BindingLocks(s, t, act);
    } else {
      hide CanLock;
      hide LineKeys;
      tx := ConfirmApply(s, t, act).txns[t];
      var c := s.txns[t].job.command;
      more := match act
        case HoldOrder(_) => {OrderKey(s.txns[t].job.order)}
        case HoldFence => {FenceOf(c)}
        case HoldEpoch => {EpochKey}
        case HoldPolicy => {PolicyKey(c.tenant)}
        case _ => {};
    }
  }

  lemma BindingLocks(s: State, t: TxnId, act: ConfirmAct) returns (tx: Txn, more: set<Key>)
    requires ConfirmEnabled(s, t, act) && (act.ClaimCommand? || act.BindApproval?)
    ensures t in s.txns && s.txns[t].job.Confirm?
    ensures ConfirmApply(s, t, act).txns == s.txns[t := tx] && LocksMore(s, t, tx, more)
  {
    hide CanLock;
    hide SignedIntent;
    hide Deadline;
    tx := ConfirmApply(s, t, act).txns[t];
    var c, lines := s.txns[t].job.command, LineKeys(s.txns[t].snap, s.txns[t].job.order);
    hide LineKeys;
    more := {AttemptKey(c)} + (if act.BindApproval? then {ApprovalKey(c)} else {}) + lines;
    assert tx.locks == s.txns[t].locks + more;
  }

  lemma ConfirmRemoves(s: State, t: TxnId, act: ConfirmAct)
    requires ConfirmEnabled(s, t, act) && Ends(act)
    ensures ConfirmApply(s, t, act).txns == s.txns - {t}
  {
    hide ExecutionWrites;
    hide PendingWrites;
    hide TerminalWrites;
    hide Record;
  }

  lemma ConfirmKeepsShares(s: State, t: TxnId, act: ConfirmAct)
    requires ConfirmEnabled(s, t, act) && SharesOk(s.txns)
    ensures SharesOk(ConfirmApply(s, t, act).txns)
  {
    if act.BeginConfirm? {
      hide SharesOk;
      var tx := ConfirmApply(s, t, act).txns[t];
      assert Fits(s.txns, t, tx);
      SetFits(s.txns, t, tx);
    } else if Ends(act) {
      hide SharesOk;
      ConfirmRemoves(s, t, act);
      RemoveFits(s.txns, t);
    } else {
      var tx, more := ConfirmLocks(s, t, act);
      hide ConfirmApply;
      hide ConfirmEnabled;
      LocksFit(s, t, tx, more);
      SetFits(s.txns, t, tx);
    }
  }

  // -------------------------------------------------------------------- editors

  /** An editor's own rows need not be apart from anyone's; what it shares must. */
  lemma EditFits(s: State, t: TxnId, tx: Txn, o: OrderId)
    requires SharesOk(s.txns) && t in s.txns && s.txns[t].job.Edit? && tx.job.Edit?
    requires InsertsShare(tx)
    requires tx.shares == s.txns[t].shares || (tx.shares == s.txns[t].shares + {OrderKey(o)} && CanShare(s, t, OrderKey(o)))
    ensures Fits(s.txns, t, tx)
  {
    hide InsertsShare;
    forall u | u in s.txns && u != t && !s.txns[u].job.Edit? ensures s.txns[u].locks !! tx.shares {
      assert s.txns[u].locks !! s.txns[t].shares;
    }
  }

  lemma LineFits(s: State, t: TxnId, o: OrderId, line: LineId, row: Row)
    requires EditEnabled(s, t, PutLine(o, line, row)) && SharesOk(s.txns)
    ensures var s' := EditApply(s, t, PutLine(o, line, row)); SharesOk(s'.txns)
  {
    var tx := EditApply(s, t, PutLine(o, line, row)).txns[t];
    assert InsertsShare(s.txns[t]);
    LineShares(s.txns[t], tx, o, line, row);
    hide InsertsShare;
    EditFits(s, t, tx, o);
    SetFits(s.txns, t, tx);
  }

  lemma LineShares(tx: Txn, tx': Txn, o: OrderId, line: LineId, row: Row)
    requires tx.job.Edit? && InsertsShare(tx) && tx'.job == tx.job && tx'.snap == tx.snap
    requires tx'.shares == if Inserts(tx, o, line, row) then tx.shares + {OrderKey(o)} else tx.shares
    requires tx'.writes == (tx.writes + Touched(tx, o))[LineKey(o, line) := row]
    ensures InsertsShare(tx')
  {
    forall p, l | Get(tx'.writes, LineKey(p, l)).LineRow? && !Get(tx.snap, LineKey(p, l)).LineRow?
      ensures OrderKey(p) in tx'.shares
    {
      if p != o || l != line || Get(tx.writes, LineKey(p, l)).LineRow? { assert Get(tx.writes, LineKey(p, l)).LineRow?; }
    }
  }

  lemma OtherEditFits(s: State, t: TxnId, act: EditAct)
    requires EditEnabled(s, t, act) && SharesOk(s.txns) && (act.CreateOrder? || act.PutOrder? || act.PutAuthority?)
    ensures SharesOk(EditApply(s, t, act).txns)
  {
    var tx := EditApply(s, t, act).txns[t];
    assert InsertsShare(s.txns[t]);
    assert forall o, l :: Get(tx.writes, LineKey(o, l)) == Get(s.txns[t].writes, LineKey(o, l));
    assert InsertsShare(tx);
    hide InsertsShare;
    EditFits(s, t, tx, 0);
    SetFits(s.txns, t, tx);
  }

  lemma EditKeepsShares(s: State, t: TxnId, act: EditAct)
    requires EditEnabled(s, t, act) && SharesOk(s.txns)
    ensures SharesOk(EditApply(s, t, act).txns)
  {
    match act
    case PutLine(o, line, row) => LineFits(s, t, o, line, row);
    case CommitEdit => RemoveFits(s.txns, t);
    case BeginEdit => SetFits(s.txns, t, EditApply(s, t, act).txns[t]);
    case IssueCapability(_, _) => IssueFits(s, t, act);
    case _ => OtherEditFits(s, t, act);
  }

  lemma IssueFits(s: State, t: TxnId, act: EditAct)
    requires EditEnabled(s, t, act) && SharesOk(s.txns) && act.IssueCapability?
    ensures SharesOk(EditApply(s, t, act).txns)
  {
    var tx := EditApply(s, t, act).txns[t];
    forall u | u in s.txns ensures tx.locks !! s.txns[u].shares {
      assert InsertsShare(s.txns[u]);
    }
    SetFits(s.txns, t, tx);
  }

  // ----------------------------------------------------------------------- runs

  lemma StepKeepsShares(s: State, step: Step)
    requires Enabled(s, step) && SharesOk(s.txns)
    ensures SharesOk(Apply(s, step).txns)
  {
    hide SharesOk;
    hide ConfirmEnabled;
    hide ConfirmApply;
    hide EditEnabled;
    hide EditApply;
    match step
    case ByConfirm(t, act) => ConfirmKeepsShares(s, t, act);
    case ByEdit(t, act) => EditKeepsShares(s, t, act);
    case ByPdp(act) => assert PdpApply(s, act).txns == s.txns;
  }

  lemma {:induction false} RunKeepsShares(s: State, steps: seq<Step>)
    requires IsRun(s, steps) && SharesOk(s.txns)
    ensures SharesOk(After(s, steps).txns)
    decreases |steps|
  {
    hide Enabled;
    hide Apply;
    hide SharesOk;
    if steps != [] {
      StepKeepsShares(s, steps[0]);
      RunKeepsShares(Apply(s, steps[0]), steps[1..]);
    }
  }

  /** What a confirmation or an approver has locked, nobody else shares. */
  lemma ReachableShares(s: State)
    requires Reachable(s)
    ensures SharesOk(s.txns)
  {
    hide IsRun;
    hide After;
    var start, steps :| Init(start) && IsRun(start, steps) && After(start, steps) == s;
    RunKeepsShares(start, steps);
  }

  /** While a confirmation or an approver holds an order, no line comes to stand
      under it. */
  lemma NoLineUnderHeldOrder(s: State, step: Step, o: OrderId, line: LineId, u: TxnId)
    requires Reachable(s) && Enabled(s, step) && u in s.txns && !s.txns[u].job.Edit? && OrderKey(o) in s.txns[u].locks
    requires !Get(s.db, LineKey(o, line)).LineRow?
    ensures !Get(Apply(s, step).db, LineKey(o, line)).LineRow?
  {
    hide Reachable;
    hide MvccInv;
    hide TxnsOk;
    hide SharesOk;
    ReachableInv(s);
    ReachableShares(s);
    match step
    case ByConfirm(t, act) => ConfirmInsertsNone(s, t, act, o, line);
    case ByEdit(t, act) => if act.CommitEdit? { EditInsertsNone(s, t, o, line, u); } else { EditWritesLater(s, t, act); }
    case ByPdp(act) => PdpInsertsNone(s, act, o, line);
    hide ConfirmEnabled;
    hide ConfirmApply;
    hide EditEnabled;
    hide EditApply;
    hide PdpEnabled;
    hide PdpApply;
  }

  lemma PdpInsertsNone(s: State, act: PdpAct, o: OrderId, line: LineId)
    requires PdpEnabled(s, act)
    ensures Get(PdpApply(s, act).db, LineKey(o, line)) == Get(s.db, LineKey(o, line))
  {
    hide Barrier;
    hide Lift;
  }

  lemma ConfirmInsertsNone(s: State, t: TxnId, act: ConfirmAct, o: OrderId, line: LineId)
    requires ConfirmEnabled(s, t, act) && SharesOk(s.txns)
    ensures Get(ConfirmApply(s, t, act).db, LineKey(o, line)) == Get(s.db, LineKey(o, line))
  {
    if Ends(act) && !act.Abort? {
      assert InsertsShare(s.txns[t]);
      LastWritesInsertNone(s.txns[t], act, o, line);
      hide ExecutionWrites;
      hide PendingWrites;
      hide TerminalWrites;
      hide Record;
      hide DeadlineHolds;
    } else {
      ConfirmWritesLater(s, t, act);
      hide ConfirmEnabled;
      hide ConfirmApply;
    }
  }

  lemma ConfirmWritesLater(s: State, t: TxnId, act: ConfirmAct)
    requires ConfirmEnabled(s, t, act) && (!Ends(act) || act.Abort?)
    ensures ConfirmApply(s, t, act).db == s.db
  {
    hide CanLock;
    hide Deadline;
    hide SignedIntent;
    hide LineKeys;
    hide Exposed;
  }

  lemma LastWritesInsertNone(tx: Txn, act: ConfirmAct, o: OrderId, line: LineId)
    requires tx.job.Confirm?
    ensures act.CommitExecution? && OrderSeen(tx).OrderRow? && (tx.job.approved ==> ApprovalSeen(tx).ApprovalRow?) ==>
              LineKey(o, line) !in ExecutionWrites(tx, act.state)
    ensures act.CommitPending? && OrderSeen(tx).OrderRow? ==> LineKey(o, line) !in PendingWrites(tx)
    ensures act.CommitTerminal? && tx.job.stage.Terminating? && ApprovalSeen(tx).ApprovalRow? ==>
              LineKey(o, line) !in TerminalWrites(tx)
  {
    hide NextOrder;
    hide Deadline;
    hide IntentOf;
  }

  lemma EditInsertsNone(s: State, t: TxnId, o: OrderId, line: LineId, u: TxnId)
    requires EditEnabled(s, t, CommitEdit) && SharesOk(s.txns) && MvccInv(s.db, s.txns) && TxnsOk(s.txns)
    requires u in s.txns && !s.txns[u].job.Edit? && OrderKey(o) in s.txns[u].locks
    requires !Get(s.db, LineKey(o, line)).LineRow?
    ensures !Get(EditApply(s, t, CommitEdit).db, LineKey(o, line)).LineRow?
  {
    var tx, key := s.txns[t], LineKey(o, line);
    assert InsertsShare(tx) && TxnOk(tx) && SnapOk(s.db, tx);
    assert tx.job.Edit? ==> s.txns[u].locks !! tx.shares && (key in tx.writes ==> key in tx.locks);
  }

  /** Editors do not wait for one another: a line goes under an order of theirs
      that others are updating. */
  lemma EditorsInsertTogether(s: State, t: TxnId, o: OrderId, line: LineId, row: Row)
    requires t in s.txns && s.txns[t].job.Edit? && row.LineRow?
    requires Get(s.txns[t].snap, OrderKey(o)).OrderRow? && !Get(s.txns[t].snap, OrderKey(o)).delegated
    requires s.txns[t].writes == map[] && Get(s.txns[t].snap, LineKey(o, line)) == Get(s.db, LineKey(o, line)) == Gone
    requires forall u | u in s.txns && u != t ::
               LineKey(o, line) !in s.txns[u].locks && (OrderKey(o) in s.txns[u].locks ==> s.txns[u].job.Edit?)
    ensures Enabled(s, ByEdit(t, PutLine(o, line, row)))
  {
  }

  /** Nor does changing or removing a line wait for whoever holds its order, as
      long as the editor sees the order as not delegated. */
  lemma ChangesDoNotWait(s: State, t: TxnId, o: OrderId, line: LineId, row: Row)
    requires t in s.txns && s.txns[t].job.Edit? && (row.LineRow? || row == Gone)
    requires Get(s.txns[t].snap, OrderKey(o)).OrderRow? && !Get(s.txns[t].snap, OrderKey(o)).delegated
    requires s.txns[t].writes == map[] && Get(s.txns[t].snap, LineKey(o, line)).LineRow?
    requires Get(s.txns[t].snap, LineKey(o, line)) == Get(s.db, LineKey(o, line))
    requires forall u | u in s.txns && u != t :: LineKey(o, line) !in s.txns[u].locks
    ensures Enabled(s, ByEdit(t, PutLine(o, line, row)))
    ensures Apply(s, ByEdit(t, PutLine(o, line, row))).txns[t].shares == s.txns[t].shares
  {
  }
}
