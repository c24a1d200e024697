/** Delegated purchase-order confirmation across two databases.

    One state holds the ERP database with its open transactions, and the PDP
    database with its policy writers, revocations and answers. Every step is
    one atomic action; a process may stop for good between any two of its
    steps, so a crash is a run in which that process takes no further step. */
module CommitProtocol {
  import opened Basics
  import opened ErpDatabase

  /** How far a confirmation has come; `Parked` waits to store a pending
      approval and `Terminating` to store a terminal approval state. */
  datatype Stage =
    | Begun | OrderHeld | Bound | Allowed | FenceHeld | EpochHeld | AuthorityHeld
    | Parked | Terminating(outcome: ApprovalState)

  /** `exposed` records whether, when the confirmation took its snapshot, an
      open editor still saw the order as not delegated. */
  datatype Job =
    | Confirm(order: OrderId, exposed: bool, stage: Stage, command: Command, approved: bool, answers: seq<Answer>)
    | Edit
    | Issue

  /** `locks` holds the rows locked for update, `shares` the order rows that an
      inserted line keeps from being locked `FOR UPDATE` by its foreign key. */
  datatype Txn = Txn(snap: Db, locks: set<Key>, shares: set<Key>, writes: Db, job: Job)

  /** One PDP answer; revision 0 means that no policy snapshot was loaded. */
  datatype Answer = Answer(tenant: Tenant, revision: int, allow: bool, needsApproval: bool)

  datatype WriterPhase = Closed | Mutated | Read(revision: int) | Lifted
  datatype Writer = Writer(tenant: Tenant, phase: WriterPhase)

  datatype RevokePhase = Tombstoned | Published | PublishFailed
  datatype Revoker = Revoker(tenant: Tenant, grant: GrantId, phase: RevokePhase)

  /** What held in both databases at the instant an execution committed. */
  datatype Execution = Execution(
    command: Command, order: OrderId, approved: bool, exposed: bool,
    answers: seq<Answer>, pdpRevision: int,
    signed: Intent, stored: Option<Intent>, current: Option<Intent>,
    fence: Row,
    authorityRead: Db, authorityNow: Db,
    at: int, deadline: int)

  datatype State = State(
    db: Db, txns: map<TxnId, Txn>, clock: int,
    policyRevisions: map<Tenant, int>, fetched: set<(Tenant, int)>, answers: set<Answer>,
    writers: map<Token, Writer>, revokers: map<int, Revoker>,
    nonces: set<Nonce>, log: seq<Execution>)

  /** One statement group of a confirmation transaction. */
  datatype ConfirmAct =
    | BeginConfirm(o: OrderId)
    | HoldOrder(minted: Nonce)
    | ClaimCommand
    | BindApproval
    | TakeAnswer(a: Answer)
    | Terminate(outcome: ApprovalState)
    | HoldFence
    | HoldEpoch
    | HoldPolicy
    | CommitExecution(state: OrderState)
    | CommitPending
    | CommitTerminal
    | Abort

  /** Any other ERP transaction: order, line and authority edits, and the
      approver's capability. */
  datatype EditAct =
    | BeginEdit
    | CreateOrder(o: OrderId, row: Row)
    | PutOrder(o: OrderId, row: Row)
    | PutLine(o: OrderId, line: LineId, row: Row)
    | PutAuthority(k: Key, row: Row)
    | IssueCapability(command: Command, expiresAt: int)
    | CommitEdit

  datatype PdpAct =
    | FetchBundle(tenant: Tenant)
    | Evaluate(a: Answer)
    | Bootstrap(a: Answer)
    | CloseBarrier(token: Token, tenant: Tenant)
    | Mutate(token: Token, bump: bool)
    | ReadRevision(token: Token)
    | LiftBarrier(token: Token)
    | WriteTombstone(id: int, tenant: Tenant, grant: GrantId)
    | PublishRevocation(id: int)
    | FailPublication(id: int)
    | Tick(elapsed: nat)

  datatype Step =
    | ByConfirm(t: TxnId, confirm: ConfirmAct)
    | ByEdit(t: TxnId, edit: EditAct)
    | ByPdp(pdp: PdpAct)

  // ---------------------------------------------------------------- locking

  predicate Unlocked(s: State, k: Key) {
    forall t | t in s.txns :: k !in s.txns[t].locks
  }

  predicate Unshared(s: State, k: Key) {
    forall t | t in s.txns :: k !in s.txns[t].shares
  }

  /** An `UPDATE` of `k` by `t` returns: nobody else has locked the row and it
      has not changed since the snapshot. */
  predicate CanWrite(s: State, t: TxnId, k: Key)
    requires t in s.txns
  {
    && (forall u | u in s.txns && u != t :: k !in s.txns[u].locks)
    && Get(s.txns[t].snap, k) == Get(s.db, k)
  }

  /** `FOR UPDATE` of `k` by `t` returns: as an `UPDATE`, and nobody else has
      inserted a line under the row. */
  predicate CanLock(s: State, t: TxnId, k: Key)
    requires t in s.txns
  {
    CanWrite(s, t, k) && forall u | u in s.txns && u != t :: k !in s.txns[u].shares
  }

  /** `FOR KEY SHARE` of `k` by `t` returns: no confirmation or approver has
      locked the row `FOR UPDATE`. Another editor's update of it is no obstacle,
      and neither is a change since the snapshot. */
  predicate CanShare(s: State, t: TxnId, k: Key) {
    forall u | u in s.txns && u != t && !s.txns[u].job.Edit? :: k !in s.txns[u].locks
  }

  predicate CanLockAll(s: State, t: TxnId, ks: set<Key>)
    requires t in s.txns
  {
    forall k | k in ks :: CanLock(s, t, k)
  }

  predicate ConfirmAt(s: State, t: TxnId, stage: Stage) {
    t in s.txns && s.txns[t].job.Confirm? && s.txns[t].job.stage == stage
  }

  predicate Editing(s: State, t: TxnId) {
    t in s.txns && s.txns[t].job.Edit?
  }

  /** An editor whose snapshot shows the order as not delegated. */
  predicate Stale(tx: Txn, o: OrderId) {
    tx.job.Edit? && Get(tx.snap, OrderKey(o)).OrderRow? && !Get(tx.snap, OrderKey(o)).delegated
  }

  predicate Exposed(s: State, o: OrderId) {
    exists u | u in s.txns :: Stale(s.txns[u], o)
  }

  function Advance(tx: Txn, locks: set<Key>, stage: Stage): Txn
    requires tx.job.Confirm?
  {
    tx.(locks := tx.locks + locks, job := tx.job.(stage := stage))
  }

  // ------------------------------------------------- rows a confirmation reads

  function OrderSeen(tx: Txn): Row
    requires tx.job.Confirm?
  {
    Get(tx.snap, OrderKey(tx.job.order))
  }

  function AttemptSeen(tx: Txn): Row
    requires tx.job.Confirm?
  {
    Get(tx.snap, AttemptKey(tx.job.command))
  }

  function ApprovalSeen(tx: Txn): Row
    requires tx.job.Confirm?
  {
    Get(tx.snap, ApprovalKey(tx.job.command))
  }

  function FenceOf(c: Command): Key {
    FenceKey(c.tenant, c.grant)
  }

  /** The order row after the command id has been stored on it. */
  function WithNonce(r: Row, n: Nonce): (r': Row)
    requires r.OrderRow?
    ensures r'.OrderRow? && r'.nonce.Some?
  {
    if r.nonce.None? then r.(nonce := Some(n), version := r.version + 1) else r
  }

  /** The intent the confirmation signed, built from what the transaction sees. */
  function SignedIntent(tx: Txn): Intent
    requires tx.job.Confirm? && OrderSeen(tx).OrderRow?
  {
    IntentOf(tx.job.order, WithNonce(OrderSeen(tx), tx.job.command.nonce), tx.job.command.nonce, tx.snap)
  }

  /** The same intent built from the committed database. */
  function CurrentIntent(db: Db, job: Job): Option<Intent>
    requires job.Confirm?
  {
    var r := Get(db, OrderKey(job.order));
    if r.OrderRow?
    then Some(IntentOf(job.order, WithNonce(r, job.command.nonce), job.command.nonce, db)) else None
  }

  /** The intent the approval of a command was given for. */
  function StoredIntent(db: Db, c: Command): Option<Intent> {
    var r := Get(db, ApprovalKey(c));
    if r.ApprovalRow? then Some(r.intent) else None
  }

  function AuthorityOf(db: Db): Db {
    map k | k in db && (k.GrantKey? || k.UserKey?) && db[k] != Gone :: db[k]
  }

  /** When the attempt's authority ends: the grant's end for a new attempt, the
      stored end for an approved one. */
  function Deadline(tx: Txn): int
    requires tx.job.Confirm?
  {
    if tx.job.approved
    then if AttemptSeen(tx).AttemptRow? then AttemptSeen(tx).validUntil else 0
    else if Get(tx.snap, GrantKey(tx.job.command.grant)).GrantRow?
    then Get(tx.snap, GrantKey(tx.job.command.grant)).until else 0
  }

  /** The deferred constraint trigger on the attempt row. */
  predicate DeadlineHolds(tx: Txn, now: int)
    requires tx.job.Confirm?
  {
    var g := Get(tx.snap, GrantKey(tx.job.command.grant));
    && now < Deadline(tx)
    && g.GrantRow? && g.active && g.validFrom <= now < g.until
    && (tx.job.approved ==> ApprovalSeen(tx).ApprovalRow? && now < ApprovalSeen(tx).expiresAt)
  }

  // ---------------------------------------------------------------- commits

  function NextOrder(tx: Txn, state: OrderState): Row
    requires tx.job.Confirm? && OrderSeen(tx).OrderRow?
  {
    var r := WithNonce(OrderSeen(tx), tx.job.command.nonce);
    r.(state := state, version := OrderSeen(tx).version + 1)
  }

  function ExecutionWrites(tx: Txn, state: OrderState): Db
    requires tx.job.Confirm? && OrderSeen(tx).OrderRow?
    requires tx.job.approved ==> ApprovalSeen(tx).ApprovalRow?
  {
    var c := tx.job.command;
    var base := map[
      OrderKey(tx.job.order) := NextOrder(tx, state),
      AttemptKey(c) := AttemptRow(tx.job.order, Executed, Deadline(tx)),
      FenceOf(c) := FenceRow(false)];
    if tx.job.approved
    then base[ApprovalKey(c) := ApprovalSeen(tx).(approval := Consumed)]
    else base
  }

  function PendingWrites(tx: Txn): Db
    requires tx.job.Confirm? && OrderSeen(tx).OrderRow?
  {
    var c := tx.job.command;
    var row := NextOrder(tx, ToApprove);
    map[
      OrderKey(tx.job.order) := row,
      AttemptKey(c) := AttemptRow(tx.job.order, ApprovalRequired, Deadline(tx)),
      ApprovalKey(c) := ApprovalRow(tx.job.order, Pending,
                                    IntentOf(tx.job.order, row, c.nonce, tx.snap), 0)]
  }

  function TerminalWrites(tx: Txn): Db
    requires tx.job.Confirm? && tx.job.stage.Terminating? && ApprovalSeen(tx).ApprovalRow?
  {
    map[ApprovalKey(tx.job.command) := ApprovalSeen(tx).(approval := tx.job.stage.outcome)]
  }

  function Commit(s: State, t: TxnId, writes: Db): State {
    s.(db := s.db + writes, txns := s.txns - {t})
  }

  function Record(s: State, tx: Txn): Execution
    requires tx.job.Confirm? && OrderSeen(tx).OrderRow?
  {
    Execution(tx.job.command, tx.job.order, tx.job.approved, tx.job.exposed,
              tx.job.answers, PdpRevision(s, tx.job.command.tenant),
              SignedIntent(tx), StoredIntent(s.db, tx.job.command), CurrentIntent(s.db, tx.job),
              Get(s.db, FenceOf(tx.job.command)),
              AuthorityOf(tx.snap), AuthorityOf(s.db), s.clock, Deadline(tx))
  }

  // -------------------------------------------------------------------- PDP

  /** A tenant's policy revision; the column defaults to 1. */
  function PdpRevision(s: State, tenant: Tenant): int {
    if tenant in s.policyRevisions then s.policyRevisions[tenant] else 1
  }

  predicate WriterAt(s: State, token: Token, phase: WriterPhase) {
    token in s.writers && s.writers[token].phase == phase
  }

  function Barrier(r: Row, token: Token): Row {
    if r.PolicyRow? then PolicyRow(r.fenceVersion + 1, r.revision, false, Some(token))
    else PolicyRow(1, 0, false, Some(token))
  }

  function Lift(r: Row, revision: int): Row
    requires r.PolicyRow?
  {
    PolicyRow(r.fenceVersion + 1, revision, true, None)
  }

  // ------------------------------------------------------------------ steps

  predicate ConfirmEnabled(s: State, t: TxnId, act: ConfirmAct) {
    match act
    case BeginConfirm(o) => t !in s.txns
    case HoldOrder(minted) =>
      && ConfirmAt(s, t, Begun)
      && var r := OrderSeen(s.txns[t]);
      && r.OrderRow? && r.grantId.Some?
      && CanLock(s, t, OrderKey(s.txns[t].job.order))
      && (r.nonce.None? ==> minted !in s.nonces)
    case ClaimCommand =>
      && ConfirmAt(s, t, OrderHeld)
      && AttemptSeen(s.txns[t]) == Gone
      && CanLock(s, t, AttemptKey(s.txns[t].job.command))
      && CanLockAll(s, t, LineKeys(s.txns[t].snap, s.txns[t].job.order))
    case BindApproval =>
      && ConfirmAt(s, t, OrderHeld)
      && var tx := s.txns[t];
      && OrderSeen(tx).OrderRow? && OrderSeen(tx).nonce == Some(tx.job.command.nonce)
      && AttemptSeen(tx).AttemptRow? && AttemptSeen(tx).attempt == ApprovalRequired
      && AttemptSeen(tx).order == tx.job.order
      && ApprovalSeen(tx).ApprovalRow? && ApprovalSeen(tx).approval == Approved
      && ApprovalSeen(tx).subject == tx.job.order
      && CanLock(s, t, AttemptKey(tx.job.command))
      && CanLock(s, t, ApprovalKey(tx.job.command))
      && CanLockAll(s, t, LineKeys(tx.snap, tx.job.order))
    case TakeAnswer(a) =>
      && ConfirmAt(s, t, Bound)
      && a in s.answers && a.allow && a.tenant == s.txns[t].job.command.tenant
      && (s.txns[t].job.approved && s.txns[t].job.answers == [] ==> !a.needsApproval)
    case Terminate(outcome) =>
      && ConfirmAt(s, t, Bound) && s.txns[t].job.approved
      && (outcome.Invalidated? || outcome.Expired?)
      && (outcome.Expired? ==>
            ApprovalSeen(s.txns[t]).ApprovalRow? && ApprovalSeen(s.txns[t]).expiresAt <= s.clock)
    case HoldFence =>
      && ConfirmAt(s, t, Allowed)
      && CanLock(s, t, FenceOf(s.txns[t].job.command))
      && (Get(s.txns[t].snap, FenceOf(s.txns[t].job.command)) == FenceRow(true) ==> s.txns[t].job.approved)
    case HoldEpoch =>
      && ConfirmAt(s, t, FenceHeld)
      && Get(s.txns[t].snap, EpochKey).EpochRow?
      && CanLock(s, t, EpochKey)
    case HoldPolicy =>
      && ConfirmAt(s, t, EpochHeld)
      && var r := Get(s.txns[t].snap, PolicyKey(s.txns[t].job.command.tenant));
      && r.PolicyRow? && r.ready
      && (forall a | a in s.txns[t].job.answers :: a.revision == r.revision)
      && CanLock(s, t, PolicyKey(s.txns[t].job.command.tenant))
    case CommitExecution(state) =>
      && ConfirmAt(s, t, AuthorityHeld) && OrderSeen(s.txns[t]).OrderRow?
      && (s.txns[t].job.approved ==> state == Final)
      && DeadlineHolds(s.txns[t], s.clock)
    case CommitPending =>
      && ConfirmAt(s, t, Parked) && OrderSeen(s.txns[t]).OrderRow?
      && ApprovalSeen(s.txns[t]) == Gone
      && CanLock(s, t, ApprovalKey(s.txns[t].job.command))
    case CommitTerminal =>
      && t in s.txns && s.txns[t].job.Confirm? && s.txns[t].job.stage.Terminating?
      && ApprovalSeen(s.txns[t]).ApprovalRow?
    case Abort => t in s.txns
  }

  /** The row stored when a command is claimed; the transaction overwrites it
      before it commits. */
  function Claim(tx: Txn): Db
    requires tx.job.Confirm?
  {
    map[AttemptKey(tx.job.command) := AttemptRow(tx.job.order, AttemptPending, Deadline(tx))]
  }

  /** A line edit locks and updates its parent when the editor's snapshot shows
      the order as delegated. */
  predicate MustTouch(tx: Txn, o: OrderId) {
    var r := Get(tx.snap, OrderKey(o));
    r.OrderRow? && r.delegated && OrderKey(o) !in tx.writes
  }

  function Touched(tx: Txn, o: OrderId): Db {
    var r := Get(tx.snap, OrderKey(o));
    if MustTouch(tx, o) then map[OrderKey(o) := r.(version := r.version + 1)] else map[]
  }

  /** The line does not exist yet for `tx`, so the foreign key is checked. */
  predicate Inserts(tx: Txn, o: OrderId, line: LineId, row: Row) {
    row.LineRow? && !Get(tx.snap + tx.writes, LineKey(o, line)).LineRow?
  }

  predicate EditEnabled(s: State, t: TxnId, act: EditAct) {
    match act
    case BeginEdit => t !in s.txns
    case CreateOrder(o, row) =>
      && Editing(s, t) && Get(s.txns[t].snap, OrderKey(o)) == Gone && CanWrite(s, t, OrderKey(o))
      && row.OrderRow? && row.version == 1 && row.nonce.None? && row.state == Draft
      && (row.grantId.Some? ==> row.delegated)
    case PutOrder(o, row) =>
      && Editing(s, t)
      && var r := Get(s.txns[t].snap, OrderKey(o));
      && r.OrderRow? && CanWrite(s, t, OrderKey(o))
      && row.OrderRow? && row.version == r.version + 1
      && row.nonce == r.nonce
      && row.delegated == (r.delegated || row.grantId.Some?)
      && (row.delegated && row.state == Final ==> r.state == Final)
    case PutLine(o, line, row) =>
      && Editing(s, t) && (row.LineRow? || row == Gone)
      && Get(s.txns[t].snap + s.txns[t].writes, OrderKey(o)).OrderRow?
      && CanWrite(s, t, LineKey(o, line))
      && (MustTouch(s.txns[t], o) ==> CanLock(s, t, OrderKey(o)))
      && (Inserts(s.txns[t], o, line, row) ==> CanShare(s, t, OrderKey(o)))
    case PutAuthority(k, row) =>
      && Editing(s, t)
      && ((k.GrantKey? && (row.GrantRow? || row == Gone)) || (k.UserKey? && (row.UserRow? || row == Gone)))
      && Get(s.txns[t].snap, EpochKey).EpochRow?
      && CanWrite(s, t, k) && CanLock(s, t, EpochKey)
    case IssueCapability(c, expiresAt) =>
      && t !in s.txns
      && var r := Get(s.db, ApprovalKey(c));
      && r.ApprovalRow? && r.approval == Pending
      && Get(s.db, OrderKey(r.subject)).OrderRow? && Get(s.db, OrderKey(r.subject)).state == ToApprove
      && Unlocked(s, OrderKey(r.subject)) && Unshared(s, OrderKey(r.subject)) && Unlocked(s, ApprovalKey(c))
      && var g := Get(s.db, GrantKey(c.grant));
      && g.GrantRow? && g.active && s.clock < g.until && expiresAt <= g.until
    case CommitEdit => t in s.txns && !s.txns[t].job.Confirm?
  }

  predicate PdpEnabled(s: State, act: PdpAct) {
    match act
    case FetchBundle(_) => true
    case Evaluate(a) => (a.revision == 0 && !a.allow) || (a.tenant, a.revision) in s.fetched
    case Bootstrap(a) => a in s.answers && Get(s.db, PolicyKey(a.tenant)) == Gone
    case CloseBarrier(token, tenant) =>
      && token !in s.writers && Unlocked(s, PolicyKey(tenant))
      && var r := Get(s.db, PolicyKey(tenant));
      && (r == Gone || (r.PolicyRow? && r.ready))
    case Mutate(token, _) => WriterAt(s, token, Closed)
    case ReadRevision(token) => WriterAt(s, token, Mutated)
    case LiftBarrier(token) =>
      && token in s.writers && s.writers[token].phase.Read?
      && Unlocked(s, PolicyKey(s.writers[token].tenant))
      && var r := Get(s.db, PolicyKey(s.writers[token].tenant));
      && r.PolicyRow? && !r.ready && r.publication == Some(token)
    case WriteTombstone(id, tenant, grant) => id !in s.revokers && Unlocked(s, FenceKey(tenant, grant))
    case PublishRevocation(id) => id in s.revokers && s.revokers[id].phase.Tombstoned?
    case FailPublication(id) => id in s.revokers && s.revokers[id].phase.Tombstoned?
    case Tick(_) => true
  }

  function SetTxn(s: State, t: TxnId, tx: Txn): State {
    s.(txns := s.txns[t := tx])
  }

  function ConfirmApply(s: State, t: TxnId, act: ConfirmAct): State
    requires ConfirmEnabled(s, t, act)
  {
    match act
    case BeginConfirm(o) =>
      SetTxn(s, t, Txn(s.db, {}, {}, map[], Confirm(o, Exposed(s, o), Begun, Command(0, 0, 0), false, [])))
    case HoldOrder(minted) =>
      var tx := s.txns[t];
      var r := OrderSeen(tx);
      var n := if r.nonce.Some? then r.nonce.value else minted;
      SetTxn(s, t, tx.(locks := tx.locks + {OrderKey(tx.job.order)},
                       job := tx.job.(stage := OrderHeld, command := Command(r.tenant, r.grantId.value, n))))
        .(nonces := s.nonces + {n})
    case ClaimCommand =>
      var tx := s.txns[t];
      SetTxn(s, t, Advance(tx, {AttemptKey(tx.job.command)} + LineKeys(tx.snap, tx.job.order), Bound)
                     .(writes := Claim(tx)))
    case BindApproval =>
      var tx := s.txns[t];
      var c := tx.job.command;
      var matches := ApprovalSeen(tx).intent == SignedIntent(tx) && OrderSeen(tx).state == ToApprove;
      var next := Advance(tx, {AttemptKey(c), ApprovalKey(c)} + LineKeys(tx.snap, tx.job.order),
                          if matches then Bound else Terminating(Invalidated));
      SetTxn(s, t, next.(job := next.job.(approved := true)))
    case TakeAnswer(a) =>
      var tx := s.txns[t];
      var stage :=
        if !tx.job.approved then (if a.needsApproval then Parked else Allowed)
        else if tx.job.answers == [] then Bound else Allowed;
      SetTxn(s, t, tx.(job := tx.job.(stage := stage, answers := tx.job.answers + [a])))
    case Terminate(outcome) => SetTxn(s, t, Advance(s.txns[t], {}, Terminating(outcome)))
    case HoldFence =>
      var tx := s.txns[t];
      SetTxn(s, t, Advance(tx, {FenceOf(tx.job.command)},
                           if Get(tx.snap, FenceOf(tx.job.command)) == FenceRow(true)
                           then Terminating(Invalidated) else FenceHeld))
    case HoldEpoch => SetTxn(s, t, Advance(s.txns[t], {EpochKey}, EpochHeld))
    case HoldPolicy =>
      SetTxn(s, t, Advance(s.txns[t], {PolicyKey(s.txns[t].job.command.tenant)}, AuthorityHeld))
    case CommitExecution(state) =>
      var tx := s.txns[t];
      Commit(s, t, tx.writes + ExecutionWrites(tx, state)).(log := s.log + [Record(s, tx)])
    case CommitPending => Commit(s, t, s.txns[t].writes + PendingWrites(s.txns[t]))
    case CommitTerminal => Commit(s, t, s.txns[t].writes + TerminalWrites(s.txns[t]))
    case Abort => s.(txns := s.txns - {t})
  }

  function EditApply(s: State, t: TxnId, act: EditAct): State
    requires EditEnabled(s, t, act)
  {
    match act
    case BeginEdit => SetTxn(s, t, Txn(s.db, {}, {}, map[], Edit))
    case CreateOrder(o, row) =>
      var tx := s.txns[t];
      SetTxn(s, t, tx.(locks := tx.locks + {OrderKey(o)}, writes := tx.writes[OrderKey(o) := row]))
    case PutOrder(o, row) =>
      var tx := s.txns[t];
      SetTxn(s, t, tx.(locks := tx.locks + {OrderKey(o)}, writes := tx.writes[OrderKey(o) := row]))
    case PutLine(o, line, row) =>
      var tx := s.txns[t];
      SetTxn(s, t, tx.(locks := tx.locks + ({LineKey(o, line)} + Touched(tx, o).Keys),
                       shares := if Inserts(tx, o, line, row) then tx.shares + {OrderKey(o)} else tx.shares,
                       writes := (tx.writes + Touched(tx, o))[LineKey(o, line) := row]))
    case PutAuthority(k, row) =>
      var tx := s.txns[t];
      SetTxn(s, t, tx.(locks := tx.locks + {k, EpochKey},
                       writes := tx.writes[k := row][EpochKey := EpochRow(Get(tx.snap, EpochKey).epoch + 1)]))
    case IssueCapability(c, expiresAt) =>
      var r := Get(s.db, ApprovalKey(c));
      SetTxn(s, t, Txn(s.db, {OrderKey(r.subject), ApprovalKey(c)}, {},
                       map[ApprovalKey(c) := r.(approval := Approved, expiresAt := expiresAt)], Issue))
    case CommitEdit => Commit(s, t, s.txns[t].writes)
  }

  function PdpApply(s: State, act: PdpAct): State
    requires PdpEnabled(s, act)
  {
    match act
    case FetchBundle(tenant) => s.(fetched := s.fetched + {(tenant, PdpRevision(s, tenant))})
    case Evaluate(a) => s.(answers := s.answers + {a})
    case Bootstrap(a) => s.(db := s.db[PolicyKey(a.tenant) := PolicyRow(1, a.revision, true, None)])
    case CloseBarrier(token, tenant) =>
      s.(db := s.db[PolicyKey(tenant) := Barrier(Get(s.db, PolicyKey(tenant)), token)],
         writers := s.writers[token := Writer(tenant, Closed)])
    case Mutate(token, bump) =>
      var w := s.writers[token];
      s.(policyRevisions :=
           if bump then s.policyRevisions[w.tenant := PdpRevision(s, w.tenant) + 1] else s.policyRevisions,
         writers := s.writers[token := w.(phase := Mutated)])
    case ReadRevision(token) =>
      var w := s.writers[token];
      s.(writers := s.writers[token := w.(phase := Read(PdpRevision(s, w.tenant)))])
    case LiftBarrier(token) =>
      var w := s.writers[token];
      s.(db := s.db[PolicyKey(w.tenant) := Lift(Get(s.db, PolicyKey(w.tenant)), w.phase.revision)],
         writers := s.writers[token := w.(phase := Lifted)])
    case WriteTombstone(id, tenant, grant) =>
      s.(db := s.db[FenceKey(tenant, grant) := FenceRow(true)],
         revokers := s.revokers[id := Revoker(tenant, grant, Tombstoned)])
    case PublishRevocation(id) => s.(revokers := s.revokers[id := s.revokers[id].(phase := Published)])
    case FailPublication(id) => s.(revokers := s.revokers[id := s.revokers[id].(phase := PublishFailed)])
    case Tick(elapsed) => s.(clock := s.clock + elapsed)
  }

  predicate Enabled(s: State, step: Step) {
    match step
    case ByConfirm(t, act) => ConfirmEnabled(s, t, act)
    case ByEdit(t, act) => EditEnabled(s, t, act)
    case ByPdp(act) => PdpEnabled(s, act)
  }

  function Apply(s: State, step: Step): State
    requires Enabled(s, step)
  {
    match step
    case ByConfirm(t, act) => ConfirmApply(s, t, act)
    case ByEdit(t, act) => EditApply(s, t, act)
    case ByPdp(act) => PdpApply(s, act)
  }

  /** Where a run starts: no fence, attempt or approval exists, every policy
      revision is at least 1, and cached bundles are current. */
  ghost predicate Init(s: State) {
    && s.txns == map[] && s.answers == {} && s.writers == map[] && s.revokers == map[]
    && s.nonces == {} && s.log == []
    && (forall tn :: PdpRevision(s, tn) >= 1)
    && (forall f | f in s.fetched :: f.1 == PdpRevision(s, f.0))
    && (forall k | k in s.db ::
          match k
          case OrderKey(_) =>
            s.db[k].OrderRow? && s.db[k].version >= 1 && s.db[k].nonce.None?
            && (s.db[k].grantId.Some? ==> s.db[k].delegated)
          case LineKey(_, _) => s.db[k].LineRow?
          case EpochKey => s.db[k].EpochRow? && s.db[k].epoch >= 0
          case GrantKey(_) => s.db[k].GrantRow?
          case UserKey(_) => s.db[k].UserRow?
          case _ => false)
  }

  /** The steps can be taken one after the other from `s`. */
  predicate IsRun(s: State, steps: seq<Step>)
    decreases |steps|
  {
    steps == [] || (Enabled(s, steps[0]) && IsRun(Apply(s, steps[0]), steps[1..]))
  }

  function After(s: State, steps: seq<Step>): State
    requires IsRun(s, steps)
    decreases |steps|
  {
    if steps == [] then s else After(Apply(s, steps[0]), steps[1..])
  }
}
