/** What every step of the confirmation protocol keeps. */
module CommitInvariants {
  import opened Basics
  import opened ErpDatabase
  import opened CommitProtocol

  // ------------------------------------------------------ snapshots and locks

  /** Locked rows are current, guards only move forward, a delegation is never
      undone, and while the epoch has not moved neither has any user or grant. */
  ghost predicate SnapOk(db: Db, tx: Txn) {
    && (forall k | k in tx.locks :: Get(tx.snap, k) == Get(db, k))
    && (forall g | IsGuard(g) :: Version(Get(tx.snap, g)) <= Version(Get(db, g)))
    && (forall o :: Get(tx.snap, OrderKey(o)).OrderRow? ==>
          Get(db, OrderKey(o)).OrderRow? && (Get(tx.snap, OrderKey(o)).delegated ==> Get(db, OrderKey(o)).delegated))
    && OrdersOk(tx.snap)
    && (Version(Get(tx.snap, EpochKey)) == Version(Get(db, EpochKey)) ==>
          forall k | GuardOf(k) == Some(EpochKey) :: Get(tx.snap, k) == Get(db, k))
  }

  predicate IsGuard(g: Key) {
    g.OrderKey? || g.EpochKey?
  }

  ghost predicate OrdersOk(db: Db) {
    && (forall o :: Get(db, OrderKey(o)).OrderRow? || Get(db, OrderKey(o)) == Gone)
    && (forall o :: Get(db, OrderKey(o)).OrderRow? ==>
          && Get(db, OrderKey(o)).version >= 1
          && (Get(db, OrderKey(o)).grantId.Some? ==> Get(db, OrderKey(o)).delegated))
    && Version(Get(db, EpochKey)) >= 0
  }

  ghost predicate Disjoint(txns: map<TxnId, Txn>) {
    forall t, u | t in txns && u in txns && t != u :: txns[t].locks !! txns[u].locks
  }

  ghost predicate MvccInv(db: Db, txns: map<TxnId, Txn>) {
    && Disjoint(txns)
    && OrdersOk(db)
    && (forall t | t in txns :: SnapOk(db, txns[t]))
  }

  /** A set of writes that moves the epoch with every user and grant, and the
      version of every order, and keeps orders delegated. */
  ghost predicate Guarding(db: Db, w: Db) {
    && (forall k | k in w && GuardOf(k) == Some(EpochKey) :: EpochKey in w)
    && (forall k | k in w && k.OrderKey? ::
          && w[k].OrderRow? && w[k].version > Version(Get(db, k))
          && (w[k].grantId.Some? ==> w[k].delegated)
          && (Get(db, k).OrderRow? && Get(db, k).delegated ==> w[k].delegated))
    && (forall k | k in w && k.EpochKey? :: w[k].EpochRow? && w[k].epoch > Version(Get(db, k)))
  }

  lemma OthersSeeCommit(db: Db, w: Db, tx: Txn)
    requires SnapOk(db, tx) && OrdersOk(db) && Guarding(db, w)
    requires forall k | k in w :: k !in tx.locks
    ensures SnapOk(db + w, tx)
  {}

  lemma CommitKeepsOrders(db: Db, w: Db)
    requires OrdersOk(db) && Guarding(db, w)
    ensures OrdersOk(db + w)
  {}

  /** Committing disjoint, guarded writes keeps every other transaction's view. */
  lemma CommitKeepsMvcc(s: State, t: TxnId, w: Db)
    requires MvccInv(s.db, s.txns) && t in s.txns
    requires w.Keys <= s.txns[t].locks && Guarding(s.db, w)
    ensures MvccInv(s.db + w, s.txns - {t})
  {
    CommitKeepsOrders(s.db, w);
    forall u | u in s.txns && u != t ensures SnapOk(s.db + w, s.txns[u]) {
      assert s.txns[u].locks !! s.txns[t].locks;
      OthersSeeCommit(s.db, w, s.txns[u]);
    }
  }

  /** So does a write from outside to a fence row that nobody has locked. */
  lemma FenceWriteKeepsMvcc(s: State, k: Key, r: Row)
    requires MvccInv(s.db, s.txns) && (k.PolicyKey? || k.FenceKey?) && Unlocked(s, k)
    ensures MvccInv(s.db[k := r], s.txns)
  {
    var w := map[k := r];
    assert s.db[k := r] == s.db + w;
    CommitKeepsOrders(s.db, w);
    forall u | u in s.txns ensures SnapOk(s.db + w, s.txns[u]) {
      OthersSeeCommit(s.db, w, s.txns[u]);
    }
  }

  /** Taking further locks keeps the lock discipline. */
  lemma LockKeepsMvcc(s: State, t: TxnId, ks: set<Key>, tx: Txn)
    requires MvccInv(s.db, s.txns) && t in s.txns && forall k | k in ks :: CanWrite(s, t, k)
    requires tx.snap == s.txns[t].snap && tx.locks == s.txns[t].locks + ks
    ensures MvccInv(s.db, s.txns[t := tx])
  {
    forall k | k in tx.locks ensures Get(tx.snap, k) == Get(s.db, k) {
      if k in ks { assert CanWrite(s, t, k); }
    }
    forall u | u in s.txns && u != t ensures s.txns[u].locks !! tx.locks {
      forall k | k in ks ensures k !in s.txns[u].locks { assert CanWrite(s, t, k); }
    }
  }

  lemma BeginKeepsMvcc(s: State, t: TxnId, tx: Txn)
    requires MvccInv(s.db, s.txns) && t !in s.txns && tx.snap == s.db
    requires forall k | k in tx.locks :: Unlocked(s, k)
    ensures MvccInv(s.db, s.txns[t := tx])
  {}

  lemma AbortKeepsMvcc(s: State, t: TxnId)
    requires MvccInv(s.db, s.txns)
    ensures MvccInv(s.db, s.txns - {t})
  {}

  // ------------------------------------------------------------ lines of an order

  /** A confirmation of a delegated order that no stale editor was open beside. */
  predicate Shielded(tx: Txn) {
    && tx.job.Confirm? && !tx.job.exposed
    && Get(tx.snap, OrderKey(tx.job.order)).OrderRow? && Get(tx.snap, OrderKey(tx.job.order)).delegated
  }

  /** While the order row has not moved, neither has any of its lines, stored or new. */
  ghost predicate LinesOk(db: Db, tx: Txn)
    requires tx.job.Confirm?
  {
    var o := tx.job.order;
    Version(Get(tx.snap, OrderKey(o))) == Version(Get(db, OrderKey(o))) ==>
      forall k | GuardOf(k) == Some(OrderKey(o)) :: Get(tx.snap, k) == Get(db, k)
  }

  ghost predicate NoneStale(txns: map<TxnId, Txn>, o: OrderId) {
    forall u | u in txns :: !Stale(txns[u], o)
  }

  ghost predicate LinesInv(db: Db, txns: map<TxnId, Txn>) {
    forall t | t in txns && Shielded(txns[t]) :: LinesOk(db, txns[t]) && NoneStale(txns, txns[t].job.order)
  }

  /** Writes that change no line of `o` without its order row. */
  predicate Accompanied(w: Db, o: OrderId) {
    forall k | k in w && GuardOf(k) == Some(OrderKey(o)) :: OrderKey(o) in w
  }

  lemma LinesAfterCommit(db: Db, w: Db, tx: Txn)
    requires Shielded(tx) && SnapOk(db, tx) && LinesOk(db, tx) && Guarding(db, w) && Accompanied(w, tx.job.order)
    ensures LinesOk(db + w, tx)
  {}

  lemma CommitKeepsLines(s: State, t: TxnId, w: Db)
    requires MvccInv(s.db, s.txns) && LinesInv(s.db, s.txns) && Guarding(s.db, w)
    requires forall u | u in s.txns && Shielded(s.txns[u]) :: Accompanied(w, s.txns[u].job.order)
    ensures LinesInv(s.db + w, s.txns - {t})
  {
    hide SnapOk;
    hide LinesOk;
    hide Guarding;
    hide Accompanied;
    forall u | u in s.txns && Shielded(s.txns[u]) ensures LinesOk(s.db + w, s.txns[u]) {
      LinesAfterCommit(s.db, w, s.txns[u]);
    }
  }

  /** A transaction that goes on keeps its snapshot and its job's order. */
  predicate Continues(tx: Txn, tx': Txn) {
    && tx'.snap == tx.snap
    && (tx.job.Confirm? <==> tx'.job.Confirm?) && (tx.job.Edit? <==> tx'.job.Edit?)
    && (tx.job.Confirm? ==> tx'.job.order == tx.job.order && tx'.job.exposed == tx.job.exposed)
  }

  lemma ContinueKeepsLines(db: Db, txns: map<TxnId, Txn>, t: TxnId, tx: Txn)
    requires LinesInv(db, txns) && t in txns && Continues(txns[t], tx)
    ensures LinesInv(db, txns[t := tx])
  {
    var txns' := txns[t := tx];
    forall u | u in txns' && Shielded(txns'[u])
      ensures LinesOk(db, txns'[u]) && NoneStale(txns', txns'[u].job.order)
    {
      assert Shielded(txns[u]);
    }
  }

  /** A new editor sees every delegation that an open confirmation saw. */
  lemma BeginKeepsLines(s: State, t: TxnId, tx: Txn)
    requires MvccInv(s.db, s.txns) && LinesInv(s.db, s.txns) && t !in s.txns && tx.snap == s.db
    requires tx.job.Confirm? ==> tx.job.exposed == Exposed(s, tx.job.order)
    ensures LinesInv(s.db, s.txns[t := tx])
  {
    forall u | u in s.txns && Shielded(s.txns[u]) ensures !Stale(tx, s.txns[u].job.order) {
      assert SnapOk(s.db, s.txns[u]);
    }
  }

  // --------------------------------------------- what each transaction has done

  predicate Past(stage: Stage) {
    !stage.Begun? && !stage.OrderHeld?
  }

  predicate FencePassed(stage: Stage) {
    stage.FenceHeld? || stage.EpochHeld? || stage.AuthorityHeld?
  }

  ghost predicate ConfirmOk(tx: Txn)
    requires tx.job.Confirm?
  {
    var j := tx.job;
    var c := j.command;
    && (tx.writes == if Past(j.stage) && !j.approved then Claim(tx) else map[])
    && (!j.stage.Begun? ==>
          && OrderKey(j.order) in tx.locks && OrderSeen(tx).OrderRow?
          && OrderSeen(tx).tenant == c.tenant && OrderSeen(tx).grantId == Some(c.grant)
          && (OrderSeen(tx).nonce.Some? ==> OrderSeen(tx).nonce == Some(c.nonce)))
    && (!Past(j.stage) ==> !j.approved && j.answers == [])
    && (Past(j.stage) ==> AttemptKey(c) in tx.locks)
    && (Past(j.stage) && !j.approved ==> AttemptSeen(tx) == Gone && !j.stage.Terminating?)
    && (j.approved ==>
          && ApprovalKey(c) in tx.locks && !j.stage.Parked? && OrderSeen(tx).nonce == Some(c.nonce)
          && AttemptSeen(tx).AttemptRow? && AttemptSeen(tx).attempt == ApprovalRequired
          && AttemptSeen(tx).order == j.order
          && ApprovalSeen(tx).ApprovalRow? && ApprovalSeen(tx).approval == Approved
          && ApprovalSeen(tx).subject == j.order
          && (!j.stage.Terminating? ==> ApprovalSeen(tx).intent == SignedIntent(tx) && OrderSeen(tx).state == ToApprove))
    && (j.stage.Allowed? || FencePassed(j.stage) ==> j.answers != [])
    && (FencePassed(j.stage) ==> FenceOf(c) in tx.locks && Get(tx.snap, FenceOf(c)) != FenceRow(true))
    && (j.stage.EpochHeld? || j.stage.AuthorityHeld? ==> EpochKey in tx.locks && Get(tx.snap, EpochKey).EpochRow?)
    && (j.stage.AuthorityHeld? ==>
          && PolicyKey(c.tenant) in tx.locks
          && Get(tx.snap, PolicyKey(c.tenant)).PolicyRow? && Get(tx.snap, PolicyKey(c.tenant)).ready
          && (forall a | a in j.answers :: a.revision == Get(tx.snap, PolicyKey(c.tenant)).revision))
    && (j.stage.Terminating? ==> j.stage.outcome.Invalidated? || j.stage.outcome.Expired?)
  }

  ghost predicate EditOk(tx: Txn) {
    && tx.writes.Keys <= tx.locks
    && (forall k | k in tx.writes :: k.OrderKey? || k.LineKey? || k.GrantKey? || k.UserKey? || k.EpochKey?)
    && (forall k | k in tx.writes && k.OrderKey? ::
          && tx.writes[k].OrderRow? && tx.writes[k].version == Version(Get(tx.snap, k)) + 1
          && (tx.writes[k].grantId.Some? ==> tx.writes[k].delegated)
          && (Get(tx.snap, k).OrderRow? ==>
                && (Get(tx.snap, k).delegated ==> tx.writes[k].delegated)
                && tx.writes[k].nonce == Get(tx.snap, k).nonce)
          && (!Get(tx.snap, k).OrderRow? ==> tx.writes[k].nonce.None?)
          && (tx.writes[k].delegated && tx.writes[k].state == Final ==>
                Get(tx.snap, k).OrderRow? && Get(tx.snap, k).state == Final))
    && (forall k | k in tx.writes && k.LineKey? ::
          OrderKey(k.owner) in tx.writes
          || (Get(tx.snap, OrderKey(k.owner)).OrderRow? && !Get(tx.snap, OrderKey(k.owner)).delegated))
    && (forall k | k in tx.writes && (k.GrantKey? || k.UserKey?) :: EpochKey in tx.writes)
    && (EpochKey in tx.writes ==>
          tx.writes[EpochKey].EpochRow? && tx.writes[EpochKey].epoch > Version(Get(tx.snap, EpochKey)))
  }

  ghost predicate IssueOk(tx: Txn) {
    && tx.writes.Keys <= tx.locks
    && (forall k | k in tx.writes ::
          && k.ApprovalKey?
          && Get(tx.snap, k).ApprovalRow? && Get(tx.snap, k).approval == Pending
          && tx.writes[k].ApprovalRow? && tx.writes[k].approval == Approved
          && tx.writes[k].subject == Get(tx.snap, k).subject
          && tx.writes[k].intent == Get(tx.snap, k).intent
          && OrderKey(Get(tx.snap, k).subject) in tx.locks
          && Get(tx.snap, OrderKey(Get(tx.snap, k).subject)).OrderRow?
          && Get(tx.snap, OrderKey(Get(tx.snap, k).subject)).state == ToApprove
          && Get(tx.snap, GrantKey(k.command.grant)).GrantRow? && Get(tx.snap, GrantKey(k.command.grant)).active
          && tx.writes[k].expiresAt <= Get(tx.snap, GrantKey(k.command.grant)).until)
  }

  ghost predicate TxnOk(tx: Txn) {
    && (forall k | k in tx.locks && k.PolicyKey? :: Get(tx.snap, k).PolicyRow?)
    && (tx.job.Confirm? ==> ConfirmOk(tx))
    && (tx.job.Edit? ==> EditOk(tx))
    && (tx.job.Issue? ==> IssueOk(tx))
  }

  ghost predicate TxnsOk(txns: map<TxnId, Txn>) {
    forall t | t in txns :: TxnOk(txns[t])
  }

  /** What a confirmation past its claim knows of the committed database: each
      row it has locked is the row it read. */
  ghost predicate ViewOk(db: Db, tx: Txn)
    requires tx.job.Confirm?
  {
    var c := tx.job.command;
    && ConfirmOk(tx)
    && (!tx.job.stage.Begun? ==> Get(db, OrderKey(tx.job.order)) == OrderSeen(tx))
    && (Past(tx.job.stage) ==> Get(db, AttemptKey(c)) == AttemptSeen(tx))
    && (tx.job.approved ==> Get(db, ApprovalKey(c)) == ApprovalSeen(tx))
    && (FencePassed(tx.job.stage) ==> Get(db, FenceOf(c)) == Get(tx.snap, FenceOf(c)))
    && (tx.job.stage.AuthorityHeld? ==>
          Get(db, PolicyKey(c.tenant)) == Get(tx.snap, PolicyKey(c.tenant)) && Get(db, EpochKey) == Get(tx.snap, EpochKey))
  }

  lemma ViewHolds(s: State, t: TxnId)
    requires MvccInv(s.db, s.txns) && TxnsOk(s.txns) && t in s.txns && s.txns[t].job.Confirm?
    ensures ViewOk(s.db, s.txns[t])
  {
    assert TxnOk(s.txns[t]) && SnapOk(s.db, s.txns[t]);
  }

  /** A confirmation's last writes leave nothing of the row it claimed with. */
  lemma ClaimOverwritten(tx: Txn, last: Db)
    requires tx.job.Confirm? && ConfirmOk(tx) && Past(tx.job.stage)
    requires tx.job.approved || AttemptKey(tx.job.command) in last
    ensures tx.writes + last == last
  {}

  // ------------------------------------------------------------ policy fence

  /** While the barrier is up its row names one writer, and only that writer can
      move the PDP revision; while it is down the row shows the PDP revision. */
  ghost predicate FenceOk(tn: Tenant, r: Row, revision: int, fetched: set<(Tenant, int)>, answers: set<Answer>,
                          writers: map<Token, Writer>) {
    && (r.PolicyRow? || r == Gone)
    && revision >= 1
    && (r == Gone ==>
          && (forall f | f in fetched && f.0 == tn :: f.1 == revision)
          && (forall a | a in answers && a.tenant == tn :: a.revision == 0 || a.revision == revision))
    && (r.PolicyRow? && r.ready ==> r.revision == 0 || r.revision == revision)
    && (forall w | w in writers && writers[w].tenant == tn && !writers[w].phase.Lifted? ::
          && r.PolicyRow? && !r.ready && r.publication == Some(w)
          && (writers[w].phase.Read? ==> writers[w].phase.revision == revision))
  }

  ghost predicate FencesOk(s: State) {
    forall tn :: FenceOk(tn, Get(s.db, PolicyKey(tn)), PdpRevision(s, tn), s.fetched, s.answers, s.writers)
  }

  /** An answer comes from a fetched revision, and without one nothing is
      allowed; a fetched revision is one the PDP has had. */
  ghost predicate AnswersOk(s: State) {
    && (forall f | f in s.fetched :: 1 <= f.1 <= PdpRevision(s, f.0))
    && (forall a | a in s.answers :: (a.revision == 0 && !a.allow) || (a.tenant, a.revision) in s.fetched)
    && (forall t | t in s.txns :: HeardOk(s.answers, s.txns[t]))
  }

  /** What a confirmation has heard from the PDP, by how far it has come. */
  ghost predicate HeardOk(answers: set<Answer>, tx: Txn) {
    tx.job.Confirm? ==>
      var j := tx.job;
      && (forall a | a in j.answers :: a in answers && a.allow && a.tenant == j.command.tenant)
      && (!Past(j.stage) ==> j.answers == [])
      && (!j.approved ==>
            && (j.stage.Bound? ==> j.answers == [])
            && (j.stage.Parked? ==> |j.answers| == 1 && j.answers[0].needsApproval)
            && (j.stage.Allowed? || FencePassed(j.stage) ==> |j.answers| == 1 && !j.answers[0].needsApproval))
      && (j.approved ==>
            && (j.stage.Bound? ==> |j.answers| <= 1)
            && (j.stage.Allowed? || FencePassed(j.stage) ==> |j.answers| == 2)
            && (j.answers != [] ==> !j.answers[0].needsApproval))
  }

  // ---------------------------------------------------- commands and approvals

  predicate InLog(log: seq<Execution>, c: Command) {
    exists i :: 0 <= i < |log| && log[i].command == c
  }

  /** A stored attempt is never pending; it is executed exactly when the log has
      its command, and only an executed attempt has a consumed approval. */
  ghost predicate CommandOk(log: seq<Execution>, c: Command, a: Row, p: Row) {
    && (a == Gone || (a.AttemptRow? && a.attempt != AttemptPending))
    && (InLog(log, c) <==> a.AttemptRow? && a.attempt == Executed)
    && (p == Gone || (p.ApprovalRow? && a.AttemptRow? && p.subject == a.order))
    && (p.ApprovalRow? && p.approval == Consumed ==> a.attempt == Executed)
  }

  ghost predicate CommandInv(s: State) {
    && (forall c :: CommandOk(s.log, c, Get(s.db, AttemptKey(c)), Get(s.db, ApprovalKey(c))))
    && CommandsDistinct(s.log)
  }

  /** No command was executed twice. */
  ghost predicate CommandsDistinct(log: seq<Execution>) {
    forall i, j | 0 <= i < j < |log| :: log[i].command != log[j].command
  }

  /** Every command id is stored on one order, and every attempt carries the
      command id of its order. */
  ghost predicate NonceInv(s: State) {
    && (forall o :: Get(s.db, OrderKey(o)).OrderRow? && Get(s.db, OrderKey(o)).nonce.Some? ==>
          Get(s.db, OrderKey(o)).nonce.value in s.nonces)
    && (forall o, p | HoldsNonce(s.db, o) && HoldsNonce(s.db, p) ::
          Get(s.db, OrderKey(o)).nonce == Get(s.db, OrderKey(p)).nonce ==> o == p)
    && (forall t | Staged(s, t) ::
          && s.txns[t].job.command.nonce in s.nonces
          && (forall o :: HoldsNonce(s.db, o) && Get(s.db, OrderKey(o)).nonce.value == s.txns[t].job.command.nonce
                ==> o == s.txns[t].job.order))
    && (forall t, u | Staged(s, t) && Staged(s, u) && s.txns[t].job.command.nonce == s.txns[u].job.command.nonce ::
          s.txns[t].job.order == s.txns[u].job.order)
    && (forall c :: Get(s.db, AttemptKey(c)).AttemptRow? ==>
          && HoldsNonce(s.db, Get(s.db, AttemptKey(c)).order)
          && Get(s.db, OrderKey(Get(s.db, AttemptKey(c)).order)).nonce == Some(c.nonce))
  }

  predicate HoldsNonce(db: Db, o: OrderId) {
    Get(db, OrderKey(o)).OrderRow? && Get(db, OrderKey(o)).nonce.Some?
  }

  predicate Staged(s: State, t: TxnId) {
    t in s.txns && s.txns[t].job.Confirm? && !s.txns[t].job.stage.Begun?
  }

  /** A revocation that returned has its tombstone, published or not. */
  ghost predicate RevokeInv(s: State) {
    forall i | i in s.revokers ::
      Get(s.db, FenceKey(s.revokers[i].tenant, s.revokers[i].grant)) == FenceRow(true)
  }
}
