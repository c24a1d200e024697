/** Both routes on which a confirmation can miss a line of its order: an order
    is delegated while an editor that saw it before is still open, and is then
    confirmed directly, or is parked, approved and confirmed again. */
module LateDelegation {
  import opened Basics
  import opened ErpDatabase
  import opened CommitProtocol
  import opened CommitSafety
  import opened Exposure
  import opened BindingExactness

  lemma ReachableStep(s: State, step: Step)
    requires Reachable(s) && Enabled(s, step)
    ensures Reachable(Apply(s, step))
  {
    hide Enabled;
    hide Apply;
    hide Init;
    var start, steps :| Init(start) && IsRun(start, steps) && After(start, steps) == s;
    RunExtends(start, steps, step);
  }

  lemma {:induction false} ReachableRun(s: State, steps: seq<Step>)
    requires Reachable(s) && IsRun(s, steps)
    ensures Reachable(After(s, steps))
    decreases |steps|
  {
    hide Reachable;
    if steps != [] {
      ReachableStep(s, steps[0]);
      ReachableRun(Apply(s, steps[0]), steps[1..]);
    }
  }

  // The database before delegation, after it, and with the policy fence.
  const PLAIN := OrderRow(1, 1, None, false, Draft, None, 0)
  const DELEGATED := OrderRow(2, 1, Some(7), true, Draft, None, 0)
  const DB0: Db := map[OrderKey(1) := PLAIN, EpochKey := EpochRow(0), GrantKey(7) := GrantRow(true, 0, 100)]
  const DB1: Db := DB0[OrderKey(1) := DELEGATED]
  const DB2: Db := DB1[PolicyKey(1) := PolicyRow(1, 1, true, None)]

  const ANSWER := Answer(1, 1, true, false)
  const PENDING := Answer(1, 1, true, true)
  const ANSWERS := {ANSWER, PENDING}
  const COMMAND := Command(1, 7, 5)
  const EDITOR := Txn(DB0, {}, {}, map[], Edit)

  function At(db: Db, txns: map<TxnId, Txn>, answers: set<Answer>): State {
    State(db, txns, 0, map[], {(1, 1)}, answers, map[], map[], {}, [])
  }

  lemma Go(s: State, step: Step, s': State)
    requires Reachable(s) && Enabled(s, step)
    requires Apply(s, step).db == s'.db && Apply(s, step).txns == s'.txns
    requires Apply(s, step).(db := s'.db, txns := s'.txns) == s'
    ensures Reachable(s')
  {
    ReachableStep(s, step);
  }

  lemma Start()
    ensures Reachable(At(DB0, map[], {}))
  {
    var s := At(DB0, map[], {});
    assert Init(s);
    assert IsRun(s, []) && After(s, []) == s;
  }

  lemma EditorsBegin()
    ensures Reachable(At(DB0, map[1 := EDITOR, 2 := EDITOR], {}))
  {
    hide Reachable;
    Start();
    Go(At(DB0, map[], {}), ByEdit(1, BeginEdit), At(DB0, map[1 := EDITOR], {}));
    Go(At(DB0, map[1 := EDITOR], {}), ByEdit(2, BeginEdit), At(DB0, map[1 := EDITOR, 2 := EDITOR], {}));
  }

  const DELEGATING := Txn(DB0, {OrderKey(1)}, {}, map[OrderKey(1) := DELEGATED], Edit)

  lemma Delegating()
    ensures Reachable(At(DB0, map[1 := EDITOR, 2 := DELEGATING], {}))
  {
    hide Reachable;
    EditorsBegin();
    var s := At(DB0, map[1 := EDITOR, 2 := EDITOR], {});
    assert EditEnabled(s, 2, PutOrder(1, DELEGATED));
    assert {} + {OrderKey(1)} == {OrderKey(1)};
    Go(s, ByEdit(2, PutOrder(1, DELEGATED)), At(DB0, map[1 := EDITOR, 2 := DELEGATING], {}));
  }

  /** The order is delegated while the first editor is open. */
  lemma Delegate()
    ensures Reachable(At(DB1, map[1 := EDITOR], {}))
  {
    hide Reachable;
    Delegating();
    Go(At(DB0, map[1 := EDITOR, 2 := DELEGATING], {}), ByEdit(2, CommitEdit), At(DB1, map[1 := EDITOR], {}));
  }

  /** The PDP has answered, and the fence is bootstrapped. */
  const ANSWERED := At(DB2, map[1 := EDITOR], ANSWERS)

  lemma Answered()
    ensures Reachable(ANSWERED)
  {
    hide Reachable;
    Delegate();
    var s0, s1 := At(DB1, map[1 := EDITOR], {}), At(DB1, map[1 := EDITOR], {ANSWER});
    Go(s0, ByPdp(Evaluate(ANSWER)), s1);
    Go(s1, ByPdp(Evaluate(PENDING)), At(DB1, map[1 := EDITOR], ANSWERS));
    Go(At(DB1, map[1 := EDITOR], ANSWERS), ByPdp(Bootstrap(ANSWER)), ANSWERED);
  }

  lemma DirectReady()
    ensures Reachable(ANSWERED) && Ready(ANSWERED, 3, 1, false, COMMAND, ANSWER) && Exposed(ANSWERED, 1)
  {
    Answered();
    hide Reachable;
    assert Stale(ANSWERED.txns[1], 1);
  }

  // ------------------------------------------------------------ parked, approved

  function Confirming(locks: set<Key>, writes: Db, stage: Stage, answers: seq<Answer>): Txn {
    Txn(DB2, locks, {}, writes, Confirm(1, true, stage, COMMAND, false, answers))
  }

  function During(tx: Txn): State {
    At(DB2, map[1 := EDITOR, 3 := tx], ANSWERS).(nonces := {5})
  }

  const CLAIM: Db := map[AttemptKey(COMMAND) := AttemptRow(1, AttemptPending, 100)]
  const HELD := Confirming({OrderKey(1)}, map[], OrderHeld, [])
  const BOUND := Confirming({OrderKey(1), AttemptKey(COMMAND)}, CLAIM, Bound, [])
  const PARKED := Confirming({OrderKey(1), AttemptKey(COMMAND)}, CLAIM, Parked, [PENDING])

  lemma OrderLocked()
    ensures Reachable(During(HELD))
  {
    hide Reachable;
    Answered();
    var begun := Txn(DB2, {}, {}, map[], Confirm(1, true, Begun, Command(0, 0, 0), false, []));
    var s := At(DB2, map[1 := EDITOR, 3 := begun], ANSWERS);
    assert Exposed(ANSWERED, 1) by { assert Stale(ANSWERED.txns[1], 1); }
    Go(ANSWERED, ByConfirm(3, BeginConfirm(1)), s);
    assert {} + {OrderKey(1)} == {OrderKey(1)};
    Go(s, ByConfirm(3, HoldOrder(5)), During(HELD));
  }

  lemma Claimed()
    ensures Reachable(During(BOUND))
  {
    hide Reachable;
    OrderLocked();
    assert LineKeys(DB2, 1) == {};
    assert HELD.locks + ({AttemptKey(COMMAND)} + LineKeys(DB2, 1)) == BOUND.locks;
    Go(During(HELD), ByConfirm(3, ClaimCommand), During(BOUND));
  }

  lemma AnswerTaken()
    ensures Reachable(During(PARKED))
  {
    hide Reachable;
    Claimed();
    assert [] + [PENDING] == [PENDING];
    Go(During(BOUND), ByConfirm(3, TakeAnswer(PENDING)), During(PARKED));
  }

  // The database with the pending approval, and with it granted.
  const PARKED_ORDER := OrderRow(3, 1, Some(7), true, ToApprove, Some(5), 0)
  const INTENT := Intent(1, 1, Some(7), 5, 0, map[], ToApprove, 3)
  const DB3: Db := DB2[OrderKey(1) := PARKED_ORDER][AttemptKey(COMMAND) := AttemptRow(1, ApprovalRequired, 100)]
                      [ApprovalKey(COMMAND) := ApprovalRow(1, Pending, INTENT, 0)]
  const DB4: Db := DB3[ApprovalKey(COMMAND) := ApprovalRow(1, Approved, INTENT, 50)]

  lemma ParkedWrites()
    ensures DB2 + (PARKED.writes + PendingWrites(PARKED)) == DB3
  {
    assert LinesOf(DB2, 1) == map[];
    assert NextOrder(PARKED, ToApprove) == PARKED_ORDER;
  }

  lemma PendingEnabled()
    ensures ConfirmEnabled(During(PARKED), 3, CommitPending)
  {
    assert CanLock(During(PARKED), 3, ApprovalKey(COMMAND));
  }

  const STORED := At(DB3, map[1 := EDITOR], ANSWERS).(nonces := {5})

  lemma PendingStored()
    ensures Reachable(STORED)
  {
    hide Reachable;
    hide EditEnabled;
    hide EditApply;
    hide PdpEnabled;
    hide PdpApply;
    AnswerTaken();
    PendingEnabled();
    ParkedWrites();
    hide PendingWrites;
    hide ConfirmEnabled;
    Go(During(PARKED), ByConfirm(3, CommitPending), STORED);
  }

  const ISSUING := Txn(DB3, {OrderKey(1), ApprovalKey(COMMAND)}, {},
                       map[ApprovalKey(COMMAND) := ApprovalRow(1, Approved, INTENT, 50)], Issue)
  const APPROVED := At(DB4, map[1 := EDITOR], ANSWERS).(nonces := {5})

  lemma ApprovalIssued()
    ensures Reachable(At(DB3, map[1 := EDITOR, 4 := ISSUING], ANSWERS).(nonces := {5}))
  {
    hide Reachable;
    PendingStored();
    Go(STORED, ByEdit(4, IssueCapability(COMMAND, 50)), At(DB3, map[1 := EDITOR, 4 := ISSUING], ANSWERS).(nonces := {5}));
  }

  lemma ApprovalGiven()
    ensures Reachable(APPROVED)
  {
    hide Reachable;
    ApprovalIssued();
    Go(At(DB3, map[1 := EDITOR, 4 := ISSUING], ANSWERS).(nonces := {5}), ByEdit(4, CommitEdit), APPROVED);
  }

  lemma ApprovalHolds()
    ensures Granted(APPROVED, 1, COMMAND) && Permits(APPROVED, 1, COMMAND, ANSWER)
  {
    assert LinesOf(DB4, 1) == map[];
  }

  lemma ApprovedReady()
    ensures Reachable(APPROVED) && Ready(APPROVED, 5, 1, true, COMMAND, ANSWER) && Exposed(APPROVED, 1)
  {
    ApprovalGiven();
    ApprovalHolds();
    hide Reachable;
    hide Granted;
    hide Permits;
    assert Stale(APPROVED.txns[1], 1);
  }

  /** An order delegated after its creation can execute with a line that its
      signed intent does not have, directly as well as after an approval of
      exactly that intent. */
  lemma LateDelegationEscapesBinding(approved: bool) returns (s: State, e: Execution)
    ensures Reachable(s) && e in s.log
    ensures e.approved == approved && e.current != Some(e.signed)
    ensures approved ==> e.stored == Some(e.signed)
  {
    hide Ready;
    DirectReady();
    ApprovedReady();
    var from := if approved then APPROVED else ANSWERED;
    var t := if approved then 5 else 3;
    var steps := ExposedEscapes(from, t, 1, approved, COMMAND, ANSWER);
    s := After(from, steps);
    e := LastOf(s.log);
    ReachableRun(from, steps);
    ApprovedIntentBinding(s, e);
  }
}
