/** A run in which a confirmation misses a line: built step by step from any
    state in which the confirmation is ready and a stale editor is open. */
module ExposedRuns {
  import opened Basics
  import opened ErpDatabase
  import opened CommitProtocol
  import opened CommitInvariants
  import opened CommitSafety
  import opened Exposure

  // ------------------------------------ the stale editor adds a line and commits

  lemma FreshNumber(used: set<int>) returns (n: int)
    ensures forall m | m in used :: m < n
  {
    if m :| m in used {
      var rest := FreshNumber(used - {m});
      n := if m < rest then rest else m + 1;
      forall k | k in used ensures k < n {
        assert k == m || k in used - {m};
      }
    } else {
      n := 0;
    }
  }

  /** A line id that no row, snapshot or lock mentions. */
  lemma FreshLine(s: State, tx: Txn, o: OrderId) returns (line: LineId)
    ensures LineKey(o, line) !in s.db && LineKey(o, line) !in tx.snap && LineKey(o, line) !in tx.writes
    ensures forall u | u in s.txns :: LineKey(o, line) !in s.txns[u].locks
  {
    var keys := s.db.Keys + tx.snap.Keys + tx.writes.Keys + (set u, k | u in s.txns && k in s.txns[u].locks :: k);
    var used := set k: Key | k in keys && k.LineKey? :: k.line;
    line := FreshNumber(used);
    assert forall k: Key | k in keys && k.LineKey? :: k.line in used;
  }

  /** A run from `s` to `s'` in which `t` begins to confirm `o`, first and once. */
  ghost predicate Leads(s: State, t: TxnId, o: OrderId, steps: seq<Step>, s': State) {
    && steps != [] && steps[0] == ByConfirm(t, BeginConfirm(o))
    && (forall i | 1 <= i < |steps| :: !Begins(steps[i], t))
    && IsRun(s, steps) && After(s, steps) == s'
  }

  lemma LeadsOn(s: State, t: TxnId, o: OrderId, steps: seq<Step>, s1: State, step: Step, s2: State)
    requires Leads(s, t, o, steps, s1) && Enabled(s1, step) && Apply(s1, step) == s2 && !Begins(step, t)
    ensures Leads(s, t, o, steps + [step], s2)
  {
    hide Enabled;
    hide Apply;
    RunExtends(s, steps, step);
  }

  function Started(db: Db, o: OrderId, exposed: bool): Txn {
    Txn(db, {}, {}, map[], Confirm(o, exposed, Begun, Command(0, 0, 0), false, []))
  }

  /** `b` is `s` some steps later, under a confirmation `t` whose snapshot is of
      `s`, and nothing that `t` needs has changed or is held. */
  ghost predicate Calm(s: State, b: State, t: TxnId, o: OrderId, c: Command) {
    && b.clock == s.clock && b.answers == s.answers && b.log == s.log
    && (forall k | k in Needs(s.db, o, c) :: Get(b.db, k) == Get(s.db, k) && Untaken(b, t, k))
  }

  /** All the same, the order's lines have changed. */
  ghost predicate Slipped(s: State, b: State, t: TxnId, o: OrderId, c: Command) {
    Calm(s, b, t, o, c) && LinesOf(b.db, o) != LinesOf(s.db, o)
  }

  predicate Untaken(b: State, t: TxnId, k: Key) {
    forall u | u in b.txns && u != t :: k !in b.txns[u].locks && k !in b.txns[u].shares
  }

  function WithLine(tx: Txn, o: OrderId, line: LineId): Txn {
    tx.(locks := tx.locks + {LineKey(o, line)}, shares := tx.shares + {OrderKey(o)},
        writes := tx.writes[LineKey(o, line) := LineRow(0)])
  }

  /** The stale editor may add a line while nobody holds the order. */
  lemma SlipPut(s: State, u: TxnId, o: OrderId, line: LineId)
    requires u in s.txns && Stale(s.txns[u], o) && OrderKey(o) !in s.txns[u].writes
    requires Untaken(s, u, OrderKey(o)) && (forall v | v in s.txns :: LineKey(o, line) !in s.txns[v].locks)
    requires LineKey(o, line) !in s.db && LineKey(o, line) !in s.txns[u].snap && LineKey(o, line) !in s.txns[u].writes
    ensures EditEnabled(s, u, PutLine(o, line, LineRow(0)))
    ensures EditApply(s, u, PutLine(o, line, LineRow(0))) == SetTxn(s, u, WithLine(s.txns[u], o, line))
  {
    var tx := s.txns[u];
    assert Touched(tx, o) == map[];
    assert tx.locks + ({LineKey(o, line)} + Touched(tx, o).Keys) == tx.locks + {LineKey(o, line)};
    assert tx.writes + Touched(tx, o) == tx.writes;
  }

  /** It commits, and the confirmation's snapshot does not have its line. */
  lemma SlipCommit(s: State, t: TxnId, u: TxnId, o: OrderId, c: Command, line: LineId)
    requires u in s.txns && t !in s.txns && Free(s, Needs(s.db, o, c)) && LineKey(o, line) !in s.db
    requires s.txns[u].writes.Keys <= s.txns[u].locks
    ensures var s2 := SetTxn(SetTxn(s, t, Started(s.db, o, true)), u, WithLine(s.txns[u], o, line));
      Slipped(s, Commit(s2, u, s2.txns[u].writes), t, o, c)
  {
    var s2 := SetTxn(SetTxn(s, t, Started(s.db, o, true)), u, WithLine(s.txns[u], o, line));
    var b := Commit(s2, u, s2.txns[u].writes);
    assert LineKey(o, line) in LinesOf(b.db, o) && LineKey(o, line) !in LinesOf(s.db, o);
    forall k | k in Needs(s.db, o, c) ensures Get(b.db, k) == Get(s.db, k) && Untaken(b, t, k) {
      assert k !in s.txns[u].locks && k != LineKey(o, line);
    }
  }

  lemma SlipBegin(s: State, t: TxnId, u: TxnId, o: OrderId)
    requires t !in s.txns && u in s.txns && Stale(s.txns[u], o)
    ensures Leads(s, t, o, [ByConfirm(t, BeginConfirm(o))], SetTxn(s, t, Started(s.db, o, true)))
  {
    var begin := ByConfirm(t, BeginConfirm(o));
    assert Exposed(s, o) && Apply(s, begin) == SetTxn(s, t, Started(s.db, o, true));
    hide Apply;
    hide Stale;
    RunExtends(s, [], begin);
    assert [] + [begin] == [begin];
  }

  lemma SlipEnds(s: State, u: TxnId)
    requires u in s.txns && s.txns[u].job.Edit?
    ensures Enabled(s, ByEdit(u, CommitEdit)) && Apply(s, ByEdit(u, CommitEdit)) == Commit(s, u, s.txns[u].writes)
  {}

  lemma SlipPuts(s: State, t: TxnId, u: TxnId, o: OrderId, c: Command, line: LineId)
    requires t !in s.txns && Free(s, Needs(s.db, o, c)) && u in s.txns && Stale(s.txns[u], o)
    requires s.txns[u].writes.Keys <= s.txns[u].locks
    requires forall v | v in s.txns :: LineKey(o, line) !in s.txns[v].locks
    requires LineKey(o, line) !in s.db && LineKey(o, line) !in s.txns[u].snap && LineKey(o, line) !in s.txns[u].writes
    ensures var s1 := SetTxn(s, t, Started(s.db, o, true));
      && EditEnabled(s1, u, PutLine(o, line, LineRow(0)))
      && EditApply(s1, u, PutLine(o, line, LineRow(0))) == SetTxn(s1, u, WithLine(s.txns[u], o, line))
  {
    hide EditEnabled;
    hide EditApply;
    assert OrderKey(o) in Needs(s.db, o, c);
    SlipPut(SetTxn(s, t, Started(s.db, o, true)), u, o, line);
  }

  lemma EditorSlips(s: State, t: TxnId, u: TxnId, o: OrderId, c: Command) returns (steps: seq<Step>, b: State)
    requires t !in s.txns && Free(s, Needs(s.db, o, c))
    requires u in s.txns && Stale(s.txns[u], o) && EditOk(s.txns[u])
    ensures Leads(s, t, o, steps, b) && Slipped(s, b, t, o, c)
    ensures b.nonces == s.nonces && t in b.txns && b.txns[t] == Started(s.db, o, true)
  {
    hide EditEnabled;
    hide EditApply;
    hide ConfirmApply;
    hide ConfirmEnabled;
    hide PdpApply;
    hide PdpEnabled;
    hide Leads;
    hide Slipped;
    hide Free;
    var line := FreshLine(s, s.txns[u], o);
    var s1 := SetTxn(s, t, Started(s.db, o, true));
    var s2 := SetTxn(s1, u, WithLine(s.txns[u], o, line));
    SlipBegin(s, t, u, o);
    SlipPuts(s, t, u, o, c, line);
    steps := [ByConfirm(t, BeginConfirm(o))];
    LeadsOn(s, t, o, steps, s1, ByEdit(u, PutLine(o, line, LineRow(0))), s2);
    steps := steps + [ByEdit(u, PutLine(o, line, LineRow(0)))];
    b := Commit(s2, u, s2.txns[u].writes);
    SlipEnds(s2, u);
    LeadsOn(s, t, o, steps, s2, ByEdit(u, CommitEdit), b);
    steps := steps + [ByEdit(u, CommitEdit)];
    SlipCommit(s, t, u, o, c, line);
  }

  // ----------------------------------------------------- the confirmation executes

  /** A confirmation of `o` for `c` in mid-course, on the snapshot `db`. */
  predicate On(tx: Txn, db: Db, o: OrderId, c: Command, approved: bool, stage: Stage, answers: seq<Answer>) {
    tx.snap == db && tx.job.Confirm? && tx.job == Confirm(o, tx.job.exposed, stage, c, approved, answers)
  }

  lemma SetTwice(b: State, t: TxnId, x: Txn, y: Txn)
    ensures SetTxn(SetTxn(b, t, x), t, y) == SetTxn(b, t, y)
  {
    assert b.txns[t := x][t := y] == b.txns[t := y];
  }

  /** Whatever it needs it can lock. */
  lemma Lockable(s: State, b: State, t: TxnId, o: OrderId, c: Command, tx: Txn, k: Key)
    requires Calm(s, b, t, o, c) && tx.snap == s.db && k in Needs(s.db, o, c)
    ensures CanLock(SetTxn(b, t, tx), t, k)
  {}

  lemma HoldsOrder(s: State, b: State, t: TxnId, o: OrderId, c: Command, exposed: bool) returns (b': State, tx: Txn)
    requires Calm(s, b, t, o, c) && b.nonces == s.nonces && t in b.txns && b.txns[t] == Started(s.db, o, exposed)
    requires var r := Get(s.db, OrderKey(o));
      && r.OrderRow? && r.tenant == c.tenant && r.grantId == Some(c.grant)
      && (if r.nonce.Some? then r.nonce.value == c.nonce else c.nonce !in s.nonces)
    ensures ConfirmEnabled(b, t, HoldOrder(c.nonce)) && ConfirmApply(b, t, HoldOrder(c.nonce)) == SetTxn(b', t, tx)
    ensures b'.db == b.db && Calm(s, b', t, o, c) && On(tx, s.db, o, c, false, OrderHeld, []) && tx.writes == map[]
  {
    b' := b.(nonces := b.nonces + {c.nonce});
    assert Calm(s, b', t, o, c);
    hide Calm;
    Lockable(s, b, t, o, c, b.txns[t], OrderKey(o));
    assert b.txns[t := b.txns[t]] == b.txns;
    tx := ConfirmApply(b, t, HoldOrder(c.nonce)).txns[t];
  }

  lemma ClaimsCommand(s: State, b: State, t: TxnId, o: OrderId, c: Command, tx: Txn) returns (tx': Txn)
    requires Calm(s, b, t, o, c) && On(tx, s.db, o, c, false, OrderHeld, []) && Get(s.db, AttemptKey(c)) == Gone
    ensures ConfirmEnabled(SetTxn(b, t, tx), t, ClaimCommand)
    ensures ConfirmApply(SetTxn(b, t, tx), t, ClaimCommand) == SetTxn(b, t, tx')
    ensures On(tx', s.db, o, c, false, Bound, [])
  {
    hide Calm;
    Lockable(s, b, t, o, c, tx, AttemptKey(c));
    forall k | k in LineKeys(s.db, o) ensures CanLock(SetTxn(b, t, tx), t, k) {
      Lockable(s, b, t, o, c, tx, k);
    }
    tx' := Advance(tx, {AttemptKey(c)} + LineKeys(s.db, o), Bound).(writes := Claim(tx));
    SetTwice(b, t, tx, tx');
  }

  lemma BindsApproval(s: State, b: State, t: TxnId, o: OrderId, c: Command, tx: Txn) returns (tx': Txn)
    requires Calm(s, b, t, o, c) && On(tx, s.db, o, c, false, OrderHeld, [])
    requires Get(s.db, OrderKey(o)).OrderRow? && Granted(s, o, c)
    ensures ConfirmEnabled(SetTxn(b, t, tx), t, BindApproval)
    ensures ConfirmApply(SetTxn(b, t, tx), t, BindApproval) == SetTxn(b, t, tx')
    ensures On(tx', s.db, o, c, true, Bound, [])
  {
    hide Calm;
    Lockable(s, b, t, o, c, tx, AttemptKey(c));
    Lockable(s, b, t, o, c, tx, ApprovalKey(c));
    forall k | k in LineKeys(s.db, o) ensures CanLock(SetTxn(b, t, tx), t, k) {
      Lockable(s, b, t, o, c, tx, k);
    }
    assert SignedIntent(tx) == IntentOf(o, Get(s.db, OrderKey(o)), c.nonce, s.db);
    var next := Advance(tx, {AttemptKey(c), ApprovalKey(c)} + LineKeys(s.db, o), Bound);
    tx' := next.(job := next.job.(approved := true));
    SetTwice(b, t, tx, tx');
  }

  /** The answers heard so far, and whether one more is asked for. */
  function Heard(tx: Txn, a: Answer): Txn
    requires tx.job.Confirm?
  {
    tx.(job := tx.job.(stage := if tx.job.approved && tx.job.answers == [] then Bound else Allowed,
                       answers := tx.job.answers + [a]))
  }

  lemma AnswerHeard(s: State, t: TxnId, a: Answer)
    requires ConfirmAt(s, t, Bound) && a in s.answers && a.allow && !a.needsApproval
    requires a.tenant == s.txns[t].job.command.tenant
    ensures ConfirmEnabled(s, t, TakeAnswer(a)) && ConfirmApply(s, t, TakeAnswer(a)) == SetTxn(s, t, Heard(s.txns[t], a))
  {}

  lemma TakesAnswer(b: State, t: TxnId, db: Db, o: OrderId, c: Command, a: Answer, tx: Txn, approved: bool,
                    answers: seq<Answer>) returns (tx': Txn)
    requires On(tx, db, o, c, approved, Bound, answers)
    requires a in b.answers && a.allow && !a.needsApproval && a.tenant == c.tenant
    ensures ConfirmEnabled(SetTxn(b, t, tx), t, TakeAnswer(a))
    ensures ConfirmApply(SetTxn(b, t, tx), t, TakeAnswer(a)) == SetTxn(b, t, tx')
    ensures On(tx', db, o, c, approved, if approved && answers == [] then Bound else Allowed, answers + [a])
  {
    hide ConfirmEnabled;
    hide ConfirmApply;
    AnswerHeard(SetTxn(b, t, tx), t, a);
    tx' := Heard(tx, a);
    SetTwice(b, t, tx, tx');
  }

  lemma HoldsFence(s: State, b: State, t: TxnId, o: OrderId, c: Command, tx: Txn, approved: bool,
                   answers: seq<Answer>) returns (tx': Txn)
    requires Calm(s, b, t, o, c) && On(tx, s.db, o, c, approved, Allowed, answers)
    requires Get(s.db, FenceOf(c)) != FenceRow(true)
    ensures ConfirmEnabled(SetTxn(b, t, tx), t, HoldFence)
    ensures ConfirmApply(SetTxn(b, t, tx), t, HoldFence) == SetTxn(b, t, tx')
    ensures On(tx', s.db, o, c, approved, FenceHeld, answers)
  {
    hide Calm;
    Lockable(s, b, t, o, c, tx, FenceOf(c));
    tx' := Advance(tx, {FenceOf(c)}, FenceHeld);
    SetTwice(b, t, tx, tx');
  }

  lemma HoldsEpoch(s: State, b: State, t: TxnId, o: OrderId, c: Command, tx: Txn, approved: bool,
                   answers: seq<Answer>) returns (tx': Txn)
    requires Calm(s, b, t, o, c) && On(tx, s.db, o, c, approved, FenceHeld, answers)
    requires Get(s.db, EpochKey).EpochRow?
    ensures ConfirmEnabled(SetTxn(b, t, tx), t, HoldEpoch)
    ensures ConfirmApply(SetTxn(b, t, tx), t, HoldEpoch) == SetTxn(b, t, tx')
    ensures On(tx', s.db, o, c, approved, EpochHeld, answers)
  {
    hide Calm;
    Lockable(s, b, t, o, c, tx, EpochKey);
    tx' := Advance(tx, {EpochKey}, EpochHeld);
    SetTwice(b, t, tx, tx');
  }

  lemma HoldsPolicy(s: State, b: State, t: TxnId, o: OrderId, c: Command, tx: Txn, approved: bool,
                    answers: seq<Answer>) returns (tx': Txn)
    requires Calm(s, b, t, o, c) && On(tx, s.db, o, c, approved, EpochHeld, answers)
    requires var p := Get(s.db, PolicyKey(c.tenant)); p.PolicyRow? && p.ready && forall a | a in answers :: a.revision == p.revision
    ensures ConfirmEnabled(SetTxn(b, t, tx), t, HoldPolicy)
    ensures ConfirmApply(SetTxn(b, t, tx), t, HoldPolicy) == SetTxn(b, t, tx')
    ensures On(tx', s.db, o, c, approved, AuthorityHeld, answers)
  {
    hide Calm;
    Lockable(s, b, t, o, c, tx, PolicyKey(c.tenant));
    tx' := Advance(tx, {PolicyKey(c.tenant)}, AuthorityHeld);
    SetTwice(b, t, tx, tx');
  }

  lemma ExecutesAtLast(s: State, b: State, t: TxnId, o: OrderId, c: Command, a: Answer, tx: Txn, approved: bool,
                       answers: seq<Answer>)
    requires Calm(s, b, t, o, c) && On(tx, s.db, o, c, approved, AuthorityHeld, answers) && Permits(s, o, c, a)
    requires approved ==> Granted(s, o, c)
    ensures ConfirmEnabled(SetTxn(b, t, tx), t, CommitExecution(Final))
    ensures var s' := ConfirmApply(SetTxn(b, t, tx), t, CommitExecution(Final));
      s'.log != [] && LastOf(s'.log) == Record(SetTxn(b, t, tx), tx) && LastOf(s'.log).approved == approved
  {
    hide SignedIntent;
    hide CurrentIntent;
    hide StoredIntent;
    hide AuthorityOf;
    var s1 := SetTxn(b, t, tx);
    assert DeadlineHolds(tx, s1.clock);
  }

  /** It executes with an intent that lacks the editor's line. */
  lemma ExecutesUnbound(s: State, b: State, t: TxnId, o: OrderId, c: Command, a: Answer, tx: Txn, approved: bool,
                        answers: seq<Answer>)
    requires Slipped(s, b, t, o, c) && On(tx, s.db, o, c, approved, AuthorityHeld, answers) && Permits(s, o, c, a)
    requires approved ==> Granted(s, o, c)
    ensures ConfirmEnabled(SetTxn(b, t, tx), t, CommitExecution(Final))
    ensures var s' := ConfirmApply(SetTxn(b, t, tx), t, CommitExecution(Final));
      s'.log != [] && LastOf(s'.log).approved == approved && !BoundToLines(s')
  {
    hide ConfirmEnabled;
    hide ConfirmApply;
    hide Calm;
    ExecutesAtLast(s, b, t, o, c, a, tx, approved, answers);
    var e := Record(SetTxn(b, t, tx), tx);
    assert e.signed.lines == LinesOf(s.db, o);
    assert e.current.Some? ==> e.current.value.lines == LinesOf(b.db, o);
  }

  lemma CalmAnswers(s: State, b: State, t: TxnId, o: OrderId, c: Command)
    requires Calm(s, b, t, o, c)
    ensures b.answers == s.answers
  {}

  // ---------------------------------------------------------------- one run

  lemma LeadsConfirm(s: State, t: TxnId, o: OrderId, steps: seq<Step>, s1: State, act: ConfirmAct, s2: State)
    requires Leads(s, t, o, steps, s1) && ConfirmEnabled(s1, t, act) && ConfirmApply(s1, t, act) == s2
    requires !act.BeginConfirm?
    ensures Leads(s, t, o, steps + [ByConfirm(t, act)], s2)
  {
    hide ConfirmEnabled;
    hide ConfirmApply;
    LeadsOn(s, t, o, steps, s1, ByConfirm(t, act), s2);
  }

  lemma ThenBinds(s: State, b: State, t: TxnId, o: OrderId, exposed: bool, approved: bool, c: Command, a: Answer,
                  steps: seq<Step>)
    returns (more: seq<Step>, b': State, tx: Txn, answers: seq<Answer>)
    requires Leads(s, t, o, steps, b) && Calm(s, b, t, o, c) && Ready(s, t, o, approved, c, a)
    requires b.nonces == s.nonces && t in b.txns && b.txns[t] == Started(s.db, o, exposed)
    ensures Leads(s, t, o, more, SetTxn(b', t, tx)) && b'.db == b.db && Calm(s, b', t, o, c)
    ensures On(tx, s.db, o, c, approved, Allowed, answers)
    ensures forall b | b in answers :: b.revision == a.revision
  {
    hide Leads;
    hide ConfirmEnabled;
    hide ConfirmApply;
    hide SetTxn;
    b', tx := HoldsOrder(s, b, t, o, c, exposed);
    LeadsConfirm(s, t, o, steps, b, HoldOrder(c.nonce), SetTxn(b', t, tx));
    more := steps + [ByConfirm(t, HoldOrder(c.nonce))];
    var bind := if approved then BindApproval else ClaimCommand;
    var bound: Txn;
    if approved {
      bound := BindsApproval(s, b', t, o, c, tx);
    } else {
      bound := ClaimsCommand(s, b', t, o, c, tx);
    }
    LeadsConfirm(s, t, o, more, SetTxn(b', t, tx), bind, SetTxn(b', t, bound));
    more := more + [ByConfirm(t, bind)];
    hide Calm;
    CalmAnswers(s, b', t, o, c);
    tx := TakesAnswer(b', t, s.db, o, c, a, bound, approved, []);
    LeadsConfirm(s, t, o, more, SetTxn(b', t, bound), TakeAnswer(a), SetTxn(b', t, tx));
    more, answers := more + [ByConfirm(t, TakeAnswer(a))], [a];
    assert [] + [a] == answers;
    if approved {
      bound := tx;
      tx := TakesAnswer(b', t, s.db, o, c, a, bound, approved, answers);
      LeadsConfirm(s, t, o, more, SetTxn(b', t, bound), TakeAnswer(a), SetTxn(b', t, tx));
      more, answers := more + [ByConfirm(t, TakeAnswer(a))], answers + [a];
    }
  }

  lemma ThenHolds(s: State, b: State, t: TxnId, o: OrderId, approved: bool, c: Command, a: Answer, steps: seq<Step>,
                  allowed: Txn, answers: seq<Answer>) returns (more: seq<Step>, tx: Txn)
    requires Leads(s, t, o, steps, SetTxn(b, t, allowed)) && Calm(s, b, t, o, c) && Permits(s, o, c, a)
    requires On(allowed, s.db, o, c, approved, Allowed, answers) && forall b | b in answers :: b.revision == a.revision
    ensures Leads(s, t, o, more, SetTxn(b, t, tx)) && On(tx, s.db, o, c, approved, AuthorityHeld, answers)
  {
    hide Leads;
    hide Calm;
    hide ConfirmEnabled;
    hide ConfirmApply;
    hide SetTxn;
    var fenced := HoldsFence(s, b, t, o, c, allowed, approved, answers);
    LeadsConfirm(s, t, o, steps, SetTxn(b, t, allowed), HoldFence, SetTxn(b, t, fenced));
    more := steps + [ByConfirm(t, HoldFence)];
    var epoch := HoldsEpoch(s, b, t, o, c, fenced, approved, answers);
    LeadsConfirm(s, t, o, more, SetTxn(b, t, fenced), HoldEpoch, SetTxn(b, t, epoch));
    more := more + [ByConfirm(t, HoldEpoch)];
    tx := HoldsPolicy(s, b, t, o, c, epoch, approved, answers);
    LeadsConfirm(s, t, o, more, SetTxn(b, t, epoch), HoldPolicy, SetTxn(b, t, tx));
    more := more + [ByConfirm(t, HoldPolicy)];
  }

  lemma LeadsToExecution(s: State, t: TxnId, o: OrderId, approved: bool, steps: seq<Step>, s1: State, s2: State)
    requires Leads(s, t, o, steps, s1) && ConfirmEnabled(s1, t, CommitExecution(Final))
    requires ConfirmApply(s1, t, CommitExecution(Final)) == s2 && s2.log != [] && LastOf(s2.log).approved == approved
    ensures Confirms(s, t, o, approved, steps + [ByConfirm(t, CommitExecution(Final))])
    ensures After(s, steps + [ByConfirm(t, CommitExecution(Final))]) == s2
  {
    hide ConfirmEnabled;
    hide ConfirmApply;
    LeadsConfirm(s, t, o, steps, s1, CommitExecution(Final), s2);
  }
}
