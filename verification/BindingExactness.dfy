/** Intent binding, exactly: both directions of when an execution is bound to the
    lines of its order. */
module BindingExactness {
  import opened Basics
  import opened ErpDatabase
  import opened CommitProtocol
  import opened CommitInvariants
  import opened CommitSafety
  import opened Exposure
  import opened ExposedRuns

  /** Beside a stale editor, a confirmation that can execute at all can execute
      without one of the order's lines, by approval as well as directly. */
  lemma ExposedEscapes(s: State, t: TxnId, o: OrderId, approved: bool, c: Command, a: Answer) returns (steps: seq<Step>)
    requires Reachable(s) && Ready(s, t, o, approved, c, a) && Exposed(s, o)
    ensures Confirms(s, t, o, approved, steps) && !BoundToLines(After(s, steps))
  {
    hide Leads;
    hide Calm;
    hide ConfirmEnabled;
    hide ConfirmApply;
    ReachableInv(s);
    var u :| u in s.txns && Stale(s.txns[u], o);
    assert TxnOk(s.txns[u]);
    hide TxnsOk;
    var slip, b := EditorSlips(s, t, u, o, c);
    var bind, b', allowed, answers := ThenBinds(s, b, t, o, true, approved, c, a, slip);
    var hold, tx := ThenHolds(s, b', t, o, approved, c, a, bind, allowed, answers);
    ExecutesUnbound(s, b', t, o, c, a, tx, approved, answers);
    var s1 := SetTxn(b', t, tx);
    LeadsToExecution(s, t, o, approved, hold, s1, ConfirmApply(s1, t, CommitExecution(Final)));
    steps := hold + [ByConfirm(t, CommitExecution(Final))];
  }

  /** A confirmation that nothing stands in the way of can execute: directly, or
      by its approval. */
  lemma ReadyExecutes(s: State, t: TxnId, o: OrderId, approved: bool, c: Command, a: Answer) returns (steps: seq<Step>)
    requires Ready(s, t, o, approved, c, a)
    ensures Confirms(s, t, o, approved, steps)
    ensures LastOf(After(s, steps).log).order == o && LastOf(After(s, steps).log).command == c
  {
    hide Leads;
    hide ConfirmEnabled;
    hide ConfirmApply;
    var begin := ByConfirm(t, BeginConfirm(o));
    var b := SetTxn(s, t, Started(s.db, o, Exposed(s, o)));
    BeginsCalmly(s, t, o, c);
    hide Calm;
    var bind, b', allowed, answers := ThenBinds(s, b, t, o, Exposed(s, o), approved, c, a, [begin]);
    var hold, tx := ThenHolds(s, b', t, o, approved, c, a, bind, allowed, answers);
    ExecutesAtLast(s, b', t, o, c, a, tx, approved, answers);
    var s1 := SetTxn(b', t, tx);
    LeadsToExecution(s, t, o, approved, hold, s1, ConfirmApply(s1, t, CommitExecution(Final)));
    steps := hold + [ByConfirm(t, CommitExecution(Final))];
  }

  lemma BeginsCalmly(s: State, t: TxnId, o: OrderId, c: Command)
    requires t !in s.txns && Free(s, Needs(s.db, o, c))
    ensures var b := SetTxn(s, t, Started(s.db, o, Exposed(s, o)));
      Leads(s, t, o, [ByConfirm(t, BeginConfirm(o))], b) && Calm(s, b, t, o, c)
  {
    hide Exposed;
    var begin := ByConfirm(t, BeginConfirm(o));
    RunExtends(s, [], begin);
    assert [] + [begin] == [begin];
  }

  /** When intent binding holds: of a confirmation that can execute at all, every
      execution is bound to the order's lines if and only if no open editor saw
      the order before its delegation. */
  lemma BindingExact(s: State, t: TxnId, o: OrderId, approved: bool, c: Command, a: Answer)
    requires Reachable(s) && Ready(s, t, o, approved, c, a)
    ensures (forall steps | Confirms(s, t, o, approved, steps) :: BoundToLines(After(s, steps))) <==> !Exposed(s, o)
  {
    hide Ready;
    if Exposed(s, o) {
      var steps := ExposedEscapes(s, t, o, approved, c, a);
    } else {
      forall steps | Confirms(s, t, o, approved, steps) ensures BoundToLines(After(s, steps)) {
        ShieldedIsBound(s, t, o, approved, steps);
      }
    }
  }
}
