/** What the PDP's processes achieve when they run through. */
module CommitProgress {
  import opened Basics
  import opened ErpDatabase
  import opened CommitProtocol

  // ---------------------------------------------------------------- publications

  /** A publication in full. */
  function Publication(token: Token, tenant: Tenant, bump: bool): seq<Step> {
    [ByPdp(CloseBarrier(token, tenant)), ByPdp(Mutate(token, bump)), ByPdp(ReadRevision(token)), ByPdp(LiftBarrier(token))]
  }

  lemma FourSteps(s: State, a: Step, b: Step, c: Step, d: Step)
    requires Enabled(s, a) && Enabled(Apply(s, a), b) && Enabled(Apply(Apply(s, a), b), c)
    requires Enabled(Apply(Apply(Apply(s, a), b), c), d)
    ensures IsRun(s, [a, b, c, d]) && After(s, [a, b, c, d]) == Apply(Apply(Apply(Apply(s, a), b), c), d)
  {
    hide Enabled;
    hide Apply;
    assert [a, b, c, d][1..] == [b, c, d] && [b, c, d][1..] == [c, d] && [c, d][1..] == [d] && [d][1..] == [];
    var s1 := Apply(s, a);
    var s2 := Apply(s1, b);
    var s3 := Apply(s2, c);
    assert IsRun(s3, [d]) && After(s3, [d]) == Apply(s3, d);
    assert IsRun(s2, [c, d]) && After(s2, [c, d]) == Apply(s3, d);
    assert IsRun(s1, [b, c, d]) && After(s1, [b, c, d]) == Apply(s3, d);
  }

  lemma Closes(s: State, token: Token, tenant: Tenant) returns (s': State)
    requires Enabled(s, ByPdp(CloseBarrier(token, tenant)))
    ensures s' == Apply(s, ByPdp(CloseBarrier(token, tenant))) && s'.txns == s.txns && s'.log == s.log
    ensures s'.policyRevisions == s.policyRevisions && WriterAt(s', token, Closed) && s'.writers[token].tenant == tenant
    ensures var before := Get(s.db, PolicyKey(tenant));
      Get(s'.db, PolicyKey(tenant))
        == PolicyRow(1 + (if before.PolicyRow? then before.fenceVersion else 0),
                     if before.PolicyRow? then before.revision else 0, false, Some(token))
    ensures (forall k | k != PolicyKey(tenant) :: Get(s'.db, k) == Get(s.db, k)) && Unlocked(s', PolicyKey(tenant))
  {
    hide ConfirmEnabled;
    hide ConfirmApply;
    hide EditEnabled;
    hide EditApply;
    s' := Apply(s, ByPdp(CloseBarrier(token, tenant)));
    assert Unlocked(s', PolicyKey(tenant));
  }

  lemma Rewrites(s: State, token: Token, bump: bool) returns (s1: State, s2: State)
    requires WriterAt(s, token, Closed)
    ensures Enabled(s, ByPdp(Mutate(token, bump))) && s1 == Apply(s, ByPdp(Mutate(token, bump)))
    ensures Enabled(s1, ByPdp(ReadRevision(token))) && s2 == Apply(s1, ByPdp(ReadRevision(token)))
    ensures var tenant := s.writers[token].tenant;
      && s2.db == s.db && s2.txns == s.txns && s2.log == s.log && token in s2.writers
      && PdpRevision(s2, tenant) == PdpRevision(s, tenant) + (if bump then 1 else 0)
      && s2.writers[token] == Writer(tenant, Read(PdpRevision(s2, tenant)))
  {
    hide ConfirmEnabled;
    hide ConfirmApply;
    hide EditEnabled;
    hide EditApply;
    s1 := Apply(s, ByPdp(Mutate(token, bump)));
    s2 := Apply(s1, ByPdp(ReadRevision(token)));
  }

  lemma Lifts(s: State, token: Token) returns (s': State)
    requires token in s.writers && s.writers[token].phase.Read? && Unlocked(s, PolicyKey(s.writers[token].tenant))
    requires var r := Get(s.db, PolicyKey(s.writers[token].tenant)); r.PolicyRow? && !r.ready && r.publication == Some(token)
    ensures Enabled(s, ByPdp(LiftBarrier(token))) && s' == Apply(s, ByPdp(LiftBarrier(token)))
    ensures var w := s.writers[token];
      && Get(s'.db, PolicyKey(w.tenant))
         == PolicyRow(Get(s.db, PolicyKey(w.tenant)).fenceVersion + 1, w.phase.revision, true, None)
      && (forall k | k != PolicyKey(w.tenant) :: Get(s'.db, k) == Get(s.db, k))
      && s'.txns == s.txns && s'.log == s.log && s'.policyRevisions == s.policyRevisions
  {
    hide ConfirmEnabled;
    hide ConfirmApply;
    hide EditEnabled;
    hide EditApply;
    s' := Apply(s, ByPdp(LiftBarrier(token)));
  }

  /** A publication that finishes leaves the fence open at the revision it made,
      in a new version of its row for each of the two writes, and nothing else
      changed. */
  lemma PublicationReopens(s: State, token: Token, tenant: Tenant, bump: bool)
    requires Enabled(s, ByPdp(CloseBarrier(token, tenant)))
    ensures IsRun(s, Publication(token, tenant, bump))
    ensures var s', before := After(s, Publication(token, tenant, bump)), Get(s.db, PolicyKey(tenant));
      && PdpRevision(s', tenant) == PdpRevision(s, tenant) + (if bump then 1 else 0)
      && Get(s'.db, PolicyKey(tenant))
         == PolicyRow(2 + (if before.PolicyRow? then before.fenceVersion else 0), PdpRevision(s', tenant), true, None)
      && (forall k | k != PolicyKey(tenant) :: Get(s'.db, k) == Get(s.db, k)) && s'.txns == s.txns && s'.log == s.log
  {
    hide Enabled;
    hide Apply;
    hide IsRun;
    hide After;
    var s1 := Closes(s, token, tenant);
    var s2, s3 := Rewrites(s1, token, bump);
    var s4 := Lifts(s3, token);
    FourSteps(s, ByPdp(CloseBarrier(token, tenant)), ByPdp(Mutate(token, bump)), ByPdp(ReadRevision(token)),
              ByPdp(LiftBarrier(token)));
  }

  // -------------------------------------------------------------------- answers

  /** The PDP at work later on: it loads a tenant and answers, and refuses a
      tenant it does not know. */
  function Answering(elapsed: nat, a: Answer, unknown: Tenant): seq<Step> {
    [ByPdp(Tick(elapsed)), ByPdp(FetchBundle(a.tenant)), ByPdp(Evaluate(a)),
     ByPdp(Evaluate(Answer(unknown, 0, false, false)))]
  }

  /** At any time the PDP can load a tenant and answer under its revision, and can
      answer for a tenant it has not loaded only with a denial. */
  lemma AnswersFreshly(s: State, elapsed: nat, a: Answer, unknown: Tenant)
    requires a.revision == PdpRevision(s, a.tenant)
    ensures IsRun(s, Answering(elapsed, a, unknown))
    ensures var s' := After(s, Answering(elapsed, a, unknown));
      && s'.clock == s.clock + elapsed && s'.db == s.db && s'.txns == s.txns && s'.log == s.log
      && s'.answers == s.answers + {a, Answer(unknown, 0, false, false)}
  {
    hide ConfirmEnabled;
    hide ConfirmApply;
    hide EditEnabled;
    hide EditApply;
    hide IsRun;
    hide After;
    var steps := Answering(elapsed, a, unknown);
    FourSteps(s, steps[0], steps[1], steps[2], steps[3]);
  }

  // ---------------------------------------------------------------- revocations

  function Revocation(id: int, tenant: Tenant, grant: GrantId, published: bool): seq<Step> {
    [ByPdp(WriteTombstone(id, tenant, grant)), ByPdp(if published then PublishRevocation(id) else FailPublication(id))]
  }

  /** A revocation leaves its tombstone whether or not its publication succeeds,
      and its outcome is known. */
  lemma RevocationEnds(s: State, id: int, tenant: Tenant, grant: GrantId, published: bool)
    requires Enabled(s, ByPdp(WriteTombstone(id, tenant, grant)))
    ensures IsRun(s, Revocation(id, tenant, grant, published))
    ensures var s' := After(s, Revocation(id, tenant, grant, published));
      && Get(s'.db, FenceKey(tenant, grant)) == FenceRow(true) && id in s'.revokers
      && s'.revokers[id] == Revoker(tenant, grant, if published then Published else PublishFailed)
      && (forall k | k != FenceKey(tenant, grant) :: Get(s'.db, k) == Get(s.db, k)) && s'.txns == s.txns
  {
    hide ConfirmEnabled;
    hide ConfirmApply;
    hide EditEnabled;
    hide EditApply;
    hide IsRun;
    hide After;
    var steps := Revocation(id, tenant, grant, published);
    TwoSteps(s, steps[0], steps[1]);
  }

  lemma TwoSteps(s: State, a: Step, b: Step)
    requires Enabled(s, a) && Enabled(Apply(s, a), b)
    ensures IsRun(s, [a, b]) && After(s, [a, b]) == Apply(Apply(s, a), b)
  {
    hide Enabled;
    hide Apply;
    assert [a, b][1..] == [b] && [b][1..] == [];
    var s1 := Apply(s, a);
    assert IsRun(s1, [b]) && After(s1, [b]) == Apply(s1, b);
  }
}
