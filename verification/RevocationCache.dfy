/** The in-memory revocation cache under compare-and-swap: any interleaving of
    deliveries, retries, lookups and clean-ups, with a clock that never goes back. */
module RevocationCache {
  import opened Basics

  type Time = int
  type Caller = int

  datatype Grant = Grant(tenant: string, id: string)

  datatype Entry = Entry(revokedAt: Time, expiresAt: Time)

  datatype Record = Record(grant: Grant, entry: Entry)

  /** Where one call stands: an apply at the top of its loop, or having loaded
      nothing or an entry; a lookup having loaded. */
  datatype Call =
    | Trying(record: Record)
    | SawNothing(record: Record)
    | Saw(record: Record, current: Entry)
    | Looking(grant: Grant, loaded: Option<Entry>)

  /** A finished lookup: its answer and when it was given. */
  datatype Lookup = Lookup(grant: Grant, answer: bool, at: Time)

  datatype State = State(
    now: Time,
    cache: map<Grant, Entry>,
    calls: map<Caller, Call>,
    delivered: set<Record>,
    applied: set<Record>,
    lookups: set<Lookup>)

  datatype Step =
    | Tick(to: Time)
    | Deliver(caller: Caller, record: Record)
    | Load(caller: Caller)
    | LoadOrStore(caller: Caller)
    | Swap(caller: Caller)
    | BeginLookup(caller: Caller, grant: Grant)
    | Answer(caller: Caller)
    | Expire(grant: Grant)

  function Merge(x: Entry, y: Entry): (m: Entry)
    ensures m.expiresAt >= x.expiresAt && m.expiresAt >= y.expiresAt
    ensures m.expiresAt == x.expiresAt || m.expiresAt == y.expiresAt
    ensures m.revokedAt <= x.revokedAt && m.revokedAt <= y.revokedAt
    ensures m.revokedAt == x.revokedAt || m.revokedAt == y.revokedAt
  {
    Entry(if y.revokedAt < x.revokedAt then y.revokedAt else x.revokedAt,
          if y.expiresAt > x.expiresAt then y.expiresAt else x.expiresAt)
  }

  predicate WellFormed(r: Record) {
    r.grant.tenant != "" && r.grant.id != "" && r.entry.revokedAt != 0
  }

  predicate Enabled(s: State, step: Step) {
    match step
    case Tick(to) => s.now <= to
    case Deliver(c, _) => c !in s.calls
    case Load(c) => c in s.calls && s.calls[c].Trying?
    case LoadOrStore(c) => c in s.calls && s.calls[c].SawNothing?
    case Swap(c) => c in s.calls && s.calls[c].Saw?
    case BeginLookup(c, _) => c !in s.calls
    case Answer(c) => c in s.calls && s.calls[c].Looking?
    case Expire(g) => g in s.cache && s.cache[g].expiresAt <= s.now
  }

  function Done(s: State, c: Caller, r: Record): State {
    s.(calls := s.calls - {c}, applied := s.applied + {r})
  }

  function Apply(s: State, step: Step): State
    requires Enabled(s, step)
  {
    match step
    case Tick(to) => s.(now := to)
    case Deliver(c, r) =>
      // A malformed record is ignored. An expired one is refused at once, and
      // counts as delivered all the same.
      if !WellFormed(r) then s
      else if r.entry.expiresAt <= s.now then s.(delivered := s.delivered + {r}, applied := s.applied + {r})
      else s.(calls := s.calls[c := Trying(r)], delivered := s.delivered + {r})
    case Load(c) =>
      var r := s.calls[c].record;
      s.(calls := s.calls[c := if r.grant in s.cache then Saw(r, s.cache[r.grant]) else SawNothing(r)])
    case LoadOrStore(c) =>
      var r := s.calls[c].record;
      if r.grant in s.cache then s.(calls := s.calls[c := Trying(r)])
      else Done(s.(cache := s.cache[r.grant := r.entry]), c, r)
    case Swap(c) =>
      var r, current := s.calls[c].record, s.calls[c].current;
      var merged := Merge(current, r.entry);
      if merged == current then Done(s, c, r)
      else if r.grant in s.cache && s.cache[r.grant] == current then Done(s.(cache := s.cache[r.grant := merged]), c, r)
      else s.(calls := s.calls[c := Trying(r)])
    case BeginLookup(c, g) =>
      s.(calls := s.calls[c := Looking(g, if g in s.cache then Some(s.cache[g]) else None)])
    case Answer(c) =>
      var call := s.calls[c];
      var live := call.loaded.Some? && s.now < call.loaded.value.expiresAt;
      var deletes := call.loaded.Some? && !live && call.grant in s.cache && s.cache[call.grant] == call.loaded.value;
      s.(calls := s.calls - {c},
         cache := if deletes then s.cache - {call.grant} else s.cache,
         lookups := s.lookups + {Lookup(call.grant, live, s.now)})
    case Expire(g) => s.(cache := s.cache - {g})
  }

  ghost predicate IsRun(s: State, steps: seq<Step>)
    decreases |steps|
  {
    steps == [] || (Enabled(s, steps[0]) && IsRun(Apply(s, steps[0]), steps[1..]))
  }

  function After(s: State, steps: seq<Step>): State
    requires IsRun(s, steps)
    decreases |steps|
  {
    if steps == [] then s else After(Apply(s, steps[0]), steps[1..])
  }

  predicate Init(s: State) {
    s.cache == map[] && s.calls == map[] && s.delivered == {} && s.applied == {} && s.lookups == {}
  }

  // -------------------------------------------------------------- invariants

  /** As long as it is unexpired, an expiry is in force for the grant. */
  predicate Held(s: State, g: Grant, expiresAt: Time) {
    expiresAt > s.now ==> g in s.cache && s.cache[g].expiresAt >= expiresAt
  }

  /** Some delivered record for the grant expires exactly then. */
  ghost predicate Backed(s: State, g: Grant, e: Entry) {
    exists r :: r in s.delivered && r.grant == g && r.entry.expiresAt == e.expiresAt
  }

  ghost predicate CallOk(s: State, call: Call) {
    match call
    case Trying(r) => r in s.delivered
    case SawNothing(r) => r in s.delivered
    case Saw(r, current) => r in s.delivered && Held(s, r.grant, current.expiresAt) && Backed(s, r.grant, current)
    case Looking(_, _) => true
  }

  ghost predicate CacheOk(s: State) {
    && s.applied <= s.delivered
    && (forall r :: r in s.applied ==> Held(s, r.grant, r.entry.expiresAt))
    && (forall g :: g in s.cache ==> Backed(s, g, s.cache[g]))
  }

  ghost predicate CallsOk(s: State) {
    forall c :: c in s.calls ==> CallOk(s, s.calls[c])
  }

  /** Some call has the record and is not done with it. */
  ghost predicate UnderWay(s: State, r: Record) {
    exists c :: c in s.calls && !s.calls[c].Looking? && s.calls[c].record == r
  }

  /** What was delivered has been applied or is being applied. */
  ghost predicate DeliveredOk(s: State) {
    forall r :: r in s.delivered ==> r in s.applied || UnderWay(s, r)
  }

  ghost predicate Inv(s: State) {
    CacheOk(s) && CallsOk(s) && DeliveredOk(s)
  }

  /** Nothing in force is ever shortened: it stays in force until it expires. */
  lemma HeldStays(s: State, step: Step, g: Grant, e: Time)
    requires Enabled(s, step) && Held(s, g, e)
    ensures Held(Apply(s, step), g, e)
  {
  }

  lemma BackedStays(s: State, step: Step, g: Grant, e: Entry)
    requires Enabled(s, step) && Backed(s, g, e)
    ensures Backed(Apply(s, step), g, e)
  {
    var r :| r in s.delivered && r.grant == g && r.entry.expiresAt == e.expiresAt;
    assert r in Apply(s, step).delivered;
  }

  lemma CallStays(s: State, step: Step, call: Call)
    requires Enabled(s, step) && CallOk(s, call)
    ensures CallOk(Apply(s, step), call)
  {
    var s' := Apply(s, step);
    assert s.delivered <= s'.delivered && s.applied <= s'.applied && s.now <= s'.now;
    match call
    case Saw(r, current) =>
      HeldStays(s, step, r.grant, current.expiresAt);
      BackedStays(s, step, r.grant, current);
    case _ =>
  }

  lemma StepKeepsCalls(s: State, step: Step)
    requires Inv(s) && Enabled(s, step)
    ensures CallsOk(Apply(s, step))
  {
    var s' := Apply(s, step);
    forall c | c in s'.calls ensures CallOk(s', s'.calls[c]) {
      if c in s.calls && s.calls[c] == s'.calls[c] {
        CallStays(s, step, s.calls[c]);
      } else if c in s.calls {
        assert CallOk(s, s.calls[c]);
      }
    }
  }

  /** A finished apply leaves its record in force. */
  lemma AppliedIsHeld(s: State, step: Step, r: Record)
    requires Inv(s) && Enabled(s, step) && r in Apply(s, step).applied
    ensures Held(Apply(s, step), r.grant, r.entry.expiresAt) && r in Apply(s, step).delivered
  {
    if r in s.applied {
      HeldStays(s, step, r.grant, r.entry.expiresAt);
    } else if step.Swap? {
      assert CallOk(s, s.calls[step.caller]);
    } else if step.LoadOrStore? {
      assert CallOk(s, s.calls[step.caller]);
    }
  }

  lemma CachedIsBacked(s: State, step: Step, g: Grant)
    requires Inv(s) && Enabled(s, step) && g in Apply(s, step).cache
    ensures Backed(Apply(s, step), g, Apply(s, step).cache[g])
  {
    var s' := Apply(s, step);
    if g in s.cache && s.cache[g] == s'.cache[g] {
      BackedStays(s, step, g, s.cache[g]);
    } else {
      var call := s.calls[step.caller];
      assert CallOk(s, call);
      if s'.cache[g].expiresAt == call.record.entry.expiresAt {
        assert call.record in s'.delivered;
      } else {
        BackedStays(s, step, g, call.current);
      }
    }
  }

  lemma StepKeepsCache(s: State, step: Step)
    requires Inv(s) && Enabled(s, step)
    ensures CacheOk(Apply(s, step))
  {
    var s' := Apply(s, step);
    forall r | r in s'.applied ensures Held(s', r.grant, r.entry.expiresAt) && r in s'.delivered {
      AppliedIsHeld(s, step, r);
    }
    forall g | g in s'.cache ensures Backed(s', g, s'.cache[g]) { CachedIsBacked(s, step, g); }
  }

  /** An apply goes on with its record until it is done. */
  lemma UnderWayStays(s: State, step: Step, r: Record)
    requires Enabled(s, step) && UnderWay(s, r)
    ensures r in Apply(s, step).applied || UnderWay(Apply(s, step), r)
  {
    var c :| c in s.calls && !s.calls[c].Looking? && s.calls[c].record == r;
    var s' := Apply(s, step);
    assert r in s'.applied || (c in s'.calls && !s'.calls[c].Looking? && s'.calls[c].record == r);
  }

  lemma StepKeepsDelivered(s: State, step: Step)
    requires DeliveredOk(s) && Enabled(s, step)
    ensures DeliveredOk(Apply(s, step))
  {
    var s' := Apply(s, step);
    forall r | r in s'.delivered ensures r in s'.applied || UnderWay(s', r) {
      if r in s.delivered && r !in s.applied {
        UnderWayStays(s, step, r);
      } else if r !in s.delivered && r !in s'.applied {
        assert s'.calls[step.caller].record == r;
      }
    }
  }

  lemma {:induction false} RunKeepsInv(s: State, steps: seq<Step>)
    requires Inv(s) && IsRun(s, steps)
    ensures Inv(After(s, steps))
    decreases |steps|
  {
    if steps != [] {
      StepKeepsCalls(s, steps[0]);
      StepKeepsCache(s, steps[0]);
      StepKeepsDelivered(s, steps[0]);
      RunKeepsInv(Apply(s, steps[0]), steps[1..]);
    }
  }

  // ----------------------------------------------------- what was delivered

  /** Step `i` of a run delivers a proper record: a tenant and a grant id are
      given, and a time of revocation. */
  predicate DeliversAt(steps: seq<Step>, i: nat, r: Record) {
    && i < |steps| && steps[i].Deliver? && steps[i].record == r
    && r.grant.tenant != "" && r.grant.id != "" && r.entry.revokedAt != 0
  }

  ghost predicate Delivered(steps: seq<Step>, r: Record) {
    exists i: nat :: DeliversAt(steps, i, r)
  }

  /** One step adds what it delivers. */
  lemma StepDelivers(s: State, step: Step, r: Record)
    requires Enabled(s, step)
    ensures r in Apply(s, step).delivered <==> r in s.delivered || DeliversAt([step], 0, r)
  {
  }

  lemma {:induction false} RunDelivers(s: State, steps: seq<Step>, r: Record)
    requires IsRun(s, steps)
    ensures r in After(s, steps).delivered <==> r in s.delivered || Delivered(steps, r)
    decreases |steps|
  {
    if steps != [] {
      StepDelivers(s, steps[0], r);
      RunDelivers(Apply(s, steps[0]), steps[1..], r);
      hide Apply;
      hide Enabled;
      if Delivered(steps[1..], r) {
        var i: nat :| DeliversAt(steps[1..], i, r);
        assert DeliversAt(steps, i + 1, r);
      }
      if DeliversAt([steps[0]], 0, r) { assert DeliversAt(steps, 0, r); }
      if Delivered(steps, r) {
        var i: nat :| DeliversAt(steps, i, r);
        if i > 0 { assert DeliversAt(steps[1..], i - 1, r); } else { assert DeliversAt([steps[0]], 0, r); }
      }
    }
  }

  // ------------------------------------------------------------- the claims

  /** What a lookup made now would answer. */
  predicate Revoked(s: State, g: Grant) {
    g in s.cache && s.now < s.cache[g].expiresAt
  }

  /** Only lookups are under way. */
  predicate Quiet(s: State) {
    forall c :: c in s.calls ==> s.calls[c].Looking?
  }

  /** In every run, with no apply under way, a grant is revoked exactly when some
      step delivered a proper record for it that has not expired. */
  lemma RevokedIffDelivered(start: State, steps: seq<Step>, g: Grant)
    requires Init(start) && IsRun(start, steps)
    requires Quiet(After(start, steps))
    ensures Revoked(After(start, steps), g) <==>
            exists i: nat, r :: DeliversAt(steps, i, r) && r.grant == g && r.entry.expiresAt > After(start, steps).now
  {
    RunKeepsInv(start, steps);
    var s := After(start, steps);
    if Revoked(s, g) {
      assert Backed(s, g, s.cache[g]);
      var r :| r in s.delivered && r.grant == g && r.entry.expiresAt == s.cache[g].expiresAt;
      RunDelivers(start, steps, r);
      var i: nat :| DeliversAt(steps, i, r);
    }
    if exists i: nat, r :: DeliversAt(steps, i, r) && r.grant == g && r.entry.expiresAt > s.now {
      var i: nat, r :| DeliversAt(steps, i, r) && r.grant == g && r.entry.expiresAt > s.now;
      RunDelivers(start, steps, r);
      assert !UnderWay(s, r);
    }
  }

  // ---- lookups, from load to answer

  lemma {:induction false} RunSplits(s: State, steps: seq<Step>, k: nat)
    requires IsRun(s, steps) && k <= |steps|
    ensures IsRun(s, steps[..k]) && IsRun(After(s, steps[..k]), steps[k..])
    ensures After(After(s, steps[..k]), steps[k..]) == After(s, steps)
    decreases |steps|
  {
    hide Enabled;
    hide Apply;
    if k > 0 {
      RunSplits(Apply(s, steps[0]), steps[1..], k - 1);
      assert steps[..k][1..] == steps[1..][..k - 1] && steps[k..] == steps[1..][k - 1..];
    } else {
      assert steps[..0] == [] && steps[0..] == steps;
    }
  }

  /** A lookup that has loaded waits unchanged until it answers, while time goes on. */
  lemma LookingStays(s: State, step: Step, c: Caller)
    requires Enabled(s, step) && c in s.calls && s.calls[c].Looking? && step != Answer(c)
    ensures c in Apply(s, step).calls && Apply(s, step).calls[c] == s.calls[c] && s.now <= Apply(s, step).now
  {
  }

  lemma {:induction false} LookingWaits(s: State, steps: seq<Step>, c: Caller)
    requires IsRun(s, steps) && c in s.calls && s.calls[c].Looking?
    requires forall i :: 0 <= i < |steps| ==> steps[i] != Answer(c)
    ensures var s' := After(s, steps); c in s'.calls && s'.calls[c] == s.calls[c] && s.now <= s'.now
    decreases |steps|
  {
    if steps != [] {
      LookingStays(s, steps[0], c);
      hide Apply;
      hide Enabled;
      assert forall i :: 0 <= i < |steps[1..]| ==> steps[1..][i] == steps[i + 1];
      LookingWaits(Apply(s, steps[0]), steps[1..], c);
    }
  }

  /** What a lookup that loads in `s` and answers at `now` says. */
  ghost predicate Bracketed(s: State, before: seq<Step>, g: Grant, now: Time, answer: bool) {
    && (answer ==> exists i: nat, r :: DeliversAt(before, i, r) && r.grant == g && r.entry.expiresAt > now)
    && (!answer ==> forall i: nat, r :: DeliversAt(before, i, r) && r.grant == g && !UnderWay(s, r) ==> r.entry.expiresAt <= now)
  }

  lemma LoadBrackets(start: State, before: seq<Step>, g: Grant, now: Time)
    requires Init(start) && IsRun(start, before) && After(start, before).now <= now
    ensures var s := After(start, before);
      Bracketed(s, before, g, now, g in s.cache && now < s.cache[g].expiresAt)
  {
    RunKeepsInv(start, before);
    var s := After(start, before);
    if g in s.cache && now < s.cache[g].expiresAt {
      assert Backed(s, g, s.cache[g]);
      var r :| r in s.delivered && r.grant == g && r.entry.expiresAt == s.cache[g].expiresAt;
      RunDelivers(start, before, r);
      var i: nat :| DeliversAt(before, i, r);
    } else {
      forall i: nat, r | DeliversAt(before, i, r) && r.grant == g && !UnderWay(s, r) ensures r.entry.expiresAt <= now {
        RunDelivers(start, before, r);
        assert r in s.applied && Held(s, g, r.entry.expiresAt);
      }
    }
  }

  /** Every lookup, whatever goes on between its load and its answer: it says yes
      only if a proper record that outlives the answer was delivered before it
      loaded, and no only if every such record whose apply had returned by then
      has expired. */
  lemma AnswersAreBracketed(start: State, steps: seq<Step>, j: nat, k: nat, c: Caller, g: Grant) returns (answer: bool)
    requires Init(start) && IsRun(start, steps) && j < k < |steps|
    requires steps[j] == BeginLookup(c, g) && steps[k] == Answer(c)
    requires forall i :: j < i < k ==> steps[i] != Answer(c)
    ensures IsRun(start, steps[..j]) && IsRun(start, steps[..k]) && IsRun(start, steps[..k + 1])
    ensures var now := After(start, steps[..k]).now;
      && Bracketed(After(start, steps[..j]), steps[..j], g, now, answer)
      && After(start, steps[..k + 1]).lookups == After(start, steps[..k]).lookups + {Lookup(g, answer, now)}
  {
    RunSplits(start, steps, k + 1);
    RunSplits(start, steps[..k + 1], k);
    assert steps[..k + 1][..k] == steps[..k] && steps[..k + 1][k..] == [Answer(c)];
    RunSplits(start, steps[..k], j);
    assert steps[..k][..j] == steps[..j];
    var between := steps[..k][j..];
    assert between[0] == BeginLookup(c, g) && forall i :: 0 <= i < |between[1..]| ==> between[1..][i] == steps[j + 1 + i];
    var sj, sk := After(start, steps[..j]), After(start, steps[..k]);
    LookingWaits(Apply(sj, BeginLookup(c, g)), between[1..], c);
    LoadBrackets(start, steps[..j], g, sk.now);
    answer := g in sj.cache && sk.now < sj.cache[g].expiresAt;
    assert [Answer(c)][1..] == [];
    assert After(start, steps[..k + 1]) == Apply(sk, Answer(c));
    hide Bracketed;
    assert After(start, steps[..k + 1]).lookups == sk.lookups + {Lookup(g, answer, sk.now)};
  }

  /** The steps of an apply that nobody interferes with. */
  function Solo(s: State, c: Caller, r: Record): seq<Step> {
    [Deliver(c, r), Load(c), if r.grant in s.cache then Swap(c) else LoadOrStore(c)]
  }

  /** Left alone, an apply of a proper record ends with its third step, and the
      grant is then revoked for at least as long as the record says. */
  lemma SoloApplies(s: State, c: Caller, r: Record)
    requires c !in s.calls && r.entry.expiresAt > s.now
    requires r.grant.tenant != "" && r.grant.id != "" && r.entry.revokedAt != 0
    ensures IsRun(s, Solo(s, c, r))
    ensures var s' := After(s, Solo(s, c, r));
      && s'.calls == s.calls && r.grant in s'.cache && s'.cache[r.grant].expiresAt >= r.entry.expiresAt
      && (forall g :: g != r.grant ==> (g in s'.cache <==> g in s.cache) && (g in s.cache ==> s'.cache[g] == s.cache[g]))
  {
    var steps := Solo(s, c, r);
    var s1 := Apply(s, steps[0]);
    var s2 := Apply(s1, steps[1]);
    var s3 := Apply(s2, steps[2]);
    assert steps[1..] == [steps[1], steps[2]] && steps[1..][1..] == [steps[2]] && steps[1..][1..][1..] == [];
    assert IsRun(s2, [steps[2]]) && After(s2, [steps[2]]) == s3;
    assert IsRun(s1, steps[1..]) && After(s1, steps[1..]) == s3;
    assert s3.calls == s.calls;
  }
}
