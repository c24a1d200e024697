/** From the durable revocation table to the cache: LISTEN before the snapshot,
    queued notifications, lost connections and the readiness flag.

    The table's database and the process that holds the cache have a clock each;
    neither ever goes back, and nothing else is known of them. */
module RevocationFeed {
  type Time = int
  type Grant = int

  datatype Record = Record(grant: Grant, expiresAt: Time)

  /** The watcher's progress; todo is the part of the snapshot not yet applied. */
  datatype Phase = Idle | Listening | Loading(todo: seq<Record>) | Watching

  datatype State = State(
    now: Time,
    dbNow: Time,
    table: map<Grant, Time>,
    cache: map<Grant, Time>,
    phase: Phase,
    alive: bool,
    queue: seq<Record>,
    ready: bool,
    lost: set<Record>)

  datatype Step =
    | Tick(to: Time)
    | DbTick(to: Time)
    | Persist(record: Record)
    | Listen
    | Query(rows: seq<Record>)
    | ApplyRow
    | SetReady
    | OnEvent
    | Disconnect
    | NoticeLoss
    | Expire(grant: Grant)

  function Later(m: map<Grant, Time>, g: Grant, e: Time): Time {
    if g in m && m[g] > e then m[g] else e
  }

  /** The table never shortens a revocation; the merged row is what is notified. */
  function Persisted(table: map<Grant, Time>, r: Record): Record {
    Record(r.grant, Later(table, r.grant, r.expiresAt))
  }

  /** Applying to the cache; an expired record is refused. */
  function Applied(s: State, r: Record): map<Grant, Time> {
    if r.expiresAt <= s.now then s.cache else s.cache[r.grant := Later(s.cache, r.grant, r.expiresAt)]
  }

  /** The rows of a snapshot query: the revocations the database finds unexpired. */
  predicate ActiveRows(s: State, rows: seq<Record>) {
    && (forall g :: g in s.table && s.table[g] > s.dbNow ==> Record(g, s.table[g]) in rows)
    && (forall r :: r in rows ==> r.grant in s.table && r.expiresAt == s.table[r.grant] && r.expiresAt > s.dbNow)
  }

  predicate Enabled(s: State, step: Step) {
    match step
    case Tick(to) => s.now <= to
    case DbTick(to) => s.dbNow <= to
    case Persist(_) => true
    case Listen => s.phase.Idle?
    case Query(rows) => s.phase.Listening? && s.alive && ActiveRows(s, rows)
    case ApplyRow => s.phase.Loading? && s.phase.todo != []
    case SetReady => s.phase.Loading? && s.phase.todo == []
    case OnEvent => s.phase.Watching? && s.alive && s.queue != []
    case Disconnect => !s.phase.Idle? && s.alive
    case NoticeLoss => !s.phase.Idle? && !s.alive
    case Expire(g) => g in s.cache && s.cache[g] <= s.now
  }

  function Apply(s: State, step: Step): State
    requires Enabled(s, step)
  {
    match step
    case Tick(to) => s.(now := to)
    case DbTick(to) => s.(dbNow := to)
    case Persist(r) =>
      var p := Persisted(s.table, r);
      var s' := s.(table := s.table[r.grant := p.expiresAt]);
      if s.phase.Idle? then s'
      else if s.alive then s'.(queue := s.queue + [p])
      else s'.(lost := s.lost + {p})
    case Listen => s.(phase := Listening, alive := true, queue := [], lost := {})
    case Query(rows) => s.(phase := Loading(rows))
    case ApplyRow => s.(phase := Loading(s.phase.todo[1..]), cache := Applied(s, s.phase.todo[0]))
    case SetReady => s.(phase := Watching, ready := true)
    case OnEvent => s.(queue := s.queue[1..], cache := Applied(s, s.queue[0]))
    case Disconnect => s.(alive := false, lost := s.lost + (set r | r in s.queue), queue := [])
    case NoticeLoss => s.(phase := Idle, ready := false)
    case Expire(g) => s.(cache := s.cache - {g})
  }

  ghost predicate IsRun(s: State, steps: seq<Step>)
    decreases |steps|
  {
    steps == [] || (Enabled(s, steps[0]) && IsRun(Apply(s, steps[0]), steps[1..]))
  }

  function After(s: State, steps: seq<Step>): State
    requires IsRun(s, steps)
    decreases |steps|
  {
    if steps == [] then s else After(Apply(s, steps[0]), steps[1..])
  }

  predicate Init(s: State) {
    s.phase.Idle? && !s.ready && !s.alive && s.queue == [] && s.cache == map[] && s.lost == {}
  }

  // -------------------------------------------------------------- invariants

  /** An expiry that neither clock has reached is in force. */
  predicate Held(s: State, g: Grant, e: Time) {
    e > s.now && e > s.dbNow ==> g in s.cache && s.cache[g] >= e
  }

  predicate Pending(rs: seq<Record>, g: Grant, e: Time) {
    exists i :: 0 <= i < |rs| && rs[i].grant == g && rs[i].expiresAt >= e
  }

  ghost predicate Missed(s: State, g: Grant, e: Time) {
    exists r :: r in s.lost && r.grant == g && r.expiresAt >= e
  }

  /** A revocation is in the cache, on its way there, or was lost with a connection. */
  ghost predicate Accounted(s: State, g: Grant, e: Time) {
    || Held(s, g, e) || Pending(s.queue, g, e) || Missed(s, g, e)
    || (s.phase.Loading? && Pending(s.phase.todo, g, e))
  }

  ghost predicate Inv(s: State) {
    && (s.ready ==> s.phase.Watching?)
    && (s.alive ==> s.lost == {})
    && (!s.alive ==> s.queue == [])
    && (s.phase.Loading? || s.phase.Watching? ==> forall g :: g in s.table ==> Accounted(s, g, s.table[g]))
  }

  lemma PendingTail(rs: seq<Record>, g: Grant, e: Time)
    requires rs != [] && Pending(rs, g, e)
    ensures Pending(rs[1..], g, e) || (rs[0].grant == g && rs[0].expiresAt >= e)
  {
    var i :| 0 <= i < |rs| && rs[i].grant == g && rs[i].expiresAt >= e;
    if i > 0 { assert rs[1..][i - 1] == rs[i]; }
  }

  lemma PendingAppend(rs: seq<Record>, r: Record, g: Grant, e: Time)
    ensures Pending(rs, g, e) ==> Pending(rs + [r], g, e)
    ensures r.grant == g && r.expiresAt >= e ==> Pending(rs + [r], g, e)
  {
    if Pending(rs, g, e) {
      var i :| 0 <= i < |rs| && rs[i].grant == g && rs[i].expiresAt >= e;
      assert (rs + [r])[i] == rs[i];
    }
    assert (rs + [r])[|rs|] == r;
  }

  /** What is accounted for stays so, except that a new connection forgets losses. */
  lemma AccountedStays(s: State, step: Step, g: Grant, e: Time)
    requires Enabled(s, step) && Accounted(s, g, e) && !step.NoticeLoss?
    requires s.phase.Loading? || s.phase.Watching?
    ensures Accounted(Apply(s, step), g, e)
  {
    var s' := Apply(s, step);
    if Held(s, g, e) {
      assert Held(s', g, e);
    } else if Missed(s, g, e) {
      var r :| r in s.lost && r.grant == g && r.expiresAt >= e;
      assert r in s'.lost;
    } else if s.phase.Loading? && Pending(s.phase.todo, g, e) {
      if step.ApplyRow? { PendingTail(s.phase.todo, g, e); }
    } else {
      QueuedStays(s, step, g, e);
    }
  }

  lemma QueuedStays(s: State, step: Step, g: Grant, e: Time)
    requires Enabled(s, step) && Pending(s.queue, g, e) && !step.NoticeLoss?
    requires s.phase.Loading? || s.phase.Watching?
    ensures Accounted(Apply(s, step), g, e)
  {
    match step
    case Persist(r) => PendingAppend(s.queue, Persisted(s.table, r), g, e);
    case OnEvent => PendingTail(s.queue, g, e);
    case Disconnect =>
      var i :| 0 <= i < |s.queue| && s.queue[i].grant == g && s.queue[i].expiresAt >= e;
      assert s.queue[i] in Apply(s, step).lost;
    case _ =>
  }

  lemma PersistAccounted(s: State, r: Record)
    requires s.phase.Loading? || s.phase.Watching?
    ensures var s' := Apply(s, Persist(r)); Accounted(s', r.grant, s'.table[r.grant])
  {
    var p := Persisted(s.table, r);
    var s' := Apply(s, Persist(r));
    PendingAppend(s.queue, p, r.grant, p.expiresAt);
    if !s.alive { assert p in s'.lost; }
  }

  lemma QueryAccounted(s: State, rows: seq<Record>, g: Grant)
    requires Enabled(s, Query(rows)) && g in s.table
    ensures Accounted(Apply(s, Query(rows)), g, s.table[g])
  {
    if s.table[g] > s.dbNow {
      var i :| 0 <= i < |rows| && rows[i] == Record(g, s.table[g]);
    }
  }

  lemma StepKeepsInv(s: State, step: Step)
    requires Inv(s) && Enabled(s, step)
    ensures Inv(Apply(s, step))
  {
    var s' := Apply(s, step);
    if s'.phase.Loading? || s'.phase.Watching? {
      forall g | g in s'.table ensures Accounted(s', g, s'.table[g]) {
        if step.Query? {
          QueryAccounted(s, step.rows, g);
        } else if step.Persist? && step.record.grant == g {
          PersistAccounted(s, step.record);
        } else {
          AccountedStays(s, step, g, s.table[g]);
        }
      }
    }
  }

  lemma {:induction false} RunKeepsInv(s: State, steps: seq<Step>)
    requires Inv(s) && IsRun(s, steps)
    ensures Inv(After(s, steps))
    decreases |steps|
  {
    if steps != [] {
      StepKeepsInv(s, steps[0]);
      RunKeepsInv(Apply(s, steps[0]), steps[1..]);
    }
  }

  // ------------------------------------------------------------- the claims

  /** A committed revocation that has not expired is in force or still queued. */
  predicate Covered(s: State, g: Grant)
    requires g in s.table
  {
    Held(s, g, s.table[g]) || Pending(s.queue, g, s.table[g])
  }

  /** While ready over a live connection, every committed revocation is covered. */
  lemma ReadyCovers(start: State, steps: seq<Step>, g: Grant)
    requires Init(start) && IsRun(start, steps)
    requires After(start, steps).ready && After(start, steps).alive && g in After(start, steps).table
    ensures Covered(After(start, steps), g)
  {
    RunKeepsInv(start, steps);
  }

  /** While ready, a revocation is uncovered exactly when its notification was
      lost with a connection whose loss has not been noticed, and nothing in
      force lasts as long. */
  lemma UncoveredExactly(start: State, steps: seq<Step>, g: Grant)
    requires Init(start) && IsRun(start, steps)
    requires After(start, steps).ready && g in After(start, steps).table
    ensures var s := After(start, steps);
      !Covered(s, g) <==> !s.alive && Missed(s, g, s.table[g]) && !Held(s, g, s.table[g])
  {
    RunKeepsInv(start, steps);
  }

  /** Readiness alone is not enough: between a connection's loss and its being
      noticed, a new revocation is neither applied nor queued. */
  lemma LossBeforeNotice(start: State, g: Grant) returns (steps: seq<Step>)
    requires start == State(0, 0, map[], map[], Idle, false, [], false, {})
    ensures Init(start) && IsRun(start, steps) && After(start, steps).ready
    ensures g in After(start, steps).table && !Covered(After(start, steps), g)
  {
    var s1 := Apply(start, Listen);
    var s2 := Apply(s1, Query([]));
    var s3 := Apply(s2, SetReady);
    var s4 := Apply(s3, Disconnect);
    steps := [Persist(Record(g, 9))];
    assert steps[1..] == [] && After(s4, steps) == Apply(s4, Persist(Record(g, 9)));
    steps := RunCons(s3, Disconnect, steps);
    steps := RunCons(s2, SetReady, steps);
    steps := RunCons(s1, Query([]), steps);
    steps := RunCons(start, Listen, steps);
  }

  lemma RunCons(s: State, step: Step, steps: seq<Step>) returns (longer: seq<Step>)
    requires Enabled(s, step) && IsRun(Apply(s, step), steps)
    ensures IsRun(s, longer) && After(s, longer) == After(Apply(s, step), steps)
  {
    longer := [step] + steps;
    assert longer[1..] == steps;
  }

  // ------------------------------------------------------- what was committed

  predicate PersistsAt(steps: seq<Step>, i: nat, r: Record) {
    i < |steps| && steps[i] == Persist(r)
  }

  /** What the table holds lasts as long as anything committed for the grant. */
  lemma {:induction false} TableKeeps(s: State, steps: seq<Step>, i: nat, r: Record)
    requires IsRun(s, steps) && PersistsAt(steps, i, r)
    ensures var table := After(s, steps).table; r.grant in table && table[r.grant] >= r.expiresAt
    decreases |steps|
  {
    if i == 0 {
      TableGrows(Apply(s, steps[0]), steps[1..], r.grant, r.expiresAt);
    } else {
      assert PersistsAt(steps[1..], i - 1, r);
      TableKeeps(Apply(s, steps[0]), steps[1..], i - 1, r);
    }
  }

  lemma {:induction false} TableGrows(s: State, steps: seq<Step>, g: Grant, e: Time)
    requires IsRun(s, steps) && g in s.table && s.table[g] >= e
    ensures var table := After(s, steps).table; g in table && table[g] >= e
    decreases |steps|
  {
    if steps != [] { TableGrows(Apply(s, steps[0]), steps[1..], g, e); }
  }

  /** And it holds nothing else: each entry was there at the start or was committed
      with exactly that end. */
  lemma {:induction false} TableIsCommitted(s: State, steps: seq<Step>, g: Grant)
    requires IsRun(s, steps) && g in After(s, steps).table
    ensures var e := After(s, steps).table[g];
      (g in s.table && s.table[g] == e) || exists i: nat :: PersistsAt(steps, i, Record(g, e))
    decreases |steps|
  {
    if steps != [] {
      var e := After(s, steps).table[g];
      TableIsCommitted(Apply(s, steps[0]), steps[1..], g);
      if i: nat :| PersistsAt(steps[1..], i, Record(g, e)) {
        assert PersistsAt(steps, i + 1, Record(g, e));
      } else if !(g in s.table && s.table[g] == e) {
        assert PersistsAt(steps, 0, Record(g, e));
      }
    }
  }

  /** While ready over a live connection, whatever was committed and has not run
      out by either clock is in force for at least as long, or queued. */
  lemma CommittedIsCovered(start: State, steps: seq<Step>, i: nat, r: Record)
    requires Init(start) && IsRun(start, steps) && PersistsAt(steps, i, r)
    requires var s := After(start, steps); s.ready && s.alive && r.expiresAt > s.now && r.expiresAt > s.dbNow
    ensures var s := After(start, steps);
      (r.grant in s.cache && s.cache[r.grant] >= r.expiresAt) || Pending(s.queue, r.grant, r.expiresAt)
  {
    TableKeeps(start, steps, i, r);
    ReadyCovers(start, steps, r.grant);
  }

  /** No record on its way, and none in the cache, outlasts the table. */
  ghost predicate Sourced(s: State) {
    && (forall i :: 0 <= i < |s.queue| ==> Below(s.table, s.queue[i].grant, s.queue[i].expiresAt))
    && (s.phase.Loading? ==>
          forall i :: 0 <= i < |s.phase.todo| ==> Below(s.table, s.phase.todo[i].grant, s.phase.todo[i].expiresAt))
    && (forall g :: g in s.cache ==> Below(s.table, g, s.cache[g]))
  }

  predicate Below(table: map<Grant, Time>, g: Grant, e: Time) {
    g in table && e <= table[g]
  }

  lemma BelowStays(s: State, step: Step, g: Grant, e: Time)
    requires Enabled(s, step) && Below(s.table, g, e)
    ensures Below(Apply(s, step).table, g, e)
  {
  }

  lemma StepKeepsSourced(s: State, step: Step)
    requires Enabled(s, step) && Sourced(s)
    ensures Sourced(Apply(s, step))
  {
    var s' := Apply(s, step);
    forall g, e | Below(s.table, g, e) ensures Below(s'.table, g, e) { BelowStays(s, step, g, e); }
    if step.Query? {
      forall i | 0 <= i < |step.rows| ensures Below(s.table, step.rows[i].grant, step.rows[i].expiresAt) {
        assert step.rows[i] in step.rows;
      }
    }
  }

  lemma {:induction false} RunKeepsSourced(s: State, steps: seq<Step>)
    requires IsRun(s, steps) && Sourced(s)
    ensures Sourced(After(s, steps))
    decreases |steps|
  {
    if steps != [] {
      StepKeepsSourced(s, steps[0]);
      RunKeepsSourced(Apply(s, steps[0]), steps[1..]);
    }
  }

  /** Nothing is revoked that was not: what the cache holds for a grant, the table
      held at the start or a commit has put there, for at least as long. */
  lemma CachedWasCommitted(start: State, steps: seq<Step>, g: Grant)
    requires Init(start) && IsRun(start, steps) && g in After(start, steps).cache
    ensures var e := After(start, steps).cache[g];
      || (g in start.table && start.table[g] >= e)
      || exists i: nat, r :: PersistsAt(steps, i, r) && r.grant == g && r.expiresAt >= e
  {
    RunKeepsSourced(start, steps);
    TableIsCommitted(start, steps, g);
  }
}
