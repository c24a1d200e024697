/** The batching audit logger: a bounded queue, a worker's batch, an idempotent
    sink that may commit and still report failure, and spill files replayed later. */
module AuditTrail {

  /** An audit entry, by its unique id. */
  type Entry = int

  predicate InFiles(files: seq<seq<Entry>>, e: Entry) {
    exists i :: 0 <= i < |files| && e in files[i]
  }

  /** What the worker wakes up for: an entry in the queue, or its ticker. */
  datatype Event = Received | Ticked

  /** What became of a batch. */
  datatype Outcome = Nothing | Wrote | Spilt | Dropped

  /** What was logged, and where it went. */
  datatype Ledger = Ledger(
    logged: multiset<Entry>, wrote: multiset<Entry>, spilt: multiset<Entry>, gone: multiset<Entry>)

  /** Each entry logged is written, spilled, dropped, queued or in the batch. */
  predicate Balanced(l: Ledger, queue: seq<Entry>, batch: seq<Entry>) {
    l.logged == l.wrote + l.spilt + l.gone + multiset(queue) + multiset(batch)
  }

  function LogTo(l: Ledger, e: Entry): Ledger {
    l.(logged := l.logged + multiset{e})
  }

  function Drop(l: Ledger, es: seq<Entry>): Ledger {
    l.(gone := l.gone + multiset(es))
  }

  function Spill(l: Ledger, es: seq<Entry>): Ledger {
    l.(spilt := l.spilt + multiset(es))
  }

  function Write(l: Ledger, es: seq<Entry>): Ledger {
    l.(wrote := l.wrote + multiset(es))
  }

  lemma LogBalanced(l: Ledger, queue: seq<Entry>, batch: seq<Entry>, e: Entry)
    requires Balanced(l, queue, batch)
    ensures Balanced(LogTo(l, e), queue + [e], batch)
    ensures Balanced(Drop(LogTo(l, e), [e]), queue, batch)
    ensures Balanced(Spill(LogTo(l, e), [e]), queue, batch)
  {
    assert multiset([e]) == multiset{e};
  }

  lemma TakeBalanced(l: Ledger, queue: seq<Entry>, batch: seq<Entry>)
    requires Balanced(l, queue, batch) && queue != []
    ensures Balanced(l, queue[1..], batch + [queue[0]])
  {
    assert queue == [queue[0]] + queue[1..];
  }

  lemma FlushBalanced(l: Ledger, queue: seq<Entry>, batch: seq<Entry>)
    requires Balanced(l, queue, batch)
    ensures Balanced(Write(l, batch), queue, []) && Balanced(Spill(l, batch), queue, []) && Balanced(Drop(l, batch), queue, [])
  {
  }

  /** What callers and the worker may add while entries wait: nothing is taken
      back, and nothing is written. */
  predicate Later(l: Ledger, l': Ledger) {
    l'.wrote == l.wrote && l.spilt <= l'.spilt && l.gone <= l'.gone
  }

  lemma LaterTwice(l: Ledger, m: Ledger, n: Ledger)
    requires Later(l, m) && Later(m, n)
    ensures Later(l, n)
  {
  }

  lemma LogIsLater(l: Ledger, e: Entry)
    ensures Later(l, LogTo(l, e)) && Later(l, Drop(LogTo(l, e), [e])) && Later(l, Spill(LogTo(l, e), [e]))
  {
  }

  /** What has been logged and what callers are still going to log. */
  function Ahead(l: Ledger, arriving: seq<Entry>): multiset<Entry> {
    l.logged + multiset(arriving)
  }

  lemma ArrivesAhead(l: Ledger, arriving: seq<Entry>)
    requires arriving != []
    ensures Ahead(LogTo(l, arriving[0]), arriving[1..]) == Ahead(l, arriving)
  {
    assert arriving == [arriving[0]] + arriving[1..];
  }

  /** What a batch adds to its column of the ledger, given what callers added to
      the others meanwhile. */
  predicate Settled(l: Ledger, l': Ledger, batch: seq<Entry>, outcome: Outcome) {
    match outcome
    case Nothing => batch == [] && l' == l
    case Wrote => l'.wrote == l.wrote + multiset(batch)
    case Spilt => l'.wrote == l.wrote && l.spilt + multiset(batch) <= l'.spilt
    case Dropped => l'.wrote == l.wrote && l.gone + multiset(batch) <= l'.gone
  }

  lemma NothingSettles(l: Ledger)
    ensures Settled(l, l, [], Nothing)
  {
  }

  lemma WriteSettles(l: Ledger, m: Ledger, n: Ledger, batch: seq<Entry>)
    requires Later(l, m) && Later(Write(m, batch), n)
    ensures Settled(l, n, batch, Wrote)
  {
  }

  lemma SpillSettles(l: Ledger, m: Ledger, batch: seq<Entry>)
    requires Later(l, m)
    ensures Settled(l, Spill(m, batch), batch, Spilt) && Settled(l, Drop(m, batch), batch, Dropped)
  {
  }

  /** The counters count the ledger's columns. */
  predicate Counted(l: Ledger, written: nat, spilled: nat, dropped: nat) {
    written == |l.wrote| && spilled == |l.spilt| && dropped == |l.gone|
  }

  /** A written entry is in the sink; a spilled one is there or in a file. */
  predicate Kept(l: Ledger, sink: set<Entry>, files: seq<seq<Entry>>) {
    && (forall e :: e in l.wrote ==> e in sink)
    && (forall e :: e in l.spilt ==> e in sink || InFiles(files, e))
  }

  lemma DropOk(l: Ledger, sink: set<Entry>, files: seq<seq<Entry>>, w: nat, s: nat, d: nat, es: seq<Entry>)
    requires Counted(l, w, s, d) && Kept(l, sink, files)
    ensures Counted(Drop(l, es), w, s, d + |es|) && Kept(Drop(l, es), sink, files)
  {
  }

  lemma SpillOk(l: Ledger, sink: set<Entry>, files: seq<seq<Entry>>, w: nat, s: nat, d: nat, es: seq<Entry>)
    requires Counted(l, w, s, d) && Kept(l, sink, files)
    ensures Counted(Spill(l, es), w, s + |es|, d) && Kept(Spill(l, es), sink, files + [es])
  {
    SpilledIn(files, es);
  }

  lemma WriteOk(l: Ledger, sink: set<Entry>, sink': set<Entry>, files: seq<seq<Entry>>, w: nat, s: nat, d: nat, es: seq<Entry>)
    requires Counted(l, w, s, d) && Kept(l, sink, files)
    requires sink <= sink' && forall e :: e in es ==> e in sink'
    ensures Counted(Write(l, es), w + |es|, s, d) && Kept(Write(l, es), sink', files)
  {
  }

  lemma LogOk(l: Ledger, sink: set<Entry>, files: seq<seq<Entry>>, e: Entry)
    requires Kept(l, sink, files)
    ensures Kept(LogTo(l, e), sink, files)
  {
  }

  lemma GrownSinkKeeps(l: Ledger, sink: set<Entry>, sink': set<Entry>, files: seq<seq<Entry>>)
    requires Kept(l, sink, files) && sink <= sink'
    ensures Kept(l, sink', files)
  {
  }

  /** Callers log at any time, also while the worker is writing or replaying:
      `arriving` is what they are going to log. */
  class AuditLogger {
    const capacity: nat
    const batchSize: nat
    const spills: bool
    var arriving: seq<Entry>
    var queue: seq<Entry>
    var batch: seq<Entry>
    var stopped: bool
    var sink: set<Entry>
    var files: seq<seq<Entry>>
    var written: nat
    var spilled: nat
    var dropped: nat
    ghost var ledger: Ledger

    ghost predicate Recorded()
      reads this
    {
      Counted(ledger, written, spilled, dropped) && Kept(ledger, sink, files)
    }

    /** What holds whenever a caller may log. */
    ghost predicate Open()
      reads this
    {
      && 0 < batchSize <= capacity
      && |queue| <= capacity && |batch| <= batchSize
      && Balanced(ledger, queue, batch) && Recorded()
    }

    /** What holds between the worker's events. */
    ghost predicate Valid()
      reads this
    {
      Open() && |batch| < batchSize
    }

    constructor (capacity: nat, batchSize: nat, spills: bool, arriving: seq<Entry>)
      requires 0 < batchSize <= capacity
      ensures Valid() && ledger.logged == multiset{} && !stopped && this.arriving == arriving
      ensures this.capacity == capacity && this.batchSize == batchSize && this.spills == spills
      ensures sink == {} && files == [] && queue == [] && batch == []
    {
      this.capacity, this.batchSize, this.spills, this.arriving := capacity, batchSize, spills, arriving;
      queue, batch, stopped := [], [], false;
      sink, files := {}, [];
      written, spilled, dropped := 0, 0, 0;
      ledger := Ledger(multiset{}, multiset{}, multiset{}, multiset{});
    }

    /** All of a batch is inserted or none of it, and inserting what is there
        changes nothing. A failed insert may have committed all the same. */
    method InsertBatch(entries: seq<Entry>, committed: bool, reported: bool) returns (ok: bool)
      modifies this`sink
      ensures ok <==> committed && reported
      ensures sink == if committed then old(sink) + set e | e in entries else old(sink)
      ensures (forall e :: e in entries ==> e in old(sink)) ==> sink == old(sink)
    {
      if committed {
        sink := sink + set e | e in entries;
        assert (forall e :: e in entries ==> e in old(sink)) ==> sink <= old(sink);
      }
      ok := committed && reported;
    }

    /** Spilling fails without a spill store, over quota, or on a file error. */
    method WriteSpill(entries: seq<Entry>, writable: bool) returns (ok: bool)
      modifies this`files
      ensures ok <==> spills && writable
      ensures files == if ok then old(files) + [entries] else old(files)
    {
      ok := spills && writable;
      if ok { files := files + [entries]; }
    }

    method SpillOrDrop(entries: seq<Entry>, writable: bool) returns (ok: bool)
      requires Recorded()
      modifies this`files, this`spilled, this`dropped, this`ledger
      ensures Recorded() && (ok <==> spills && writable)
      ensures ok ==> ledger == Spill(old(ledger), entries) && files == old(files) + [entries]
      ensures !ok ==> ledger == Drop(old(ledger), entries) && files == old(files)
    {
      hide Counted;
      hide Kept;
      DropOk(ledger, sink, files, written, spilled, dropped, entries);
      SpillOk(ledger, sink, files, written, spilled, dropped, entries);
      ok := WriteSpill(entries, writable);
      if ok {
        spilled := spilled + |entries|;
        ledger := Spill(ledger, entries);
      } else {
        dropped := dropped + |entries|;
        ledger := Drop(ledger, entries);
      }
    }

    // --------------------------------------------------------------- callers

    /** An entry is queued if there is room, else spilled or dropped; once the
        logger is stopped it is dropped. */
    method Enqueue(e: Entry, writable: bool)
      requires Open()
      modifies this`queue, this`files, this`dropped, this`spilled, this`ledger
      ensures Open()
      ensures stopped ==> queue == old(queue) && files == old(files) && ledger == Drop(LogTo(old(ledger), e), [e])
      ensures !stopped && |old(queue)| < capacity ==>
                queue == old(queue) + [e] && files == old(files) && ledger == LogTo(old(ledger), e)
      ensures !stopped && |old(queue)| == capacity ==>
                && queue == old(queue)
                && files == (if spills && writable then old(files) + [[e]] else old(files))
                && ledger == (if spills && writable then Spill(LogTo(old(ledger), e), [e]) else Drop(LogTo(old(ledger), e), [e]))
    {
      hide Balanced;
      hide Kept;
      LogBalanced(ledger, queue, batch, e);
      LogOk(ledger, sink, files, e);
      ledger := LogTo(ledger, e);
      DropOk(ledger, sink, files, written, spilled, dropped, [e]);
      if stopped {
        dropped := dropped + 1;
        ledger := Drop(ledger, [e]);
      } else if |queue| < capacity {
        queue := queue + [e];
      } else {
        var ok := SpillOrDrop([e], writable);
      }
    }

    /** An entry that cannot be sealed is dropped and goes nowhere. */
    method Refuse(e: Entry)
      requires Open()
      modifies this`dropped, this`ledger
      ensures Open() && ledger == Drop(LogTo(old(ledger), e), [e])
    {
      hide Balanced;
      hide Kept;
      LogBalanced(ledger, queue, batch, e);
      LogOk(ledger, sink, files, e);
      DropOk(LogTo(ledger, e), sink, files, written, spilled, dropped, [e]);
      dropped := dropped + 1;
      ledger := Drop(LogTo(ledger, e), [e]);
    }

    /** A caller's entry is sealed and queued, or else spilled or dropped. */
    method Log(e: Entry, sealed: bool, writable: bool)
      requires Open()
      modifies this`queue, this`files, this`dropped, this`spilled, this`ledger
      ensures Open() && ledger.logged == old(ledger).logged + multiset{e} && Later(old(ledger), ledger)
      ensures !sealed || stopped ==>
                queue == old(queue) && files == old(files) && ledger == Drop(LogTo(old(ledger), e), [e])
      ensures sealed && !stopped && |old(queue)| < capacity ==>
                queue == old(queue) + [e] && files == old(files) && ledger == LogTo(old(ledger), e)
      ensures sealed && !stopped && |old(queue)| == capacity ==>
                && queue == old(queue)
                && files == (if spills && writable then old(files) + [[e]] else old(files))
                && ledger == (if spills && writable then Spill(LogTo(old(ledger), e), [e]) else Drop(LogTo(old(ledger), e), [e]))
      ensures forall x :: InFiles(old(files), x) ==> InFiles(files, x)
    {
      hide Balanced;
      hide Kept;
      hide Counted;
      hide Later;
      hide InFiles;
      LogIsLater(ledger, e);
      SpilledIn(files, [e]);
      if sealed {
        Enqueue(e, writable);
      } else {
        Refuse(e);
      }
    }

    /** Any number of callers log. */
    method Arrive()
      requires Open()
      modifies this`arriving, this`queue, this`files, this`dropped, this`spilled, this`ledger
      ensures Open() && Ahead(ledger, arriving) == old(Ahead(ledger, arriving)) && Later(old(ledger), ledger)
      ensures stopped ==> queue == old(queue)
      ensures forall x :: InFiles(old(files), x) ==> InFiles(files, x)
    {
      hide Balanced;
      hide Counted;
      hide Kept;
      hide Later;
      hide Ahead;
      hide InFiles;
      LaterSelf(ledger);
      var more: bool := *;
      while more && arriving != []
        invariant Open() && Ahead(ledger, arriving) == old(Ahead(ledger, arriving)) && Later(old(ledger), ledger)
        invariant stopped ==> queue == old(queue)
        invariant forall x :: InFiles(old(files), x) ==> InFiles(files, x)
        decreases |arriving|
      {
        ghost var before := ledger;
        var e := arriving[0];
        var sealed: bool := *;
        var writable: bool := *;
        ArrivesAhead(ledger, arriving);
        arriving := arriving[1..];
        Log(e, sealed, writable);
        SameLogged(LogTo(before, e), ledger, arriving);
        LaterTwice(old(ledger), before, ledger);
        more := *;
      }
    }

    // ---------------------------------------------------------------- worker

    /** Each file is read, inserted and only then removed; the first failure of
        any of these ends the replay. All goes well with the first `good` files. */
    method Replay(good: nat)
      requires Open()
      modifies this`arriving, this`queue, this`sink, this`files, this`dropped, this`spilled, this`ledger
      ensures Open() && Ahead(ledger, arriving) == old(Ahead(ledger, arriving)) && Later(old(ledger), ledger)
      ensures old(sink) <= sink && (stopped ==> queue == old(queue))
      ensures forall e :: InFiles(old(files), e) && !InFiles(files, e) ==> e in sink
      ensures forall i, e :: 0 <= i < good && i < |old(files)| && e in old(files)[i] ==> e in sink
    {
      hide Balanced;
      hide Counted;
      hide Kept;
      hide Later;
      hide Ahead;
      hide InFiles;
      LaterSelf(ledger);
      var todo, left := files, good;
      ghost var done := 0;
      while todo != []
        invariant Open() && Ahead(ledger, arriving) == old(Ahead(ledger, arriving)) && Later(old(ledger), ledger)
        invariant old(sink) <= sink && (stopped ==> queue == old(queue))
        invariant forall e :: InFiles(old(files), e) ==> e in sink || InFiles(files, e)
        invariant 0 <= done <= |old(files)| && todo == old(files)[done..] && left == (if done < good then good - done else 0)
        invariant forall i, e :: 0 <= i < done && e in old(files)[i] ==> e in sink
        decreases |todo|
      {
        var file := todo[0];
        var fine := left > 0;
        var readable: bool := *;
        if !fine && !readable { return; }
        ghost var was := sink;
        var committed: bool := *;
        var reported: bool := *;
        var ok := InsertBatch(file, fine || committed, fine || reported);
        GrownSinkKeeps(ledger, was, sink, files);
        ghost var before := ledger;
        Arrive();
        LaterTwice(old(ledger), before, ledger);
        if !ok { return; }
        var removed: bool := *;
        if !fine && !removed { return; }
        RemovalKeeps(ledger, sink, files, file);
        files := Without(files, file);
        todo := todo[1..];
        done := done + 1;
        left := if left > 0 then left - 1 else 0;
      }
    }

    /** The batch counts as written, and is the worker's own to empty: nobody can
        tell whether that happens before the replay or after it. */
    method CountWritten()
      requires Open() && forall e :: e in batch ==> e in sink
      modifies this`batch, this`written, this`ledger
      ensures Open() && batch == [] && ledger == Write(old(ledger), old(batch))
    {
      hide Balanced;
      hide Counted;
      hide Kept;
      FlushBalanced(ledger, queue, batch);
      WriteOk(ledger, sink, sink, files, written, spilled, dropped, batch);
      written := written + |batch|;
      ledger := Write(ledger, batch);
      batch := [];
    }

    method SpillBatch(writable: bool) returns (ok: bool)
      requires Open()
      modifies this`batch, this`files, this`spilled, this`dropped, this`ledger
      ensures Open() && batch == [] && (ok <==> spills && writable)
      ensures ledger == if ok then Spill(old(ledger), old(batch)) else Drop(old(ledger), old(batch))
    {
      hide Balanced;
      hide Counted;
      hide Kept;
      FlushBalanced(ledger, queue, batch);
      ok := SpillOrDrop(batch, writable);
      batch := [];
    }

    /** A batch is written, spilled or dropped, and always as a whole: written if
        its insert commits and says so, else spilled if there is a store that takes
        it, and else dropped. */
    method Flush(committed: bool, reported: bool, writable: bool) returns (outcome: Outcome)
      requires Open()
      modifies this`arriving, this`queue, this`batch, this`sink, this`files
      modifies this`written, this`spilled, this`dropped, this`ledger
      ensures Valid() && batch == [] && Ahead(ledger, arriving) == old(Ahead(ledger, arriving))
      ensures Settled(old(ledger), ledger, old(batch), outcome) && (stopped ==> queue == old(queue))
      ensures committed ==> forall e :: e in old(batch) ==> e in sink
      ensures outcome == if old(batch) == [] then Nothing else if committed && reported then Wrote
                         else if spills && writable then Spilt else Dropped
    {
      hide Balanced;
      hide Counted;
      hide Kept;
      hide Later;
      hide Ahead;
      hide InFiles;
      NothingSettles(ledger);
      hide Settled;
      if batch == [] { return Nothing; }
      var ok := InsertBatch(batch, committed, reported);
      GrownSinkKeeps(ledger, old(sink), sink, files);
      Arrive();
      ghost var met := ledger;
      if !ok {
        SpillSettles(old(ledger), met, batch);
        var kept := SpillBatch(writable);
        SameLogged(met, ledger, arriving);
        outcome := if kept then Spilt else Dropped;
      } else {
        CountWritten();
        SameLogged(met, ledger, arriving);
        var good: nat := *;
        Replay(good);
        WriteSettles(old(ledger), met, ledger, old(batch));
        outcome := Wrote;
      }
    }

    method Receive()
      requires Valid() && queue != []
      modifies this`arriving, this`queue, this`batch, this`sink, this`files
      modifies this`written, this`spilled, this`dropped, this`ledger
      ensures Valid() && Ahead(ledger, arriving) == old(Ahead(ledger, arriving))
      ensures stopped ==> queue == old(queue)[1..]
    {
      hide Balanced;
      TakeBalanced(ledger, queue, batch);
      batch := batch + [queue[0]];
      queue := queue[1..];
      if |batch| == batchSize {
        var committed: bool := *;
        var reported: bool := *;
        var writable: bool := *;
        var outcome := Flush(committed, reported, writable);
      }
    }

    /** The worker, whatever the callers do around it and inside it. */
    method RunBatchWorker(events: seq<Event>)
      requires Valid() && !stopped
      modifies this
      ensures Valid() && stopped == old(stopped)
      ensures Ahead(ledger, arriving) == old(Ahead(ledger, arriving))
      ensures events != [] && events[|events| - 1].Ticked? ==> batch == []
    {
      hide Balanced;
      hide Ahead;
      var good: nat := *;
      Replay(good);
      var i := 0;
      while i < |events|
        invariant 0 <= i <= |events| && Valid() && stopped == old(stopped)
        invariant i > 0 && events[i - 1].Ticked? ==> batch == []
        invariant Ahead(ledger, arriving) == old(Ahead(ledger, arriving))
      {
        Arrive();
        match events[i] {
          case Received => if queue != [] { Receive(); }
          case Ticked =>
            good := *;
            Replay(good);
            var committed: bool := *;
            var reported: bool := *;
            var writable: bool := *;
            var outcome := Flush(committed, reported, writable);
        }
        i := i + 1;
      }
    }

    /** Stopping a running worker leaves nothing queued or in the batch: every
        entry ever logged was dropped, or is in the sink or a spill file. */
    method Stop()
      requires Valid()
      modifies this
      ensures Valid() && stopped && queue == [] && batch == []
      ensures Ahead(ledger, arriving) == old(Ahead(ledger, arriving))
      ensures |ledger.logged| == written + spilled + dropped
      ensures forall e :: e in ledger.logged ==> e in ledger.gone || e in sink || InFiles(files, e)
    {
      stopped := true;
      while queue != []
        invariant Valid() && stopped && Ahead(ledger, arriving) == old(Ahead(ledger, arriving))
        decreases |queue|
      {
        Arrive();
        Receive();
      }
      var committed: bool := *;
      var reported: bool := *;
      var writable: bool := *;
      var outcome := Flush(committed, reported, writable);
      StoppedBalance(ledger);
    }
  }

  /** In every state the counters and the two buffers account for what was logged. */
  lemma CountsConserved(l: Ledger, queue: seq<Entry>, batch: seq<Entry>, w: nat, s: nat, d: nat)
    requires Balanced(l, queue, batch) && Counted(l, w, s, d)
    ensures |l.logged| == w + s + d + |queue| + |batch|
  {
    var counted := l.wrote + l.spilt + l.gone;
    assert |counted| == w + s + d;
    assert l.logged == counted + multiset(queue) + multiset(batch);
  }

  lemma StoppedBalance(l: Ledger)
    requires Balanced(l, [], [])
    ensures |l.logged| == |l.wrote| + |l.spilt| + |l.gone|
    ensures forall e :: e in l.logged ==> e in l.gone || e in l.wrote || e in l.spilt
  {
    assert l.logged == l.wrote + l.spilt + l.gone;
  }

  lemma LaterSelf(l: Ledger)
    ensures Later(l, l)
  {
  }

  lemma SameLogged(l: Ledger, m: Ledger, arriving: seq<Entry>)
    requires l.logged == m.logged
    ensures Ahead(l, arriving) == Ahead(m, arriving)
  {
  }

  /** A file whose entries are all in the sink can go. */
  lemma RemovalKeeps(l: Ledger, sink: set<Entry>, files: seq<seq<Entry>>, file: seq<Entry>)
    requires Kept(l, sink, files) && forall e :: e in file ==> e in sink
    ensures Kept(l, sink, Without(files, file))
    ensures forall e :: InFiles(files, e) ==> e in sink || InFiles(Without(files, file), e)
  {
    forall e | InFiles(files, e) && !InFiles(Without(files, file), e) ensures e in file { RemovedOnly(files, file, e); }
  }

  /** The directory without one file. */
  function Without(files: seq<seq<Entry>>, file: seq<Entry>): seq<seq<Entry>> {
    if files == [] then []
    else if files[0] == file then files[1..]
    else [files[0]] + Without(files[1..], file)
  }

  lemma SpilledIn(files: seq<seq<Entry>>, entries: seq<Entry>)
    ensures forall e :: e in entries ==> InFiles(files + [entries], e)
    ensures forall e :: InFiles(files, e) ==> InFiles(files + [entries], e)
  {
    var more := files + [entries];
    assert more[|files|] == entries;
    forall e | InFiles(files, e) ensures InFiles(more, e) {
      var i :| 0 <= i < |files| && e in files[i];
      assert more[i] == files[i];
    }
  }

  lemma {:induction false} RemovedOnly(files: seq<seq<Entry>>, file: seq<Entry>, e: Entry)
    requires InFiles(files, e) && !InFiles(Without(files, file), e)
    ensures e in file
    decreases |files|
  {
    var rest := Without(files, file);
    var i :| 0 <= i < |files| && e in files[i];
    if files[0] == file {
      assert forall k :: 0 <= k < |rest| ==> rest[k] == files[k + 1];
    } else {
      assert rest[0] == files[0] && rest[1..] == Without(files[1..], file);
      assert i > 0 && files[1..][i - 1] == files[i];
      assert forall k :: 0 <= k < |rest[1..]| ==> rest[1..][k] == rest[k + 1];
      RemovedOnly(files[1..], file, e);
    }
  }
}
