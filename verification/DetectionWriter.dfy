/**
 * DetectionDb's asynchronous writer: any number of threads push, one worker takes batches, hands them
 * to flush(), and drains the queue when the destructor stops it. Each step is one critical section,
 * one flush or one flag access, so a run is any interleaving.
 */
module DetectionWriter {
  import opened Prelude
  import opened SignalTable

  datatype Pc = LoopHead | Taking | Flushing | Draining | FinalFlush | Done

  /** handed holds the batches given to flush() so far, committed whether each one's transaction went through. */
  datatype State = State(
    pc: Pc, queue: seq<Detection>, batch: seq<Detection>, stopped: bool,
    handed: seq<seq<Detection>>, committed: seq<bool>, table: seq<Row>)

  /** A flush either commits, turning the table into the given one, or throws and changes nothing. */
  datatype FlushResult = Committed(now: int, table: seq<Row>) | Threw

  datatype Action = Push(d: Detection) | Stop | Worker(result: FlushResult)

  function Room(batchSize: int, s: State): nat {
    Min(|s.queue|, Max(0, batchSize - |s.batch|))
  }

  function HandOver(s: State, r: FlushResult, pc: Pc): State {
    s.(pc := pc, batch := [], handed := s.handed + [s.batch], committed := s.committed + [r.Committed?],
       table := if r.Committed? then r.table else s.table)
  }

  function WorkerStep(batchSize: int, s: State, r: FlushResult): State {
    match s.pc
    case LoopHead => s.(pc := if s.stopped then Draining else Taking)
    case Taking =>
      var n := Room(batchSize, s);
      var batch := s.batch + s.queue[..n];
      s.(batch := batch, queue := s.queue[n..], pc := if batch == [] then LoopHead else Flushing)
    case Flushing => HandOver(s, r, LoopHead)
    case Draining =>
      var batch := s.batch + s.queue;
      s.(batch := batch, queue := [], pc := if batch == [] then Done else FinalFlush)
    case FinalFlush => HandOver(s, r, Done)
    case Done => s
  }

  function Step(batchSize: int, s: State, a: Action): State {
    match a
    case Push(d) => s.(queue := s.queue + [d])
    case Stop => s.(stopped := true)
    case Worker(r) => WorkerStep(batchSize, s, r)
  }

  function Started(table: seq<Row>): State {
    State(LoopHead, [], [], false, [], [], table)
  }

  // ---------- The code's own loops ----------

  class Writer {
    const batchSize: int
    var queue: seq<Detection>
    var batch: seq<Detection>
    var stopped: bool
    /** Where the worker is, and what its flushes have done so far. */
    ghost var pc: Pc
    ghost var handed: seq<seq<Detection>>
    ghost var committed: seq<bool>
    ghost var table: seq<Row>

    ghost function Snapshot(): State
      reads this
    {
      State(pc, queue, batch, stopped, handed, committed, table)
    }

    constructor (batchSize: int, ghost table: seq<Row>)
      ensures this.batchSize == batchSize && Snapshot() == Started(table)
    {
      this.batchSize := batchSize;
      queue, batch, stopped := [], [], false;
      pc, handed, committed, this.table := LoopHead, [], [], table;
    }

    /** push(): under the mutex. */
    method Enqueue(d: Detection)
      modifies this
      ensures Snapshot() == Step(batchSize, old(Snapshot()), Push(d))
    {
      queue := queue + [d];
    }

    /** The destructor's write of the flag. */
    method Stop()
      modifies this
      ensures Snapshot() == Step(batchSize, old(Snapshot()), Action.Stop)
    {
      stopped := true;
    }

    /** The worker's loop condition. */
    method TestStopped() returns (done: bool)
      requires pc.LoopHead?
      modifies this
      ensures Snapshot() == WorkerStep(batchSize, old(Snapshot()), Threw) && done == pc.Draining?
    {
      done := stopped;
      pc := if stopped then Draining else Taking;
    }

    /** The worker's critical section: move detections while the batch has room. */
    method TakeBatch()
      requires pc.Taking?
      modifies this
      ensures Snapshot() == WorkerStep(batchSize, old(Snapshot()), Threw)
    {
      ghost var k := 0;
      while queue != [] && |batch| < batchSize
        invariant k <= |old(queue)| && queue == old(queue)[k..] && batch == old(batch) + old(queue)[..k]
        invariant k > 0 ==> |batch| <= batchSize
        invariant Snapshot() == old(Snapshot()).(queue := queue, batch := batch)
        decreases |queue|
      {
        batch := batch + [queue[0]];
        queue := queue[1..];
        k := k + 1;
      }
      pc := if batch == [] then LoopHead else Flushing;
    }

    /** The drain on shutdown: everything, whatever the batch size. */
    method Drain()
      requires pc.Draining?
      modifies this
      ensures Snapshot() == WorkerStep(batchSize, old(Snapshot()), Threw)
    {
      ghost var k := 0;
      while queue != []
        invariant k <= |old(queue)| && queue == old(queue)[k..] && batch == old(batch) + old(queue)[..k]
        invariant Snapshot() == old(Snapshot()).(queue := queue, batch := batch)
        decreases |queue|
      {
        batch := batch + [queue[0]];
        queue := queue[1..];
        k := k + 1;
      }
      pc := if batch == [] then Done else FinalFlush;
    }

    /** After a flush, whether its transaction went through or threw: the batch is dropped. */
    method ClearBatch(ghost result: FlushResult)
      requires pc.Flushing? || pc.FinalFlush?
      modifies this
      ensures Snapshot() == WorkerStep(batchSize, old(Snapshot()), result)
    {
      handed, committed := handed + [batch], committed + [result.Committed?];
      if result.Committed? {
        table := result.table;
      }
      batch := [];
      pc := if pc.Flushing? then LoopHead else Done;
    }
  }

  // ---------- Runs ----------

  function Run(batchSize: int, table: seq<Row>, actions: seq<Action>): State {
    if actions == [] then Started(table)
    else Step(batchSize, Run(batchSize, table, actions[..|actions| - 1]), actions[|actions| - 1])
  }

  /** Everything pushed, in order. */
  function Pushed(actions: seq<Action>): seq<Detection> {
    if actions == [] then []
    else
      var last := actions[|actions| - 1];
      Pushed(actions[..|actions| - 1]) + if last.Push? then [last.d] else []
  }

  /** Everything a state accounts for: handed over, in hand, and waiting. */
  function Line(s: State): seq<Detection> {
    Flatten(s.handed) + s.batch + s.queue
  }

  lemma Regroup<T>(f: seq<T>, b: seq<T>, q: seq<T>, n: nat)
    requires n <= |q|
    ensures f + (b + q[..n]) + q[n..] == f + b + q
  {
    assert q[..n] + q[n..] == q;
  }

  lemma WorkerConserves(batchSize: int, s: State, r: FlushResult)
    ensures Line(WorkerStep(batchSize, s, r)) == Line(s)
  {
    hide Flatten;
    match s.pc
    case LoopHead =>
    case Taking => Regroup(Flatten(s.handed), s.batch, s.queue, Room(batchSize, s));
    case Flushing => FlattenSnoc(s.handed, s.batch);
    case Draining => Regroup(Flatten(s.handed), s.batch, s.queue, |s.queue|);
    case FinalFlush => FlattenSnoc(s.handed, s.batch);
    case Done =>
  }

  lemma StepConserves(batchSize: int, s: State, a: Action)
    ensures Line(Step(batchSize, s, a)) == Line(s) + if a.Push? then [a.d] else []
  {
    if a.Worker? {
      WorkerConserves(batchSize, s, a.result);
    }
    hide Flatten, WorkerStep;
  }

  /** Nothing is lost, duplicated or reordered, wherever the worker stands. */
  lemma {:induction false} QueueConserved(batchSize: int, table: seq<Row>, actions: seq<Action>)
    ensures
      var s := Run(batchSize, table, actions);
      Flatten(s.handed) + s.batch + s.queue == Pushed(actions)
  {
    if actions == [] {
    } else {
      var m := |actions| - 1;
      QueueConserved(batchSize, table, actions[..m]);
      StepConserves(batchSize, Run(batchSize, table, actions[..m]), actions[m]);
      hide Step, Flatten;
    }
  }

  /** A batch is taken as full as it can be: afterwards the queue is empty or the batch has its size. */
  lemma BatchesFull(batchSize: int, s: State, r: FlushResult)
    requires s.pc.Taking? && |s.batch| <= Max(0, batchSize)
    ensures
      var t := WorkerStep(batchSize, s, r);
      && (t.queue == [] || |t.batch| >= batchSize)
      && |t.batch| <= Max(0, batchSize)
      && (t.pc.LoopHead? <==> t.batch == []) && (t.pc.Flushing? <==> t.batch != [])
  {
  }

  /** A flush clears the batch whether it commits or throws; only a commit touches the table. */
  lemma FlushClears(batchSize: int, s: State, r: FlushResult)
    requires s.pc.Flushing? || s.pc.FinalFlush?
    ensures
      var t := WorkerStep(batchSize, s, r);
      && t.batch == [] && t.queue == s.queue && t.handed == s.handed + [s.batch]
      && t.table == (match r case Threw => s.table case Committed(_, table) => table)
      && t.committed == s.committed + [r != Threw]
  {
  }

  /** Batches are never empty, and until the drain never larger than the batch size. */
  ghost predicate Sized(batchSize: int, s: State) {
    && |s.committed| == |s.handed|
    && (forall i :: 0 <= i < |s.handed| ==> s.handed[i] != [])
    && (s.pc.Flushing? || s.pc.FinalFlush? <==> s.batch != [])
    && (s.pc.Flushing? ==> |s.batch| <= batchSize)
    && (forall i :: 0 <= i < |s.handed| && (i < |s.handed| - 1 || !s.pc.Done?) ==> |s.handed[i]| <= batchSize)
    && (s.pc in {Draining, FinalFlush, Done} ==> s.stopped)
  }

  lemma {:induction false} BatchesSized(batchSize: int, table: seq<Row>, actions: seq<Action>)
    ensures Sized(batchSize, Run(batchSize, table, actions))
  {
    hide Sized, Step;
    if actions == [] {
      StartSized(batchSize, table);
    } else {
      var m := |actions| - 1;
      BatchesSized(batchSize, table, actions[..m]);
      StepSized(batchSize, Run(batchSize, table, actions[..m]), actions[m]);
    }
  }

  lemma StartSized(batchSize: int, table: seq<Row>)
    ensures Sized(batchSize, Started(table))
  {
  }

  lemma StepSized(batchSize: int, s: State, a: Action)
    requires Sized(batchSize, s)
    ensures Sized(batchSize, Step(batchSize, s, a))
  {
  }

  /** No detection is pushed once the destructor has begun. */
  predicate QuietAfterStop(actions: seq<Action>) {
    forall i, j :: 0 <= i < j < |actions| && actions[i].Stop? ==> !actions[j].Push?
  }

  lemma {:induction false} DrainedStaysEmpty(batchSize: int, table: seq<Row>, actions: seq<Action>)
    requires QuietAfterStop(actions)
    ensures
      var s := Run(batchSize, table, actions);
      && (s.stopped ==> exists i :: 0 <= i < |actions| && actions[i].Stop?)
      && (s.pc in {FinalFlush, Done} ==> s.stopped && s.queue == [])
  {
    if actions == [] {
    } else {
      var m := |actions| - 1;
      DrainedStaysEmpty(batchSize, table, actions[..m]);
      BatchesSized(batchSize, table, actions[..m]);
      var s := Run(batchSize, table, actions[..m]);
      if s.stopped {
        var i :| 0 <= i < m && actions[..m][i].Stop?;
        assert actions[i].Stop?;
      }
      hide Sized, Run;
      if actions[m].Stop? {
        assert actions[m].Stop?;
      }
    }
  }

  /** After shutdown with no later pushes every detection has been handed to flush() exactly once, in order. */
  lemma AllHandedOver(batchSize: int, table: seq<Row>, actions: seq<Action>)
    requires QuietAfterStop(actions) && Run(batchSize, table, actions).pc.Done?
    ensures Flatten(Run(batchSize, table, actions).handed) == Pushed(actions)
  {
    QueueConserved(batchSize, table, actions);
    DrainedStaysEmpty(batchSize, table, actions);
    BatchesSized(batchSize, table, actions);
  }

  /** How many worker steps are left once the stop flag is set. */
  function StepsLeft(pc: Pc): nat {
    match pc
    case Done => 0
    case FinalFlush => 1
    case Draining => 2
    case LoopHead => 3
    case Flushing => 4
    case Taking => 5
  }

  lemma StopCountsDown(batchSize: int, s: State, a: Action)
    requires s.stopped
    ensures
      var t := Step(batchSize, s, a);
      && t.stopped && StepsLeft(t.pc) <= StepsLeft(s.pc)
      && (a.Worker? && !s.pc.Done? ==> StepsLeft(t.pc) < StepsLeft(s.pc))
  {
  }

  function WorkerSteps(actions: seq<Action>): nat {
    if actions == [] then 0
    else WorkerSteps(actions[..|actions| - 1]) + if actions[|actions| - 1].Worker? then 1 else 0
  }

  /** The destructor's join returns: once the flag is set, five further worker steps suffice. */
  lemma {:induction false} StopsWithinFiveSteps(batchSize: int, table: seq<Row>, before: seq<Action>, after: seq<Action>)
    requires Run(batchSize, table, before).stopped
    ensures
      var t := Run(batchSize, table, before + after);
      && t.stopped
      && (t.pc.Done? || StepsLeft(t.pc) + WorkerSteps(after) <= 5)
    ensures WorkerSteps(after) >= 5 ==> Run(batchSize, table, before + after).pc.Done?
  {
    if after == [] {
      assert before + after == before;
    } else {
      var m := |after| - 1;
      assert (before + after)[..|before + after| - 1] == before + after[..m];
      StopsWithinFiveSteps(batchSize, table, before, after[..m]);
      StopCountsDown(batchSize, Run(batchSize, table, before + after[..m]), after[m]);
      hide Step;
    }
  }

  // ---------- Hits ----------

  /** Every committed flush does what a flush does; this writer is the table's only one. */
  ghost predicate Honest(batchSize: int, table: seq<Row>, actions: seq<Action>) {
    actions == [] ||
    var m := |actions| - 1;
    var s := Run(batchSize, table, actions[..m]);
    && Honest(batchSize, table, actions[..m])
    && (actions[m].Worker? && actions[m].result.Committed? && (s.pc.Flushing? || s.pc.FinalFlush?) ==>
      Flushed(s.table, s.batch, actions[m].result.now, actions[m].result.table))
  }

  function CommittedSize(handed: seq<seq<Detection>>, committed: seq<bool>): nat
    requires |handed| == |committed|
  {
    if handed == [] then 0
    else
      var m := |handed| - 1;
      CommittedSize(handed[..m], committed[..m]) + if committed[m] then |handed[m]| else 0
  }

  lemma CommittedSnoc(handed: seq<seq<Detection>>, committed: seq<bool>, b: seq<Detection>, c: bool)
    requires |handed| == |committed|
    ensures CommittedSize(handed + [b], committed + [c]) == CommittedSize(handed, committed) + if c then |b| else 0
  {
    assert (handed + [b])[..|handed|] == handed && (committed + [c])[..|handed|] == committed;
  }

  /** What the table has gained beyond the committed batches: always nothing. */
  function Unaccounted(s: State): int
    requires |s.handed| == |s.committed|
  {
    TotalHits(s.table) - CommittedSize(s.handed, s.committed)
  }

  lemma StepAccounts(batchSize: int, s: State, a: Action)
    requires |s.handed| == |s.committed|
    requires a.Worker? && a.result.Committed? && (s.pc.Flushing? || s.pc.FinalFlush?) ==>
      Flushed(s.table, s.batch, a.result.now, a.result.table)
    ensures
      var t := Step(batchSize, s, a);
      |t.handed| == |t.committed| && Unaccounted(t) == Unaccounted(s)
  {
    hide TotalHits, CommittedSize, Flushed;
    if a.Worker? && (s.pc.Flushing? || s.pc.FinalFlush?) {
      CommittedSnoc(s.handed, s.committed, s.batch, a.result.Committed?);
      if a.result.Committed? {
        FlushCounts(s.table, s.batch, a.result.now, a.result.table);
      }
    }
  }

  /** Over any run the total of hits has risen by exactly the detections in committed batches. */
  lemma {:induction false} HitsAccountFor(batchSize: int, table: seq<Row>, actions: seq<Action>)
    requires Honest(batchSize, table, actions)
    ensures
      var s := Run(batchSize, table, actions);
      && |s.handed| == |s.committed|
      && TotalHits(s.table) == TotalHits(table) + CommittedSize(s.handed, s.committed)
  {
    if actions == [] {
    } else {
      var m := |actions| - 1;
      HitsAccountFor(batchSize, table, actions[..m]);
      hide TotalHits, CommittedSize, Flushed;
      StepAccounts(batchSize, Run(batchSize, table, actions[..m]), actions[m]);
      hide Step;
    }
  }
}
