/**
 * The stop handshake between SpectrumScanner::stop() and the sweep thread: two flags, written by one
 * thread in one order and read by the other in another. Every step below is one flag access or one
 * blocking call that returns by itself, so a run is any interleaving of the two threads.
 */
module StopHandshake {

  /** Where the sweep thread is in sweepLoop() and the source's open(), next() and close(). */
  datatype SweepPc =
    | LoopHead           // about to test the scanner's flag
    | Opening            // inside open(), before it sets the source's flag
    | OpenFailed         // open() threw; about to call close()
    | RetryWait          // in the five-second retry wait, testing the scanner's flag
    | InnerHead          // inner loop, about to test the scanner's flag
    | NextHead           // inside next(), about to test the source's flag
    | Receiving          // inside next(), blocked in recvfrom, which times out
    | AfterNext          // next() delivered a dwell; about to test the scanner's flag
    | Processing         // processing the dwell
    | Closing            // about to call close()
    | Pausing            // in the pause after a pass, testing the scanner's flag
    | Exited

  datatype StopPc = NotCalled | ScannerCleared | SourceCleared

  datatype State = State(sweep: SweepPc, stop: StopPc, scannerRunning: bool, sourceRunning: bool)

  /** start() sets the scanner's flag before it launches the thread. */
  const STARTED := State(LoopHead, NotCalled, true, false)

  /** What the environment decides: whether open() throws, and how recvfrom and a wait come back. */
  datatype Choice = Succeed | Fail | Again

  function SweepStep(s: State, c: Choice): State
    requires !s.sweep.Exited?
  {
    match s.sweep
    case LoopHead => s.(sweep := if s.scannerRunning then Opening else Exited)
    case Opening =>
      if c.Fail? then s.(sweep := OpenFailed) else s.(sweep := InnerHead, sourceRunning := true)
    case OpenFailed => s.(sweep := RetryWait, sourceRunning := false)
    case RetryWait => if s.scannerRunning && c.Again? then s else s.(sweep := LoopHead)
    case InnerHead => s.(sweep := if s.scannerRunning then NextHead else Closing)
    case NextHead => s.(sweep := if s.sourceRunning then Receiving else Closing)
    case Receiving =>
      s.(sweep := match c case Again => NextHead case Succeed => AfterNext case Fail => Closing)
    case AfterNext => s.(sweep := if s.scannerRunning then Processing else Closing)
    case Processing => s.(sweep := InnerHead)
    case Closing => s.(sweep := Pausing, sourceRunning := false)
    case Pausing => if s.scannerRunning && c.Again? then s else s.(sweep := LoopHead)
  }

  function StopStep(s: State): State {
    match s.stop
    case NotCalled => s.(stop := ScannerCleared, scannerRunning := false)
    case ScannerCleared => s.(stop := SourceCleared, sourceRunning := false)
    case SourceCleared => s
  }

  datatype Action = Sweep(c: Choice) | Stop

  function Step(s: State, a: Action): State {
    match a
    case Sweep(c) => if s.sweep.Exited? then s else SweepStep(s, c)
    case Stop => StopStep(s)
  }

  function Run(s: State, actions: seq<Action>): State {
    if actions == [] then s else Step(Run(s, actions[..|actions| - 1]), actions[|actions| - 1])
  }

  /** The thread is somewhere inside next(). */
  predicate InNext(s: State) {
    s.sweep.NextHead? || s.sweep.Receiving?
  }

  /** Once stop() has cleared both flags. */
  predicate StopDone(s: State) {
    s.stop.SourceCleared?
  }

  /** The order of the writes is what makes it work. */
  predicate Invariant(s: State) {
    && (s.stop.NotCalled? <==> s.scannerRunning)
    && (StopDone(s) && InNext(s) ==> !s.sourceRunning)
  }

  lemma StepKeepsInvariant(s: State, a: Action)
    requires Invariant(s)
    ensures Invariant(Step(s, a))
  {
  }

  lemma {:induction false} RunKeepsInvariant(s: State, actions: seq<Action>)
    requires Invariant(s)
    ensures Invariant(Run(s, actions))
  {
    if actions == [] {
    } else {
      RunKeepsInvariant(s, actions[..|actions| - 1]);
      StepKeepsInvariant(Run(s, actions[..|actions| - 1]), actions[|actions| - 1]);
    }
  }

  /**
   * In every interleaving, once both writes of stop() are done the sweep thread is never inside
   * next() with the source still running, even if open() set the source's flag after stop() began.
   */
  lemma StoppedNeverReceives(actions: seq<Action>)
    ensures
      var s := Run(STARTED, actions);
      StopDone(s) && InNext(s) ==> !s.sourceRunning
  {
    RunKeepsInvariant(STARTED, actions);
  }

  /** The source's flag is up only between an open() that succeeded and the close() after it. */
  lemma {:induction false} FlagDownOutsidePasses(actions: seq<Action>)
    ensures
      var s := Run(STARTED, actions);
      s.sweep.LoopHead? || s.sweep.Opening? || s.sweep.RetryWait? || s.sweep.Pausing? || s.sweep.Exited? ==> !s.sourceRunning
    ensures Run(STARTED, actions).sweep.OpenFailed? ==> !Run(STARTED, actions).sourceRunning
  {
    if actions == [] {
    } else {
      FlagDownOutsidePasses(actions[..|actions| - 1]);
    }
  }

  /** How many of its own steps the sweep thread can still take after stop() is done. */
  function StepsLeft(pc: SweepPc): nat {
    match pc
    case Exited => 0
    case LoopHead => 1
    case RetryWait => 2
    case Pausing => 2
    case OpenFailed => 3
    case Closing => 3
    case InnerHead => 4
    case NextHead => 4
    case AfterNext => 4
    case Receiving => 5
    case Processing => 5
    case Opening => 5
  }

  function SweepSteps(actions: seq<Action>): nat {
    if actions == [] then 0
    else SweepSteps(actions[..|actions| - 1]) + if actions[|actions| - 1].Sweep? then 1 else 0
  }

  lemma {:induction false} StopCountsDown(s: State, actions: seq<Action>)
    requires Invariant(s) && StopDone(s)
    ensures
      var t := Run(s, actions);
      && Invariant(t) && StopDone(t)
      && (t.sweep.Exited? || StepsLeft(t.sweep) + SweepSteps(actions) <= StepsLeft(s.sweep))
  {
    if actions == [] {
    } else {
      var m := |actions| - 1;
      StopCountsDown(s, actions[..m]);
      StepKeepsInvariant(Run(s, actions[..m]), actions[m]);
    }
  }

  /** After stop() is done the thread has left its loop by its fifth further step, whatever happens. */
  lemma StopsWithinFiveSteps(before: seq<Action>, after: seq<Action>)
    requires StopDone(Run(STARTED, before)) && SweepSteps(after) >= 5
    ensures Run(Run(STARTED, before), after).sweep.Exited?
  {
    RunKeepsInvariant(STARTED, before);
    StopCountsDown(Run(STARTED, before), after);
  }

  /** The machine does its work: six steps after the start the thread can be processing a dwell. */
  lemma DwellsAreProcessed()
    ensures
      var s := SweepStep(SweepStep(SweepStep(SweepStep(SweepStep(SweepStep(
        STARTED, Succeed), Succeed), Succeed), Succeed), Succeed), Succeed);
      s.sweep.Processing? && s.sourceRunning && s.scannerRunning
  {
  }

  // ---------- Why the order of the two writes matters ----------

  /** stop() with its two writes the other way round. */
  function SwappedStopStep(s: State): State {
    match s.stop
    case NotCalled => s.(stop := ScannerCleared, sourceRunning := false)
    case ScannerCleared => s.(stop := SourceCleared, scannerRunning := false)
    case SourceCleared => s
  }

  /** Clearing the source first loses: open() and the inner test slip in between the two writes. */
  lemma SwappedOrderFails()
    ensures
      var s0 := SwappedStopStep(SweepStep(STARTED, Succeed));
      var s1 := SweepStep(SweepStep(s0, Succeed), Succeed);
      var s2 := SwappedStopStep(s1);
      StopDone(s2) && InNext(s2) && s2.sourceRunning && !s2.scannerRunning
  {
  }
}
