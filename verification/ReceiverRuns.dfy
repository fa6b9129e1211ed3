/**
 * Where the receiver resumes after a preemption: the resume position over any calls of next(), and the
 * receiver as a run of the sweep protocol.
 */
module ReceiverRuns {
  import opened Prelude
  import opened IqStream
  import opened IqStreamTheorems
  import ScanPlan

  // ---------- The resume position ----------

  /** Event e brings a frame with our magic number. */
  predicate Locates(e: Recv) {
    e.Received? && e.d.Frame? && e.d.magicOk
  }

  /** resume is one step on from the centre that e brings, or start if that is at stop or beyond. */
  predicate ResumesPast(c: ScanPlan.Sweep, e: Recv, resume: real) {
    && Locates(e)
    && var next := e.d.center as real + c.step;
      resume == if next >= c.stop then c.start else next
  }

  lemma {:induction false} ResumeAfterCall(cfg: Config, s: State, events: seq<Recv>, quiet: nat) returns (i: int)
    requires cfg.Valid() && |s.asm.accum| == cfg.rxChannels
    ensures
      var c := Serve(cfg, s, events, quiet);
      && -1 <= i < c.used && (forall k :: i < k < c.used ==> !Locates(events[k]))
      && (i == -1 ==> c.after.resume == s.resume)
      && (i >= 0 ==> ResumesPast(cfg.sweep, events[i], c.after.resume))
    decreases |events|
  {
    i := -1;
    if !s.running || events == [] {
    } else {
      var rest := events[1..];
      hide DwellsOf;
      match events[0] {
        case StopRequested => i := ResumeAfterCall(cfg, s.(running := false), rest, quiet);
        case Interrupted => i := ResumeAfterCall(cfg, s, rest, quiet);
        case Failed =>
        case TimedOut =>
          if quiet + RECV_TIMEOUT_MS < Limit(s.firstTaskPacket) {
            i := ResumeAfterCall(cfg, s, rest, quiet + RECV_TIMEOUT_MS);
          }
        case Received(d) =>
          if DwellsOf(cfg, s, d) == [] {
            i := ResumeAfterCall(cfg, OnDatagram(cfg, s, d), rest, 0);
          }
      }
      i := if i >= 0 then i + 1 else if Locates(events[0]) then 0 else -1;
    }
  }

  /**
   * Where any number of calls leave the resume position: where it was if no frame with our magic number
   * came, else one step on from the centre of the last such frame, or at start if that is at stop or beyond.
   */
  lemma {:induction false} ResumeAfterCalls(cfg: Config, s: State, events: seq<Recv>, n: nat) returns (i: int)
    requires cfg.Valid() && |s.asm.accum| == cfg.rxChannels
    ensures
      var r := CallNext(cfg, s, events, n);
      && -1 <= i < r.used && (forall k :: i < k < r.used ==> !Locates(events[k]))
      && (i == -1 ==> r.after.resume == s.resume)
      && (i >= 0 ==> ResumesPast(cfg.sweep, events[i], r.after.resume))
  {
    hide Serve, Locates, ResumesPast;
    if n == 0 {
      i := -1;
    } else {
      var b := CallNext(cfg, s, events, n - 1);
      i := ResumeAfterCalls(cfg, s, events, n - 1);
      var rest := events[b.used..];
      var j := ResumeAfterCall(cfg, b.after, rest, 0);
      var c := Serve(cfg, b.after, rest, 0);
      assert forall k :: b.used <= k < b.used + c.used ==> events[k] == rest[k - b.used];
      if j >= 0 {
        i := b.used + j;
      }
    }
  }

  /** Every frame with our magic number carries a centre of the sweep's grid. */
  ghost predicate CentersOnGrid(cfg: Config, events: seq<Recv>) {
    forall i :: 0 <= i < |events| && Locates(events[i]) ==>
      ScanPlan.OnGrid(cfg.sweep, events[i].d.center as real)
  }

  /** Whatever is lost, truncated or interrupted, the next task can be built from where this one got to. */
  lemma ResubmissionIsGood(cfg: Config, s: State, events: seq<Recv>, n: nat)
    requires cfg.Valid() && cfg.sweep.HasRoom() && |s.asm.accum| == cfg.rxChannels
    requires ScanPlan.GoodResume(cfg.sweep, s.resume) && CentersOnGrid(cfg, events)
    ensures
      var resume := CallNext(cfg, s, events, n).after.resume;
      ScanPlan.GoodResume(cfg.sweep, resume) && ScanPlan.GoodTask(cfg.sweep, ScanPlan.Plan(cfg.sweep, resume))
  {
    hide ScanPlan.GoodTask, ScanPlan.GoodResume, CallNext;
    var i := ResumeAfterCalls(cfg, s, events, n);
    if i >= 0 {
      ScanPlan.ResumeStaysGood(cfg.sweep, events[i].d.center as real);
    }
    ScanPlan.SubmitIsGood(cfg.sweep, CallNext(cfg, s, events, n).after.resume);
  }

  // ---------- The receiver as a run of submissions and packets ----------

  /** The packets of the resume protocol that some events bring. */
  function PacketsOf(events: seq<Recv>): seq<ScanPlan.Event> {
    if events == [] then []
    else
      var e := events[|events| - 1];
      PacketsOf(events[..|events| - 1]) + if Locates(e) then [ScanPlan.Event.Packet(e.d.center as real)] else []
  }

  /** Playing packets sets resume by the last of them. */
  lemma {:induction false} PlayPackets(cfg: Config, es: seq<ScanPlan.Event>, events: seq<Recv>, i: int)
    requires cfg.Valid() && -1 <= i < |events| && forall k :: i < k < |events| ==> !Locates(events[k])
    requires i >= 0 ==> Locates(events[i])
    ensures ScanPlan.Play(cfg.sweep, es + PacketsOf(events)).resume ==
      if i == -1 then ScanPlan.Play(cfg.sweep, es).resume else ScanPlan.AfterPacket(cfg.sweep, events[i].d.center as real)
  {
    hide ScanPlan.AfterPacket;
    if events == [] {
      assert es + [] == es;
    } else {
      var m := |events| - 1;
      var front := PacketsOf(events[..m]);
      if i == m {
        assert (es + PacketsOf(events))[..|es + front|] == es + front;
      } else {
        assert es + (front + []) == es + front;
        PlayPackets(cfg, es, events[..m], i);
      }
    }
  }

  /** One task's share of a run: what its socket brings and how often next() is called. */
  datatype Task = Task(events: seq<Recv>, calls: nat)

  /** The calls of one task that resumes at the given position. */
  function Serviced(cfg: Config, resume: real, task: Task): (r: Calls)
    requires cfg.Valid()
    ensures r.used <= |task.events|
  {
    CallNext(cfg, State(Blank(cfg.rxChannels), resume, true, true), task.events, task.calls)
  }

  /** Where the receiver resumes after these tasks. */
  function ResumeAfterTasks(cfg: Config, tasks: seq<Task>): real
    requires cfg.Valid()
  {
    if tasks == [] then cfg.sweep.start
    else
      var m := |tasks| - 1;
      Serviced(cfg, ResumeAfterTasks(cfg, tasks[..m]), tasks[m]).after.resume
  }

  /** The same tasks as submissions and packets. */
  function RunOf(cfg: Config, tasks: seq<Task>): seq<ScanPlan.Event>
    requires cfg.Valid()
  {
    if tasks == [] then []
    else
      var m := |tasks| - 1;
      var r := Serviced(cfg, ResumeAfterTasks(cfg, tasks[..m]), tasks[m]);
      RunOf(cfg, tasks[..m]) + [ScanPlan.Submit] + PacketsOf(tasks[m].events[..r.used])
  }

  lemma PlaySubmit(c: ScanPlan.Sweep, es: seq<ScanPlan.Event>)
    requires c.Valid()
    ensures ScanPlan.Play(c, es + [ScanPlan.Submit]).resume == ScanPlan.Play(c, es).resume
  {
    assert (es + [ScanPlan.Submit])[..|es|] == es;
  }

  /** The receiver, over any tasks, resumes where the protocol's run says. */
  lemma {:induction false} ReceiverPlays(cfg: Config, tasks: seq<Task>)
    requires cfg.Valid()
    ensures ScanPlan.Play(cfg.sweep, RunOf(cfg, tasks)).resume == ResumeAfterTasks(cfg, tasks)
  {
    if tasks == [] {
    } else {
      var m := |tasks| - 1;
      ReceiverPlays(cfg, tasks[..m]);
      hide CallNext, ScanPlan.Play;
      var resume := ResumeAfterTasks(cfg, tasks[..m]);
      var s := State(Blank(cfg.rxChannels), resume, true, true);
      var r := Serviced(cfg, resume, tasks[m]);
      var i := ResumeAfterCalls(cfg, s, tasks[m].events, tasks[m].calls);
      var es, taken := RunOf(cfg, tasks[..m]) + [ScanPlan.Submit], tasks[m].events[..r.used];
      PlaySubmit(cfg.sweep, RunOf(cfg, tasks[..m]));
      PlayPackets(cfg, es, taken, i);
    }
  }

  /**
   * So the laws of runs hold for the receiver: if every frame carries a centre requested before it, every
   * task it submits is good.
   */
  lemma ReceiverSubmitsGoodTasks(cfg: Config, tasks: seq<Task>)
    requires cfg.Valid() && cfg.sweep.HasRoom() && ScanPlan.Lawful(cfg.sweep, RunOf(cfg, tasks))
    ensures ScanPlan.GoodTask(cfg.sweep, ScanPlan.Plan(cfg.sweep, ResumeAfterTasks(cfg, tasks)))
  {
    hide ScanPlan.GoodTask, ScanPlan.Lawful, ScanPlan.Play, ScanPlan.GoodResume;
    ReceiverPlays(cfg, tasks);
    ScanPlan.RunsStayOnGrid(cfg.sweep, RunOf(cfg, tasks));
    ScanPlan.SubmitIsGood(cfg.sweep, ResumeAfterTasks(cfg, tasks));
  }

  /** A task whose every entry comes in once and in order leaves the receiver where the protocol's full sweep does. */
  lemma SweepServiced(cfg: Config, tasks: seq<Task>, task: Task)
    requires cfg.Valid()
    requires
      var resume := ResumeAfterTasks(cfg, tasks);
      PacketsOf(task.events[..Serviced(cfg, resume, task).used]) == ScanPlan.Packets(ScanPlan.Plan(cfg.sweep, resume))
    ensures
      var resume, es := ResumeAfterTasks(cfg, tasks), RunOf(cfg, tasks) + [ScanPlan.Submit];
      && ScanPlan.Play(cfg.sweep, es).resume == resume
      && ResumeAfterTasks(cfg, tasks + [task])
        == ScanPlan.Play(cfg.sweep, es + ScanPlan.Packets(ScanPlan.Plan(cfg.sweep, resume))).resume
  {
    hide ScanPlan.Play, ScanPlan.Plan, ScanPlan.Packets, Serviced;
    assert (tasks + [task])[..|tasks|] == tasks;
    ReceiverPlays(cfg, tasks);
    ReceiverPlays(cfg, tasks + [task]);
    PlaySubmit(cfg.sweep, RunOf(cfg, tasks));
  }

  /** Begun at start it ends at start. */
  lemma ReceiverSweepReturns(cfg: Config, tasks: seq<Task>, task: Task)
    requires cfg.Valid() && cfg.sweep.HasRoom() && ResumeAfterTasks(cfg, tasks) == cfg.sweep.start
    requires PacketsOf(task.events[..Serviced(cfg, cfg.sweep.start, task).used])
      == ScanPlan.Packets(ScanPlan.Plan(cfg.sweep, cfg.sweep.start))
    ensures ResumeAfterTasks(cfg, tasks + [task]) == cfg.sweep.start
  {
    hide ScanPlan.Play, ScanPlan.Plan, Serviced;
    SweepServiced(cfg, tasks, task);
    ScanPlan.FullSweepReturns(cfg.sweep, RunOf(cfg, tasks) + [ScanPlan.Submit]);
  }

  /** Begun k half steps above start it ends one or two half steps further on, or at start. */
  lemma ReceiverSweepMovesOn(cfg: Config, tasks: seq<Task>, task: Task, k: nat)
    requires cfg.Valid() && k > 0 && ScanPlan.Grid(cfg.sweep, k) < cfg.sweep.stop
    requires ResumeAfterTasks(cfg, tasks) == ScanPlan.Grid(cfg.sweep, k)
    requires PacketsOf(task.events[..Serviced(cfg, ScanPlan.Grid(cfg.sweep, k), task).used])
      == ScanPlan.Packets(ScanPlan.Plan(cfg.sweep, ScanPlan.Grid(cfg.sweep, k)))
    ensures
      var next := ScanPlan.Grid(cfg.sweep, if k % 2 == 0 then k + 1 else k + 2);
      ResumeAfterTasks(cfg, tasks + [task]) == if next >= cfg.sweep.stop then cfg.sweep.start else next
  {
    hide ScanPlan.Play, ScanPlan.Plan, Serviced, ScanPlan.Grid;
    SweepServiced(cfg, tasks, task);
    ScanPlan.WrappedSweepMovesOn(cfg.sweep, RunOf(cfg, tasks) + [ScanPlan.Submit], k);
  }
}
