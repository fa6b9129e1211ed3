/**
 * The resources of TaskManagerIqSource over the life of the sweep loop: one UDP socket and one task,
 * acquired by open(), which can fail at every point, and released by close().
 */
module SourceLifecycle {
  import opened Prelude

  /** What the outside world sees: sockets created and closed, task ids received and stopped. */
  datatype Effect =
    | SocketOpened(fd: nat)
    | SocketClosed(fd: nat)
    | TaskReceived(id: string)
    | StopIssued(id: string)

  // ---------- What the outside world answers ----------

  /** bindUdp(): socket() fails, bind() fails, or the socket is bound. */
  datatype BindResult = NoSocket | BindRefused(fd: nat) | Bound(fd: nat)

  /** submitTask(): no reply, an unusable reply, a rejection, or an acceptance; port 0 means none given. */
  datatype SubmitResult = TimedOut | Unparsable | Rejected | Accepted(id: string, port: nat)

  /** Everything one open() meets; the second bind is used only if the controller overrides the port. */
  datatype OpenScript = OpenScript(localPort: nat, first: BindResult, submit: SubmitResult, second: BindResult)

  // ---------- The effects, in order ----------

  function BindEffects(r: BindResult): seq<Effect> {
    match r
    case NoSocket => []
    case BindRefused(n) => [SocketOpened(n), SocketClosed(n)]
    case Bound(n) => [SocketOpened(n)]
  }

  function SubmitEffects(r: SubmitResult): seq<Effect> {
    if r.Accepted? && r.id != "" then [TaskReceived(r.id)] else []
  }

  /** The controller named another port than the one already bound. */
  predicate Rebinds(s: OpenScript) {
    s.submit.Accepted? && s.submit.port != 0 && s.submit.port != s.localPort
  }

  function OpenEffects(s: OpenScript): seq<Effect> {
    if !s.first.Bound? then BindEffects(s.first)
    else if !Rebinds(s) then BindEffects(s.first) + SubmitEffects(s.submit)
    else BindEffects(s.first) + SubmitEffects(s.submit) + [SocketClosed(s.first.fd)] + BindEffects(s.second)
  }

  /** What open() leaves held, whether or not it throws. */
  function HeldAfterOpen(s: OpenScript): Held {
    if !s.first.Bound? then Held(None, "")
    else Held(
      if !Rebinds(s) then Some(s.first.fd) else if s.second.Bound? then Some(s.second.fd) else None,
      if s.submit.Accepted? then s.submit.id else "")
  }

  function CloseEffects(h: Held): seq<Effect> {
    (if h.task != "" then [StopIssued(h.task)] else [])
    + if h.fd.Some? then [SocketClosed(h.fd.value)] else []
  }

  function SweepEffects(passes: seq<OpenScript>): seq<Effect> {
    if passes == [] then []
    else
      var last := passes[|passes| - 1];
      SweepEffects(passes[..|passes| - 1]) + OpenEffects(last) + CloseEffects(HeldAfterOpen(last))
  }

  class Source {
    var fd: Option<nat>
    var taskId: string
    var running: bool
    ghost var log: seq<Effect>

    /** The log accounts for exactly what is held. */
    ghost predicate Valid()
      reads this
    {
      Audit(log) == Some(Held(fd, taskId))
    }

    ghost predicate HoldsNothing()
      reads this
    {
      Valid() && fd.None? && taskId == ""
    }

    constructor ()
      ensures HoldsNothing() && log == []
    {
      fd, taskId, running, log := None, "", false, [];
    }

    /** bindUdp(): on failure nothing stays open. */
    method BindUdp(r: BindResult) returns (ok: bool)
      requires Valid() && fd.None?
      modifies this
      ensures Valid() && taskId == old(taskId) && running == old(running)
      ensures ok == r.Bound? && fd == if r.Bound? then Some(r.fd) else None
      ensures log == old(log) + BindEffects(r)
    {
      match r {
        case NoSocket =>
          return false;
        case BindRefused(n) =>
          fd := Some(n);
          Record(SocketOpened(n));
          CloseFd();
          return false;
        case Bound(n) =>
          fd := Some(n);
          Record(SocketOpened(n));
          return true;
      }
    }

    ghost method Record(e: Effect)
      modifies `log
      ensures log == old(log) + [e]
      ensures Audit(log) == if Audit(old(log)).Some? then AuditStep(Audit(old(log)).value, e) else None
    {
      AuditSnoc(log, e);
      log := log + [e];
    }

    method CloseFd()
      requires Valid() && fd.Some?
      modifies `fd, `log
      ensures Valid() && fd.None? && log == old(log) + [SocketClosed(old(fd).value)]
    {
      ghost var n := fd.value;
      fd := None;
      Record(SocketClosed(n));
    }

    /** submitTask(): the id is kept as soon as it is received, even if the port is missing. */
    method SubmitTask(r: SubmitResult) returns (ok: bool, port: nat)
      requires Valid() && taskId == ""
      modifies `taskId, `log
      ensures Valid() && log == old(log) + SubmitEffects(r)
      ensures ok == (r.Accepted? && r.port != 0) && (ok ==> port == r.port)
      ensures taskId == if r.Accepted? then r.id else ""
    {
      port := 0;
      if !r.Accepted? {
        return false, 0;
      }
      taskId := r.id;
      if r.id != "" {
        Record(TaskReceived(r.id));
      }
      if r.port == 0 {
        return false, 0;
      }
      return true, r.port;
    }

    /** sendTaskStop(): once per id, nothing without one. */
    method SendTaskStop()
      requires Valid()
      modifies `taskId, `log
      ensures Valid() && taskId == ""
      ensures log == old(log) + if old(taskId) != "" then [StopIssued(old(taskId))] else []
    {
      if taskId == "" {
        return;
      }
      ghost var id := taskId;
      taskId := "";
      Record(StopIssued(id));
    }

    /** open(): pre-bind, submit, and bind again if the controller chose another port. */
    method Open(script: OpenScript) returns (ok: bool)
      requires HoldsNothing()
      modifies this
      ensures Valid() && log == old(log) + OpenEffects(script)
      ensures Held(fd, taskId) == HeldAfterOpen(script)
      ensures taskId == if script.first.Bound? && script.submit.Accepted? then script.submit.id else ""
      ensures
        var overridden := script.submit.Accepted? && script.submit.port != 0 && script.submit.port != script.localPort;
        fd == if !script.first.Bound? then None else if !overridden then Some(script.first.fd)
          else if script.second.Bound? then Some(script.second.fd) else None
      ensures ok ==> fd.Some? && running
      ensures ok <==>
        && script.first.Bound?
        && script.submit.Accepted? && script.submit.port != 0
        && (script.submit.port == script.localPort || script.second.Bound?)
    {
      hide Audit, BindEffects, SubmitEffects;
      ok := BindUdp(script.first);
      if !ok {
        return;
      }
      var port;
      ok, port := SubmitTask(script.submit);
      if !ok {
        return;
      }
      if port != 0 && port != script.localPort {
        CloseFd();
        ok := BindUdp(script.second);
        if !ok {
          return;
        }
      }
      running := true;
    }

    /** close(): safe in every state, releases whatever is held. */
    method Close()
      requires Valid()
      modifies this
      ensures HoldsNothing() && !running
      ensures log == old(log) + CloseEffects(Held(old(fd), old(taskId)))
    {
      running := false;
      SendTaskStop();
      if fd.Some? {
        CloseFd();
      }
    }

    /** sweepLoop(): every pass opens, perhaps in vain, and always closes before the next one. */
    method SweepLoop(passes: seq<OpenScript>)
      requires HoldsNothing()
      modifies this
      ensures HoldsNothing() && log == old(log) + SweepEffects(passes)
    {
      hide OpenEffects, CloseEffects, HeldAfterOpen, Audit;
      for i := 0 to |passes|
        invariant HoldsNothing() && log == old(log) + SweepEffects(passes[..i])
      {
        assert passes[..i + 1][..i] == passes[..i];
        var ok := Open(passes[i]);
        if !ok {
          Close();
          continue;
        }
        // dwells are received and processed here; none of it touches the socket or the task
        Close();
      }
      assert passes[..|passes|] == passes;
    }
  }

  // ---------- Auditing the log ----------

  /** What an observer believes is held; "" stands for no task. */
  datatype Held = Held(fd: Option<nat>, task: string)

  /** A second socket or task while one is held, or releasing what is not held, is a violation. */
  function AuditStep(h: Held, e: Effect): Option<Held> {
    match e
    case SocketOpened(n) => if h.fd.None? then Some(h.(fd := Some(n))) else None
    case SocketClosed(n) => if h.fd == Some(n) then Some(h.(fd := None)) else None
    case TaskReceived(id) => if h.task == "" && id != "" then Some(h.(task := id)) else None
    case StopIssued(id) => if h.task == id && id != "" then Some(h.(task := "")) else None
  }

  function AuditFrom(h: Held, log: seq<Effect>): Option<Held> {
    if log == [] then Some(h)
    else
      var before := AuditFrom(h, log[..|log| - 1]);
      if before.Some? then AuditStep(before.value, log[|log| - 1]) else None
  }

  function Audit(log: seq<Effect>): Option<Held> {
    AuditFrom(Held(None, ""), log)
  }

  lemma AuditSnoc(log: seq<Effect>, e: Effect)
    ensures Audit(log + [e]) == if Audit(log).Some? then AuditStep(Audit(log).value, e) else None
  {
    assert (log + [e])[..|log|] == log;
  }

  lemma {:induction false} AuditSplit(h: Held, a: seq<Effect>, b: seq<Effect>)
    ensures AuditFrom(h, a + b) ==
      if AuditFrom(h, a).Some? then AuditFrom(AuditFrom(h, a).value, b) else None
  {
    if b == [] {
      assert a + b == a;
    } else {
      assert (a + b)[..|a + b| - 1] == a + b[..|b| - 1];
      AuditSplit(h, a, b[..|b| - 1]);
    }
  }

  function Count(log: seq<Effect>, e: Effect): nat {
    if log == [] then 0 else Count(log[..|log| - 1], e) + if log[|log| - 1] == e then 1 else 0
  }

  function OpenedTotal(log: seq<Effect>): nat {
    if log == [] then 0 else OpenedTotal(log[..|log| - 1]) + if log[|log| - 1].SocketOpened? then 1 else 0
  }

  function ClosedTotal(log: seq<Effect>): nat {
    if log == [] then 0 else ClosedTotal(log[..|log| - 1]) + if log[|log| - 1].SocketClosed? then 1 else 0
  }

  /** An audited log never has two sockets open, and closes and stops match opens and receptions. */
  lemma {:induction false} AuditCounts(log: seq<Effect>, fd: nat, id: string)
    requires Audit(log).Some? && id != ""
    ensures
      var h := Audit(log).value;
      && OpenedTotal(log) == ClosedTotal(log) + (if h.fd.Some? then 1 else 0)
      && Count(log, SocketOpened(fd)) == Count(log, SocketClosed(fd)) + (if h.fd == Some(fd) then 1 else 0)
      && Count(log, TaskReceived(id)) == Count(log, StopIssued(id)) + (if h.task == id then 1 else 0)
  {
    if log == [] {
    } else {
      AuditCounts(log[..|log| - 1], fd, id);
    }
  }

  lemma {:induction false} AuditPrefix(log: seq<Effect>, k: nat)
    requires k <= |log| && Audit(log).Some?
    ensures Audit(log[..k]).Some?
  {
    if k < |log| {
      AuditPrefix(log[..|log| - 1], k);
      assert log[..|log| - 1][..k] == log[..k];
    } else {
      assert log[..k] == log;
    }
  }

  /**
   * What HoldsNothing means for the run so far: at every moment at most one socket was open; by now
   * every socket has been closed as often as it was opened and every task stopped as often as received.
   */
  lemma RunIsBalanced(log: seq<Effect>)
    requires Audit(log) == Some(Held(None, ""))
    ensures forall k :: 0 <= k <= |log| ==>
      ClosedTotal(log[..k]) <= OpenedTotal(log[..k]) <= ClosedTotal(log[..k]) + 1
    ensures forall fd :: Count(log, SocketOpened(fd)) == Count(log, SocketClosed(fd))
    ensures forall id :: id != "" ==> Count(log, TaskReceived(id)) == Count(log, StopIssued(id))
  {
    forall k | 0 <= k <= |log|
      ensures ClosedTotal(log[..k]) <= OpenedTotal(log[..k]) <= ClosedTotal(log[..k]) + 1
    {
      AuditPrefix(log, k);
      AuditCounts(log[..k], 0, "x");
    }
    forall fd ensures Count(log, SocketOpened(fd)) == Count(log, SocketClosed(fd)) {
      AuditCounts(log, fd, "x");
    }
    forall id | id != "" ensures Count(log, TaskReceived(id)) == Count(log, StopIssued(id)) {
      AuditCounts(log, 0, id);
    }
  }

  lemma AuditOne(h: Held, e: Effect)
    ensures AuditFrom(h, [e]) == AuditStep(h, e)
  {
    assert [e][..0] == [];
  }

  lemma BindAudits(task: string, r: BindResult)
    ensures AuditFrom(Held(None, task), BindEffects(r)) == Some(Held(if r.Bound? then Some(r.fd) else None, task))
  {
    match r
    case NoSocket =>
    case BindRefused(n) =>
      assert BindEffects(r) == [SocketOpened(n)] + [SocketClosed(n)];
      AuditOne(Held(None, task), SocketOpened(n));
      AuditOne(Held(Some(n), task), SocketClosed(n));
      AuditSplit(Held(None, task), [SocketOpened(n)], [SocketClosed(n)]);
    case Bound(n) =>
      AuditOne(Held(None, task), SocketOpened(n));
  }

  /** However open() goes, what it did adds up to what it holds. */
  lemma OpenAudits(s: OpenScript)
    ensures Audit(OpenEffects(s)) == Some(HeldAfterOpen(s))
  {
    hide AuditFrom;
    var none := Held(None, "");
    BindAudits("", s.first);
    if s.first.Bound? {
      var one := Held(Some(s.first.fd), "");
      var id := if s.submit.Accepted? then s.submit.id else "";
      var two := one.(task := id);
      assert AuditFrom(one, SubmitEffects(s.submit)) == Some(two) by {
        if id != "" {
          AuditOne(one, TaskReceived(id));
        } else {
          AuditNone(one);
        }
      }
      AuditSplit(none, BindEffects(s.first), SubmitEffects(s.submit));
      if Rebinds(s) {
        AuditOne(two, SocketClosed(s.first.fd));
        AuditSplit(none, BindEffects(s.first) + SubmitEffects(s.submit), [SocketClosed(s.first.fd)]);
        BindAudits(id, s.second);
        AuditSplit(none, BindEffects(s.first) + SubmitEffects(s.submit) + [SocketClosed(s.first.fd)], BindEffects(s.second));
      }
    }
  }

  lemma AuditNone(h: Held)
    ensures AuditFrom(h, []) == Some(h)
  {
  }

  lemma CloseAudits(h: Held)
    ensures AuditFrom(h, CloseEffects(h)) == Some(Held(None, ""))
  {
    var stop := if h.task != "" then [StopIssued(h.task)] else [];
    var shut := if h.fd.Some? then [SocketClosed(h.fd.value)] else [];
    AuditOne(h, StopIssued(h.task));
    AuditNone(h);
    var rest := h.(task := "");
    if h.fd.Some? {
      AuditOne(rest, SocketClosed(h.fd.value));
    }
    AuditNone(rest);
    AuditSplit(h, stop, shut);
  }

  /**
   * For every sequence of passes and every way each open() can fail: at most one socket at any
   * moment, every socket closed as often as opened, every task stopped exactly as often as received.
   */
  lemma {:induction false} SweepIsBalanced(passes: seq<OpenScript>)
    ensures Audit(SweepEffects(passes)) == Some(Held(None, ""))
  {
    if passes == [] {
    } else {
      var front, last := passes[..|passes| - 1], passes[|passes| - 1];
      SweepIsBalanced(front);
      OpenAudits(last);
      CloseAudits(HeldAfterOpen(last));
      hide AuditFrom;
      AuditSplit(Held(None, ""), SweepEffects(front), OpenEffects(last));
      AuditSplit(Held(None, ""), SweepEffects(front) + OpenEffects(last), CloseEffects(HeldAfterOpen(last)));
    }
  }

  // ---------- How much happened ----------

  lemma {:induction false} TotalsSplit(a: seq<Effect>, b: seq<Effect>, e: Effect)
    ensures OpenedTotal(a + b) == OpenedTotal(a) + OpenedTotal(b)
    ensures Count(a + b, e) == Count(a, e) + Count(b, e)
  {
    if b == [] {
      assert a + b == a;
    } else {
      assert (a + b)[..|a + b| - 1] == a + b[..|b| - 1];
      TotalsSplit(a, b[..|b| - 1], e);
    }
  }

  /** How many sockets one open() gets from the system: the first, and another one when the port is overridden. */
  function SocketsOf(s: OpenScript): nat {
    (if s.first.NoSocket? then 0 else 1) +
    if s.first.Bound? && s.submit.Accepted? && s.submit.port != 0 && s.submit.port != s.localPort && !s.second.NoSocket?
    then 1 else 0
  }

  function SocketsOfAll(passes: seq<OpenScript>): nat {
    if passes == [] then 0 else SocketsOfAll(passes[..|passes| - 1]) + SocketsOf(passes[|passes| - 1])
  }

  /** In how many passes the task was accepted under this id. */
  function AcceptedAs(passes: seq<OpenScript>, id: string): nat {
    if passes == [] then 0
    else
      var s := passes[|passes| - 1];
      AcceptedAs(passes[..|passes| - 1], id)
        + if s.first.Bound? && s.submit.Accepted? && s.submit.id == id then 1 else 0
  }

  lemma TotalsOfOne(e: Effect, x: Effect)
    ensures OpenedTotal([e]) == if e.SocketOpened? then 1 else 0
    ensures Count([e], x) == if e == x then 1 else 0
  {
    assert [e][..0] == [];
  }

  lemma BindTotals(r: BindResult, x: Effect)
    ensures OpenedTotal(BindEffects(r)) == if r.NoSocket? then 0 else 1
    ensures x.TaskReceived? ==> Count(BindEffects(r), x) == 0
  {
    match r
    case NoSocket =>
    case BindRefused(n) =>
      assert BindEffects(r) == [SocketOpened(n)] + [SocketClosed(n)];
      TotalsOfOne(SocketOpened(n), x);
      TotalsOfOne(SocketClosed(n), x);
      TotalsSplit([SocketOpened(n)], [SocketClosed(n)], x);
    case Bound(n) =>
      TotalsOfOne(SocketOpened(n), x);
  }

  lemma OpenTotals(s: OpenScript, id: string)
    requires id != ""
    ensures OpenedTotal(OpenEffects(s)) == SocketsOf(s)
    ensures Count(OpenEffects(s), TaskReceived(id))
      == if s.first.Bound? && s.submit.Accepted? && s.submit.id == id then 1 else 0
  {
    hide OpenedTotal, Count;
    var x := TaskReceived(id);
    var bind, submit := BindEffects(s.first), SubmitEffects(s.submit);
    BindTotals(s.first, x);
    if s.first.Bound? {
      SubmitTotals(s.submit, id);
      TotalsSplit(bind, submit, x);
      if Rebinds(s) {
        TotalsOfOne(SocketClosed(s.first.fd), x);
        TotalsSplit(bind + submit, [SocketClosed(s.first.fd)], x);
        BindTotals(s.second, x);
        TotalsSplit(bind + submit + [SocketClosed(s.first.fd)], BindEffects(s.second), x);
      }
    }
  }

  lemma SubmitTotals(r: SubmitResult, id: string)
    requires id != ""
    ensures OpenedTotal(SubmitEffects(r)) == 0
    ensures Count(SubmitEffects(r), TaskReceived(id)) == if r.Accepted? && r.id == id then 1 else 0
  {
    if r.Accepted? && r.id != "" {
      TotalsOfOne(TaskReceived(r.id), TaskReceived(id));
    }
  }

  lemma CloseTotals(h: Held, x: Effect)
    requires x.TaskReceived?
    ensures OpenedTotal(CloseEffects(h)) == 0 && Count(CloseEffects(h), x) == 0
  {
    var stop := if h.task != "" then [StopIssued(h.task)] else [];
    var shut := if h.fd.Some? then [SocketClosed(h.fd.value)] else [];
    TotalsOfOne(StopIssued(h.task), x);
    if h.fd.Some? {
      TotalsOfOne(SocketClosed(h.fd.value), x);
    }
    TotalsSplit(stop, shut, x);
  }

  /**
   * What the log of a run really holds: a socket for each one the system gave, first or overridden port,
   * and a reception of each id for every pass that was accepted under it; so, by the balance, as many stops.
   */
  lemma {:induction false} SweepTotals(passes: seq<OpenScript>, id: string)
    requires id != ""
    ensures OpenedTotal(SweepEffects(passes)) == SocketsOfAll(passes)
    ensures Count(SweepEffects(passes), TaskReceived(id)) == AcceptedAs(passes, id)
    ensures Count(SweepEffects(passes), StopIssued(id)) == AcceptedAs(passes, id)
  {
    SweepIsBalanced(passes);
    RunIsBalanced(SweepEffects(passes));
    hide OpenedTotal, Audit;
    if passes == [] {
      NoTotals(TaskReceived(id));
    } else {
      var front, last := passes[..|passes| - 1], passes[|passes| - 1];
      SweepTotals(front, id);
      OpenTotals(last, id);
      CloseTotals(HeldAfterOpen(last), TaskReceived(id));
      hide Count, OpenEffects, CloseEffects, HeldAfterOpen;
      TotalsSplit(SweepEffects(front), OpenEffects(last), TaskReceived(id));
      TotalsSplit(SweepEffects(front) + OpenEffects(last), CloseEffects(HeldAfterOpen(last)), TaskReceived(id));
    }
  }

  lemma NoTotals(e: Effect)
    ensures OpenedTotal([]) == 0 && Count([], e) == 0
  {
  }
}
