/**
 * The sweep plan of TaskManagerIqSource: where a task's entries are placed, where a preempted sweep
 * resumes, and what the two together guarantee over a whole run of submissions and packets.
 */
module ScanPlan {
  import opened Prelude

  /** The configured band and the step: sample rate times usable fraction. */
  datatype Sweep = Sweep(start: real, stop: real, step: real) {
    /** The configuration loader guarantees start < stop; a step is a positive bandwidth. */
    predicate Valid() {
      start < stop && step > 0.0
    }

    /** There is room for at least one entry. */
    predicate HasRoom() {
      start + step / 2.0 <= stop
    }
  }

  // ---------- One loop of entries ----------

  /** The position of the i-th entry of a loop that begins at from. */
  function Position(from: real, step: real, i: nat): real {
    from + i as real * step
  }

  /** How many entries fit: positions whose centre does not pass the limit. */
  function Count(from: real, limit: real, step: real): nat
    requires step > 0.0
  {
    if from + step / 2.0 > limit then 0
    else
      assert (limit - from - step / 2.0) / step >= 0.0;
      ((limit - from - step / 2.0) / step).Floor + 1
  }

  lemma CountExact(from: real, limit: real, step: real, i: nat)
    requires step > 0.0
    ensures i < Count(from, limit, step) <==> Position(from, step, i) + step / 2.0 <= limit
  {
    var room := limit - from - step / 2.0;
    QuotientCompare(i as real, room, step);
    if room < 0.0 {
      ScaleCompare(0.0, i as real, step);
    } else {
      FloorCompare(i, room / step);
    }
  }

  lemma FloorCompare(i: int, q: real)
    ensures i <= q.Floor <==> i as real <= q
  {
  }

  lemma QuotientCompare(a: real, x: real, step: real)
    requires step > 0.0
    ensures a <= x / step <==> a * step <= x
    ensures x / step <= a <==> x <= a * step
  {
    var q := x / step;
    assert q * step == x;
    ScaleCompare(a, q, step);
    ScaleCompare(q, a, step);
  }

  lemma ScaleCompare(a: real, b: real, s: real)
    requires s > 0.0
    ensures a <= b <==> a * s <= b * s
  {
    if a <= b {
      assert (b - a) * s >= 0.0;
    } else {
      assert (a - b) * s > 0.0;
    }
  }

  function Centers(from: real, limit: real, step: real): (cs: seq<real>)
    requires step > 0.0
    ensures |cs| == Count(from, limit, step)
    ensures forall i :: 0 <= i < |cs| ==> cs[i] == Position(from, step, i) + step / 2.0
  {
    seq(Count(from, limit, step), i requires 0 <= i => Position(from, step, i) + step / 2.0)
  }

  /** The centre frequencies of one task: from resume up to stop, then from start up to resume. */
  function Plan(c: Sweep, resume: real): seq<real>
    requires c.Valid()
  {
    Centers(resume, c.stop, c.step) + Centers(c.start, resume, c.step)
  }

  // ---------- The request's entry list ----------

  datatype Entry = Entry(step: nat, center: real, bandwidth: real, sampleRate: real, dwellMs: int)

  /** The dwell length in whole milliseconds, at least one. */
  function DwellMs(dwellSamples: nat, sampleRate: real): int
    requires sampleRate > 0.0
  {
    Max(1, (dwellSamples as real * 1000.0 / sampleRate).Floor)
  }

  /** That is: whole milliseconds that fit into the dwell, the next one would not; one if none fits. */
  lemma DwellMsMeans(dwellSamples: nat, sampleRate: real)
    requires sampleRate > 0.0
    ensures
      var ms := DwellMs(dwellSamples, sampleRate);
      && ms >= 1 && dwellSamples as real * 1000.0 < (ms + 1) as real * sampleRate
      && (ms > 1 ==> ms as real * sampleRate <= dwellSamples as real * 1000.0)
  {
    var x := dwellSamples as real * 1000.0;
    var ms := DwellMs(dwellSamples, sampleRate);
    QuotientCompare(ms as real, x, sampleRate);
    QuotientCompare((ms + 1) as real, x, sampleRate);
  }

  lemma NextPosition(from: real, step: real, i: nat)
    ensures Position(from, step, i) + step == Position(from, step, i + 1)
  {
    assert (i + 1) as real * step == i as real * step + step;
  }

  /** One counting loop: append entries while the centre stays within the limit. */
  method AppendEntries(entries: seq<Entry>, from: real, limit: real, step: real, bw: real, sr: real, dwellMs: int)
    returns (out: seq<Entry>)
    requires step > 0.0
    ensures |out| == |entries| + Count(from, limit, step) && out[..|entries|] == entries
    ensures forall i :: 0 <= i < Count(from, limit, step) ==>
      out[|entries| + i] == Entry(|entries| + i, Centers(from, limit, step)[i], bw, sr, dwellMs)
  {
    out := entries;
    var pos := from;
    ghost var n := 0;
    CountExact(from, limit, step, 0);
    while pos + step / 2.0 <= limit
      invariant n <= Count(from, limit, step) && pos == Position(from, step, n)
      invariant n < Count(from, limit, step) <==> pos + step / 2.0 <= limit
      invariant |out| == |entries| + n && out[..|entries|] == entries
      invariant forall i :: 0 <= i < n ==>
        out[|entries| + i] == Entry(|entries| + i, Centers(from, limit, step)[i], bw, sr, dwellMs)
      decreases Count(from, limit, step) - n
    {
      out := out + [Entry(|out|, pos + step / 2.0, bw, sr, dwellMs)];
      NextPosition(from, step, n);
      CountExact(from, limit, step, n + 1);
      pos := pos + step;
      n := n + 1;
    }
  }

  /** buildScanRequest's entries array. */
  method BuildEntries(c: Sweep, resume: real, bw: real, sr: real, dwellSamples: nat) returns (entries: seq<Entry>)
    requires c.Valid() && sr > 0.0
    ensures |entries| == |Plan(c, resume)|
    ensures forall i :: 0 <= i < |entries| ==>
      entries[i] == Entry(i, Plan(c, resume)[i], bw, sr, DwellMs(dwellSamples, sr))
  {
    var dwellMs := Max(1, (dwellSamples as real * 1000.0 / sr).Floor);
    entries := AppendEntries([], resume, c.stop, c.step, bw, sr, dwellMs);
    entries := AppendEntries(entries, c.start, resume, c.step, bw, sr, dwellMs);
  }

  // ---------- Coverage ----------

  /** An entry at centre e observes [e - step/2, e + step/2). */
  predicate Covers(e: real, step: real, f: real) {
    e - step / 2.0 <= f < e + step / 2.0
  }

  /** How many entries of a task observe the frequency f. */
  function CoverCount(cs: seq<real>, step: real, f: real): nat {
    if cs == [] then 0
    else CoverCount(cs[..|cs| - 1], step, f) + if Covers(cs[|cs| - 1], step, f) then 1 else 0
  }

  lemma {:induction false} CoverCountSplit(a: seq<real>, b: seq<real>, step: real, f: real)
    ensures CoverCount(a + b, step, f) == CoverCount(a, step, f) + CoverCount(b, step, f)
  {
    if b == [] {
      assert a + b == a;
    } else {
      assert (a + b)[..|a + b| - 1] == a + b[..|b| - 1];
      CoverCountSplit(a, b[..|b| - 1], step, f);
    }
  }

  /** Consecutive entries tile: each frequency of the tiled stretch is observed once, others never. */
  lemma {:induction false} LoopTiles(cs: seq<real>, from: real, step: real, n: nat, f: real)
    requires step > 0.0 && n <= |cs|
    requires forall i :: 0 <= i < |cs| ==> cs[i] == Position(from, step, i) + step / 2.0
    ensures CoverCount(cs[..n], step, f) == if from <= f < Position(from, step, n) then 1 else 0
    ensures from <= Position(from, step, n)
  {
    if n == 0 {
      assert Position(from, step, 0) == from;
    } else {
      LoopTiles(cs, from, step, n - 1, f);
      NextPosition(from, step, n - 1);
      assert cs[..n][..n - 1] == cs[..n - 1];
    }
  }

  /** Where a loop's coverage ends. */
  function LoopEnd(from: real, limit: real, step: real): real
    requires step > 0.0
  {
    Position(from, step, Count(from, limit, step))
  }

  lemma LoopEndBounds(from: real, limit: real, step: real)
    requires step > 0.0
    ensures LoopEnd(from, limit, step) > limit - step / 2.0
    ensures Count(from, limit, step) > 0 ==> LoopEnd(from, limit, step) <= limit + step / 2.0
    ensures Count(from, limit, step) == 0 ==> LoopEnd(from, limit, step) == from
  {
    var n := Count(from, limit, step);
    CountExact(from, limit, step, n);
    if n > 0 {
      CountExact(from, limit, step, n - 1);
      NextPosition(from, step, n - 1);
    }
  }

  /** How often a task observes f: once for each of its two loops that reaches f. */
  lemma PlanMultiplicity(c: Sweep, resume: real, f: real)
    requires c.Valid()
    ensures CoverCount(Plan(c, resume), c.step, f) ==
      (if resume <= f < LoopEnd(resume, c.stop, c.step) then 1 else 0)
      + (if c.start <= f < LoopEnd(c.start, resume, c.step) then 1 else 0)
  {
    var a, b := Centers(resume, c.stop, c.step), Centers(c.start, resume, c.step);
    LoopTiles(a, resume, c.step, |a|, f);
    LoopTiles(b, c.start, c.step, |b|, f);
    assert a[..|a|] == a && b[..|b|] == b;
    CoverCountSplit(a, b, c.step, f);
  }

  // ---------- The half-step grid ----------

  /** The k-th point of the grid of half steps that begins at start. */
  function Grid(c: Sweep, k: nat): real {
    c.start + k as real * (c.step / 2.0)
  }

  lemma GridStep(c: Sweep, k: nat)
    ensures Grid(c, k + 1) == Grid(c, k) + c.step / 2.0
    ensures Grid(c, k + 2) == Grid(c, k) + c.step
  {
    var h := c.step / 2.0;
    assert (k + 1) as real * h == k as real * h + h;
    assert (k + 2) as real * h == k as real * h + 2.0 * h;
  }

  lemma GridPosition(c: Sweep, j: nat, k: nat)
    ensures Position(Grid(c, k), c.step, j) == Grid(c, k + 2 * j)
  {
    var h := c.step / 2.0;
    var a, b := k as real, j as real;
    assert (k + 2 * j) as real == a + 2.0 * b;
    assert (a + 2.0 * b) * h == a * h + b * (2.0 * h);
  }

  lemma GridFacts(c: Sweep, j: nat, k: nat)
    requires c.step > 0.0
    ensures Grid(c, k + 1) == Grid(c, k) + c.step / 2.0
    ensures Grid(c, k + 2) == Grid(c, k) + c.step
    ensures j <= k <==> Grid(c, j) <= Grid(c, k)
    ensures Position(Grid(c, k), c.step, j) == Grid(c, k + 2 * j)
  {
    GridStep(c, k);
    GridPosition(c, j, k);
    GridOrder(c, j, k);
    hide Grid, Position;
  }

  lemma GridOrder(c: Sweep, j: nat, k: nat)
    requires c.step > 0.0
    ensures j <= k <==> Grid(c, j) <= Grid(c, k)
  {
    var h, a, b := c.step / 2.0, j as real, k as real;
    ScaleCompare(a, b, h);
    assert a * h <= b * h <==> c.start + a * h <= c.start + b * h;
  }

  lemma GridStart(c: Sweep)
    ensures Grid(c, 0) == c.start
  {
  }

  /** The wrapped loop from start up to grid point k has ceil(k/2) entries. */
  lemma WrapCount(c: Sweep, k: nat)
    requires c.Valid()
    ensures Count(c.start, Grid(c, k), c.step) == (k + 1) / 2
    ensures LoopEnd(c.start, Grid(c, k), c.step) == Grid(c, if k % 2 == 0 then k else k + 1)
  {
    var n := (k + 1) / 2;
    hide Count, Grid;
    GridStart(c);
    CountExact(c.start, Grid(c, k), c.step, n);
    GridFacts(c, n, 0);
    GridFacts(c, k, 2 * n);
    GridFacts(c, 2 * n + 1, k);
    if n > 0 {
      CountExact(c.start, Grid(c, k), c.step, n - 1);
      GridFacts(c, n - 1, 0);
      GridFacts(c, k, 2 * n - 2);
      GridFacts(c, 2 * n - 1, k);
    }
  }

  /** A requested centre is a grid point in (start, stop]. */
  ghost predicate OnGrid(c: Sweep, x: real) {
    exists k: nat :: x == Grid(c, k)
  }

  ghost predicate Distinct(cs: seq<real>) {
    forall i, j :: 0 <= i < j < |cs| ==> cs[i] != cs[j]
  }

  /** What every submitted task must give. */
  ghost predicate GoodTask(c: Sweep, cs: seq<real>) {
    && cs != []
    && Distinct(cs)
    && (forall i :: 0 <= i < |cs| ==> c.start < cs[i] <= c.stop && OnGrid(c, cs[i]))
    && (forall f :: CoverCount(cs, c.step, f) <= 2)
    && (forall f :: c.start <= f <= c.stop - c.step / 2.0 ==> CoverCount(cs, c.step, f) >= 1)
  }

  lemma LoopEntries(c: Sweep, k: nat, limit: real, i: nat)
    requires c.Valid() && limit <= c.stop && i < Count(Grid(c, k), limit, c.step)
    ensures
      var e := Centers(Grid(c, k), limit, c.step)[i];
      e == Grid(c, k + 2 * i + 1) && OnGrid(c, e) && Grid(c, k) < e <= limit && c.start < e
  {
    hide Grid;
    CountExact(Grid(c, k), limit, c.step, i);
    GridFacts(c, i, k);
    GridFacts(c, 0, k + 2 * i);
    GridFacts(c, k, k + 2 * i);
    GridStart(c);
  }

  lemma PlanEntries(c: Sweep, k: nat)
    requires c.Valid() && Grid(c, k) < c.stop
    ensures
      var cs := Plan(c, Grid(c, k));
      Distinct(cs) && forall i :: 0 <= i < |cs| ==> c.start < cs[i] <= c.stop && OnGrid(c, cs[i])
  {
    var r := Grid(c, k);
    var a, b := Centers(r, c.stop, c.step), Centers(c.start, r, c.step);
    var cs := Plan(c, r);
    GridStart(c);
    hide Grid, Count;
    forall i | 0 <= i < |cs|
      ensures c.start < cs[i] <= c.stop && OnGrid(c, cs[i])
      ensures i < |a| ==> cs[i] == Grid(c, k + 2 * i + 1) && cs[i] > r
      ensures i >= |a| ==> cs[i] == Grid(c, 2 * (i - |a|) + 1) && cs[i] <= r
    {
      if i < |a| {
        LoopEntries(c, k, c.stop, i);
      } else {
        LoopEntries(c, 0, r, i - |a|);
      }
    }
    forall i, j | 0 <= i < j < |cs| ensures cs[i] != cs[j] {
      if j < |a| {
        GridFacts(c, k + 2 * j + 1, k + 2 * i + 1);
      } else if |a| <= i {
        GridFacts(c, 2 * (j - |a|) + 1, 2 * (i - |a|) + 1);
      }
    }
  }

  /** Where the coverage of the first loop, or failing that of the wrapped one, ends. */
  function CoverEnd(c: Sweep, resume: real): real
    requires c.Valid()
  {
    if Count(resume, c.stop, c.step) > 0 then LoopEnd(resume, c.stop, c.step)
    else LoopEnd(c.start, resume, c.step)
  }

  /** The two stretches a task observes, at grid point k. */
  lemma PlanStretches(c: Sweep, k: nat)
    requires c.Valid() && c.HasRoom() && Grid(c, k) < c.stop
    ensures
      var r, h := Grid(c, k), c.step / 2.0;
      var e1, e2 := LoopEnd(r, c.stop, c.step), LoopEnd(c.start, r, c.step);
      && c.start <= r <= e1 && e2 == (if k % 2 == 0 then r else r + h)
      && (if r + h > c.stop then e1 == r && CoverEnd(c, r) == e2 else e1 > r + h && CoverEnd(c, r) == e1)
  {
    var r := Grid(c, k);
    WrapCount(c, k);
    LoopEndBounds(r, c.stop, c.step);
    CountExact(r, c.stop, c.step, 0);
    assert Position(r, c.step, 0) == r;
    GridStart(c);
    GridFacts(c, 0, k);
    if r + c.step / 2.0 <= c.stop {
      LoopEndBeyondFirst(r, c.stop, c.step);
    }
  }

  lemma LoopEndBeyondFirst(from: real, limit: real, step: real)
    requires step > 0.0 && from + step / 2.0 <= limit
    ensures LoopEnd(from, limit, step) >= from + step
  {
    var n := Count(from, limit, step);
    ScaleCompare(1.0, n as real, step);
  }

  /** Resuming from any grid point in the band gives a good task. */
  lemma PlanIsGood(c: Sweep, k: nat)
    requires c.Valid() && c.HasRoom() && Grid(c, k) < c.stop
    ensures GoodTask(c, Plan(c, Grid(c, k)))
  {
    var r := Grid(c, k);
    var cs := Plan(c, r);
    PlanEntries(c, k);
    PlanStretches(c, k);
    LoopEndBounds(r, c.stop, c.step);
    hide Grid, Count, LoopEnd, CoverCount, Plan, OnGrid, CoverEnd;
    forall f
      ensures CoverCount(cs, c.step, f) <= 2
      ensures c.start <= f <= c.stop - c.step / 2.0 ==> CoverCount(cs, c.step, f) >= 1
    {
      PlanMultiplicity(c, r, f);
    }
    PlanMultiplicity(c, r, c.start);
    NothingCoversNothing(c.step, c.start);
    assert cs != [];
  }

  lemma NothingCoversNothing(step: real, f: real)
    ensures CoverCount([], step, f) == 0
  {
  }

  // ---------- Resuming ----------

  /** next()'s update of resume_hz_ on a packet: one step on, or back to the start past the end. */
  function AfterPacket(c: Sweep, center: real): real {
    if center + c.step >= c.stop then c.start else center + c.step
  }

  /** resume is a grid point in [start, stop). */
  ghost predicate GoodResume(c: Sweep, resume: real) {
    resume < c.stop && OnGrid(c, resume)
  }

  lemma ResumeStaysGood(c: Sweep, center: real)
    requires c.Valid() && OnGrid(c, center)
    ensures GoodResume(c, AfterPacket(c, center))
  {
    var k: nat :| center == Grid(c, k);
    GridFacts(c, 0, k);
    GridStart(c);
    assert c.start == Grid(c, 0);
    assert center + c.step == Grid(c, k + 2);
  }

  lemma StartOnGrid(c: Sweep)
    ensures OnGrid(c, c.start)
  {
    assert c.start == Grid(c, 0);
  }

  datatype Event = Submit | Packet(center: real)

  /** What the client remembers and everything it has asked for so far. */
  datatype Session = Session(resume: real, tasks: seq<seq<real>>)

  function Step(c: Sweep, s: Session, e: Event): Session
    requires c.Valid()
  {
    match e
    case Submit => s.(tasks := s.tasks + [Plan(c, s.resume)])
    case Packet(center) => s.(resume := AfterPacket(c, center))
  }

  function Play(c: Sweep, es: seq<Event>): Session
    requires c.Valid()
  {
    if es == [] then Session(c.start, [])
    else Step(c, Play(c, es[..|es| - 1]), es[|es| - 1])
  }

  predicate Requested(tasks: seq<seq<real>>, center: real) {
    exists i :: 0 <= i < |tasks| && center in tasks[i]
  }

  /** Every packet carries a centre of some task submitted before it, not necessarily the latest. */
  predicate Lawful(c: Sweep, es: seq<Event>)
    requires c.Valid()
  {
    es == [] ||
    var m := |es| - 1;
    Lawful(c, es[..m]) && (es[m].Packet? ==> Requested(Play(c, es[..m]).tasks, es[m].center))
  }

  /**
   * Over any run of submissions, packets, losses and preemptions: resume stays on the half-step grid
   * inside [start, stop), and every task ever submitted is good.
   */
  lemma {:induction false} RunsStayOnGrid(c: Sweep, es: seq<Event>)
    requires c.Valid() && c.HasRoom() && Lawful(c, es)
    ensures GoodResume(c, Play(c, es).resume)
    ensures forall i :: 0 <= i < |Play(c, es).tasks| ==> GoodTask(c, Play(c, es).tasks[i])
  {
    hide GoodTask, OnGrid, Plan;
    if es == [] {
      GridStart(c);
      StartOnGrid(c);
    } else {
      var m := |es| - 1;
      var s := Play(c, es[..m]);
      RunsStayOnGrid(c, es[..m]);
      match es[m]
      case Submit =>
        SubmitIsGood(c, s.resume);
      case Packet(center) =>
        var i :| 0 <= i < |s.tasks| && center in s.tasks[i];
        RequestedOnGrid(c, s.tasks[i], center);
        ResumeStaysGood(c, center);
    }
  }

  lemma SubmitIsGood(c: Sweep, resume: real)
    requires c.Valid() && c.HasRoom() && GoodResume(c, resume)
    ensures GoodTask(c, Plan(c, resume))
  {
    var k: nat :| resume == Grid(c, k);
    PlanIsGood(c, k);
  }

  lemma RequestedOnGrid(c: Sweep, task: seq<real>, center: real)
    requires GoodTask(c, task) && center in task
    ensures OnGrid(c, center)
  {
    var i :| 0 <= i < |task| && task[i] == center;
  }

  /** Room for one entry is exactly what it takes to ask for anything at all. */
  lemma NoRoomNoEntries(c: Sweep)
    requires c.Valid()
    ensures Plan(c, c.start) == [] <==> !c.HasRoom()
  {
    CountExact(c.start, c.stop, c.step, 0);
    CountExact(c.start, c.start, c.step, 0);
    assert Position(c.start, c.step, 0) == c.start;
  }

  /** One packet for every entry of a task, in order. */
  function Packets(centers: seq<real>): (es: seq<Event>)
    ensures |es| == |centers| && forall i :: 0 <= i < |es| ==> es[i] == Packet(centers[i])
  {
    seq(|centers|, i requires 0 <= i < |centers| => Packet(centers[i]))
  }

  /** Receiving every entry of a task, whatever came before, leaves resume where its last entry puts it. */
  lemma {:induction false} SweepReceived(c: Sweep, es: seq<Event>, centers: seq<real>)
    requires c.Valid()
    ensures Play(c, es + Packets(centers)) == Play(c, es).(resume :=
      if centers == [] then Play(c, es).resume else AfterPacket(c, centers[|centers| - 1]))
  {
    if centers == [] {
      assert es + Packets(centers) == es;
    } else {
      var m := |centers| - 1;
      SweepReceived(c, es, centers[..m]);
      assert (es + Packets(centers))[..|es| + m] == es + Packets(centers[..m]);
    }
  }

  /** A full sweep from start, in any run, returns to start. */
  lemma FullSweepReturns(c: Sweep, es: seq<Event>)
    requires c.Valid() && c.HasRoom() && Play(c, es).resume == c.start
    ensures Play(c, es + Packets(Plan(c, c.start))).resume == c.start
  {
    hide Play;
    var n := Count(c.start, c.stop, c.step);
    CountExact(c.start, c.stop, c.step, 0);
    CountExact(c.start, c.start, c.step, 0);
    assert Position(c.start, c.step, 0) == c.start;
    assert Plan(c, c.start) == Centers(c.start, c.stop, c.step);
    CountExact(c.start, c.stop, c.step, n);
    NextPosition(c.start, c.step, n - 1);
    SweepReceived(c, es, Plan(c, c.start));
  }

  /** A full sweep from a later grid point ends in its wrapped part and so moves on, by one or two half steps. */
  lemma WrappedSweepMovesOn(c: Sweep, es: seq<Event>, k: nat)
    requires c.Valid() && k > 0 && Grid(c, k) < c.stop && Play(c, es).resume == Grid(c, k)
    ensures
      var next := Grid(c, if k % 2 == 0 then k + 1 else k + 2);
      Play(c, es + Packets(Plan(c, Grid(c, k)))).resume == if next >= c.stop then c.start else next
  {
    hide Play, Grid;
    var r := Grid(c, k);
    WrapCount(c, k);
    SweepReceived(c, es, Plan(c, r));
    var n := (k + 1) / 2;
    var b := Centers(c.start, r, c.step);
    assert Plan(c, r)[|Plan(c, r)| - 1] == b[n - 1];
    GridStart(c);
    GridFacts(c, n - 1, 0);
    GridFacts(c, 0, 2 * n - 2);
    GridFacts(c, 0, 2 * n - 1);
  }

  // ---------- "Exactly once" ----------

  /** Every frequency of the band is observed exactly once by the task submitted at resume. */
  ghost predicate ExactlyOnce(c: Sweep, resume: real)
    requires c.Valid()
  {
    forall f :: c.start <= f < c.stop ==> CoverCount(Plan(c, resume), c.step, f) == 1
  }

  /** How many steps lie between resume and stop. */
  function StepsAhead(c: Sweep, resume: real): real
    requires c.Valid()
  {
    (c.stop - resume) / c.step
  }

  /** The slices of a loop reach its limit iff they fit exactly or the last one is at least half used. */
  lemma LoopReaches(from: real, limit: real, step: real)
    requires step > 0.0 && from + step / 2.0 <= limit
    ensures
      var x := (limit - from) / step;
      LoopEnd(from, limit, step) >= limit <==> x - x.Floor as real == 0.0 || x - x.Floor as real >= 0.5
  {
    var x, y := (limit - from) / step, (limit - from - step / 2.0) / step;
    HalfStepLess(limit - from, step);
    assert y >= 0.0;
    var n := Count(from, limit, step);
    assert n == y.Floor + 1;
    QuotientCompare(n as real, limit - from, step);
    FloorReaches(x, y, n);
  }

  lemma HalfStepLess(x: real, step: real)
    requires step > 0.0
    ensures (x - step / 2.0) / step == x / step - 0.5
  {
    var q := x / step;
    assert q * step == x;
    assert (q - 0.5) * step == x - step / 2.0;
    QuotientCompare(q - 0.5, x - step / 2.0, step);
  }

  lemma FloorReaches(x: real, y: real, n: int)
    requires y == x - 0.5 && n == y.Floor + 1
    ensures x <= n as real <==> x - x.Floor as real == 0.0 || x - x.Floor as real >= 0.5
  {
    var m := x.Floor;
    FloorIs(y, if x - m as real >= 0.5 then m else m - 1);
  }

  lemma FloorIs(y: real, k: int)
    requires k as real <= y < k as real + 1.0
    ensures y.Floor == k
  {
    FloorCompare(k, y);
    FloorCompare(k + 1, y);
  }

  /**
   * Exactly when that holds. Resuming a whole number of steps above start: the rest of the band is a
   * whole number of steps, or half a step or more beyond one. Resuming half a step off: less than half
   * a step is left.
   */
  lemma ExactlyOnceIff(c: Sweep, k: nat)
    requires c.Valid() && c.HasRoom() && Grid(c, k) < c.stop
    ensures
      var x := StepsAhead(c, Grid(c, k));
      ExactlyOnce(c, Grid(c, k)) <==>
        if k % 2 == 0 then x - x.Floor as real == 0.0 || x - x.Floor as real >= 0.5 else x < 0.5
  {
    hide Grid, Count, LoopEnd, ExactlyOnce, CoverEnd;
    var r := Grid(c, k);
    CoversOnceIff(c, k);
    PlanStretches(c, k);
    QuotientCompare(0.5, c.stop - r, c.step);
    QuotientCompare(0.0, c.stop - r, c.step);
    if r + c.step / 2.0 <= c.stop {
      LoopReaches(r, c.stop, c.step);
    }
  }

  /** The same in terms of the two stretches: the last slice reaches stop, and they do not overlap. */
  lemma CoversOnceIff(c: Sweep, k: nat)
    requires c.Valid() && c.HasRoom() && Grid(c, k) < c.stop
    ensures ExactlyOnce(c, Grid(c, k)) <==>
      && CoverEnd(c, Grid(c, k)) >= c.stop
      && (k % 2 == 0 || Grid(c, k) + c.step / 2.0 > c.stop)
  {
    var r := Grid(c, k);
    PlanStretches(c, k);
    hide Grid, Count, LoopEnd, CoverCount, Plan;
    forall f { PlanMultiplicity(c, r, f); }
    var end := CoverEnd(c, r);
    hide CoverEnd;
    if end < c.stop {
      assert CoverCount(Plan(c, r), c.step, end) == 0;
    } else if k % 2 == 1 && r + c.step / 2.0 <= c.stop {
      assert CoverCount(Plan(c, r), c.step, r) == 2;
    }
  }

  /** The first preemption of a band five steps wide: resume is odd and a half step is swept twice. */
  lemma SweptTwice()
    ensures
      var c := Sweep(0.0, 10.0, 2.0);
      && AfterPacket(c, Plan(c, 0.0)[0]) == 3.0
      && CoverCount(Plan(c, 3.0), c.step, 3.5) == 2
  {
    var c := Sweep(0.0, 10.0, 2.0);
    CountExact(0.0, 10.0, 2.0, 0);
    assert Grid(c, 3) == 3.0;
    WrapCount(c, 3);
    LoopEndBounds(3.0, 10.0, 2.0);
    PlanMultiplicity(c, 3.0, 3.5);
  }
}
