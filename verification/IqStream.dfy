/**
 * TaskManagerIqSource::next: reassembling dwells from a lossy packet stream, keeping the resume
 * position, and deciding when the stream has ended.
 */
module IqStream {
  import opened Prelude
  import ScanPlan

  datatype Sample = Sample(re: real, im: real)

  /**
   * One received datagram. A Frame is at least a header long; payload holds the complete samples that
   * follow the header, so a frame is truncated when it declares more samples than that.
   */
  datatype Datagram =
    | Runt
    | Frame(magicOk: bool, center: nat, numSamples: int, channel: int, dwellChange: bool, payload: seq<Sample>)

  /** What happens next: recvfrom's outcomes, or another thread clearing the running flag. */
  datatype Recv = Received(d: Datagram) | Interrupted | TimedOut | Failed | StopRequested

  datatype Packet = Packet(center: nat, channel: nat, change: bool, samples: seq<Sample>)

  datatype Dwell = Dwell(center: nat, channels: seq<seq<Sample>>)

  datatype Config = Config(sweep: ScanPlan.Sweep, rxChannels: nat, dwellSamples: nat) {
    predicate Valid() {
      sweep.Valid() && rxChannels >= 1 && dwellSamples >= 1
    }
  }

  /** A frame with our magic number; only such frames move the resume position. */
  predicate Genuine(d: Datagram) {
    d.Frame? && d.magicOk
  }

  /** A genuine frame with sane header fields and all the samples it declares. */
  predicate Accepted(d: Datagram) {
    Genuine(d) && d.numSamples > 0 && d.channel >= 0 && d.numSamples <= |d.payload|
  }

  function PacketOf(d: Datagram): Packet
    requires Accepted(d)
  {
    Packet(d.center, d.channel, d.dwellChange, d.payload[..d.numSamples])
  }

  // ---------- Reassembly ----------

  /** The per-channel accumulators and the centre they belong to; centre 0 means none yet. */
  datatype Assembly = Assembly(accum: seq<seq<Sample>>, center: nat)

  function Blank(n: nat): (a: Assembly)
    ensures |a.accum| == n && a.center == 0 && forall c :: 0 <= c < n ==> a.accum[c] == []
  {
    Assembly(seq(n, _ => []), 0)
  }

  predicate HasData(accum: seq<seq<Sample>>) {
    exists c :: 0 <= c < |accum| && accum[c] != []
  }

  function Insert(accum: seq<seq<Sample>>, p: Packet): (r: seq<seq<Sample>>)
    ensures |r| == |accum|
  {
    if p.channel < |accum| then accum[p.channel := accum[p.channel] + p.samples] else accum
  }

  /** A retune flag closes the dwell in hand, if it has a centre and any data. */
  predicate Retunes(a: Assembly, p: Packet) {
    p.change && a.center != 0 && HasData(a.accum)
  }

  predicate Fills(cfg: Config, a: Assembly, p: Packet)
    requires cfg.Valid() && |a.accum| == cfg.rxChannels
  {
    !Retunes(a, p) && |Insert(a.accum, p)[0]| >= cfg.dwellSamples
  }

  function AfterPacket(cfg: Config, a: Assembly, p: Packet): (r: Assembly)
    requires cfg.Valid() && |a.accum| == cfg.rxChannels
    ensures |r.accum| == cfg.rxChannels
  {
    if Retunes(a, p) then Assembly(Insert(Blank(cfg.rxChannels).accum, p), p.center)
    else if Fills(cfg, a, p) then Blank(cfg.rxChannels)
    else Assembly(Insert(a.accum, p), p.center)
  }

  function Delivered(cfg: Config, a: Assembly, p: Packet): seq<Dwell>
    requires cfg.Valid() && |a.accum| == cfg.rxChannels
  {
    if Retunes(a, p) then [Dwell(a.center, a.accum)]
    else if Fills(cfg, a, p) then [Dwell(p.center, Insert(a.accum, p))]
    else []
  }

  // ---------- One call of next() ----------

  const INITIAL_TIMEOUT_MS: nat := 30000
  const STREAM_TIMEOUT_MS: nat := 5000
  const RECV_TIMEOUT_MS: nat := 100

  datatype State = State(asm: Assembly, resume: real, firstTaskPacket: bool, running: bool)

  /** How a call ends; Waiting means the recorded events ran out while it was still blocked. */
  datatype Outcome = Got(dwell: Dwell) | Stopped | Silent | Broken | Waiting

  datatype Call = Call(after: State, used: nat, outcome: Outcome)

  function Limit(first: bool): nat {
    if first then INITIAL_TIMEOUT_MS else STREAM_TIMEOUT_MS
  }

  /** The state after a datagram, before any dwell is handed over. */
  function OnDatagram(cfg: Config, s: State, d: Datagram): (r: State)
    requires cfg.Valid() && |s.asm.accum| == cfg.rxChannels
    ensures |r.asm.accum| == cfg.rxChannels
  {
    State(
      if Accepted(d) then AfterPacket(cfg, s.asm, PacketOf(d)) else s.asm,
      if Genuine(d) then ScanPlan.AfterPacket(cfg.sweep, d.center as real) else s.resume,
      false,
      s.running)
  }

  function DwellsOf(cfg: Config, s: State, d: Datagram): seq<Dwell>
    requires cfg.Valid() && |s.asm.accum| == cfg.rxChannels
  {
    if Accepted(d) then Delivered(cfg, s.asm, PacketOf(d)) else []
  }

  function Used(c: Call, n: nat): Call {
    c.(used := c.used + n)
  }

  /** What a call does with the events ahead of it, having waited quiet milliseconds already. */
  function Serve(cfg: Config, s: State, events: seq<Recv>, quiet: nat): (c: Call)
    requires cfg.Valid() && |s.asm.accum| == cfg.rxChannels
    ensures c.used <= |events| && |c.after.asm.accum| == cfg.rxChannels
    decreases |events|
  {
    if !s.running then Call(s, 0, Stopped)
    else if events == [] then Call(s, 0, Waiting)
    else match events[0]
      case StopRequested => Used(Serve(cfg, s.(running := false), events[1..], quiet), 1)
      case Interrupted => Used(Serve(cfg, s, events[1..], quiet), 1)
      case Failed => Call(s, 1, Broken)
      case TimedOut =>
        if quiet + RECV_TIMEOUT_MS >= Limit(s.firstTaskPacket) then Call(s, 1, Silent)
        else Used(Serve(cfg, s, events[1..], quiet + RECV_TIMEOUT_MS), 1)
      case Received(d) =>
        if DwellsOf(cfg, s, d) != [] then Call(OnDatagram(cfg, s, d), 1, Got(DwellsOf(cfg, s, d)[0]))
        else Used(Serve(cfg, OnDatagram(cfg, s, d), events[1..], 0), 1)
  }

  class IqSource {
    const cfg: Config
    var accum: seq<seq<Sample>>
    var currentCenter: nat
    var resume: real
    var firstTaskPacket: bool
    var running: bool
    /** What the socket and the other threads will bring, oldest first. */
    var inbox: seq<Recv>

    ghost predicate Valid()
      reads this
    {
      cfg.Valid() && |accum| == cfg.rxChannels
    }

    function Snapshot(): State
      reads this
    {
      State(Assembly(accum, currentCenter), resume, firstTaskPacket, running)
    }

    constructor (cfg: Config, inbox: seq<Recv>)
      requires cfg.Valid()
      ensures Valid() && this.cfg == cfg && this.inbox == inbox
      ensures Snapshot() == State(Blank(cfg.rxChannels), cfg.sweep.start, true, false)
    {
      this.cfg, this.inbox := cfg, inbox;
      accum, currentCenter := Blank(cfg.rxChannels).accum, 0;
      resume, firstTaskPacket, running := cfg.sweep.start, true, false;
    }

    method ResetAccum()
      requires cfg.Valid()
      modifies `accum, `currentCenter
      ensures Assembly(accum, currentCenter) == Blank(cfg.rxChannels)
    {
      accum := seq(cfg.rxChannels, _ => []);
      currentCenter := 0;
    }

    /** The part of open() that concerns the stream: a fresh task starts from nothing. */
    method BeginTask()
      requires Valid()
      modifies this
      ensures Valid() && inbox == old(inbox)
      ensures Snapshot() == State(Blank(cfg.rxChannels), old(resume), true, true)
    {
      ResetAccum();
      firstTaskPacket := true;
      running := true;
    }

    /** Buffer an accepted packet, handing over a dwell when the packet completes one. */
    method Absorb(p: Packet) returns (ready: seq<Dwell>)
      requires Valid()
      modifies `accum, `currentCenter
      ensures Valid() && ready == Delivered(cfg, old(Snapshot()).asm, p)
      ensures Snapshot().asm == AfterPacket(cfg, old(Snapshot()).asm, p)
    {
      ready := [];
      if p.change && currentCenter != 0 && HasData(accum) {
        ready := [Dwell(currentCenter, accum)];
        ResetAccum();
        currentCenter := p.center;
        accum := Insert(accum, p);
        return;
      }
      currentCenter := p.center;
      accum := Insert(accum, p);
      if |accum[0]| >= cfg.dwellSamples {
        ready := [Dwell(currentCenter, accum)];
        ResetAccum();
      }
    }

    /** A datagram has arrived: note where the sweep is, and buffer the samples if the frame is sound. */
    method Accept(d: Datagram) returns (ready: seq<Dwell>)
      requires Valid()
      modifies this
      ensures Valid() && inbox == old(inbox)
      ensures Snapshot() == OnDatagram(cfg, old(Snapshot()), d) && ready == DwellsOf(cfg, old(Snapshot()), d)
    {
      hide Delivered, AfterPacket;
      ready := [];
      firstTaskPacket := false;
      if Genuine(d) {
        var next := d.center as real + cfg.sweep.step;
        resume := if next >= cfg.sweep.stop then cfg.sweep.start else next;
      }
      if Accepted(d) {
        ready := Absorb(PacketOf(d));
      }
    }

    /** next(): loop over receive outcomes until a dwell is complete or the call gives up. */
    method Next() returns (outcome: Outcome)
      requires Valid()
      modifies this
      ensures Valid()
      ensures
        var c := Serve(cfg, old(Snapshot()), old(inbox), 0);
        Snapshot() == c.after && outcome == c.outcome && inbox == old(inbox)[c.used..]
    {
      hide OnDatagram, DwellsOf;
      var noDataMs: nat := 0;
      ghost var used := 0;
      while running
        invariant Valid() && used <= |old(inbox)| && inbox == old(inbox)[used..]
        invariant Used(Serve(cfg, Snapshot(), inbox, noDataMs), used) == Serve(cfg, old(Snapshot()), old(inbox), 0)
        decreases |inbox|, running
      {
        if inbox == [] {
          return Waiting;
        }
        var event := inbox[0];
        inbox := inbox[1..];
        used := used + 1;
        match event {
          case StopRequested =>
            running := false;
          case Interrupted =>
          case Failed =>
            return Broken;
          case TimedOut =>
            noDataMs := noDataMs + RECV_TIMEOUT_MS;
            var limit := if firstTaskPacket then INITIAL_TIMEOUT_MS else STREAM_TIMEOUT_MS;
            if noDataMs >= limit {
              return Silent;
            }
          case Received(d) =>
            noDataMs := 0;
            var ready := Accept(d);
            if ready != [] {
              return Got(ready[0]);
            }
        }
      }
      return Stopped;
    }
  }
}
