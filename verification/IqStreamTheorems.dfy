/** Whole streams: conservation and size of dwells, the silence rule of next(), and what one datagram does. */
module IqStreamTheorems {
  import opened Prelude
  import opened IqStream
  import ScanPlan

  // ---------- Reassembly over a packet stream ----------

  /**
   * The accumulators and dwells after some packets, with the packets themselves sorted into the
   * group behind each delivered dwell and the packets still held.
   */
  datatype Trace = Trace(asm: Assembly, dwells: seq<Dwell>, groups: seq<seq<Packet>>, held: seq<Packet>)

  function Fresh(cfg: Config): Trace {
    Trace(Blank(cfg.rxChannels), [], [], [])
  }

  predicate Fits(cfg: Config, t: Trace) {
    cfg.Valid() && |t.asm.accum| == cfg.rxChannels
  }

  function Feed(cfg: Config, t: Trace, p: Packet): (r: Trace)
    requires Fits(cfg, t)
    ensures Fits(cfg, r)
  {
    var asm, dwells := AfterPacket(cfg, t.asm, p), t.dwells + Delivered(cfg, t.asm, p);
    if Retunes(t.asm, p) then Trace(asm, dwells, t.groups + [t.held], [p])
    else if Fills(cfg, t.asm, p) then Trace(asm, dwells, t.groups + [t.held + [p]], [])
    else Trace(asm, dwells, t.groups, t.held + [p])
  }

  function Replay(cfg: Config, t: Trace, ps: seq<Packet>): (r: Trace)
    requires Fits(cfg, t)
    ensures Fits(cfg, r)
  {
    if ps == [] then t else Feed(cfg, Replay(cfg, t, ps[..|ps| - 1]), ps[|ps| - 1])
  }

  /** The samples some packets carry for one channel, in order. */
  function SamplesOn(ps: seq<Packet>, ch: nat): seq<Sample> {
    if ps == [] then []
    else SamplesOn(ps[..|ps| - 1], ch) + if ps[|ps| - 1].channel == ch then ps[|ps| - 1].samples else []
  }

  lemma SamplesOnSnoc(ps: seq<Packet>, p: Packet, ch: nat)
    ensures SamplesOn(ps + [p], ch) == SamplesOn(ps, ch) + if p.channel == ch then p.samples else []
  {
    assert (ps + [p])[..|ps|] == ps;
  }

  /** The channels hold exactly the samples of these packets. */
  ghost predicate Holds(n: nat, accum: seq<seq<Sample>>, ps: seq<Packet>) {
    |accum| == n && forall ch :: 0 <= ch < n ==> accum[ch] == SamplesOn(ps, ch)
  }

  lemma InsertHolds(n: nat, accum: seq<seq<Sample>>, ps: seq<Packet>, p: Packet)
    requires Holds(n, accum, ps)
    ensures Holds(n, Insert(accum, p), ps + [p])
  {
    forall ch | 0 <= ch < n ensures Insert(accum, p)[ch] == SamplesOn(ps + [p], ch) {
      SamplesOnSnoc(ps, p, ch);
    }
  }

  /** Dwells and groups belong together, and nothing is lost, duplicated or reordered. */
  ghost predicate Accounted(cfg: Config, t: Trace, ps: seq<Packet>) {
    && Flatten(t.groups) + t.held == ps
    && |t.groups| == |t.dwells|
    && (forall i :: 0 <= i < |t.dwells| ==> Holds(cfg.rxChannels, t.dwells[i].channels, t.groups[i]))
    && Holds(cfg.rxChannels, t.asm.accum, t.held)
  }

  lemma FeedAccounts(cfg: Config, t: Trace, ps: seq<Packet>, p: Packet)
    requires Fits(cfg, t) && Accounted(cfg, t, ps)
    ensures Accounted(cfg, Feed(cfg, t, p), ps + [p])
  {
    var n := cfg.rxChannels;
    InsertHolds(n, t.asm.accum, t.held, p);
    InsertHolds(n, Blank(n).accum, [], p);
    assert Holds(n, Blank(n).accum, []);
    FlattenSnoc(t.groups, t.held);
    FlattenSnoc(t.groups, t.held + [p]);
    hide Holds, Flatten, HasData, Insert;
    assert [] + [p] == [p];
    assert Flatten(t.groups) + (t.held + [p]) == ps + [p];
    if Retunes(t.asm, p) {
    } else if Fills(cfg, t.asm, p) {
    } else {
    }
  }

  lemma FreshAccounted(cfg: Config)
    requires cfg.Valid()
    ensures Accounted(cfg, Fresh(cfg), [])
  {
  }

  /** Every accepted packet ends up, once and in order, in a delivered dwell or in the accumulators. */
  lemma {:induction false} PacketsConserved(cfg: Config, ps: seq<Packet>)
    requires cfg.Valid()
    ensures Accounted(cfg, Replay(cfg, Fresh(cfg), ps), ps)
  {
    hide Accounted, Feed, Blank;
    if ps == [] {
      FreshAccounted(cfg);
    } else {
      var m := |ps| - 1;
      PacketsConserved(cfg, ps[..m]);
      FeedAccounts(cfg, Replay(cfg, Fresh(cfg), ps[..m]), ps[..m], ps[m]);
      assert ps == ps[..m] + [ps[m]];
    }
  }

  /** What one channel received through delivered dwells. */
  function DeliveredOn(dwells: seq<Dwell>, ch: nat): seq<Sample>
    requires forall i :: 0 <= i < |dwells| ==> ch < |dwells[i].channels|
  {
    if dwells == [] then [] else DeliveredOn(dwells[..|dwells| - 1], ch) + dwells[|dwells| - 1].channels[ch]
  }

  lemma {:induction false} SamplesOnSplit(a: seq<Packet>, b: seq<Packet>, ch: nat)
    ensures SamplesOn(a + b, ch) == SamplesOn(a, ch) + SamplesOn(b, ch)
  {
    if b == [] {
      assert a + b == a;
    } else {
      assert (a + b)[..|a + b| - 1] == a + b[..|b| - 1];
      SamplesOnSplit(a, b[..|b| - 1], ch);
    }
  }

  lemma {:induction false} DeliveredIsFlattened(n: nat, dwells: seq<Dwell>, groups: seq<seq<Packet>>, ch: nat)
    requires ch < n && |groups| == |dwells|
    requires forall i :: 0 <= i < |dwells| ==> |dwells[i].channels| == n
    requires forall i :: 0 <= i < |dwells| ==> Holds(n, dwells[i].channels, groups[i])
    ensures DeliveredOn(dwells, ch) == SamplesOn(Flatten(groups), ch)
  {
    if dwells == [] {
    } else {
      var m := |dwells| - 1;
      DeliveredIsFlattened(n, dwells[..m], groups[..m], ch);
      SamplesOnSplit(Flatten(groups[..m]), groups[m], ch);
    }
  }

  /** Per channel: delivered dwells followed by the accumulator are the accepted samples, in order. */
  lemma SamplesConserved(cfg: Config, ps: seq<Packet>, ch: nat)
    requires cfg.Valid() && ch < cfg.rxChannels
    ensures
      var t := Replay(cfg, Fresh(cfg), ps);
      && (forall i :: 0 <= i < |t.dwells| ==> |t.dwells[i].channels| == cfg.rxChannels)
      && DeliveredOn(t.dwells, ch) + t.asm.accum[ch] == SamplesOn(ps, ch)
  {
    var t := Replay(cfg, Fresh(cfg), ps);
    PacketsConserved(cfg, ps);
    DeliveredIsFlattened(cfg.rxChannels, t.dwells, t.groups, ch);
    SamplesOnSplit(Flatten(t.groups), t.held, ch);
  }

  // ---------- Size ----------

  lemma {:induction false} ReplayHasData(cfg: Config, ps: seq<Packet>)
    requires cfg.Valid()
    ensures forall d :: d in Replay(cfg, Fresh(cfg), ps).dwells ==> HasData(d.channels)
  {
    if ps == [] {
    } else {
      var m := |ps| - 1;
      ReplayHasData(cfg, ps[..m]);
      var t := Replay(cfg, Fresh(cfg), ps[..m]);
      if Fills(cfg, t.asm, ps[m]) {
        assert Insert(t.asm.accum, ps[m])[0] != [];
      }
    }
  }

  lemma {:induction false} ReplayBounded(cfg: Config, ps: seq<Packet>, largest: nat)
    requires cfg.Valid() && forall i :: 0 <= i < |ps| ==> |ps[i].samples| <= largest
    ensures
      var t := Replay(cfg, Fresh(cfg), ps);
      var bound := Max(cfg.dwellSamples - 1, largest);
      && |t.asm.accum[0]| <= bound
      && forall i :: 0 <= i < |t.dwells| ==>
        |t.dwells[i].channels| == cfg.rxChannels && |t.dwells[i].channels[0]| <= bound + largest
  {
    if ps == [] {
    } else {
      hide AfterPacket, Delivered, Max;
      var m := |ps| - 1;
      ReplayBounded(cfg, ps[..m], largest);
      StepBounded(cfg, Replay(cfg, Fresh(cfg), ps[..m]).asm, ps[m], largest);
    }
  }

  lemma StepBounded(cfg: Config, a: Assembly, p: Packet, largest: nat)
    requires cfg.Valid() && |a.accum| == cfg.rxChannels && |p.samples| <= largest
    requires |a.accum[0]| <= Max(cfg.dwellSamples - 1, largest)
    ensures |AfterPacket(cfg, a, p).accum[0]| <= Max(cfg.dwellSamples - 1, largest)
    ensures forall d :: d in Delivered(cfg, a, p) ==>
      |d.channels| == cfg.rxChannels && |d.channels[0]| <= Max(cfg.dwellSamples - 1, largest) + largest
  {
    hide HasData;
  }

  // ---------- Calls of next() over an event stream ----------

  /** The packet an event brings, if it brings one. */
  function PacketIn(e: Recv): seq<Packet> {
    if e.Received? && Accepted(e.d) then [PacketOf(e.d)] else []
  }

  function AcceptedIn(events: seq<Recv>): seq<Packet> {
    if events == [] then [] else AcceptedIn(events[..|events| - 1]) + PacketIn(events[|events| - 1])
  }

  lemma {:induction false} AcceptedSplit(a: seq<Recv>, b: seq<Recv>)
    ensures AcceptedIn(a + b) == AcceptedIn(a) + AcceptedIn(b)
  {
    if b == [] {
      assert a + b == a;
    } else {
      assert (a + b)[..|a + b| - 1] == a + b[..|b| - 1];
      AcceptedSplit(a, b[..|b| - 1]);
    }
  }

  lemma {:induction false} ReplaySplit(cfg: Config, t: Trace, a: seq<Packet>, b: seq<Packet>)
    requires Fits(cfg, t)
    ensures Replay(cfg, t, a + b) == Replay(cfg, Replay(cfg, t, a), b)
  {
    if b == [] {
      assert a + b == a;
    } else {
      assert (a + b)[..|a + b| - 1] == a + b[..|b| - 1];
      ReplaySplit(cfg, t, a, b[..|b| - 1]);
    }
  }

  function DwellOf(o: Outcome): seq<Dwell> {
    if o.Got? then [o.dwell] else []
  }

  lemma AcceptedHead(events: seq<Recv>, n: nat)
    requires 0 < n <= |events|
    ensures AcceptedIn(events[..n]) == PacketIn(events[0]) + AcceptedIn(events[1..][..n - 1])
  {
    assert events[..n] == [events[0]] + events[1..][..n - 1];
    AcceptedSplit([events[0]], events[1..][..n - 1]);
    assert [events[0]][..0] == [];
  }

  lemma NothingReplayed(cfg: Config, t: Trace)
    requires Fits(cfg, t)
    ensures AcceptedIn([]) == [] && Replay(cfg, t, []) == t
  {
  }

  /** Replaying the packets of a call, event by event. */
  lemma ReplayHead(cfg: Config, t: Trace, events: seq<Recv>, n: nat)
    requires Fits(cfg, t) && 0 < n <= |events|
    ensures Replay(cfg, t, AcceptedIn(events[..n]))
      == Replay(cfg, Replay(cfg, t, PacketIn(events[0])), AcceptedIn(events[1..][..n - 1]))
    ensures n == 1 ==> Replay(cfg, t, AcceptedIn(events[..n])) == Replay(cfg, t, PacketIn(events[0]))
    ensures !events[0].Received? ==> Replay(cfg, t, PacketIn(events[0])) == t
  {
    AcceptedHead(events, n);
    ReplaySplit(cfg, t, PacketIn(events[0]), AcceptedIn(events[1..][..n - 1]));
    assert events[1..][..0] == [];
  }

  /** Replaying the packets a call consumes gives its accumulators and its dwell. */
  ghost predicate ReplaysAs(cfg: Config, s: State, events: seq<Recv>, quiet: nat, t: Trace)
    requires Fits(cfg, t) && t.asm == s.asm
  {
    var c := Serve(cfg, s, events, quiet);
    var r := Replay(cfg, t, AcceptedIn(events[..c.used]));
    r.asm == c.after.asm && r.dwells == t.dwells + DwellOf(c.outcome)
  }

  lemma StepReplays(cfg: Config, s: State, events: seq<Recv>, quiet: nat, t: Trace, s': State, quiet': nat, t': Trace)
    requires Fits(cfg, t) && t.asm == s.asm && Fits(cfg, t') && t'.asm == s'.asm && events != []
    requires Serve(cfg, s, events, quiet) == Used(Serve(cfg, s', events[1..], quiet'), 1)
    requires t' == Replay(cfg, t, PacketIn(events[0])) && t'.dwells == t.dwells
    requires ReplaysAs(cfg, s', events[1..], quiet', t')
    ensures ReplaysAs(cfg, s, events, quiet, t)
  {
    hide Replay, AcceptedIn, PacketIn, Serve, DwellOf;
    ReplayHead(cfg, t, events, Serve(cfg, s, events, quiet).used);
  }

  lemma EndReplays(cfg: Config, s: State, events: seq<Recv>, quiet: nat, t: Trace)
    requires Fits(cfg, t) && t.asm == s.asm
    requires
      var c := Serve(cfg, s, events, quiet);
      && c.used <= 1
      && if c.used == 0 then c.after == s && !c.outcome.Got?
         else
           var t' := Replay(cfg, t, PacketIn(events[0]));
           t'.asm == c.after.asm && t'.dwells == t.dwells + DwellOf(c.outcome)
    ensures ReplaysAs(cfg, s, events, quiet, t)
  {
    NothingReplayed(cfg, t);
    assert events[..0] == [];
    hide Replay, AcceptedIn, PacketIn, Serve;
    if Serve(cfg, s, events, quiet).used == 1 {
      ReplayHead(cfg, t, events, 1);
    }
  }

  lemma QuietEventReplays(cfg: Config, t: Trace, e: Recv)
    requires Fits(cfg, t) && !e.Received?
    ensures Replay(cfg, t, PacketIn(e)) == t
  {
  }

  /** A call consumes events and does to the accumulators what replaying their packets does. */
  lemma {:induction false} ServeReplays(cfg: Config, s: State, events: seq<Recv>, quiet: nat, t: Trace)
    requires Fits(cfg, t) && t.asm == s.asm
    ensures ReplaysAs(cfg, s, events, quiet, t)
    decreases |events|, 1
  {
    if !s.running || events == [] {
      EndReplays(cfg, s, events, quiet, t);
    } else {
      var rest := events[1..];
      hide ReplaysAs, OnDatagram, DwellsOf, Replay, PacketIn;
      match events[0] {
        case StopRequested =>
          var s' := s.(running := false);
          ServeReplays(cfg, s', rest, quiet, t);
          QuietEventReplays(cfg, t, events[0]);
          StepReplays(cfg, s, events, quiet, t, s', quiet, t);
        case Interrupted =>
          ServeReplays(cfg, s, rest, quiet, t);
          QuietEventReplays(cfg, t, events[0]);
          StepReplays(cfg, s, events, quiet, t, s, quiet, t);
        case Failed =>
          QuietEventReplays(cfg, t, events[0]);
          EndReplays(cfg, s, events, quiet, t);
        case TimedOut =>
          QuietEventReplays(cfg, t, events[0]);
          if quiet + RECV_TIMEOUT_MS < Limit(s.firstTaskPacket) {
            ServeReplays(cfg, s, rest, quiet + RECV_TIMEOUT_MS, t);
            StepReplays(cfg, s, events, quiet, t, s, quiet + RECV_TIMEOUT_MS, t);
          } else {
            EndReplays(cfg, s, events, quiet, t);
          }
        case Received(d) =>
          DatagramServes(cfg, s, events, quiet, t);
      }
    }
  }

  lemma {:induction false} DatagramServes(cfg: Config, s: State, events: seq<Recv>, quiet: nat, t: Trace)
    requires Fits(cfg, t) && t.asm == s.asm
    requires s.running && events != [] && events[0].Received?
    ensures ReplaysAs(cfg, s, events, quiet, t)
    decreases |events|, 0
  {
    var d := events[0].d;
    DatagramReplays(cfg, s, d, t);
    hide ReplaysAs, OnDatagram, DwellsOf, Replay, PacketIn;
    if DwellsOf(cfg, s, d) == [] {
      var t' := Replay(cfg, t, PacketIn(events[0]));
      ServeReplays(cfg, OnDatagram(cfg, s, d), events[1..], 0, t');
      StepReplays(cfg, s, events, quiet, t, OnDatagram(cfg, s, d), 0, t');
    } else {
      EndReplays(cfg, s, events, quiet, t);
    }
  }

  lemma DatagramReplays(cfg: Config, s: State, d: Datagram, t: Trace)
    requires Fits(cfg, t) && t.asm == s.asm
    ensures
      var t' := Replay(cfg, t, PacketIn(Received(d)));
      && t'.asm == OnDatagram(cfg, s, d).asm
      && t'.dwells == t.dwells + DwellsOf(cfg, s, d)
      && |DwellsOf(cfg, s, d)| <= 1
  {
    if Accepted(d) {
      assert [PacketOf(d)][..0] == [];
    }
  }

  /** n calls of next() in a row. */
  datatype Calls = Calls(after: State, used: nat, dwells: seq<Dwell>)

  function CallNext(cfg: Config, s: State, events: seq<Recv>, n: nat): (r: Calls)
    requires cfg.Valid() && |s.asm.accum| == cfg.rxChannels
    ensures r.used <= |events| && |r.after.asm.accum| == cfg.rxChannels
  {
    if n == 0 then Calls(s, 0, [])
    else
      var before := CallNext(cfg, s, events, n - 1);
      var c := Serve(cfg, before.after, events[before.used..], 0);
      Calls(c.after, before.used + c.used, before.dwells + DwellOf(c.outcome))
  }

  /** However the caller slices the stream into calls, dwells and accumulators are those of the replay. */
  lemma {:induction false} CallsReplay(cfg: Config, s: State, events: seq<Recv>, n: nat)
    requires cfg.Valid() && s.asm == Blank(cfg.rxChannels)
    ensures
      var r := CallNext(cfg, s, events, n);
      var t := Replay(cfg, Fresh(cfg), AcceptedIn(events[..r.used]));
      t.asm == r.after.asm && t.dwells == r.dwells
  {
    hide Replay, AcceptedIn, Serve, DwellOf;
    if n == 0 {
      NothingReplayed(cfg, Fresh(cfg));
      assert events[..0] == [];
    } else {
      CallsReplay(cfg, s, events, n - 1);
      var b := CallNext(cfg, s, events, n - 1);
      var c := Serve(cfg, b.after, events[b.used..], 0);
      var r := Calls(c.after, b.used + c.used, b.dwells + DwellOf(c.outcome));
      assert CallNext(cfg, s, events, n) == r;
      hide CallNext;
      CallReplays(cfg, b, events, c, r);
    }
  }

  lemma CallReplays(cfg: Config, b: Calls, events: seq<Recv>, c: Call, r: Calls)
    requires cfg.Valid() && |b.after.asm.accum| == cfg.rxChannels && b.used <= |events|
    requires c == Serve(cfg, b.after, events[b.used..], 0)
    requires r == Calls(c.after, b.used + c.used, b.dwells + DwellOf(c.outcome))
    requires
      var t := Replay(cfg, Fresh(cfg), AcceptedIn(events[..b.used]));
      t.asm == b.after.asm && t.dwells == b.dwells
    ensures
      var t := Replay(cfg, Fresh(cfg), AcceptedIn(events[..r.used]));
      t.asm == r.after.asm && t.dwells == r.dwells
  {
    hide Replay, AcceptedIn, Serve, DwellOf;
    var first, more := events[..b.used], events[b.used..][..c.used];
    ServeReplays(cfg, b.after, events[b.used..], 0, Replay(cfg, Fresh(cfg), AcceptedIn(first)));
    assert events[..r.used] == first + more;
    AcceptedSplit(first, more);
    ReplaySplit(cfg, Fresh(cfg), AcceptedIn(first), AcceptedIn(more));
  }

  /**
   * After one open() and any number of next() calls: per channel, the delivered dwells followed by
   * the accumulator are the samples of the accepted packets consumed, in order.
   */
  lemma StreamConserved(cfg: Config, s: State, events: seq<Recv>, n: nat, ch: nat)
    requires cfg.Valid() && s.asm == Blank(cfg.rxChannels) && ch < cfg.rxChannels
    ensures
      var r := CallNext(cfg, s, events, n);
      && (forall i :: 0 <= i < |r.dwells| ==> |r.dwells[i].channels| == cfg.rxChannels)
      && DeliveredOn(r.dwells, ch) + r.after.asm.accum[ch] == SamplesOn(AcceptedIn(events[..r.used]), ch)
  {
    hide Replay, Serve, SamplesOn, DeliveredOn;
    CallsReplay(cfg, s, events, n);
    SamplesConserved(cfg, AcceptedIn(events[..CallNext(cfg, s, events, n).used]), ch);
  }

  /** Whatever the stream, no call delivers an empty dwell. */
  lemma DwellsHaveData(cfg: Config, s: State, events: seq<Recv>, n: nat)
    requires cfg.Valid() && s.asm == Blank(cfg.rxChannels)
    ensures forall d :: d in CallNext(cfg, s, events, n).dwells ==> HasData(d.channels)
  {
    hide Replay, Serve, CallNext, HasData;
    CallsReplay(cfg, s, events, n);
    ReplayHasData(cfg, AcceptedIn(events[..CallNext(cfg, s, events, n).used]));
  }

  /**
   * Over any stream of frames of at most so many samples, channel 0 never holds more than a dwell short
   * of one sample, or one frame, and no dwell delivers more than one frame beyond that.
   */
  lemma ChannelZeroBounded(cfg: Config, s: State, events: seq<Recv>, n: nat, largest: nat)
    requires cfg.Valid() && s.asm == Blank(cfg.rxChannels)
    requires forall i :: 0 <= i < |events| && events[i].Received? && Accepted(events[i].d) ==>
      events[i].d.numSamples <= largest
    ensures
      var r := CallNext(cfg, s, events, n);
      var bound := Max(cfg.dwellSamples - 1, largest);
      && |r.after.asm.accum[0]| <= bound
      && forall i :: 0 <= i < |r.dwells| ==>
        |r.dwells[i].channels| == cfg.rxChannels && |r.dwells[i].channels[0]| <= bound + largest
  {
    hide Replay, Serve, CallNext, Max;
    var taken := events[..CallNext(cfg, s, events, n).used];
    CallsReplay(cfg, s, events, n);
    AcceptedBounded(taken, largest);
    ReplayBounded(cfg, AcceptedIn(taken), largest);
  }

  lemma {:induction false} AcceptedBounded(events: seq<Recv>, largest: nat)
    requires forall i :: 0 <= i < |events| && events[i].Received? && Accepted(events[i].d) ==>
      events[i].d.numSamples <= largest
    ensures forall i :: 0 <= i < |AcceptedIn(events)| ==> |AcceptedIn(events)[i].samples| <= largest
  {
    if events == [] {
    } else {
      AcceptedBounded(events[..|events| - 1], largest);
    }
  }

  // ---------- Silence ----------

  /** Milliseconds of quiet after these events, starting from q. */
  function QuietMs(events: seq<Recv>, q: nat): nat {
    if events == [] then q
    else match events[0]
      case Received(_) => QuietMs(events[1..], 0)
      case TimedOut => QuietMs(events[1..], q + RECV_TIMEOUT_MS)
      case _ => QuietMs(events[1..], q)
  }

  predicate NoDatagram(events: seq<Recv>) {
    forall i :: 0 <= i < |events| ==> !events[i].Received?
  }

  /** The consecutive time-outs at the end, interruptions and the like not counted. */
  function TrailingTimeouts(events: seq<Recv>): nat {
    if events == [] then 0
    else match events[|events| - 1]
      case Received(_) => 0
      case TimedOut => TrailingTimeouts(events[..|events| - 1]) + 1
      case _ => TrailingTimeouts(events[..|events| - 1])
  }

  lemma {:induction false} QuietSnoc(events: seq<Recv>, e: Recv, q: nat)
    ensures QuietMs(events + [e], q) ==
      match e
      case Received(_) => 0
      case TimedOut => QuietMs(events, q) + RECV_TIMEOUT_MS
      case _ => QuietMs(events, q)
  {
    if events == [] {
      assert [e][1..] == [];
    } else {
      assert (events + [e])[1..] == events[1..] + [e];
      QuietSnoc(events[1..], e, 0);
      QuietSnoc(events[1..], e, q);
      QuietSnoc(events[1..], e, q + RECV_TIMEOUT_MS);
    }
  }

  lemma {:induction false} QuietIsTimeouts(events: seq<Recv>)
    ensures QuietMs(events, 0) == RECV_TIMEOUT_MS * TrailingTimeouts(events)
  {
    if events == [] {
    } else {
      var m := |events| - 1;
      QuietIsTimeouts(events[..m]);
      QuietSnoc(events[..m], events[m], 0);
      assert events == events[..m] + [events[m]];
    }
  }

  /** The number of time-outs a call tolerates, given what it has received. */
  function Budget(first: bool, events: seq<Recv>): nat {
    if first && NoDatagram(events) then 300 else 50
  }

  /** The call is still blocked after these events. */
  predicate StillWaiting(cfg: Config, s: State, events: seq<Recv>, quiet: nat)
    requires cfg.Valid() && |s.asm.accum| == cfg.rxChannels
  {
    Serve(cfg, s, events, quiet).outcome.Waiting?
  }

  /** A call that is still blocked after a prefix goes on from there. */
  lemma {:induction false} ServeFromPrefix(cfg: Config, s: State, events: seq<Recv>, n: nat, quiet: nat)
    requires cfg.Valid() && |s.asm.accum| == cfg.rxChannels
    requires n <= |events| && StillWaiting(cfg, s, events[..n], quiet)
    ensures
      var c := Serve(cfg, s, events[..n], quiet);
      && c.used == n && c.after.running
      && Serve(cfg, s, events, quiet) == Used(Serve(cfg, c.after, events[n..], QuietMs(events[..n], quiet)), n)
    decreases n
  {
    if n == 0 {
      assert events[0..] == events;
    } else {
      var rest := events[1..];
      assert events[..n][1..] == rest[..n - 1] && rest[n - 1..] == events[n..];
      assert events[..n][0] == events[0];
      hide OnDatagram, DwellsOf;
      match events[0] {
        case StopRequested =>
        case Interrupted => ServeFromPrefix(cfg, s, rest, n - 1, quiet);
        case Failed =>
        case TimedOut => ServeFromPrefix(cfg, s, rest, n - 1, quiet + RECV_TIMEOUT_MS);
        case Received(d) => ServeFromPrefix(cfg, OnDatagram(cfg, s, d), rest, n - 1, 0);
      }
    }
  }

  lemma NoDatagramHead(events: seq<Recv>, n: nat)
    requires 0 < n <= |events|
    ensures NoDatagram(events[..n]) <==> !events[0].Received? && NoDatagram(events[1..][..n - 1])
  {
    assert events[..n] == [events[0]] + events[1..][..n - 1];
  }

  /** Until its last event a call is still blocked. */
  lemma {:induction false} BlockedUntilUsed(cfg: Config, s: State, events: seq<Recv>, quiet: nat, m: nat)
    requires cfg.Valid() && |s.asm.accum| == cfg.rxChannels
    requires m < Serve(cfg, s, events, quiet).used
    ensures StillWaiting(cfg, s, events[..m], quiet)
    decreases m
  {
    if m == 0 {
    } else {
      var rest := events[1..];
      assert events[..m][1..] == rest[..m - 1] && events[..m][0] == events[0];
      hide OnDatagram, DwellsOf;
      match events[0] {
        case StopRequested =>
        case Interrupted => BlockedUntilUsed(cfg, s, rest, quiet, m - 1);
        case Failed =>
        case TimedOut => BlockedUntilUsed(cfg, s, rest, quiet + RECV_TIMEOUT_MS, m - 1);
        case Received(d) => BlockedUntilUsed(cfg, OnDatagram(cfg, s, d), rest, 0, m - 1);
      }
    }
  }

  lemma {:induction false} NoDatagramSnoc(events: seq<Recv>)
    requires events != []
    ensures NoDatagram(events) <==> NoDatagram(events[..|events| - 1]) && !events[|events| - 1].Received?
  {
    var m := |events| - 1;
    assert forall i :: 0 <= i < m ==> events[..m][i] == events[i];
  }

  lemma {:induction false} ServeKeepsFlag(cfg: Config, s: State, events: seq<Recv>, quiet: nat)
    requires cfg.Valid() && |s.asm.accum| == cfg.rxChannels
    ensures
      var c := Serve(cfg, s, events, quiet);
      c.after.firstTaskPacket == (s.firstTaskPacket && NoDatagram(events[..c.used]))
    decreases |events|
  {
    var c := Serve(cfg, s, events, quiet);
    if c.used == 0 {
    } else {
      NoDatagramHead(events, c.used);
      hide NoDatagram, OnDatagram, DwellsOf;
      match events[0] {
        case StopRequested => ServeKeepsFlag(cfg, s.(running := false), events[1..], quiet);
        case Interrupted => ServeKeepsFlag(cfg, s, events[1..], quiet);
        case Failed => NothingSeen(events[1..]);
        case TimedOut =>
          NothingSeen(events[1..]);
          if quiet + RECV_TIMEOUT_MS < Limit(s.firstTaskPacket) {
            ServeKeepsFlag(cfg, s, events[1..], quiet + RECV_TIMEOUT_MS);
          }
        case Received(d) => FlagCleared(cfg, s, d); ServeKeepsFlag(cfg, OnDatagram(cfg, s, d), events[1..], 0);
      }
    }
  }

  lemma NothingSeen(events: seq<Recv>)
    ensures NoDatagram(events[..0])
  {
  }

  lemma FlagCleared(cfg: Config, s: State, d: Datagram)
    requires cfg.Valid() && |s.asm.accum| == cfg.rxChannels
    ensures !OnDatagram(cfg, s, d).firstTaskPacket
  {
  }

  lemma BlockedKeepsFlag(cfg: Config, s: State, events: seq<Recv>)
    requires cfg.Valid() && |s.asm.accum| == cfg.rxChannels && StillWaiting(cfg, s, events, 0)
    ensures Serve(cfg, s, events, 0).after.firstTaskPacket == (s.firstTaskPacket && NoDatagram(events))
  {
    assert events[..|events|] == events;
    ServeFromPrefix(cfg, s, events, |events|, 0);
    ServeKeepsFlag(cfg, s, events, 0);
  }

  /** A blocked call has not used up its budget. */
  lemma {:induction false} BlockedWithinBudget(cfg: Config, s: State, events: seq<Recv>)
    requires cfg.Valid() && |s.asm.accum| == cfg.rxChannels
    requires StillWaiting(cfg, s, events, 0)
    ensures TrailingTimeouts(events) < Budget(s.firstTaskPacket, events)
    decreases |events|
  {
    if events == [] {
    } else {
      var m := |events| - 1;
      assert events[..|events|] == events;
      ServeFromPrefix(cfg, s, events, |events|, 0);
      BlockedUntilUsed(cfg, s, events, 0, m);
      ServeFromPrefix(cfg, s, events, m, 0);
      BlockedKeepsFlag(cfg, s, events[..m]);
      BlockedWithinBudget(cfg, s, events[..m]);
      NoDatagramSnoc(events);
      QuietIsTimeouts(events[..m]);
      assert events[m..] == [events[m]];
      hide NoDatagram, OnDatagram, DwellsOf;
    }
  }

  /** The n-th event is the time-out that exhausts the budget of a call that was blocked until then. */
  predicate Exhausts(cfg: Config, s: State, events: seq<Recv>, n: nat)
    requires cfg.Valid() && |s.asm.accum| == cfg.rxChannels && n < |events|
  {
    && StillWaiting(cfg, s, events[..n], 0)
    && events[n].TimedOut?
    && TrailingTimeouts(events[..n]) + 1 == Budget(s.firstTaskPacket, events[..n])
  }

  lemma ExhaustedIsSilent(cfg: Config, s: State, events: seq<Recv>, n: nat)
    requires cfg.Valid() && |s.asm.accum| == cfg.rxChannels && n < |events|
    requires StillWaiting(cfg, s, events[..n], 0) && events[n].TimedOut?
    ensures Exhausts(cfg, s, events, n) <==>
      Serve(cfg, s, events, 0).outcome.Silent? && Serve(cfg, s, events, 0).used == n + 1
  {
    hide NoDatagram, TrailingTimeouts, OnDatagram, DwellsOf, Serve, Budget;
    ServeFromPrefix(cfg, s, events, n, 0);
    BlockedKeepsFlag(cfg, s, events[..n]);
    BlockedWithinBudget(cfg, s, events[..n]);
    QuietIsTimeouts(events[..n]);
    assert events[n..][0] == events[n];
    var c, q := Serve(cfg, s, events[..n], 0), QuietMs(events[..n], 0);
    LimitIsBudget(s.firstTaskPacket, events[..n]);
    NextTimeout(cfg, c.after, events[n..], q);
  }

  lemma LimitIsBudget(first: bool, events: seq<Recv>)
    ensures Limit(first && NoDatagram(events)) == RECV_TIMEOUT_MS * Budget(first, events)
  {
    hide NoDatagram;
  }

  /** A call that has waited q milliseconds and times out again ends there in silence iff its limit is reached. */
  lemma NextTimeout(cfg: Config, s: State, events: seq<Recv>, q: nat)
    requires cfg.Valid() && |s.asm.accum| == cfg.rxChannels && s.running
    requires events != [] && events[0].TimedOut?
    ensures
      var c := Serve(cfg, s, events, q);
      c.outcome.Silent? && c.used == 1 <==> q + RECV_TIMEOUT_MS >= Limit(s.firstTaskPacket)
  {
    hide OnDatagram, DwellsOf, Limit;
    if q + RECV_TIMEOUT_MS < Limit(s.firstTaskPacket) {
      var more := Serve(cfg, s, events[1..], q + RECV_TIMEOUT_MS);
      assert Serve(cfg, s, events, q) == Used(more, 1);
      assert more.outcome.Silent? ==> more.used > 0;
    }
  }

  /**
   * next() declares silence exactly when its last event is the 300th time-out without a datagram
   * before the task's first one, or the 50th after it.
   */
  lemma SilenceIff(cfg: Config, s: State, events: seq<Recv>)
    requires cfg.Valid() && |s.asm.accum| == cfg.rxChannels
    ensures
      var c := Serve(cfg, s, events, 0);
      c.outcome.Silent? <==> 0 < c.used && Exhausts(cfg, s, events, c.used - 1)
  {
    hide Serve, TrailingTimeouts, Budget;
    var c := Serve(cfg, s, events, 0);
    if c.outcome.Silent? {
      SilentEndsInTimeout(cfg, s, events, 0);
    }
    if 0 < c.used && events[c.used - 1].TimedOut? {
      BlockedUntilUsed(cfg, s, events, 0, c.used - 1);
      ExhaustedIsSilent(cfg, s, events, c.used - 1);
    }
  }

  lemma {:induction false} SilentEndsInTimeout(cfg: Config, s: State, events: seq<Recv>, quiet: nat)
    requires cfg.Valid() && |s.asm.accum| == cfg.rxChannels
    requires Serve(cfg, s, events, quiet).outcome.Silent?
    ensures 0 < Serve(cfg, s, events, quiet).used
    ensures events[Serve(cfg, s, events, quiet).used - 1].TimedOut?
    decreases |events|
  {
    hide OnDatagram, DwellsOf;
    match events[0] {
      case StopRequested => SilentEndsInTimeout(cfg, s.(running := false), events[1..], quiet);
      case Interrupted => SilentEndsInTimeout(cfg, s, events[1..], quiet);
      case Failed =>
      case TimedOut =>
        if quiet + RECV_TIMEOUT_MS < Limit(s.firstTaskPacket) {
          SilentEndsInTimeout(cfg, s, events[1..], quiet + RECV_TIMEOUT_MS);
        }
      case Received(d) => SilentEndsInTimeout(cfg, OnDatagram(cfg, s, d), events[1..], 0);
    }
  }

  function WithoutInterrupts(events: seq<Recv>): seq<Recv> {
    if events == [] then []
    else (if events[0].Interrupted? then [] else [events[0]]) + WithoutInterrupts(events[1..])
  }

  /** Signals hitting the thread change nothing: neither how a call ends nor what it leaves behind. */
  lemma {:induction false} InterruptsIgnored(cfg: Config, s: State, events: seq<Recv>, quiet: nat)
    requires cfg.Valid() && |s.asm.accum| == cfg.rxChannels
    ensures
      var c, d := Serve(cfg, s, events, quiet), Serve(cfg, s, WithoutInterrupts(events), quiet);
      c.outcome == d.outcome && c.after == d.after
    decreases |events|
  {
    if !s.running || events == [] {
    } else {
      var rest := events[1..];
      if !events[0].Interrupted? {
        assert WithoutInterrupts(events)[0] == events[0];
        assert WithoutInterrupts(events)[1..] == WithoutInterrupts(rest);
      } else {
        assert WithoutInterrupts(events) == WithoutInterrupts(rest);
      }
      hide OnDatagram, DwellsOf;
      match events[0] {
        case StopRequested => InterruptsIgnored(cfg, s.(running := false), rest, quiet);
        case Interrupted => InterruptsIgnored(cfg, s, rest, quiet);
        case Failed =>
        case TimedOut => InterruptsIgnored(cfg, s, rest, quiet + RECV_TIMEOUT_MS);
        case Received(d) => InterruptsIgnored(cfg, OnDatagram(cfg, s, d), rest, 0);
      }
    }
  }

  /**
   * Across all calls for one task the long allowance lasts until the first datagram, whatever it
   * contains, and never comes back.
   */
  lemma {:induction false} LongAllowanceOnce(cfg: Config, s: State, events: seq<Recv>, n: nat)
    requires cfg.Valid() && |s.asm.accum| == cfg.rxChannels
    ensures
      var r := CallNext(cfg, s, events, n);
      r.after.firstTaskPacket == (s.firstTaskPacket && NoDatagram(events[..r.used]))
  {
    hide NoDatagram, Serve;
    if n == 0 {
      NothingSeen(events);
    } else {
      LongAllowanceOnce(cfg, s, events, n - 1);
      var b := CallNext(cfg, s, events, n - 1);
      var c := Serve(cfg, b.after, events[b.used..], 0);
      FlagAcrossCall(cfg, b.after, s.firstTaskPacket, events, b.used, c);
      assert CallNext(cfg, s, events, n) == Calls(c.after, b.used + c.used, b.dwells + DwellOf(c.outcome));
      hide CallNext;
    }
  }

  lemma FlagAcrossCall(cfg: Config, s: State, first: bool, events: seq<Recv>, used: nat, c: Call)
    requires cfg.Valid() && |s.asm.accum| == cfg.rxChannels && used <= |events|
    requires c == Serve(cfg, s, events[used..], 0)
    requires s.firstTaskPacket == (first && NoDatagram(events[..used]))
    ensures c.after.firstTaskPacket == (first && NoDatagram(events[..used + c.used]))
  {
    hide Serve;
    var rest := events[used..];
    ServeKeepsFlag(cfg, s, rest, 0);
    assert events[..used + c.used] == events[..used] + rest[..c.used];
    NoDatagramSplit(events[..used], rest[..c.used]);
    hide NoDatagram;
  }

  lemma NoDatagramSplit(a: seq<Recv>, b: seq<Recv>)
    ensures NoDatagram(a + b) <==> NoDatagram(a) && NoDatagram(b)
  {
    assert forall i :: 0 <= i < |a| ==> (a + b)[i] == a[i];
    assert forall i :: 0 <= i < |b| ==> (a + b)[|a| + i] == b[i];
  }

  // ---------- What ends a call ----------

  /**
   * A call goes on until its first error or stop, and which of its events was last says how it ended: an
   * error, a stop request, a time-out, or a datagram that completed a dwell.
   */
  lemma {:induction false} CallEndsWith(cfg: Config, s: State, events: seq<Recv>, quiet: nat)
    requires cfg.Valid() && |s.asm.accum| == cfg.rxChannels && s.running
    ensures
      var c := Serve(cfg, s, events, quiet);
      && (forall i :: 0 <= i < c.used - 1 ==> !events[i].Failed? && !events[i].StopRequested?)
      && (c.outcome.Waiting? ==> c.used == |events| && c.after.running)
      && (c.outcome.Broken? <==> c.used > 0 && events[c.used - 1].Failed?)
      && (c.outcome.Stopped? <==> c.used > 0 && events[c.used - 1].StopRequested?)
      && (c.outcome.Silent? ==> c.used > 0 && events[c.used - 1].TimedOut?)
      && (c.outcome.Got? ==> c.used > 0 && events[c.used - 1].Received?)
    decreases |events|
  {
    if events == [] {
    } else {
      hide OnDatagram, DwellsOf, Limit;
      var rest := events[1..];
      match events[0] {
        case StopRequested =>
        case Interrupted => CallEndsWith(cfg, s, rest, quiet);
        case Failed =>
        case TimedOut => CallEndsWith(cfg, s, rest, quiet + RECV_TIMEOUT_MS);
        case Received(d) => RunningKept(cfg, s, d); CallEndsWith(cfg, OnDatagram(cfg, s, d), rest, 0);
      }
    }
  }

  lemma RunningKept(cfg: Config, s: State, d: Datagram)
    requires cfg.Valid() && |s.asm.accum| == cfg.rxChannels
    ensures OnDatagram(cfg, s, d).running == s.running
  {
  }

  // ---------- One datagram ----------

  /** The buffers once a frame's samples have been added to its channel's, if there is one. */
  ghost predicate Appended(before: seq<seq<Sample>>, channel: int, xs: seq<Sample>, after: seq<seq<Sample>>) {
    |after| == |before| &&
    forall c :: 0 <= c < |before| ==> after[c] == before[c] + if c == channel then xs else []
  }

  /**
   * A sound frame, whatever its channel and flag. With the flag, a centre and anything buffered it hands
   * over the buffers under their own centre and starts afresh; otherwise its samples are added, and if
   * channel 0 then has a dwell's worth, everything is handed over under the frame's centre.
   */
  lemma FrameTaken(cfg: Config, s: State, center: nat, n: int, channel: int, flag: bool, payload: seq<Sample>)
    requires cfg.Valid() && |s.asm.accum| == cfg.rxChannels && 0 < n <= |payload| && channel >= 0
    ensures
      var d := Frame(true, center, n, channel, flag, payload);
      var r, dwells, a := OnDatagram(cfg, s, d).asm, DwellsOf(cfg, s, d), s.asm;
      var anything := exists c :: 0 <= c < |a.accum| && a.accum[c] != [];
      var full := |a.accum[0]| + (if channel == 0 then n else 0) >= cfg.dwellSamples;
      var cut := flag && a.center != 0 && anything;
      && (cut ==>
        && dwells == [Dwell(a.center, a.accum)] && r.center == center
        && Appended(seq(cfg.rxChannels, _ => []), channel, payload[..n], r.accum))
      && (!cut && full ==>
        && |dwells| == 1 && dwells[0].center == center
        && Appended(a.accum, channel, payload[..n], dwells[0].channels)
        && r == Assembly(seq(cfg.rxChannels, _ => []), 0))
      && (!cut && !full ==>
        dwells == [] && r.center == center && Appended(a.accum, channel, payload[..n], r.accum))
  {
    var d := Frame(true, center, n, channel, flag, payload);
    assert Accepted(d) && PacketOf(d) == Packet(center, channel, flag, payload[..n]);
    InsertAppends(s.asm.accum, PacketOf(d));
    InsertAppends(Blank(cfg.rxChannels).accum, PacketOf(d));
    assert Blank(cfg.rxChannels).accum == seq(cfg.rxChannels, _ => []);
    hide Insert, Accepted, PacketOf, Genuine;
  }

  lemma InsertAppends(accum: seq<seq<Sample>>, p: Packet)
    ensures Appended(accum, p.channel, p.samples, Insert(accum, p))
  {
  }

  /** Anything else, be it too short, foreign, malformed or truncated, leaves the buffers alone and hands over nothing. */
  lemma FrameDropped(cfg: Config, s: State, d: Datagram)
    requires cfg.Valid() && |s.asm.accum| == cfg.rxChannels
    requires d.Runt? || !d.magicOk || d.numSamples <= 0 || d.channel < 0 || d.numSamples > |d.payload|
    ensures OnDatagram(cfg, s, d).asm == s.asm && DwellsOf(cfg, s, d) == []
  {
  }
}
