/**
 * When a dwell holds the samples of a single frequency position: exactly when no packet without the
 * retune flag meets buffered samples of another centre.
 */
module IqPurity {
  import opened Prelude
  import opened IqStream
  import opened IqStreamTheorems

  // ---------- What is pure ----------

  /** Every packet has samples; accepted frames always do. */
  predicate Substantial(ps: seq<Packet>) {
    forall i :: 0 <= i < |ps| ==> ps[i].samples != []
  }

  /** No packet has centre 0, which stands for none yet. */
  predicate Centred(ps: seq<Packet>) {
    forall i :: 0 <= i < |ps| ==> ps[i].center != 0
  }

  /** All packets that have a buffer come from this centre. */
  predicate Pure(n: nat, ps: seq<Packet>, center: nat) {
    forall i :: 0 <= i < |ps| && ps[i].channel < n ==> ps[i].center == center
  }

  /** Every delivered dwell, and what is buffered, comes from the centre it is labelled with. */
  ghost predicate AllPure(n: nat, t: Trace) {
    && |t.groups| == |t.dwells|
    && (forall i :: 0 <= i < |t.dwells| ==> Pure(n, t.groups[i], t.dwells[i].center))
    && Pure(n, t.held, t.asm.center)
  }

  /** The current centre is that of the packet buffered last. */
  ghost predicate Labelled(t: Trace) {
    t.asm.center == if t.held == [] then 0 else t.held[|t.held| - 1].center
  }

  lemma {:induction false} ReplayLabelled(cfg: Config, ps: seq<Packet>)
    requires cfg.Valid()
    ensures Labelled(Replay(cfg, Fresh(cfg), ps))
  {
    if ps == [] {
    } else {
      ReplayLabelled(cfg, ps[..|ps| - 1]);
    }
  }

  lemma BufferedMeansData(n: nat, accum: seq<seq<Sample>>, ps: seq<Packet>)
    requires Holds(n, accum, ps) && Substantial(ps) && !HasData(accum)
    ensures forall i :: 0 <= i < |ps| ==> ps[i].channel >= n
  {
    forall i | 0 <= i < |ps| ensures ps[i].channel >= n {
      SamplesAppear(ps, i);
    }
  }

  lemma {:induction false} SamplesAppear(ps: seq<Packet>, i: nat)
    requires i < |ps| && ps[i].samples != []
    ensures SamplesOn(ps, ps[i].channel) != []
  {
    if i == |ps| - 1 {
    } else {
      SamplesAppear(ps[..|ps| - 1], i);
    }
  }

  // ---------- One packet ----------

  lemma HeldInherits(groups: seq<seq<Packet>>, held: seq<Packet>, ps: seq<Packet>)
    requires Flatten(groups) + held == ps
    ensures Substantial(ps) ==> Substantial(held)
    ensures Centred(ps) ==> Centred(held)
    ensures held != [] ==> ps != [] && held[|held| - 1] == ps[|ps| - 1]
  {
    assert forall i :: 0 <= i < |held| ==> held[i] == ps[|Flatten(groups)| + i];
  }

  /** A flagged packet that causes no hand-over meets no samples, so there is nothing to mix with. */
  lemma NothingToMix(cfg: Config, t: Trace, ps: seq<Packet>, p: Packet)
    requires Fits(cfg, t) && Accounted(cfg, t, ps) && Labelled(t)
    requires Substantial(ps) && Centred(ps) && p.change && !Retunes(t.asm, p)
    ensures Pure(cfg.rxChannels, t.held, p.center)
  {
    hide Flatten, HasData, Holds;
    HeldInherits(t.groups, t.held, ps);
    if t.held == [] {
    } else {
      assert !HasData(t.asm.accum);
      BufferedMeansData(cfg.rxChannels, t.asm.accum, t.held);
    }
  }

  lemma PureSnoc(n: nat, ps: seq<Packet>, p: Packet)
    ensures Pure(n, ps + [p], p.center) <==> Pure(n, ps, p.center)
  {
    assert forall i :: 0 <= i < |ps| ==> (ps + [p])[i] == ps[i];
  }

  /** What one packet does to purity: it is kept iff the packet is flagged or agrees with all that is buffered. */
  lemma FeedPurity(cfg: Config, t: Trace, ps: seq<Packet>, p: Packet)
    requires Fits(cfg, t) && Accounted(cfg, t, ps) && Labelled(t) && AllPure(cfg.rxChannels, t)
    requires Substantial(ps) && Centred(ps)
    ensures AllPure(cfg.rxChannels, Feed(cfg, t, p)) <==> p.change || Pure(cfg.rxChannels, t.held, p.center)
  {
    var n := cfg.rxChannels;
    PureSnoc(n, t.held, p);
    PureSnoc(n, [], p);
    assert [] + [p] == [p];
    if p.change && !Retunes(t.asm, p) {
      NothingToMix(cfg, t, ps, p);
    }
    FeedGroups(cfg, t, p);
    hide Accounted, Substantial, Centred, HasData, Insert, Pure, Feed;
    NothingIsPure(n);
  }

  lemma NothingIsPure(n: nat)
    ensures forall center :: Pure(n, [], center)
  {
  }

  /** Where a packet goes, as far as purity is concerned. */
  lemma FeedGroups(cfg: Config, t: Trace, p: Packet)
    requires Fits(cfg, t) && |t.groups| == |t.dwells|
    ensures
      var r := Feed(cfg, t, p);
      if Retunes(t.asm, p) then
        && r.groups == t.groups + [t.held] && r.held == [p] && r.asm.center == p.center
        && |r.dwells| == |t.dwells| + 1 && r.dwells[..|t.dwells|] == t.dwells
        && r.dwells[|t.dwells|].center == t.asm.center
      else if Fills(cfg, t.asm, p) then
        && r.groups == t.groups + [t.held + [p]] && r.held == [] && r.asm.center == 0
        && |r.dwells| == |t.dwells| + 1 && r.dwells[..|t.dwells|] == t.dwells
        && r.dwells[|t.dwells|].center == p.center
      else
        r.groups == t.groups && r.dwells == t.dwells && r.held == t.held + [p] && r.asm.center == p.center
  {
    hide HasData, Insert;
  }

  // ---------- A stream of packets ----------

  /** All is pure after the first k packets. */
  ghost predicate PureAt(cfg: Config, ps: seq<Packet>, k: nat)
    requires cfg.Valid() && k <= |ps|
  {
    AllPure(cfg.rxChannels, Replay(cfg, Fresh(cfg), ps[..k]))
  }

  /** Packet i is not flagged as a retune and meets buffered samples of another centre. */
  ghost predicate MixesAt(cfg: Config, ps: seq<Packet>, i: nat)
    requires cfg.Valid() && i < |ps|
  {
    !ps[i].change && !Pure(cfg.rxChannels, Replay(cfg, Fresh(cfg), ps[..i]).held, ps[i].center)
  }

  /** The next packet, in terms of the stream. */
  lemma NextPurity(cfg: Config, ps: seq<Packet>, i: nat)
    requires cfg.Valid() && Substantial(ps) && Centred(ps) && i < |ps| && PureAt(cfg, ps, i)
    ensures PureAt(cfg, ps, i + 1) <==> !MixesAt(cfg, ps, i)
  {
    var front := ps[..i];
    assert Substantial(front) && Centred(front);
    hide Substantial, Centred, Pure, AllPure, Feed;
    assert ps[..i + 1][..i] == front;
    PacketsConserved(cfg, front);
    ReplayLabelled(cfg, front);
    FeedPurity(cfg, Replay(cfg, Fresh(cfg), front), front, ps[i]);
  }

  lemma BeginsPure(cfg: Config, ps: seq<Packet>)
    requires cfg.Valid()
    ensures PureAt(cfg, ps, 0)
  {
  }

  /** Up to packet k, all has been pure at every moment iff no packet has mixed anything. */
  lemma {:induction false} PureUntilIff(cfg: Config, ps: seq<Packet>, k: nat)
    requires cfg.Valid() && Substantial(ps) && Centred(ps) && k <= |ps|
    ensures (forall j :: 0 <= j <= k ==> PureAt(cfg, ps, j)) <==> (forall i :: 0 <= i < k ==> !MixesAt(cfg, ps, i))
  {
    hide Substantial, Centred, PureAt, MixesAt;
    if k == 0 {
      BeginsPure(cfg, ps);
    } else {
      PureUntilIff(cfg, ps, k - 1);
      if PureAt(cfg, ps, k - 1) {
        NextPurity(cfg, ps, k - 1);
      }
    }
  }

  /**
   * Exactly when every dwell, delivered or under way, holds one frequency position at every moment:
   * no packet without the retune flag arrives while samples of another centre are buffered.
   */
  lemma AlwaysPureIff(cfg: Config, ps: seq<Packet>)
    requires cfg.Valid() && Substantial(ps) && Centred(ps)
    ensures (forall k :: 0 <= k <= |ps| ==> PureAt(cfg, ps, k)) <==> (forall i :: 0 <= i < |ps| ==> !MixesAt(cfg, ps, i))
  {
    PureUntilIff(cfg, ps, |ps|);
  }

  // ---------- Purity once lost ----------

  predicate OnRealChannels(n: nat, ps: seq<Packet>) {
    forall i :: 0 <= i < |ps| ==> ps[i].channel < n
  }

  lemma MixedStaysMixed(n: nat, held: seq<Packet>, p: Packet)
    requires held != [] && OnRealChannels(n, held) && !Pure(n, held, held[|held| - 1].center)
    ensures !Pure(n, held + [p], p.center)
  {
    var i :| 0 <= i < |held| && held[i].center != held[|held| - 1].center;
    assert (held + [p])[i] == held[i] && (held + [p])[|held| - 1] == held[|held| - 1];
  }

  lemma HeldOnRealChannels(n: nat, groups: seq<seq<Packet>>, held: seq<Packet>, ps: seq<Packet>)
    requires Flatten(groups) + held == ps && OnRealChannels(n, ps)
    ensures OnRealChannels(n, held)
  {
    assert forall i :: 0 <= i < |held| ==> held[i] == ps[|Flatten(groups)| + i];
  }

  lemma LostPurity(cfg: Config, t: Trace, ps: seq<Packet>, p: Packet)
    requires Fits(cfg, t) && Accounted(cfg, t, ps) && Labelled(t) && !AllPure(cfg.rxChannels, t)
    requires OnRealChannels(cfg.rxChannels, ps)
    ensures !AllPure(cfg.rxChannels, Feed(cfg, t, p))
  {
    var n := cfg.rxChannels;
    FeedGroups(cfg, t, p);
    HeldOnRealChannels(n, t.groups, t.held, ps);
    hide Feed, OnRealChannels, HasData, Insert;
    if i :| 0 <= i < |t.dwells| && !Pure(n, t.groups[i], t.dwells[i].center) {
      var r := Feed(cfg, t, p);
      assert r.dwells[i] == t.dwells[i] && r.groups[i] == t.groups[i];
    } else {
      assert !Pure(n, t.held, t.asm.center) && t.held != [];
      MixedStaysMixed(n, t.held, p);
    }
    hide Pure, Accounted;
  }

  /** When every packet has a buffer, a mixture never heals: the dwells of any moment tell whether one occurred. */
  lemma {:induction false} PureNowIff(cfg: Config, ps: seq<Packet>, k: nat)
    requires cfg.Valid() && Substantial(ps) && Centred(ps) && OnRealChannels(cfg.rxChannels, ps) && k <= |ps|
    ensures PureAt(cfg, ps, k) <==> forall i :: 0 <= i < k ==> !MixesAt(cfg, ps, i)
  {
    hide Substantial, Centred, PureAt, MixesAt, OnRealChannels;
    if k == 0 {
      BeginsPure(cfg, ps);
    } else {
      PureNowIff(cfg, ps, k - 1);
      if PureAt(cfg, ps, k - 1) {
        NextPurity(cfg, ps, k - 1);
      } else {
        StillMixed(cfg, ps, k - 1);
      }
    }
  }

  lemma StillMixed(cfg: Config, ps: seq<Packet>, i: nat)
    requires cfg.Valid() && OnRealChannels(cfg.rxChannels, ps) && i < |ps| && !PureAt(cfg, ps, i)
    ensures !PureAt(cfg, ps, i + 1)
  {
    var front := ps[..i];
    assert OnRealChannels(cfg.rxChannels, front);
    hide OnRealChannels, AllPure, Feed;
    assert ps[..i + 1][..i] == front;
    PacketsConserved(cfg, front);
    ReplayLabelled(cfg, front);
    LostPurity(cfg, Replay(cfg, Fresh(cfg), front), front, ps[i]);
  }

  // ---------- Announced retunes ----------

  /** Every change of centre is announced by its first packet. */
  predicate Announced(ps: seq<Packet>) {
    forall i :: 0 < i < |ps| && ps[i].center != ps[i - 1].center ==> ps[i].change
  }

  lemma {:induction false} AnnouncedMixesNothing(cfg: Config, ps: seq<Packet>, k: nat)
    requires cfg.Valid() && Substantial(ps) && Centred(ps) && Announced(ps) && k <= |ps|
    ensures PureAt(cfg, ps, k) && forall i :: 0 <= i < k ==> !MixesAt(cfg, ps, i)
  {
    if k == 0 {
      BeginsPure(cfg, ps);
    } else {
      AnnouncedMixesNothing(cfg, ps, k - 1);
      AnnouncedAgrees(cfg, ps, k - 1);
      hide Substantial, Centred, Announced, PureAt, MixesAt;
      NextPurity(cfg, ps, k - 1);
    }
  }

  /** An unflagged packet of an announced stream has the centre of the packet before it, and so of all that is buffered. */
  lemma AnnouncedAgrees(cfg: Config, ps: seq<Packet>, i: nat)
    requires cfg.Valid() && Announced(ps) && i < |ps| && PureAt(cfg, ps, i)
    ensures !MixesAt(cfg, ps, i)
  {
    hide Accounted, Replay;
    var front := ps[..i];
    var t := Replay(cfg, Fresh(cfg), front);
    PacketsConserved(cfg, front);
    ReplayLabelled(cfg, front);
    AccountedHeld(cfg, t, front);
  }

  lemma AccountedHeld(cfg: Config, t: Trace, ps: seq<Packet>)
    requires Accounted(cfg, t, ps)
    ensures t.held != [] ==> ps != [] && t.held[|t.held| - 1] == ps[|ps| - 1]
  {
    HeldInherits(t.groups, t.held, ps);
  }

  // ---------- Calls of next() ----------

  lemma {:induction false} AcceptedSubstantial(events: seq<Recv>)
    ensures Substantial(AcceptedIn(events))
  {
    if events == [] {
    } else {
      AcceptedSubstantial(events[..|events| - 1]);
    }
  }

  /** The packets that n calls of next() take. */
  function Taken(cfg: Config, s: State, events: seq<Recv>, n: nat): seq<Packet>
    requires cfg.Valid() && |s.asm.accum| == cfg.rxChannels
  {
    AcceptedIn(events[..CallNext(cfg, s, events, n).used])
  }

  /**
   * Over any number of calls on any stream with non-zero centres: dwells and buffers are pure throughout
   * iff none of the packets taken mixes; the dwells delivered are those judged.
   */
  lemma StreamPureIff(cfg: Config, s: State, events: seq<Recv>, n: nat)
    requires cfg.Valid() && s.asm == Blank(cfg.rxChannels) && Centred(Taken(cfg, s, events, n))
    ensures
      var r, ps := CallNext(cfg, s, events, n), Taken(cfg, s, events, n);
      var t := Replay(cfg, Fresh(cfg), ps);
      && t.dwells == r.dwells && t.asm == r.after.asm && Accounted(cfg, t, ps)
      && ((forall k :: 0 <= k <= |ps| ==> PureAt(cfg, ps, k)) <==> (forall i :: 0 <= i < |ps| ==> !MixesAt(cfg, ps, i)))
  {
    hide Replay, Serve, CallNext, Centred, Accounted, PureAt, MixesAt;
    var ps := Taken(cfg, s, events, n);
    CallsReplay(cfg, s, events, n);
    AcceptedSubstantial(events[..CallNext(cfg, s, events, n).used]);
    PacketsConserved(cfg, ps);
    AlwaysPureIff(cfg, ps);
  }

  /** If the stream announces its retunes, every dwell delivered by any call is pure and non-empty. */
  lemma StreamPure(cfg: Config, s: State, events: seq<Recv>, n: nat)
    requires cfg.Valid() && s.asm == Blank(cfg.rxChannels)
    requires Centred(Taken(cfg, s, events, n)) && Announced(Taken(cfg, s, events, n))
    ensures
      var r, ps := CallNext(cfg, s, events, n), Taken(cfg, s, events, n);
      var t := Replay(cfg, Fresh(cfg), ps);
      && t.dwells == r.dwells && Accounted(cfg, t, ps) && AllPure(cfg.rxChannels, t)
      && forall d :: d in r.dwells ==> HasData(d.channels)
  {
    hide Replay, Serve, CallNext, Centred, Announced, Accounted, AllPure, HasData;
    var ps := Taken(cfg, s, events, n);
    CallsReplay(cfg, s, events, n);
    AcceptedSubstantial(events[..CallNext(cfg, s, events, n).used]);
    PacketsConserved(cfg, ps);
    AnnouncedMixesNothing(cfg, ps, |ps|);
    assert ps[..|ps|] == ps;
    DwellsHaveData(cfg, s, events, n);
  }

  // ---------- A lost announcement ----------

  /** An unflagged frame for channel 0. */
  function Unflagged(center: nat, xs: seq<Sample>): Recv {
    Received(Frame(true, center, |xs|, 0, false, xs))
  }

  /**
   * When the flagged first packet of a retune is lost, the dwell in hand goes on with the new centre's
   * samples and is delivered under its label: whatever the centres, the receiver and the dwell length.
   */
  lemma LostAnnouncementMixes(cfg: Config, s: State, a: nat, b: nat, xs: seq<Sample>, ys: seq<Sample>)
    requires cfg.Valid() && s.asm == Blank(cfg.rxChannels) && s.running
    requires xs != [] && ys != [] && |xs| < cfg.dwellSamples <= |xs| + |ys|
    ensures
      var r := CallNext(cfg, s, [Unflagged(a, xs), Unflagged(b, ys)], 1);
      && |r.dwells| == 1 && r.dwells[0].center == b
      && |r.dwells[0].channels| == cfg.rxChannels && r.dwells[0].channels[0] == xs + ys
      && forall ch :: 0 < ch < cfg.rxChannels ==> r.dwells[0].channels[ch] == []
  {
    var events := [Unflagged(a, xs), Unflagged(b, ys)];
    FirstPart(cfg, s, a, xs);
    var s1 := OnDatagram(cfg, s, events[0].d);
    SecondPart(cfg, s1, b, xs, ys);
    hide OnDatagram, DwellsOf, Blank;
    assert events[0..] == events && events[1..] == [Unflagged(b, ys)];
    assert Serve(cfg, s, events, 0) == Used(Serve(cfg, s1, events[1..], 0), 1);
    assert CallNext(cfg, s, events, 0) == Calls(s, 0, []);
  }

  lemma FirstPart(cfg: Config, s: State, a: nat, xs: seq<Sample>)
    requires cfg.Valid() && s.asm == Blank(cfg.rxChannels) && s.running && xs != [] && |xs| < cfg.dwellSamples
    ensures
      var d := Unflagged(a, xs).d;
      var s1 := OnDatagram(cfg, s, d);
      && DwellsOf(cfg, s, d) == [] && s1.running
      && s1.asm == Assembly(Blank(cfg.rxChannels).accum[0 := xs], a)
  {
    assert xs[..|xs|] == xs && [] + xs == xs;
  }

  lemma SecondPart(cfg: Config, s: State, b: nat, xs: seq<Sample>, ys: seq<Sample>)
    requires cfg.Valid() && s.running && ys != [] && |xs| + |ys| >= cfg.dwellSamples
    requires s.asm.accum == Blank(cfg.rxChannels).accum[0 := xs]
    ensures DwellsOf(cfg, s, Unflagged(b, ys).d) == [Dwell(b, Blank(cfg.rxChannels).accum[0 := xs + ys])]
  {
    assert ys[..|ys|] == ys;
    assert s.asm.accum[0 := xs + ys] == Blank(cfg.rxChannels).accum[0 := xs + ys];
  }
}
