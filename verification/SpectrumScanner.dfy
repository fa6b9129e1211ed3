/** SpectrumScanner::processDwell and the dispatch of one dwell to its channels, as the code performs them. */
module Scanner {
  import opened Prelude
  import opened CfarSpec
  import opened Detector
  import opened ChannelDwell
  import IqStream
  import P = Persistence
  import N = NoiseFloor
  import T = ChannelTasks

  class SpectrumScanner {
    const args: Arguments
    const alpha: real
    const spectrum: seq<IqStream.Sample> -> seq<real>
    const processors: seq<FftProcessor>
    var noiseFloor: seq<map<nat, seq<real>>>
    var persist: seq<map<nat, P.Entries>>

    ghost predicate Valid()
      reads this
    {
      && args.Valid() && args.hist.None?
      && SpectraFit(args.fftSize, spectrum)
      && |noiseFloor| == |persist| == |processors|
      && (forall ch :: 0 <= ch < |processors| ==> processors[ch].Valid() && processors[ch].Serves(args))
      && (forall i, j :: 0 <= i < j < |processors| ==> BuffersOf(processors[i]) !! BuffersOf(processors[j]))
      && (forall ch, c :: 0 <= ch < |processors| && c in noiseFloor[ch] ==> |noiseFloor[ch][c]| == args.fftSize)
    }

    ghost function Buffers(): set<array<real>> {
      set p, b | p in processors && b in BuffersOf(p) :: b
    }

    /** Everything the channels' tasks share. */
    ghost function Snapshot(): T.Shared
      reads this, set p | p in processors :: p.power
    {
      T.Shared(map p | p in processors :: p.power := p.power[..], noiseFloor, persist)
    }

    ghost function States(): (states: seq<ChannelState>)
      requires |noiseFloor| == |persist|
      reads this
      ensures |states| == |noiseFloor|
      ensures forall ch :: 0 <= ch < |states| ==> states[ch] == ChannelState(noiseFloor[ch], persist[ch])
    {
      seq(|noiseFloor|, ch requires 0 <= ch < |noiseFloor| == |persist| reads this => ChannelState(noiseFloor[ch], persist[ch]))
    }

    ghost function Environment(): Env
      requires args.Valid()
    {
      Env(args.InBins(), args.sampleRate, alpha,
        seq(|processors|, ch requires 0 <= ch < |processors| => processors[ch].power as object),
        spectrum, SortedByPeak)
    }

    /** One processor per channel, each with buffers of its own. */
    constructor (args: Arguments, alpha: real, spectrum: seq<IqStream.Sample> -> seq<real>, channels: nat)
      requires args.Valid() && args.hist.None? && SpectraFit(args.fftSize, spectrum)
      ensures Valid() && this.args == args && this.alpha == alpha && this.spectrum == spectrum
      ensures |processors| == channels && fresh(Buffers())
      ensures States() == seq(channels, _ => ChannelState(map[], map[]))
    {
      this.args, this.alpha, this.spectrum := args, alpha, spectrum;
      var procs: seq<FftProcessor> := [];
      for i := 0 to channels
        invariant |procs| == i
        invariant forall ch :: 0 <= ch < i ==> procs[ch].Valid() && procs[ch].Serves(args) && fresh(BuffersOf(procs[ch]))
        invariant forall j, k :: 0 <= j < k < i ==> BuffersOf(procs[j]) !! BuffersOf(procs[k])
      {
        var proc := new FftProcessor(args.fftSize, args.guard, args.refs);
        procs := procs + [proc];
      }
      processors := procs;
      noiseFloor := seq(channels, _ => map[]);
      persist := seq(channels, _ => map[]);
    }

    /** The noise-floor step: seed on the first visit to a centre, track afterwards. */
    method UpdateFloor(ch: nat, center: nat, pdb: seq<real>)
      requires Valid() && ch < |processors| && |pdb| == args.fftSize
      modifies `noiseFloor
      ensures Valid()
      ensures noiseFloor == old(noiseFloor)[ch := Put(old(noiseFloor)[ch], center,
        if center in old(noiseFloor)[ch] then N.TrackAll(alpha, old(noiseFloor)[ch][center], pdb) else pdb)]
    {
      var floor := pdb;
      if center in noiseFloor[ch] {
        floor := N.UpdateFloor(alpha, noiseFloor[ch][center], pdb);
      }
      noiseFloor := noiseFloor[ch := Put(noiseFloor[ch], center, floor)];
    }

    /** One channel of one dwell: search the spectrum, track the noise floor, filter the signals. */
    method ProcessDwell(ch: nat, center: real, samples: seq<IqStream.Sample>) returns (out: seq<Detection>)
      requires Valid() && ch < |processors| && |samples| >= args.fftSize
      modifies this, processors[ch].power, processors[ch].scratch, processors[ch].psum
      ensures Valid()
      ensures
        var cs, sigs := old(States()[ch]), SortedByPeak(Report(args.InBins(), spectrum(samples)));
        var job := Job(RoundHz(center), args.InBins().Blanked(spectrum(samples)), SightingsOf(args.fftSize, args.sampleRate, center, sigs));
        && States() == old(States())[ch := AfterJob(alpha, cs, job)]
        && out == DetectionsAt(args.fftSize, args.sampleRate, center, ch, sigs, Emitted(cs, job))
      ensures forall i :: 0 <= i < |out| ==> Reports(center, ch, spectrum(samples), out[i])
    {
      hide Search.Blanked, Report, SortedByPeak, Arguments.InBins, AfterJob, Emitted, RoundHz;
      hide DetectionsAt, SpectraFit, Reports;
      var proc := processors[ch];
      ghost var before := States()[ch];
      ComputeSpectrum(proc, samples);
      var sigs := proc.DetectFromSpectrum(args);
      var pdb := proc.power[..];
      out := TrackAndFilter(ch, center, pdb, sigs);
      ghost var job := Job(RoundHz(center), pdb, SightingsOf(args.fftSize, args.sampleRate, center, sigs));
      AllReport(ch, center, spectrum(samples), Emitted(before, job), out);
    }

    /** d is what one of the signals found in the spectrum amounts to around the tuned frequency. */
    ghost predicate Reports(center: real, ch: nat, power: seq<real>, d: Detection)
      requires args.Valid() && |power| == args.fftSize
    {
      exists s :: s in Report(args.InBins(), power)
        && d.center == center + (s.center - (args.fftSize / 2) as real) * (args.sampleRate / args.fftSize as real)
        && d.power == s.peak && d.snr == s.peak - s.mean && d.channel == ch
    }

    lemma AllReport(ch: nat, center: real, power: seq<real>, at: seq<nat>, out: seq<Detection>)
      requires args.Valid() && |power| == args.fftSize
      requires var sigs := SortedByPeak(Report(args.InBins(), power));
        && (forall k :: 0 <= k < |at| ==> at[k] < |sigs|)
        && out == DetectionsAt(args.fftSize, args.sampleRate, center, ch, sigs, at)
      ensures forall i :: 0 <= i < |out| ==> Reports(center, ch, power, out[i])
    {
      hide Report, SortedByPeak, Arguments.InBins, DetectionOf;
      var found := Report(args.InBins(), power);
      var sigs := SortedByPeak(found);
      forall i | 0 <= i < |out| ensures Reports(center, ch, power, out[i]) {
        DetectionsMean(args.fftSize, args.sampleRate, center, ch, sigs, at, i);
        assert sigs[at[i]] in multiset(sigs);
        assert sigs[at[i]] in multiset(found);
      }
    }

    /** What follows detection: the noise floor, then the persistence filter. */
    method TrackAndFilter(ch: nat, center: real, pdb: seq<real>, sigs: seq<Signal>) returns (out: seq<Detection>)
      requires Valid() && ch < |processors| && |pdb| == args.fftSize
      modifies this
      ensures Valid()
      ensures
        var cs, job := old(States()[ch]), Job(RoundHz(center), pdb, SightingsOf(args.fftSize, args.sampleRate, center, sigs));
        && States() == old(States())[ch := AfterJob(alpha, cs, job)]
        && out == DetectionsAt(args.fftSize, args.sampleRate, center, ch, sigs, Emitted(cs, job))
    {
      hide P.AfterDwell, EmittedUpTo, RoundHz, SpectraFit;
      var key := RoundHz(center);
      UpdateFloor(ch, key, pdb);
      var pmap;
      pmap, out := FilterSignals(args.fftSize, args.sampleRate, center, ch, sigs, EntriesAt(persist[ch], key));
      persist := persist[ch := Put(persist[ch], key, pmap)];
    }

    /** The spectrum of the samples, written into the processor's buffer. */
    method ComputeSpectrum(proc: FftProcessor, samples: seq<IqStream.Sample>)
      requires Valid() && proc.Valid() && proc.fftSize == args.fftSize && |samples| >= args.fftSize
      modifies proc.power
      ensures proc.power[..] == spectrum(samples) && |spectrum(samples)| == args.fftSize
      ensures forall k :: 0 <= k < proc.power.Length ==> proc.power[k] > SENTINEL
    {
      var p := spectrum(samples);
      for k := 0 to |p|
        invariant forall j :: 0 <= j < k ==> proc.power[j] == p[j]
      {
        proc.power[k] := p[k];
      }
    }

    /** A channel's share of a dwell, when it holds at least one FFT frame. */
    method ProcessChannel(dwell: IqStream.Dwell, ch: nat) returns (out: seq<Detection>)
      requires Valid() && ch < |dwell.channels| && ch < |processors|
      modifies this, Buffers()
      ensures Valid() && Environment().Valid()
      ensures
        var env, before := Environment(), old(States());
        if env.Enough(dwell, ch)
        then States() == before[ch := AfterJob(alpha, before[ch], env.JobOf(dwell, ch))] && out == env.Outcome(before[ch], dwell, ch)
        else States() == before && out == []
    {
      out := [];
      EnvironmentValid();
      OwnBuffers(ch);
      OwnShare(States()[ch], dwell, ch);
      hide AfterJob, Emitted, Buffers, SpectraFit, BuffersOf, Environment;
      hide Env.Valid, Env.Enough, Env.JobOf, Env.Outcome, Env.SignalsOf, Env.BlankedSpectrum, Search.Blanked, Arguments.InBins;
      if |dwell.channels[ch]| >= args.fftSize {
        out := ProcessDwell(ch, dwell.center as real, dwell.channels[ch]);
      }
    }

    /**
     * One dwell: every channel that both sides have and that holds at least one FFT frame is processed,
     * the callbacks fire in channel order. For a single channel the code does without tasks.
     */
    method Dispatch(dwell: IqStream.Dwell) returns (calls: seq<Detection>)
      requires Valid()
      modifies this, Buffers()
      ensures Valid() && Environment().Valid()
      ensures
        var env := Environment();
        && States() == env.StatesAfter(old(States()), dwell, env.Channels(dwell))
        && calls == env.CallsAfter(old(States()), dwell, env.Channels(dwell))
    {
      var channels := Min(|dwell.channels|, |processors|);
      EnvironmentValid();
      hide AfterJob, Env.JobOf, Env.Outcome, Env.Valid, Buffers, SpectraFit, BuffersOf, Arguments.InBins;
      if channels == 1 {
        OneChannel(Environment(), States(), dwell);
        calls := ProcessChannel(dwell, 0);
      } else {
        calls := DispatchEach(dwell, channels);
      }
    }

    /** The first few channels in turn. */
    method DispatchEach(dwell: IqStream.Dwell, channels: nat) returns (calls: seq<Detection>)
      requires Valid() && channels <= |dwell.channels| && channels <= |processors|
      modifies this, Buffers()
      ensures Valid() && Environment().Valid()
      ensures States() == Environment().StatesAfter(old(States()), dwell, channels)
      ensures calls == Environment().CallsAfter(old(States()), dwell, channels)
    {
      ghost var env, before := Environment(), States();
      EnvironmentValid();
      hide AfterJob, Env.JobOf, Env.Outcome, Env.Valid, Buffers, SpectraFit, BuffersOf, Arguments.InBins;
      calls := [];
      for ch := 0 to channels
        invariant Valid() && env.Valid()
        invariant States() == env.StatesAfter(before, dwell, ch)
        invariant calls == env.CallsAfter(before, dwell, ch)
      {
        var out := ProcessChannel(dwell, ch);
        calls := calls + out;
      }
    }

    /** A channel's share of a dwell in this scanner's terms. */
    lemma OwnShare(cs: ChannelState, dwell: IqStream.Dwell, ch: nat)
      requires Valid() && Environment().Valid() && ch < |dwell.channels| && ch < |processors|
      ensures Environment().Enough(dwell, ch) <==> |dwell.channels[ch]| >= args.fftSize
      ensures Environment().Enough(dwell, ch) ==>
        var env, center, sigs := Environment(), dwell.center as real, SortedByPeak(Report(args.InBins(), spectrum(dwell.channels[ch])));
        var job := Job(RoundHz(center), args.InBins().Blanked(spectrum(dwell.channels[ch])),
          SightingsOf(args.fftSize, args.sampleRate, center, sigs));
        && env.JobOf(dwell, ch) == job
        && env.Outcome(cs, dwell, ch) == DetectionsAt(args.fftSize, args.sampleRate, center, ch, sigs, Emitted(cs, job))
    {
    }

    lemma OwnBuffers(ch: nat)
      requires ch < |processors|
      ensures processors[ch].power in Buffers() && processors[ch].scratch in Buffers() && processors[ch].psum in Buffers()
    {
      var p := processors[ch];
      assert p in processors;
      assert p.power in BuffersOf(p) && p.scratch in BuffersOf(p) && p.psum in BuffersOf(p);
    }

    lemma EnvironmentValid()
      requires Valid()
      ensures Environment().Valid()
    {
      hide Arguments.InBins;
    }

    lemma SnapshotFits()
      requires Valid()
      ensures T.Fits(Environment(), Snapshot())
      ensures T.StatesOf(Snapshot()) == States()
    {
      hide Arguments.InBins, SpectraFit;
      EnvironmentValid();
      hide Env.Valid;
    }

    /** The constructor gave every channel a processor of its own. */
    lemma ProcessorsSeparate()
      requires Valid()
      ensures T.Separate(Environment())
    {
      hide Arguments.InBins, SpectraFit;
      forall i, j | 0 <= i < j < |processors| ensures processors[i].power != processors[j].power {
        assert processors[i].power in BuffersOf(processors[i]) && processors[j].power in BuffersOf(processors[j]);
      }
    }

    /** However the tasks of a dwell are scheduled, they leave and call back what Dispatch does. */
    lemma EveryScheduleDispatches(dwell: IqStream.Dwell, turns: seq<T.Turn>)
      requires Valid()
      ensures T.Fits(Environment(), Snapshot())
      ensures
        var env := Environment();
        var w := T.Play(env, dwell, Snapshot(), turns);
        && w.calls <= env.CallsAfter(States(), dwell, env.Channels(dwell))
        && (w.sweep.Finished? ==>
          && w.calls == env.CallsAfter(States(), dwell, env.Channels(dwell))
          && T.StatesOf(w.sh) == env.StatesAfter(States(), dwell, env.Channels(dwell)))
    {
      SnapshotFits();
      ProcessorsSeparate();
      T.ScheduleDoesNotMatter(Environment(), dwell, Snapshot(), turns);
    }
  }

  lemma OneChannel(env: Env, states: seq<ChannelState>, dwell: IqStream.Dwell)
    requires env.Valid() && |states| == |env.procs| && env.Channels(dwell) == 1
    ensures env.StatesAfter(states, dwell, 1) ==
      if env.Enough(dwell, 0) then states[0 := AfterJob(env.alpha, states[0], env.JobOf(dwell, 0))] else states
    ensures env.CallsAfter(states, dwell, 1) == if env.Enough(dwell, 0) then env.Outcome(states[0], dwell, 0) else []
  {
    hide AfterJob, Env.JobOf, Env.Outcome, Env.Valid;
    assert env.StatesAfter(states, dwell, 0) == states && env.CallsAfter(states, dwell, 0) == [];
  }

  /** One frame or more of samples gives a whole spectrum, above the detector's sentinel. */
  ghost predicate SpectraFit(fftSize: nat, spectrum: seq<IqStream.Sample> -> seq<real>) {
    forall samples :: |samples| >= fftSize ==>
      |spectrum(samples)| == fftSize && forall k :: 0 <= k < fftSize ==> spectrum(samples)[k] > SENTINEL
  }

  ghost function BuffersOf(p: FftProcessor): set<array<real>> {
    {p.power, p.scratch, p.psum}
  }

  /** The filter's map after the first n sightings, and which keys they had. */
  ghost predicate FedUpTo(m: P.Entries, d: seq<P.Sighting>, n: nat, pmap: P.Entries, seen: set<nat>) {
    n <= |d| && pmap == P.TouchAll(m, d[..n]) && seen == P.Keys(d[..n])
  }

  lemma FeedStart(m: P.Entries, d: seq<P.Sighting>)
    ensures FedUpTo(m, d, 0, m, {})
  {
  }

  lemma FeedStep(m: P.Entries, d: seq<P.Sighting>, i: nat, pmap: P.Entries, seen: set<nat>)
    requires i < |d| && FedUpTo(m, d, i, pmap, seen)
    ensures FedUpTo(m, d, i + 1, P.Touch(pmap, d[i]), seen + {d[i].key})
    ensures P.Emits(m, d, i) <==> P.Strong(d[i]) || P.Touch(pmap, d[i])[d[i].key].hits >= P.MIN_HITS
  {
    assert d[..i + 1] == d[..i] + [d[i]];
    assert d[..i + 1][..i] == d[..i];
  }

  lemma FeedEnd(m: P.Entries, d: seq<P.Sighting>, pmap: P.Entries, seen: set<nat>)
    requires FedUpTo(m, d, |d|, pmap, seen)
    ensures P.Decayed(pmap, pmap.Keys, seen) == P.AfterDwell(m, d)
  {
    assert d[..|d|] == d;
  }

  /** The persistence step over the signals of one dwell, strongest first, then the decay. */
  method FilterSignals(fftSize: nat, sampleRate: real, center: real, ch: nat, sigs: seq<Signal>, m: P.Entries)
    returns (pmap: P.Entries, out: seq<Detection>)
    requires fftSize > 0
    ensures pmap == P.AfterDwell(m, SightingsOf(fftSize, sampleRate, center, sigs))
    ensures out == Passed(fftSize, sampleRate, center, ch, sigs, m, |sigs|)
  {
    pmap := m;
    ghost var d := SightingsOf(fftSize, sampleRate, center, sigs);
    var seen: set<nat> := {};
    out := [];
    FeedStart(m, d);
    hide SightingOf, DetectionOf, FedUpTo, P.Emits, P.Strong, P.Decayed;
    for i := 0 to |sigs|
      invariant FedUpTo(m, d, i, pmap, seen)
      invariant out == Passed(fftSize, sampleRate, center, ch, sigs, m, i)
    {
      FeedStep(m, d, i, pmap, seen);
      PassedStep(fftSize, sampleRate, center, ch, sigs, m, i);
      hide Passed;
      var s := SightingOf(fftSize, sampleRate, center, sigs[i]);
      seen := seen + {s.key};
      pmap := P.Touch(pmap, s);
      if P.Strong(s) || pmap[s.key].hits >= P.MIN_HITS {
        out := out + [DetectionOf(fftSize, sampleRate, center, ch, sigs[i])];
      }
    }
    FeedEnd(m, d, pmap, seen);
    pmap := P.Decay(pmap, seen);
  }
}
