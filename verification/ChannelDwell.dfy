/**
 * What one dwell means for one channel, and what processing the channels of a dwell one after the other
 * in index order gives: new noise floors, new persistence entries, and the detections passed on.
 */
module ChannelDwell {
  import opened Prelude
  import opened CfarSpec
  import opened Persistence
  import opened NoiseFloor
  import IqStream

  // ---------- Frequencies ----------

  const QUANT_HZ: nat := 10000
  const TWO_TO_64: int := 0x1_0000_0000_0000_0000

  /** llround followed by the cast to an unsigned 64-bit integer. */
  function RoundHz(x: real): (n: nat)
    ensures n < TWO_TO_64
    ensures 0.0 <= x < (TWO_TO_64 - 1) as real ==> n as real - 0.5 <= x < n as real + 0.5
  {
    var rounded := if x >= 0.0 then (x + 0.5).Floor else -((-x + 0.5).Floor);
    assert 0.0 <= x < (TWO_TO_64 - 1) as real ==> 0 <= rounded < TWO_TO_64;
    rounded % TWO_TO_64
  }

  function Quantised(hz: nat): nat {
    hz / QUANT_HZ * QUANT_HZ
  }

  datatype Detection = Detection(center: real, bandwidth: real, power: real, channel: nat, snr: real)

  /** The frequency a signal's persistence is tracked under. */
  function SightingOf(fftSize: nat, sampleRate: real, center: real, s: Signal): Sighting
    requires fftSize > 0
  {
    Sighting(Quantised(RoundHz(BinToHz(fftSize, s.center, sampleRate, center))), s.peak, s.mean)
  }

  function SightingsOf(fftSize: nat, sampleRate: real, center: real, sigs: seq<Signal>): (d: seq<Sighting>)
    requires fftSize > 0
    ensures |d| == |sigs|
    ensures forall i :: 0 <= i < |sigs| ==> d[i] == SightingOf(fftSize, sampleRate, center, sigs[i])
  {
    seq(|sigs|, i requires 0 <= i < |sigs| => SightingOf(fftSize, sampleRate, center, sigs[i]))
  }

  function DetectionOf(fftSize: nat, sampleRate: real, center: real, ch: nat, s: Signal): Detection
    requires fftSize > 0
  {
    var lo := RoundHz(BinToHz(fftSize, s.startBin as real, sampleRate, center));
    var hi := RoundHz(BinToHz(fftSize, s.endBin as real, sampleRate, center));
    Detection(
      BinToHz(fftSize, s.center, sampleRate, center),
      if hi > lo then (hi - lo) as real else 1.0,
      s.peak, ch, s.peak - s.mean)
  }

  /** The detections for the signals at the given positions. */
  function DetectionsAt(fftSize: nat, sampleRate: real, center: real, ch: nat, sigs: seq<Signal>, at: seq<nat>): (r: seq<Detection>)
    requires fftSize > 0 && forall i :: 0 <= i < |at| ==> at[i] < |sigs|
    ensures |r| == |at|
    ensures forall i :: 0 <= i < |at| ==> r[i] == DetectionOf(fftSize, sampleRate, center, ch, sigs[at[i]])
  {
    seq(|at|, i requires 0 <= i < |at| => DetectionOf(fftSize, sampleRate, center, ch, sigs[at[i]]))
  }

  /** What a detection says of its signal: frequency, power, channel and signal-to-noise, in plain arithmetic. */
  lemma DetectionMeans(fftSize: nat, sampleRate: real, center: real, ch: nat, s: Signal)
    requires fftSize > 0
    ensures
      var d := DetectionOf(fftSize, sampleRate, center, ch, s);
      && d.center == center + (s.center - (fftSize / 2) as real) * (sampleRate / fftSize as real)
      && d.power == s.peak && d.snr == s.peak - s.mean && d.channel == ch
  {
    hide RoundHz;
  }

  /** The frequency of a bin fits the unsigned type the program keeps it in. */
  predicate Representable(hz: real) {
    0.0 <= hz < (TWO_TO_64 - 1) as real
  }

  /** The bandwidth is the distance of the run's outer bins to within one Hertz of rounding, and never below 1. */
  lemma BandwidthMeans(fftSize: nat, sampleRate: real, center: real, ch: nat, s: Signal)
    requires fftSize > 0 && sampleRate > 0.0 && s.startBin <= s.endBin
    requires Representable(BinToHz(fftSize, s.startBin as real, sampleRate, center))
    requires Representable(BinToHz(fftSize, s.endBin as real, sampleRate, center))
    ensures
      var d := DetectionOf(fftSize, sampleRate, center, ch, s);
      var width := (s.endBin - s.startBin) as real * (sampleRate / fftSize as real);
      d.bandwidth >= 1.0 && width - 1.0 <= d.bandwidth <= width + 1.0
  {
    BinDistance(fftSize, s.startBin as real, s.endBin as real, sampleRate, center);
    assert (s.endBin - s.startBin) as real == s.endBin as real - s.startBin as real;
    hide RoundHz, BinToHz;
    RoundedDistance(
      BinToHz(fftSize, s.startBin as real, sampleRate, center), BinToHz(fftSize, s.endBin as real, sampleRate, center));
  }

  lemma BinDistance(fftSize: nat, a: real, b: real, sampleRate: real, center: real)
    requires fftSize > 0 && sampleRate > 0.0 && a <= b
    ensures BinToHz(fftSize, b, sampleRate, center) - BinToHz(fftSize, a, sampleRate, center)
      == (b - a) * (sampleRate / fftSize as real) >= 0.0
  {
    var h, mid := sampleRate / fftSize as real, (fftSize / 2) as real;
    assert h > 0.0;
    assert (b - mid) * h - (a - mid) * h == (b - a) * h;
    ProductNonNegative(b - a, h);
  }

  lemma RoundedDistance(x: real, y: real)
    requires Representable(x) && Representable(y) && x <= y
    ensures
      var lo, hi := RoundHz(x), RoundHz(y);
      var d := if hi > lo then (hi - lo) as real else 1.0;
      d >= 1.0 && y - x - 1.0 <= d <= y - x + 1.0
  {
    hide RoundHz;
    var lo, hi := RoundHz(x), RoundHz(y);
    assert hi > lo ==> (hi - lo) as real == hi as real - lo as real >= 1.0;
    assert hi <= lo ==> hi as real <= lo as real;
  }

  /** The persistence key is the multiple of 10 kHz at or below the rounded frequency; the levels are the signal's. */
  lemma SightingMeans(fftSize: nat, sampleRate: real, center: real, s: Signal)
    requires fftSize > 0
    ensures
      var x := SightingOf(fftSize, sampleRate, center, s);
      var hz := center + (s.center - (fftSize / 2) as real) * (sampleRate / fftSize as real);
      && x.peak == s.peak && x.mean == s.mean && x.key % 10000 == 0
      && (Representable(hz) ==> x.key as real - 0.5 <= hz < x.key as real + 9999.5)
  {
    var f := BinToHz(fftSize, s.center, sampleRate, center);
    assert f == center + (s.center - (fftSize / 2) as real) * (sampleRate / fftSize as real);
    hide RoundHz, BinToHz;
    QuantisedMeans(RoundHz(f));
    hide Quantised;
  }

  lemma QuantisedMeans(hz: nat)
    ensures Quantised(hz) % 10000 == 0 && Quantised(hz) as real <= hz as real <= Quantised(hz) as real + 9999.0
  {
    assert Quantised(hz) <= hz <= Quantised(hz) + 9999;
  }

  /** Every detection handed on is that of one of the signals. */
  lemma DetectionsMean(fftSize: nat, sampleRate: real, center: real, ch: nat, sigs: seq<Signal>, at: seq<nat>, i: nat)
    requires fftSize > 0 && i < |at| && forall k :: 0 <= k < |at| ==> at[k] < |sigs|
    ensures
      var d, s := DetectionsAt(fftSize, sampleRate, center, ch, sigs, at)[i], sigs[at[i]];
      && d.center == center + (s.center - (fftSize / 2) as real) * (sampleRate / fftSize as real)
      && d.power == s.peak && d.snr == s.peak - s.mean && d.channel == ch
  {
    DetectionMeans(fftSize, sampleRate, center, ch, sigs[at[i]]);
    hide DetectionOf;
  }

  // ---------- One channel, one dwell ----------

  /** What belongs to one channel: noise floors and persistence entries, both by centre frequency. */
  datatype ChannelState = ChannelState(floors: map<nat, seq<real>>, persist: map<nat, Entries>)

  /** One channel's share of a dwell, once its spectrum has been computed and searched. */
  datatype Job = Job(center: nat, spectrum: seq<real>, sightings: seq<Sighting>)

  function EntriesAt(persist: map<nat, Entries>, center: nat): Entries {
    if center in persist then persist[center] else map[]
  }

  /**
   * The first dwell seeds the floor of a centre, later ones are averaged in. Both have one value per
   * FFT bin, so the lengths always agree.
   */
  function FloorAt(alpha: real, floors: map<nat, seq<real>>, center: nat, spectrum: seq<real>): seq<real> {
    if center in floors && |floors[center]| == |spectrum| then TrackAll(alpha, floors[center], spectrum)
    else spectrum
  }

  function AfterJob(alpha: real, cs: ChannelState, job: Job): ChannelState {
    ChannelState(
      Put(cs.floors, job.center, FloorAt(alpha, cs.floors, job.center, job.spectrum)),
      Put(cs.persist, job.center, AfterDwell(EntriesAt(cs.persist, job.center), job.sightings)))
  }

  /** The positions among the first n sightings that are passed on. */
  function EmittedUpTo(m: Entries, d: seq<Sighting>, n: nat): (r: seq<nat>)
    requires n <= |d|
    ensures forall i :: 0 <= i < |r| ==> r[i] < n && Emits(m, d, r[i])
    ensures forall i, j :: 0 <= i < j < |r| ==> r[i] < r[j]
    ensures forall k :: 0 <= k < n && Emits(m, d, k) ==> k in r
  {
    if n == 0 then [] else EmittedUpTo(m, d, n - 1) + if Emits(m, d, n - 1) then [n - 1] else []
  }

  function Emitted(cs: ChannelState, job: Job): (r: seq<nat>)
    ensures forall i :: 0 <= i < |r| ==> r[i] < |job.sightings|
  {
    EmittedUpTo(EntriesAt(cs.persist, job.center), job.sightings, |job.sightings|)
  }

  /** The detections of the first n signals that the filter passes on. */
  function Passed(fftSize: nat, sampleRate: real, center: real, ch: nat, sigs: seq<Signal>, m: Entries, n: nat): seq<Detection>
    requires fftSize > 0 && n <= |sigs|
  {
    DetectionsAt(fftSize, sampleRate, center, ch, sigs, EmittedUpTo(m, SightingsOf(fftSize, sampleRate, center, sigs), n))
  }

  lemma PassedStep(fftSize: nat, sampleRate: real, center: real, ch: nat, sigs: seq<Signal>, m: Entries, n: nat)
    requires fftSize > 0 && n < |sigs|
    ensures Passed(fftSize, sampleRate, center, ch, sigs, m, 0) == []
    ensures Passed(fftSize, sampleRate, center, ch, sigs, m, n + 1)
      == Passed(fftSize, sampleRate, center, ch, sigs, m, n)
        + if Emits(m, SightingsOf(fftSize, sampleRate, center, sigs), n)
          then [DetectionOf(fftSize, sampleRate, center, ch, sigs[n])] else []
  {
    hide Emits, DetectionOf, SightingOf;
  }

  // ---------- All channels ----------

  /**
   * What does not change from dwell to dwell. The spectrum of some samples and the order std::sort gives
   * equal peaks are whatever they are; procs says which buffer each channel's processor works in.
   */
  datatype Env = Env(
    search: Search, sampleRate: real, alpha: real, procs: seq<object>,
    spectrum: seq<IqStream.Sample> -> seq<real>, sort: seq<Signal> -> seq<Signal>)
  {
    ghost predicate Valid() {
      && search.Valid()
      && forall samples :: |samples| >= search.fftSize ==> |spectrum(samples)| == search.fftSize
    }

    /** How many channels both the dwell and the scanner have. */
    function Channels(dwell: IqStream.Dwell): nat {
      Min(|dwell.channels|, |procs|)
    }

    /** Channel ch of the dwell holds at least one FFT frame. */
    predicate Enough(dwell: IqStream.Dwell, ch: nat) {
      ch < Channels(dwell) && |dwell.channels[ch]| >= search.fftSize
    }

    ghost function BlankedSpectrum(dwell: IqStream.Dwell, ch: nat): (p: seq<real>)
      requires Valid() && Enough(dwell, ch)
      ensures |p| == search.fftSize
    {
      search.Blanked(spectrum(dwell.channels[ch]))
    }

    ghost function SignalsOf(dwell: IqStream.Dwell, ch: nat): seq<Signal>
      requires Valid() && Enough(dwell, ch)
    {
      sort(Report(search, spectrum(dwell.channels[ch])))
    }

    ghost function JobOf(dwell: IqStream.Dwell, ch: nat): Job
      requires Valid() && Enough(dwell, ch)
    {
      Job(RoundHz(dwell.center as real), BlankedSpectrum(dwell, ch),
        SightingsOf(search.fftSize, sampleRate, dwell.center as real, SignalsOf(dwell, ch)))
    }

    /** What the channel's share of the dwell hands to the callback when the channel is in state cs before it. */
    ghost function Outcome(cs: ChannelState, dwell: IqStream.Dwell, ch: nat): seq<Detection>
      requires Valid() && Enough(dwell, ch)
    {
      DetectionsAt(search.fftSize, sampleRate, dwell.center as real, ch, SignalsOf(dwell, ch),
        Emitted(cs, JobOf(dwell, ch)))
    }

    /** The first n channels processed in index order: the states they leave. */
    ghost function StatesAfter(states: seq<ChannelState>, dwell: IqStream.Dwell, n: nat): (r: seq<ChannelState>)
      requires Valid() && n <= Channels(dwell) && |states| == |procs|
      ensures |r| == |states|
    {
      if n == 0 then states
      else
        var mid := StatesAfter(states, dwell, n - 1);
        if Enough(dwell, n - 1) then mid[n - 1 := AfterJob(alpha, mid[n - 1], JobOf(dwell, n - 1))] else mid
    }

    /** And the callbacks, in order. */
    ghost function CallsAfter(states: seq<ChannelState>, dwell: IqStream.Dwell, n: nat): seq<Detection>
      requires Valid() && n <= Channels(dwell) && |states| == |procs|
    {
      if n == 0 then []
      else
        CallsAfter(states, dwell, n - 1) +
          if Enough(dwell, n - 1) then Outcome(StatesAfter(states, dwell, n - 1)[n - 1], dwell, n - 1) else []
    }
  }

  /** The channels among the first n that have enough samples. */
  function Eligible(env: Env, dwell: IqStream.Dwell, n: nat): (chs: seq<nat>)
    requires n <= env.Channels(dwell)
    ensures forall i :: 0 <= i < |chs| ==> chs[i] < n && env.Enough(dwell, chs[i])
    ensures forall i, j :: 0 <= i < j < |chs| ==> chs[i] < chs[j]
  {
    if n == 0 then []
    else Eligible(env, dwell, n - 1) + if env.Enough(dwell, n - 1) then [n - 1] else []
  }

  /** The callbacks of some channels, each worked out from the state it had before the dwell. */
  ghost function Results(env: Env, states: seq<ChannelState>, dwell: IqStream.Dwell, chs: seq<nat>): seq<Detection>
    requires env.Valid() && |states| == |env.procs|
    requires forall i :: 0 <= i < |chs| ==> env.Enough(dwell, chs[i])
  {
    if chs == [] then []
    else
      var ch := chs[|chs| - 1];
      assert env.Enough(dwell, ch);
      Results(env, states, dwell, chs[..|chs| - 1]) + env.Outcome(states[ch], dwell, ch)
  }

  lemma ResultsSnoc(env: Env, states: seq<ChannelState>, dwell: IqStream.Dwell, chs: seq<nat>, ch: nat)
    requires env.Valid() && |states| == |env.procs|
    requires forall i :: 0 <= i < |chs| ==> env.Enough(dwell, chs[i])
    ensures env.Enough(dwell, ch) ==>
      Results(env, states, dwell, chs + [ch]) == Results(env, states, dwell, chs) + env.Outcome(states[ch], dwell, ch)
  {
    hide Env.Outcome, Env.Valid;
    assert (chs + [ch])[..|chs|] == chs;
  }

  /** Processing the channels in turn leaves each where its own job takes it. */
  lemma {:induction false} StatesAfterExact(env: Env, states: seq<ChannelState>, dwell: IqStream.Dwell, n: nat, ch: nat)
    requires env.Valid() && n <= env.Channels(dwell) && |states| == |env.procs| && ch < |states|
    ensures env.StatesAfter(states, dwell, n)[ch] ==
      if ch < n && env.Enough(dwell, ch) then AfterJob(env.alpha, states[ch], env.JobOf(dwell, ch)) else states[ch]
  {
    hide AfterJob, Env.JobOf, Env.Valid, Env.Enough;
    if n == 0 {
    } else {
      StatesAfterExact(env, states, dwell, n - 1, ch);
    }
  }

  /** And it calls back channel by channel, as if each had been alone. */
  lemma {:induction false} CallsAfterExact(env: Env, states: seq<ChannelState>, dwell: IqStream.Dwell, n: nat)
    requires env.Valid() && n <= env.Channels(dwell) && |states| == |env.procs|
    ensures env.CallsAfter(states, dwell, n) == Results(env, states, dwell, Eligible(env, dwell, n))
  {
    hide AfterJob, Env.JobOf, Env.Outcome, Env.Valid, Env.Enough, Env.StatesAfter, Results;
    if n == 0 {
      NoResults(env, states, dwell);
    } else {
      CallsAfterExact(env, states, dwell, n - 1);
      var chs := Eligible(env, dwell, n - 1);
      if env.Enough(dwell, n - 1) {
        StatesAfterExact(env, states, dwell, n - 1, n - 1);
        ResultsSnoc(env, states, dwell, chs, n - 1);
      } else {
        assert chs + [] == chs;
      }
    }
  }

  lemma NoResults(env: Env, states: seq<ChannelState>, dwell: IqStream.Dwell)
    requires env.Valid() && |states| == |env.procs|
    ensures Results(env, states, dwell, []) == []
  {
  }
}
