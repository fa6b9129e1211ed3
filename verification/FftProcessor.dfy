/**
 * The detector as it is written: arrays overwritten in place, a prefix sum, and one pass with
 * running accumulators. Its contract is the specification of module CfarSpec.
 */
module Detector {
  import opened Prelude
  import opened RankStatistic
  import opened CfarSpec

  /** ps holds the prefix sums of w. */
  ghost predicate PrefixSums(ps: seq<real>, w: seq<real>) {
    |ps| > |w| && forall i :: 0 <= i <= |w| ==> ps[i] == Sum(w[..i])
  }

  lemma RangeSum(w: seq<real>, a: nat, b: nat)
    requires a <= b <= |w|
    ensures Sum(w[a..b]) == Sum(w[..b]) - Sum(w[..a])
  {
    assert w[..b] == w[..a] + w[a..b];
    SumSplit(w[..a], w[a..b]);
  }

  /** The range query on prefix sums gives the plain average. */
  method RefMeanFast(psum: array<real>, n: nat, a: int, b: int, ghost w: seq<real>) returns (r: Option<real>)
    requires psum.Length > n == |w| && PrefixSums(psum[..], w)
    ensures r == RefMean(w, a, b)
  {
    hide Sum;
    var lo, hi := Max(a, 0), Min(b, n - 1);
    if lo > hi {
      return None;
    }
    RangeSum(w, lo, hi + 1);
    assert psum[hi + 1] == psum[..][hi + 1] && psum[lo] == psum[..][lo];
    r := Some((psum[hi + 1] - psum[lo]) / (hi - lo + 1) as real);
  }

  lemma RunEndIs(hot: seq<bool>, a: nat, e: nat)
    requires a <= e < |hot| && (forall i :: a <= i <= e ==> hot[i])
    requires e + 1 == |hot| || !hot[e + 1]
    ensures RunEnd(hot, a) == e
  {
    var b := RunEnd(hot, a);
    if b != e {
      assert false;
    }
  }

  /** The accumulators of one open run; start is -1 while no run is open. */
  datatype Scan = Scan(start: int, peakBin: int, peak: real, sum: real, count: nat)

  const CLOSED := Scan(-1, -1, SENTINEL, 0.0, 0)

  /** Where the runs not yet reported begin. */
  ghost function Pending(start: nat, i: nat, c: Scan): int {
    if c.start < 0 then i else c.start - start
  }

  /** c's run, if open, covers hot bins only and reaches up to, but not including, position i. */
  ghost predicate Open(start: nat, hot: seq<bool>, i: nat, c: Scan)
    requires i <= |hot|
  {
    c.start >= 0 ==>
      && 0 <= c.start - start < i
      && forall j :: c.start - start <= j < i ==> hot[j]
  }

  /** c's accumulators are those of the bins from its start up to position i. */
  ghost predicate Totals(start: nat, w: seq<real>, i: nat, c: Scan)
    requires i <= |w|
  {
    if c.start < 0 then c == CLOSED
    else
      var s := c.start - start;
      && 0 <= s < i
      && c.peakBin == start + PeakAt(w, s, i - 1)
      && c.peak == w[PeakAt(w, s, i - 1)]
      && c.sum == Sum(w[s..i])
      && c.count == i - s
  }

  /** Take the hot bin k of power x into the open run, opening one if needed. */
  function Absorb(c: Scan, k: nat, x: real): Scan {
    Scan(
      if c.start < 0 then k else c.start,
      if x > c.peak then k else c.peakBin,
      if x > c.peak then x else c.peak,
      c.sum + x,
      c.count + 1)
  }

  lemma OpenAbsorb(start: nat, hot: seq<bool>, i: nat, c: Scan, x: real)
    requires i < |hot| && hot[i] && Open(start, hot, i, c)
    ensures Open(start, hot, i + 1, Absorb(c, start + i, x))
    ensures Pending(start, i + 1, Absorb(c, start + i, x)) == Pending(start, i, c)
  {
  }

  lemma TotalsAbsorb(start: nat, w: seq<real>, i: nat, c: Scan)
    requires i < |w| && w[i] > SENTINEL && Totals(start, w, i, c)
    ensures Totals(start, w, i + 1, Absorb(c, start + i, w[i]))
  {
    var s := Pending(start, i, c);
    assert w[s..i + 1] == w[s..i] + [w[i]];
    SumSnoc(w[s..i], w[i]);
    if c.start < 0 {
      assert w[i..i] == [];
      assert PeakAt(w, i, i) == i;
    }
  }

  /** The run that closing c in front of window position i completes, if any. */
  ghost function Closed(start: nat, i: nat, c: Scan): seq<Run> {
    if c.start < 0 || c.start - start < 0 || i == 0 then [] else [Run(c.start - start, i - 1)]
  }

  /** At a cold bin or at the end the open run is complete and the rest starts behind it. */
  lemma RunsClose(start: nat, hot: seq<bool>, i: nat, c: Scan)
    requires i <= |hot| && (i == |hot| || !hot[i])
    requires Open(start, hot, i, c)
    ensures Fits(|hot|, Closed(start, i, c))
    ensures Runs(hot, Pending(start, i, c)) ==
      Closed(start, i, c) + if i == |hot| then [] else Runs(hot, i + 1)
  {
    if c.start >= 0 {
      RunEndIs(hot, c.start - start, i - 1);
      assert Runs(hot, c.start - start) == [Run(c.start - start, i - 1)] + Runs(hot, i);
    }
  }

  /** What closing reports. */
  ghost function ClosedSignal(q: Cells, w: seq<real>, more: seq<Run>): seq<Signal>
    requires Fits(|w|, more)
  {
    if more == [] then [] else Gated(q, w, more[0])
  }

  /** The gates and the signal, read off the accumulators. */
  lemma GatedByTotals(q: Cells, w: seq<real>, i: nat, c: Scan, mean: real)
    requires i <= |w| && Totals(q.start, w, i, c) && c.start >= 0
    requires mean == c.sum / c.count as real
    ensures
      var width := q.start + i - c.start;
      Gated(q, w, Run(c.start - q.start, i - 1)) ==
        if width >= q.minBins && (width < 2 || c.peak - mean >= q.minPapr)
        then [Signal(c.start, q.start + i - 1, c.peak, mean, CenterOf(q.start, w, c.peakBin - q.start))]
        else []
  {
    assert |w[c.start - q.start..i]| == c.count;
    assert mean == MeanOf(w, Run(c.start - q.start, i - 1));
  }

  /** Between bins: what is reported so far, plus what is still to come, is everything. */
  ghost predicate Scanned(q: Cells, w: seq<real>, hot: seq<bool>, i: nat, c: Scan, signals: seq<Signal>, done: seq<Run>)
    requires i <= |hot| == |w|
  {
    && Open(q.start, hot, i, c) && Totals(q.start, w, i, c)
    && done + Runs(hot, Pending(q.start, i, c)) == Runs(hot, 0)
    && Fits(|w|, done) && signals == Select(q, w, done)
  }

  lemma SelectClosed(q: Cells, w: seq<real>, runs: seq<Run>, more: seq<Run>)
    requires Fits(|w|, runs) && Fits(|w|, more) && |more| <= 1
    ensures Fits(|w|, runs + more)
    ensures Select(q, w, runs + more) == Select(q, w, runs) + ClosedSignal(q, w, more)
  {
    if more == [] {
      assert runs + more == runs;
    } else {
      assert (runs + more)[..|runs|] == runs;
    }
  }

  lemma ScanStart(q: Cells, w: seq<real>, fallback: real)
    ensures Scanned(q, w, HotBins(q, w, fallback), 0, CLOSED, [], [])
  {
    RunsFit(HotBins(q, w, fallback), 0);
  }

  lemma ScanEnd(q: Cells, w: seq<real>, fallback: real, c: Scan, signals: seq<Signal>, done: seq<Run>)
    requires Scanned(q, w, HotBins(q, w, fallback), |w|, c, signals, done)
    ensures Totals(q.start, w, |w|, c) && Fits(|w|, Closed(q.start, |w|, c))
    ensures Select(q, w, HotRuns(q, w, fallback)) == signals + ClosedSignal(q, w, Closed(q.start, |w|, c))
  {
    var hot := HotBins(q, w, fallback);
    hide Gated, Totals, IsHot, HotBins;
    RunsClose(q.start, hot, |w|, c);
    SelectClosed(q, w, done, Closed(q.start, |w|, c));
    assert HotRuns(q, w, fallback) == done + Closed(q.start, |w|, c);
  }

  /** w is the part of the array that starts at the given bin. */
  ghost predicate Views(power: array<real>, start: nat, w: seq<real>)
    reads power
  {
    start + |w| <= power.Length && forall i :: 0 <= i < |w| ==> w[i] == power[start + i]
  }

  class FftProcessor {
    const fftSize: nat
    const guard: nat
    const refs: nat
    const power: array<real>
    const scratch: array<real>
    const psum: array<real>

    ghost predicate Valid() {
      && fftSize >= 64 && fftSize % 2 == 0
      && power.Length == fftSize && scratch.Length == fftSize && psum.Length == fftSize + 1
      && power != scratch && power != psum && scratch != psum
    }

    constructor (fftSize: nat, guard: nat, refs: nat)
      requires fftSize >= 64 && fftSize % 2 == 0
      ensures Valid() && this.fftSize == fftSize && this.guard == guard && this.refs == refs
      ensures fresh(power) && fresh(scratch) && fresh(psum)
    {
      this.fftSize, this.guard, this.refs := fftSize, guard, refs;
      power := new real[fftSize](_ => 0.0);
      scratch := new real[fftSize](_ => 0.0);
      psum := new real[fftSize + 1](_ => 0.0);
    }

    /** A call's arguments together with this processor's parameters. */
    ghost predicate Serves(args: Arguments) {
      && args.Valid()
      && args.fftSize == fftSize && args.guard == guard && args.refs == refs
    }

    /** Suppress LO leakage: overwrite the guard zone with the window's noise estimate. */
    method BlankDc(st: Search)
      requires Valid() && st.Valid() && st.fftSize == fftSize
      modifies power, scratch
      ensures power[..] == st.Blanked(old(power[..]))
    {
      if st.blanks {
        var floorEst := EstimateNoise(power, scratch, st.cells.start, st.EndBin());
        ghost var was := power[..];
        assert floorEst == st.Noise(was);
        var k := st.guardLo;
        while k <= st.guardHi
          invariant st.guardLo <= k <= st.guardHi + 1
          invariant power[..] == Overwritten(was, st.guardLo, k - 1, floorEst)
        {
          power[k] := floorEst;
          k := k + 1;
        }
      }
    }

    method BuildPrefixSums(st: Search)
      requires Valid() && st.Valid() && st.fftSize == fftSize
      modifies psum
      ensures PrefixSums(psum[..], st.Window(power[..]))
    {
      ghost var w := st.Window(power[..]);
      assert w[..0] == [] && Sum(w[..0]) == 0.0;
      hide Sum;
      psum[0] := 0.0;
      for i := 0 to st.Width()
        invariant forall j :: 0 <= j <= i ==> psum[j] == Sum(w[..j])
      {
        assert w[..i + 1] == w[..i] + [w[i]];
        SumSnoc(w[..i], w[i]);
        psum[i + 1] := psum[i] + power[st.cells.start + i];
      }
    }

    /** Close the open run at bin runEnd and report it if it passes the width and PAPR gates. */
    method Flush(q: Cells, n: nat, c: Scan, runEnd: int, signals: seq<Signal>, ghost w: seq<real>)
      returns (out: seq<Signal>)
      requires Valid() && |w| == n && Views(power, q.start, w)
      requires -1 <= runEnd - q.start < n
      requires Totals(q.start, w, runEnd - q.start + 1, c)
      ensures out == signals + ClosedSignal(q, w, Closed(q.start, runEnd - q.start + 1, c))
    {
      hide Gated, CenterOf, PeakAt, Sum;
      out := signals;
      if c.start >= 0 {
        var width := runEnd - c.start + 1;
        var mean := c.sum / c.count as real;
        GatedByTotals(q, w, runEnd - q.start + 1, c, mean);
        if width >= q.minBins && (width < 2 || c.peak - mean >= q.minPapr) {
          var center := Interpolate(q.start, n, c.peakBin, w);
          out := signals + [Signal(c.start, runEnd, c.peak, mean, center)];
        }
      }
    }

    /** Three-point parabolic refinement of the peak position, inside the window only. */
    method Interpolate(startBin: nat, n: nat, peakBin: nat, ghost w: seq<real>) returns (center: real)
      requires Valid() && |w| == n && Views(power, startBin, w) && startBin <= peakBin < startBin + n
      ensures center == CenterOf(startBin, w, peakBin - startBin)
    {
      center := peakBin as real;
      if startBin < peakBin < startBin + n - 1 {
        var y0, y1, y2 := power[peakBin - 1], power[peakBin], power[peakBin + 1];
        assert y0 == w[peakBin - startBin - 1] && y1 == w[peakBin - startBin] && y2 == w[peakBin - startBin + 1];
        var denom := 2.0 * (2.0 * y1 - y0 - y2);
        if Abs(denom) > 0.000001 {
          center := peakBin as real + (y2 - y0) / denom;
        }
      }
    }

    /** The per-bin adaptive threshold, from the prefix sums. */
    method TestBin(q: Cells, n: nat, k: nat, globalNoise: real, ghost w: seq<real>) returns (hot: bool)
      requires Valid() && |w| == n && Views(power, q.start, w) && PrefixSums(psum[..], w)
      requires q.start <= k < q.start + n
      ensures hot == IsHot(q, w, k - q.start, globalNoise)
    {
      hide RefMean, PrefixSums;
      var i := k - q.start;
      var left := RefMeanFast(psum, n, i - q.guard - q.refs, i - q.guard - 1, w);
      var right := RefMeanFast(psum, n, i + q.guard + 1, i + q.guard + q.refs, w);
      var localNoise := globalNoise;
      if left.None? && right.Some? {
        localNoise := right.value;
      } else if left.Some? && right.None? {
        localNoise := left.value;
      } else if left.Some? && right.Some? {
        localNoise := (left.value + right.value) * 0.5;
      }
      if q.hist.Some? && k < |q.hist.value| {
        localNoise := RMax(localNoise, q.hist.value[k]);
      }
      assert w[i] == power[k];
      hot := power[k] >= localNoise + q.threshold;
    }

    ghost predicate Prepared(start: nat, w: seq<real>)
      reads this, power, psum
    {
      Valid() && Views(power, start, w) && PrefixSums(psum[..], w)
    }

    /** Handle bin k: extend the open run, or flush it. */
    method ScanBin(q: Cells, n: nat, k: nat, globalNoise: real, c: Scan, signals: seq<Signal>,
        ghost w: seq<real>, ghost done: seq<Run>)
      returns (c': Scan, signals': seq<Signal>, ghost done': seq<Run>)
      requires |w| == n && Prepared(q.start, w)
      requires q.start <= k < q.start + n && w[k - q.start] > SENTINEL
      requires Scanned(q, w, HotBins(q, w, globalNoise), k - q.start, c, signals, done)
      ensures Scanned(q, w, HotBins(q, w, globalNoise), k - q.start + 1, c', signals', done')
    {
      hide Gated, Select, IsHot, PrefixSums, Runs, RunEnd, PeakAt, Sum, HotBins;
      ghost var hot, i := HotBins(q, w, globalNoise), k - q.start;
      var above := TestBin(q, n, k, globalNoise, w);
      signals', done' := signals, done;
      if above {
        OpenAbsorb(q.start, hot, i, c, w[i]);
        TotalsAbsorb(q.start, w, i, c);
        c' := Absorb(c, k, power[k]);
      } else {
        RunsClose(q.start, hot, i, c);
        SelectClosed(q, w, done, Closed(q.start, i, c));
        signals' := Flush(q, n, c, k - 1, signals, w);
        done' := done + Closed(q.start, i, c);
        c' := CLOSED;
      }
    }

    /** One pass over the window. */
    method ScanRuns(q: Cells, n: nat, globalNoise: real, ghost w: seq<real>) returns (signals: seq<Signal>)
      requires |w| == n && Prepared(q.start, w)
      requires forall i :: 0 <= i < n ==> w[i] > SENTINEL
      ensures signals == Select(q, w, HotRuns(q, w, globalNoise))
    {
      ScanStart(q, w, globalNoise);
      hide Scanned, Totals, Gated, Select, HotRuns, PrefixSums, HotBins;
      signals := [];
      var c := CLOSED;
      ghost var done: seq<Run> := [];
      for k := q.start to q.start + n
        invariant Scanned(q, w, HotBins(q, w, globalNoise), k - q.start, c, signals, done)
      {
        c, signals, done := ScanBin(q, n, k, globalNoise, c, signals, w, done);
      }
      ScanEnd(q, w, globalNoise, c, signals, done);
      signals := Flush(q, n, c, q.start + n - 1, signals, w);
    }

    /** Convert the arguments to bins, then blank, estimate, scan, sort. */
    method DetectFromSpectrum(args: Arguments) returns (signals: seq<Signal>)
      requires Valid() && Serves(args)
      requires forall k :: 0 <= k < power.Length ==> power[k] > SENTINEL
      modifies power, scratch, psum
      ensures power[..] == args.InBins().Blanked(old(power[..]))
      ensures signals == SortedByPeak(Report(args.InBins(), old(power[..])))
      ensures multiset(signals) == multiset(Report(args.InBins(), old(power[..])))
      ensures DescendingPeaks(signals)
    {
      var st := args.InBins();
      hide Arguments.InBins;
      signals := DetectInBins(st);
    }

    method DetectInBins(st: Search) returns (signals: seq<Signal>)
      requires Valid() && st.Valid() && st.fftSize == fftSize
      requires forall k :: 0 <= k < power.Length ==> power[k] > SENTINEL
      modifies power, scratch, psum
      ensures power[..] == st.Blanked(old(power[..]))
      ensures signals == SortedByPeak(Report(st, old(power[..])))
      ensures multiset(signals) == multiset(Report(st, old(power[..])))
      ensures DescendingPeaks(signals)
    {
      hide SortedByPeak, IsHot, PeakAt, Runs, Gated, Select, RankValue;
      ghost var given := power[..];
      BlankDc(st);
      BlankedAboveSentinel(st, given);
      assert forall k :: 0 <= k < power.Length ==> power[k] == power[..][k];
      var globalNoise := EstimateNoise(power, scratch, st.cells.start, st.EndBin());
      BuildPrefixSums(st);
      var found := ScanRuns(st.cells, st.Width(), globalNoise, st.Window(power[..]));
      signals := SortByPeak(found);
    }
  }

  lemma BlankedAboveSentinel(st: Search, power: seq<real>)
    requires st.Valid() && |power| == st.fftSize
    requires forall k :: 0 <= k < |power| ==> power[k] > SENTINEL
    ensures forall k :: 0 <= k < |power| ==> st.Blanked(power)[k] > SENTINEL
  {
    RankValueIsRank(st.Window(power), st.Width() / 2);
  }

  /** Insert s behind every signal with at least its peak. */
  function InsertByPeak(sorted: seq<Signal>, s: Signal): (out: seq<Signal>)
    requires DescendingPeaks(sorted)
    ensures multiset(out) == multiset(sorted) + multiset{s}
    ensures |out| == |sorted| + 1 && forall i :: 0 <= i < |out| ==> out[i] == s || out[i] in sorted
    ensures DescendingPeaks(out)
  {
    var n := |sorted| - 1;
    if sorted == [] || sorted[n].peak >= s.peak then sorted + [s]
    else
      assert sorted == sorted[..n] + [sorted[n]];
      InsertByPeak(sorted[..n], s) + [sorted[n]]
  }

  /** All of them by descending peak; equal peaks keep their order here, std::sort leaves that open. */
  function SortedByPeak(signals: seq<Signal>): (sorted: seq<Signal>)
    ensures multiset(sorted) == multiset(signals)
    ensures DescendingPeaks(sorted)
  {
    if signals == [] then []
    else
      assert signals == signals[..|signals| - 1] + [signals[|signals| - 1]];
      InsertByPeak(SortedByPeak(signals[..|signals| - 1]), signals[|signals| - 1])
  }

  method SortByPeak(signals: seq<Signal>) returns (sorted: seq<Signal>)
    ensures sorted == SortedByPeak(signals)
  {
    sorted := [];
    for i := 0 to |signals|
      invariant sorted == SortedByPeak(signals[..i])
    {
      assert signals[..i + 1][..i] == signals[..i];
      sorted := InsertByPeak(sorted, signals[i]);
    }
    assert signals[..|signals|] == signals;
  }
}
