/**
 * What FftProcessor::detectFromSpectrum is meant to find, stated without prefix sums,
 * without running accumulators and without a scanning loop.
 */
module CfarSpec {
  import opened Prelude
  import opened RankStatistic

  /** The peak accumulator starts here; a dBFS spectrum never reaches this low. */
  const SENTINEL: real := -1000000000000000000000000000000.0

  /** Where the window starts, the shape of the reference cells, the threshold and the gates. */
  datatype Cells = Cells(
    start: nat, guard: nat, refs: nat, threshold: real, minBins: nat, minPapr: real, hist: Option<seq<real>>)

  /** One search, in bins: the window is symmetric, the guard zone to blank lies inside it. */
  datatype Search = Search(fftSize: nat, blanks: bool, guardLo: nat, guardHi: nat, cells: Cells) {
    predicate Valid() {
      && 2 * cells.start + 2 <= fftSize
      && cells.start <= guardLo <= guardHi <= fftSize - 1 - cells.start
    }

    function EndBin(): (b: nat)
      requires Valid()
      ensures cells.start < b < fftSize
    {
      fftSize - 1 - cells.start
    }

    function Width(): (n: nat)
      requires Valid()
      ensures n >= 2 && cells.start + n == EndBin() + 1
    {
      fftSize - 2 * cells.start
    }

    function Window(power: seq<real>): (w: seq<real>)
      requires Valid() && |power| == fftSize
      ensures |w| == Width()
    {
      power[cells.start..EndBin() + 1]
    }

    /** The median the code takes: rank n/2 of the usable window. */
    function Noise(power: seq<real>): real
      requires Valid() && |power| == fftSize
    {
      RankValue(Window(power), Width() / 2)
    }

    /** The spectrum after the DC guard zone has been overwritten with the noise estimate. */
    function Blanked(power: seq<real>): (p: seq<real>)
      requires Valid() && |power| == fftSize
      ensures |p| == fftSize
    {
      if blanks then Overwritten(power, guardLo, guardHi, Noise(power)) else power
    }
  }

  /** The processor's construction parameters and the arguments of one call, in Hz and fractions. */
  datatype Arguments = Arguments(
    fftSize: nat, guard: nat, refs: nat,
    threshold: real, usable: real, sampleRate: real,
    minBw: real, dcGuard: real, minPapr: real,
    hist: Option<seq<real>>)
  {
    /** What the configuration loader and the constructor guarantee, and a positive sample rate. */
    predicate Valid() {
      fftSize >= 64 && fftSize % 2 == 0 && 0.0 < usable <= 1.0 && sampleRate > 0.0
    }

    /** The first usable bin: the truncated half of the discarded fraction. */
    function Margin(): (b: nat)
      requires Valid()
      ensures b < fftSize / 2
    {
      assert 0.0 <= fftSize as real * (1.0 - usable) < fftSize as real by {
        UsableMargin(fftSize as real, usable);
      }
      (fftSize as real * (1.0 - usable) / 2.0).Floor
    }

    /** A width in Hz as a number of bins, rounded up, at least one. */
    function Bins(hz: real): (n: nat)
      requires Valid()
      ensures n >= 1
    {
      Max(1, Ceil(hz / (sampleRate / fftSize as real)))
    }

    /** The same call in bins. */
    function InBins(): (st: Search)
      requires Valid()
      ensures st.Valid() && st.fftSize == fftSize
    {
      var start, mid := Margin(), fftSize / 2;
      Search(
        fftSize, dcGuard > 0.0,
        Max(start, mid - Bins(dcGuard)), Min(fftSize - 1 - start, mid + Bins(dcGuard)),
        Cells(start, guard, refs, threshold, Bins(minBw), minPapr, hist))
    }
  }

  function Overwritten(p: seq<real>, lo: int, hi: int, v: real): (q: seq<real>)
    ensures |q| == |p|
    ensures forall k :: 0 <= k < |p| ==> q[k] == if lo <= k <= hi then v else p[k]
  {
    seq(|p|, k requires 0 <= k < |p| => if lo <= k <= hi then v else p[k])
  }

  lemma UsableMargin(n: real, usable: real)
    requires n > 0.0 && 0.0 < usable <= 1.0
    ensures 0.0 <= n * (1.0 - usable) < n
  {
    assert n * usable > 0.0;
    assert n * (1.0 - usable) == n - n * usable;
    assert n * (1.0 - usable) >= 0.0;
  }

  // ---------- Local noise ----------

  function Average(s: seq<real>): real
    requires s != []
  {
    Sum(s) / |s| as real
  }

  /** The plain average of bins a..b of the window after clamping, None when nothing is left. */
  function RefMean(w: seq<real>, a: int, b: int): Option<real> {
    var lo, hi := Max(a, 0), Min(b, |w| - 1);
    if lo > hi then None else Some(Average(w[lo..hi + 1]))
  }

  function Combine(left: Option<real>, right: Option<real>, fallback: real): real {
    match (left, right)
    case (None, None) => fallback
    case (None, Some(r)) => r
    case (Some(l), None) => l
    case (Some(l), Some(r)) => (l + r) * 0.5
  }

  function LocalNoise(q: Cells, w: seq<real>, i: int, fallback: real): real {
    Combine(
      RefMean(w, i - q.guard - q.refs, i - q.guard - 1),
      RefMean(w, i + q.guard + 1, i + q.guard + q.refs),
      fallback)
  }

  /** The historical floor can only raise the estimate, and only where it has a bin. */
  function Raised(hist: Option<seq<real>>, k: nat, noise: real): real {
    if hist.Some? && k < |hist.value| then RMax(noise, hist.value[k]) else noise
  }

  predicate IsHot(q: Cells, w: seq<real>, i: nat, fallback: real)
    requires i < |w|
  {
    w[i] >= Raised(q.hist, q.start + i, LocalNoise(q, w, i, fallback)) + q.threshold
  }

  function HotBins(q: Cells, w: seq<real>, fallback: real): (hot: seq<bool>)
    ensures |hot| == |w|
    ensures forall i :: 0 <= i < |w| ==> hot[i] == IsHot(q, w, i, fallback)
  {
    seq(|w|, i requires 0 <= i < |w| => IsHot(q, w, i, fallback))
  }

  // ---------- Runs ----------

  datatype Run = Run(lo: nat, hi: nat)

  /** r is a run of hot bins that cannot be extended on either side. */
  ghost predicate Maximal(hot: seq<bool>, r: Run) {
    && r.lo <= r.hi < |hot|
    && (forall i :: r.lo <= i <= r.hi ==> hot[i])
    && (r.lo == 0 || !hot[r.lo - 1])
    && (r.hi + 1 == |hot| || !hot[r.hi + 1])
  }

  function RunEnd(hot: seq<bool>, a: nat): (b: nat)
    requires a < |hot| && hot[a]
    ensures a <= b < |hot| && (b + 1 == |hot| || !hot[b + 1])
    ensures forall i :: a <= i <= b ==> hot[i]
    decreases |hot| - a
  {
    if a + 1 < |hot| && hot[a + 1] then RunEnd(hot, a + 1) else a
  }

  /** The runs at or after position i, left to right. */
  function Runs(hot: seq<bool>, i: nat): seq<Run>
    requires i <= |hot|
    decreases |hot| - i
  {
    if i == |hot| then []
    else if !hot[i] then Runs(hot, i + 1)
    else [Run(i, RunEnd(hot, i))] + Runs(hot, RunEnd(hot, i) + 1)
  }

  // ---------- Reported signals ----------

  datatype Signal = Signal(startBin: int, endBin: int, peak: real, mean: real, center: real)

  /** The first position of the largest value in w[a..b]. */
  function PeakAt(w: seq<real>, a: nat, b: nat): (m: nat)
    requires a <= b < |w|
    ensures a <= m <= b
    ensures forall j :: a <= j <= b ==> w[j] <= w[m]
    ensures forall j :: a <= j < m ==> w[j] < w[m]
    decreases b - a
  {
    if a == b then a
    else
      var m := PeakAt(w, a, b - 1);
      if w[b] > w[m] then b else m
  }

  function MeanOf(w: seq<real>, r: Run): real
    requires r.lo <= r.hi < |w|
  {
    Average(w[r.lo..r.hi + 1])
  }

  /** The offset of the vertex of the parabola through three neighbouring bins. */
  function VertexOffset(y0: real, y1: real, y2: real): real {
    var denom := 2.0 * (2.0 * y1 - y0 - y2);
    if Abs(denom) > 0.000001 then (y2 - y0) / denom else 0.0
  }

  function CenterOf(start: nat, w: seq<real>, m: nat): real
    requires m < |w|
  {
    (start + m) as real + if 0 < m < |w| - 1 then VertexOffset(w[m - 1], w[m], w[m + 1]) else 0.0
  }

  predicate Passes(q: Cells, w: seq<real>, r: Run)
    requires r.lo <= r.hi < |w|
  {
    var width := r.hi - r.lo + 1;
    width >= q.minBins && (width < 2 || w[PeakAt(w, r.lo, r.hi)] - MeanOf(w, r) >= q.minPapr)
  }

  function SignalOf(start: nat, w: seq<real>, r: Run): Signal
    requires r.lo <= r.hi < |w|
  {
    var m := PeakAt(w, r.lo, r.hi);
    Signal(start + r.lo, start + r.hi, w[m], MeanOf(w, r), CenterOf(start, w, m))
  }

  /** The signal of one run, if the run passes both gates. */
  function Gated(q: Cells, w: seq<real>, r: Run): seq<Signal>
    requires r.lo <= r.hi < |w|
  {
    if Passes(q, w, r) then [SignalOf(q.start, w, r)] else []
  }

  predicate Fits(n: nat, runs: seq<Run>) {
    forall k :: 0 <= k < |runs| ==> runs[k].lo <= runs[k].hi < n
  }

  /** The signals of the runs that pass, in order. */
  function Select(q: Cells, w: seq<real>, runs: seq<Run>): seq<Signal>
    requires Fits(|w|, runs)
  {
    if runs == [] then [] else Select(q, w, runs[..|runs| - 1]) + Gated(q, w, runs[|runs| - 1])
  }

  lemma {:induction false} RunsFit(hot: seq<bool>, i: nat)
    requires i <= |hot|
    ensures Fits(|hot|, Runs(hot, i))
    decreases |hot| - i
  {
    if i == |hot| {
    } else {
      RunsFit(hot, if hot[i] then RunEnd(hot, i) + 1 else i + 1);
    }
  }

  /** The maximal runs of hot bins, left to right. */
  function HotRuns(q: Cells, w: seq<real>, fallback: real): (runs: seq<Run>)
    ensures Fits(|w|, runs)
  {
    RunsFit(HotBins(q, w, fallback), 0);
    Runs(HotBins(q, w, fallback), 0)
  }

  /** What the scan finds in a spectrum as it stands, left to right. */
  function Found(st: Search, p: seq<real>): seq<Signal>
    requires st.Valid() && |p| == st.fftSize
  {
    var w := st.Window(p);
    Select(st.cells, w, HotRuns(st.cells, w, st.Noise(p)))
  }

  /** Everything one search reports for a given spectrum, before sorting. */
  function Report(st: Search, power: seq<real>): seq<Signal>
    requires st.Valid() && |power| == st.fftSize
  {
    Found(st, st.Blanked(power))
  }

  /** The absolute frequency of a (fractional) bin. */
  function BinToHz(fftSize: nat, bin: real, sampleRate: real, center: real): real
    requires fftSize > 0
  {
    center + (bin - (fftSize / 2) as real) * (sampleRate / fftSize as real)
  }

  predicate DescendingPeaks(s: seq<Signal>) {
    forall i, j :: 0 <= i < j < |s| ==> s[i].peak >= s[j].peak
  }
}
