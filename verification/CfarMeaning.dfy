/**
 * The detector's specification in plain arithmetic: what the local noise weighs, which bins are blanked
 * and searched, what makes a bin hot and a run reportable, and what a signal's fields are.
 */
module CfarMeaning {
  import opened Prelude
  import opened RankStatistic
  import opened CfarSpec
  import opened CfarTheorems

  // ---------- Local noise ----------

  lemma {:induction false} SumUpdate(s: seq<real>, k: nat, x: real)
    requires k < |s|
    ensures Sum(s[k := x]) == Sum(s) - s[k] + x
  {
    var m := |s| - 1;
    if k == m {
      assert s[k := x][..m] == s[..m];
    } else {
      SumUpdate(s[..m], k, x);
      assert s[k := x][..m] == s[..m][k := x];
    }
  }

  lemma QuotientStep(x: real, d: real, n: real)
    requires n > 0.0
    ensures (x + d) / n == x / n + d / n
  {
  }

  lemma HalfQuotient(d: real, n: real)
    requires n > 0.0
    ensures d / n * 0.5 == d / (2.0 * n)
  {
    var q := d / n;
    assert q * n == d;
    assert (q * 0.5) * (2.0 * n) == d;
  }

  lemma AverageStep(s: seq<real>, k: nat, d: real)
    requires k < |s|
    ensures Average(s[k := s[k] + d]) == Average(s) + d / |s| as real
  {
    hide Sum;
    SumUpdate(s, k, s[k] + d);
    QuotientStep(Sum(s), d, |s| as real);
  }

  lemma RefMeanStep(w: seq<real>, a: int, b: int, j: nat, d: real)
    requires j < |w|
    ensures
      var lo, hi := Max(a, 0), Min(b, |w| - 1);
      var before, after := RefMean(w, a, b), RefMean(w[j := w[j] + d], a, b);
      if lo > hi then before.None? && after.None?
      else
        && before.Some? && after.Some?
        && after.value - before.value == if a <= j <= b then d / (hi - lo + 1) as real else 0.0
  {
    hide Average;
    var lo, hi, v := Max(a, 0), Min(b, |w| - 1), w[j := w[j] + d];
    if lo <= hi {
      if a <= j <= b {
        assert v[lo..hi + 1] == w[lo..hi + 1][j - lo := w[lo..hi + 1][j - lo] + d];
        AverageStep(w[lo..hi + 1], j - lo, d);
      } else {
        assert v[lo..hi + 1] == w[lo..hi + 1];
      }
    }
  }

  /** How many of the refs cells beyond the guard exist when so many cells lie on that side. */
  function Existing(refs: nat, beyondGuard: int): nat {
    if beyondGuard <= 0 then 0 else if beyondGuard >= refs then refs else beyondGuard
  }

  /** How much cell j of the window counts in the local noise of bin i. */
  function Weight(guard: nat, refs: nat, n: nat, i: nat, j: nat): real
    requires i < n && j < n
  {
    var left, right := Existing(refs, i - guard), Existing(refs, n - 1 - i - guard);
    if j < i && guard < i - j <= guard + refs then
      if right == 0 then 1.0 / left as real else 1.0 / (2 * left) as real
    else if j > i && guard < j - i <= guard + refs then
      if left == 0 then 1.0 / right as real else 1.0 / (2 * right) as real
    else 0.0
  }

  lemma ScaledQuotient(d: real, n: real)
    requires n > 0.0
    ensures d / n == d * (1.0 / n)
  {
  }

  /** What raising cell j by d does to the mean of one side with the given number of cells. */
  function SideStep(cells: nat, inside: bool, d: real): real {
    if inside && cells > 0 then d / cells as real else 0.0
  }

  lemma LeftStep(q: Cells, w: seq<real>, i: nat, j: nat, d: real)
    requires i < |w| && j < |w|
    ensures
      var cells := Existing(q.refs, i - q.guard);
      var before := RefMean(w, i - q.guard - q.refs, i - q.guard - 1);
      var after := RefMean(w[j := w[j] + d], i - q.guard - q.refs, i - q.guard - 1);
      if cells == 0 then before.None? && after.None?
      else (
        && before.Some? && after.Some?
        && after.value - before.value == SideStep(cells, j < i && q.guard < i - j <= q.guard + q.refs, d))
  {
    hide RefMean;
    RefMeanStep(w, i - q.guard - q.refs, i - q.guard - 1, j, d);
  }

  lemma RightStep(q: Cells, w: seq<real>, i: nat, j: nat, d: real)
    requires i < |w| && j < |w|
    ensures
      var cells := Existing(q.refs, |w| - 1 - i - q.guard);
      var before := RefMean(w, i + q.guard + 1, i + q.guard + q.refs);
      var after := RefMean(w[j := w[j] + d], i + q.guard + 1, i + q.guard + q.refs);
      if cells == 0 then before.None? && after.None?
      else (
        && before.Some? && after.Some?
        && after.value - before.value == SideStep(cells, j > i && q.guard < j - i <= q.guard + q.refs, d))
  {
    hide RefMean;
    RefMeanStep(w, i + q.guard + 1, i + q.guard + q.refs, j, d);
  }

  /** A side without cells takes no step. */
  lemma SidesEmpty(left: nat, right: nat, j: nat, i: nat, q: Cells, d: real)
    ensures left == 0 ==> SideStep(left, j < i && q.guard < i - j <= q.guard + q.refs, d) == 0.0
    ensures right == 0 ==> SideStep(right, j > i && q.guard < j - i <= q.guard + q.refs, d) == 0.0
  {
  }

  /** What steps of the two sides do to the combination. */
  lemma CombineStep(l: Option<real>, r: Option<real>, l': Option<real>, r': Option<real>, dl: real, dr: real, fallback: real)
    requires if l.None? then l'.None? && dl == 0.0 else l'.Some? && l'.value - l.value == dl
    requires if r.None? then r'.None? && dr == 0.0 else r'.Some? && r'.value - r.value == dr
    ensures Combine(l', r', fallback) - Combine(l, r, fallback) ==
      if l.None? then dr else if r.None? then dl else (dl + dr) * 0.5
  {
  }

  /** The sides' steps, put together, are the weight. */
  lemma WeightIs(guard: nat, refs: nat, n: nat, i: nat, j: nat, d: real)
    requires i < n && j < n
    ensures
      var left, right := Existing(refs, i - guard), Existing(refs, n - 1 - i - guard);
      var dl := SideStep(left, j < i && guard < i - j <= guard + refs, d);
      var dr := SideStep(right, j > i && guard < j - i <= guard + refs, d);
      d * Weight(guard, refs, n, i, j) ==
        if left == 0 then dr else if right == 0 then dl else (dl + dr) * 0.5
  {
    var left, right := Existing(refs, i - guard), Existing(refs, n - 1 - i - guard);
    if left > 0 {
      SideShare(d, left);
    }
    if right > 0 {
      SideShare(d, right);
    }
  }

  lemma SideShare(d: real, cells: nat)
    requires cells > 0
    ensures d / cells as real == d * (1.0 / cells as real)
    ensures d / cells as real * 0.5 == d * (1.0 / (2 * cells) as real)
  {
    var n := cells as real;
    assert (2 * cells) as real == 2.0 * n;
    HalfQuotient(d, n);
    ScaledQuotient(d, n);
    ScaledQuotient(d, 2.0 * n);
  }

  /**
   * Raising one cell by d raises the local noise by d times that cell's weight: each side's existing
   * reference cells share half, or all if the other side has none, and no other cell counts.
   */
  lemma NoiseStep(q: Cells, w: seq<real>, i: nat, j: nat, d: real, fallback: real)
    requires i < |w| && j < |w|
    ensures LocalNoise(q, w[j := w[j] + d], i, fallback) - LocalNoise(q, w, i, fallback)
      == d * Weight(q.guard, q.refs, |w|, i, j)
  {
    hide RefMean, Weight, Existing, SideStep;
    var v := w[j := w[j] + d];
    var left, right := Existing(q.refs, i - q.guard), Existing(q.refs, |w| - 1 - i - q.guard);
    var dl := SideStep(left, j < i && q.guard < i - j <= q.guard + q.refs, d);
    var dr := SideStep(right, j > i && q.guard < j - i <= q.guard + q.refs, d);
    LeftStep(q, w, i, j, d);
    RightStep(q, w, i, j, d);
    SidesEmpty(left, right, j, i, q, d);
    WeightIs(q.guard, q.refs, |w|, i, j, d);
    CombineStep(
      RefMean(w, i - q.guard - q.refs, i - q.guard - 1), RefMean(w, i + q.guard + 1, i + q.guard + q.refs),
      RefMean(v, i - q.guard - q.refs, i - q.guard - 1), RefMean(v, i + q.guard + 1, i + q.guard + q.refs),
      dl, dr, fallback);
  }

  /** Away from the ends of the window: d / (2 refs) for the refs cells beyond the guard on either side. */
  lemma NoiseStepInside(q: Cells, w: seq<real>, i: nat, j: nat, d: real, fallback: real)
    requires q.guard + q.refs <= i < |w| - q.guard - q.refs && j < |w|
    ensures
      var step := LocalNoise(q, w[j := w[j] + d], i, fallback) - LocalNoise(q, w, i, fallback);
      var distance := if j < i then i - j else j - i;
      step == if q.guard < distance <= q.guard + q.refs then d / (2 * q.refs) as real else 0.0
  {
    hide LocalNoise;
    NoiseStep(q, w, i, j, d, fallback);
    if q.refs > 0 {
      ScaledQuotient(d, (2 * q.refs) as real);
    }
  }

  lemma {:induction false} SumOfConstant(s: seq<real>, v: real)
    requires forall i :: 0 <= i < |s| ==> s[i] == v
    ensures Sum(s) == |s| as real * v
  {
    if s == [] {
    } else {
      SumOfConstant(s[..|s| - 1], v);
    }
  }

  lemma AverageOfConstant(s: seq<real>, v: real)
    requires s != [] && forall i :: 0 <= i < |s| ==> s[i] == v
    ensures Average(s) == v
  {
    SumOfConstant(s, v);
    hide Sum;
    var n := |s| as real;
    assert n * v / n == v;
  }

  /** Where all cells have one power the local noise is that power; with no cell on either side it is the fallback. */
  lemma NoiseOfConstant(q: Cells, w: seq<real>, i: nat, v: real, fallback: real)
    requires i < |w| && forall j :: 0 <= j < |w| ==> w[j] == v
    ensures
      var left, right := Existing(q.refs, i - q.guard), Existing(q.refs, |w| - 1 - i - q.guard);
      LocalNoise(q, w, i, fallback) == if left == 0 && right == 0 then fallback else v
  {
    RefMeanOfConstant(w, i - q.guard - q.refs, i - q.guard - 1, v);
    RefMeanOfConstant(w, i + q.guard + 1, i + q.guard + q.refs, v);
    hide RefMean;
  }

  lemma RefMeanOfConstant(w: seq<real>, a: int, b: int, v: real)
    requires forall j :: 0 <= j < |w| ==> w[j] == v
    ensures RefMean(w, a, b) == if Max(a, 0) > Min(b, |w| - 1) then None else Some(v)
  {
    hide Average;
    var lo, hi := Max(a, 0), Min(b, |w| - 1);
    if lo <= hi {
      AverageOfConstant(w[lo..hi + 1], v);
    }
  }

  /** With no reference cell on either side the fallback is taken, whatever the powers. */
  lemma NoiseWithoutCells(q: Cells, w: seq<real>, i: nat, fallback: real)
    requires i < |w| && Existing(q.refs, i - q.guard) == 0 && Existing(q.refs, |w| - 1 - i - q.guard) == 0
    ensures LocalNoise(q, w, i, fallback) == fallback
  {
    hide Average;
  }

  /** The weighted sum of the first n cells. */
  function Weighed(q: Cells, w: seq<real>, i: nat, n: nat): real
    requires i < |w| && n <= |w|
  {
    if n == 0 then 0.0 else Weighed(q, w, i, n - 1) + w[n - 1] * Weight(q.guard, q.refs, |w|, i, n - 1)
  }

  /** The first n cells of w in an otherwise silent window. */
  function Kept(w: seq<real>, n: nat): (v: seq<real>)
    requires n <= |w|
    ensures |v| == |w| && forall k :: 0 <= k < |w| ==> v[k] == if k < n then w[k] else 0.0
  {
    seq(|w|, k requires 0 <= k < |w| => if k < n then w[k] else 0.0)
  }

  lemma {:induction false} KeptNoise(q: Cells, w: seq<real>, i: nat, n: nat, fallback: real)
    requires i < |w| && n <= |w|
    requires Existing(q.refs, i - q.guard) > 0 || Existing(q.refs, |w| - 1 - i - q.guard) > 0
    ensures LocalNoise(q, Kept(w, n), i, fallback) == Weighed(q, w, i, n)
  {
    hide LocalNoise, Weight;
    if n == 0 {
      NoiseOfConstant(q, Kept(w, 0), i, 0.0, fallback);
    } else {
      var before := Kept(w, n - 1);
      KeptNoise(q, w, i, n - 1, fallback);
      assert Kept(w, n) == before[n - 1 := before[n - 1] + w[n - 1]];
      NoiseStep(q, before, i, n - 1, w[n - 1], fallback);
    }
  }

  /** So the local noise is exactly the weighted sum of the window's cells, for every spectrum. */
  lemma NoiseIsWeighedSum(q: Cells, w: seq<real>, i: nat, fallback: real)
    requires i < |w|
    requires Existing(q.refs, i - q.guard) > 0 || Existing(q.refs, |w| - 1 - i - q.guard) > 0
    ensures LocalNoise(q, w, i, fallback) == Weighed(q, w, i, |w|)
  {
    hide LocalNoise, Weighed;
    KeptNoise(q, w, i, |w|, fallback);
    assert Kept(w, |w|) == w;
  }

  /**
   * A bin is hot iff it stands the threshold or more above its local noise, and above the historical
   * floor where that has the bin.
   */
  lemma HotIff(q: Cells, w: seq<real>, i: nat, fallback: real)
    requires i < |w|
    ensures IsHot(q, w, i, fallback) <==>
      && w[i] - LocalNoise(q, w, i, fallback) >= q.threshold
      && (q.hist.Some? && q.start + i < |q.hist.value| ==> w[i] - q.hist.value[q.start + i] >= q.threshold)
  {
    hide LocalNoise;
  }

  // ---------- Which bins are blanked and searched, and what a run must pass ----------

  /** n is the least number of bins, at least one, that is as wide as hz. */
  predicate LeastBins(n: int, bin: real, hz: real) {
    n >= 1 && n as real * bin >= hz && (n == 1 || (n - 1) as real * bin < hz)
  }

  lemma BinsAreLeast(args: Arguments, hz: real)
    requires args.Valid()
    ensures LeastBins(args.Bins(hz), args.sampleRate / args.fftSize as real, hz)
  {
    var bin := args.sampleRate / args.fftSize as real;
    assert bin > 0.0;
    var x := hz / bin;
    assert x * bin == hz;
    var n := Ceil(x);
    CeilScaled(x, n, bin);
  }

  lemma CeilScaled(x: real, n: int, bin: real)
    requires bin > 0.0 && x <= n as real < x + 1.0
    ensures n as real * bin >= x * bin && (n - 1) as real * bin < x * bin
    ensures n <= 1 ==> 1.0 * bin >= x * bin
  {
    ScaleOrder(x, n as real, bin);
    ScaleOrder(x, (n - 1) as real, bin);
    ScaleOrder(x, 1.0, bin);
  }

  lemma ScaleOrder(x: real, y: real, s: real)
    requires s > 0.0
    ensures x <= y <==> x * s <= y * s
  {
    if x <= y {
      assert (y - x) * s >= 0.0;
    } else {
      assert (x - y) * s > 0.0;
    }
  }

  /**
   * What the arguments of a call say in bins. The window leaves out as many bins on the left as fit into
   * half the unusable fraction, and bins the same distance from the right end; the gate is the least
   * width in bins; thresholds and reference cells are handed on.
   */
  lemma SearchMeans(args: Arguments)
    requires args.Valid()
    ensures
      var st, m := args.InBins(), args.InBins().cells.start;
      && m as real <= args.fftSize as real * (1.0 - args.usable) / 2.0 < (m + 1) as real
      && st.EndBin() == args.fftSize - 1 - m
      && LeastBins(st.cells.minBins, args.sampleRate / args.fftSize as real, args.minBw)
      && st.cells.guard == args.guard && st.cells.refs == args.refs && st.cells.hist == args.hist
      && st.cells.threshold == args.threshold && st.cells.minPapr == args.minPapr
  {
    BinsAreLeast(args, args.minBw);
    hide Arguments.Bins;
  }

  /** The bins searched, and the median of them that stands in where there are no reference cells. */
  lemma WindowMeans(st: Search, power: seq<real>)
    requires st.Valid() && |power| == st.fftSize
    ensures
      var m := st.cells.start;
      && st.Window(power) == power[m..st.fftSize - m]
      && IsRank(power[m..st.fftSize - m], (st.fftSize - 2 * m) / 2, st.Noise(power))
  {
    RankValueIsRank(st.Window(power), st.Width() / 2);
    hide RankValue;
  }

  /** Bin k is in the DC guard zone of a call that guards g bins either side of the middle. */
  predicate Guarded(args: Arguments, m: nat, g: nat, k: nat) {
    args.dcGuard > 0.0 && m <= k <= args.fftSize - 1 - m && k - args.fftSize / 2 <= g && args.fftSize / 2 - k <= g
  }

  /** A bin is overwritten with the median iff it lies in the window and in the guard zone. */
  lemma BlankedMeans(args: Arguments, power: seq<real>) returns (g: nat)
    requires args.Valid() && |power| == args.fftSize
    ensures LeastBins(g, args.sampleRate / args.fftSize as real, args.dcGuard)
    ensures
      var st := args.InBins();
      forall k :: 0 <= k < |power| ==>
        st.Blanked(power)[k] == if Guarded(args, st.cells.start, g, k) then st.Noise(power) else power[k]
  {
    g := args.Bins(args.dcGuard);
    BinsAreLeast(args, args.dcGuard);
    hide RankValue, Arguments.Bins, Arguments.Margin;
  }

  /**
   * Which bins of a call are hot, from the spectrum it was given: in the blanked spectrum, measured against
   * their local noise, with the median of the window as given where there are no reference cells.
   */
  lemma HotFlagsMean(st: Search, power: seq<real>, i: nat)
    requires st.Valid() && |power| == st.fftSize && i < st.fftSize - 2 * st.cells.start
    ensures
      var m := st.cells.start;
      var w := st.Blanked(power)[m..st.fftSize - m];
      HotFlags(st, power)[i] <==> IsHot(st.cells, w, i, RankValue(power[m..st.fftSize - m], (st.fftSize - 2 * m) / 2))
  {
    hide IsHot, RankValue, Search.Blanked;
    BlankingKeepsNoise(st, power);
    var m, p := st.cells.start, st.Blanked(power);
    assert st.Window(p) == p[m..st.fftSize - m] && st.Window(power) == power[m..st.fftSize - m];
    assert st.Noise(p) == RankValue(st.Window(power), st.Width() / 2);
  }

  lemma QuotientGate(sum: real, n: real, peak: real, gate: real)
    requires n > 0.0
    ensures peak - sum / n >= gate <==> peak * n - sum >= gate * n
  {
    var mean := sum / n;
    assert mean * n == sum;
    ScaleOrder(gate, peak - mean, n);
    assert (peak - mean) * n == peak * n - sum;
  }

  /** A run is reported iff it is wide enough and, unless a single bin, its peak stands out of its average. */
  lemma PassesIff(q: Cells, w: seq<real>, r: Run)
    requires r.lo <= r.hi < |w|
    ensures
      var width, peak := r.hi - r.lo + 1, w[PeakAt(w, r.lo, r.hi)];
      Passes(q, w, r) <==>
        && width >= q.minBins
        && (width == 1 || peak * width as real - Sum(w[r.lo..r.hi + 1]) >= q.minPapr * width as real)
  {
    hide PeakAt, Sum, MeanOf;
    MeanIs(w, r);
    QuotientGate(Sum(w[r.lo..r.hi + 1]), (r.hi - r.lo + 1) as real, w[PeakAt(w, r.lo, r.hi)], q.minPapr);
  }

  lemma MeanIs(w: seq<real>, r: Run)
    requires r.lo <= r.hi < |w|
    ensures MeanOf(w, r) == Sum(w[r.lo..r.hi + 1]) / (r.hi - r.lo + 1) as real
  {
    hide Sum;
  }

  // ---------- A signal's fields ----------

  /** The value at t of the parabola that passes through y0, y1 and y2 at -1, 0 and 1. */
  function Parabola(y0: real, y1: real, y2: real, t: real): real {
    y1 + (y2 - y0) / 2.0 * t + (y0 - 2.0 * y1 + y2) / 2.0 * t * t
  }

  lemma ParabolaPasses(y0: real, y1: real, y2: real)
    ensures Parabola(y0, y1, y2, -1.0) == y0 && Parabola(y0, y1, y2, 0.0) == y1 && Parabola(y0, y1, y2, 1.0) == y2
  {
  }

  /** The refined position is where that parabola is highest, or lowest if it opens upwards, and only there. */
  lemma VertexIsExtremum(y0: real, y1: real, y2: real, t: real)
    requires Abs(2.0 * (2.0 * y1 - y0 - y2)) > 0.000001
    ensures
      var v := VertexOffset(y0, y1, y2);
      if t == v then true
      else if 2.0 * y1 > y0 + y2 then Parabola(y0, y1, y2, t) < Parabola(y0, y1, y2, v)
      else Parabola(y0, y1, y2, t) > Parabola(y0, y1, y2, v)
  {
    var v, a, b := VertexOffset(y0, y1, y2), (y0 - 2.0 * y1 + y2) / 2.0, (y2 - y0) / 2.0;
    VertexSlope(y0, y1, y2);
    CurvatureSign(y0, y1, y2, a);
    ParabolaIs(y0, y1, y2, a, b, t);
    ParabolaIs(y0, y1, y2, a, b, v);
    hide VertexOffset, Parabola;
    if t != v {
      AroundVertex(a, b, v, t);
    }
  }

  lemma CurvatureSign(y0: real, y1: real, y2: real, a: real)
    requires Abs(2.0 * (2.0 * y1 - y0 - y2)) > 0.000001 && a == (y0 - 2.0 * y1 + y2) / 2.0
    ensures if 2.0 * y1 > y0 + y2 then a < 0.0 else a > 0.0
  {
  }

  lemma ParabolaIs(y0: real, y1: real, y2: real, a: real, b: real, t: real)
    requires a == (y0 - 2.0 * y1 + y2) / 2.0 && b == (y2 - y0) / 2.0
    ensures Parabola(y0, y1, y2, t) == y1 + (b * t + a * t * t)
  {
  }

  lemma VertexSlope(y0: real, y1: real, y2: real)
    requires Abs(2.0 * (2.0 * y1 - y0 - y2)) > 0.000001
    ensures (y2 - y0) / 2.0 + 2.0 * ((y0 - 2.0 * y1 + y2) / 2.0) * VertexOffset(y0, y1, y2) == 0.0
  {
    var denom := 2.0 * (2.0 * y1 - y0 - y2);
    var v := (y2 - y0) / denom;
    assert v * denom == y2 - y0;
  }

  /** A parabola on either side of its vertex. */
  lemma AroundVertex(a: real, b: real, v: real, t: real)
    requires b + 2.0 * a * v == 0.0 && t != v
    ensures a < 0.0 ==> b * t + a * t * t < b * v + a * v * v
    ensures a > 0.0 ==> b * t + a * t * t > b * v + a * v * v
  {
    var x := t - v;
    var y := a * x;
    FromVertex(a, b, v, t, x, y);
    SignOfProduct(y, 0.0, a, x);
    SignOfProduct(b * t + a * t * t, b * v + a * v * v, y, x);
  }

  lemma FromVertex(a: real, b: real, v: real, t: real, x: real, y: real)
    requires b + 2.0 * a * v == 0.0 && x == t - v && y == a * x
    ensures b * t + a * t * t == b * v + a * v * v + y * x
  {
    assert b == -2.0 * a * v;
    assert y * x == a * t * t - 2.0 * a * v * t + a * v * v;
    assert b * t == -2.0 * a * v * t;
    assert b * v == -2.0 * a * v * v;
  }

  lemma SignOfProduct(p: real, q: real, y: real, x: real)
    requires p == q + y * x
    ensures (y > 0.0 && x > 0.0) || (y < 0.0 && x < 0.0) ==> p > q
    ensures (y > 0.0 && x < 0.0) || (y < 0.0 && x > 0.0) ==> p < q
  {
    if y > 0.0 && x > 0.0 {
      ProductPositive(y, x);
    } else if y < 0.0 && x < 0.0 {
      ProductPositive(-y, -x);
      assert -y * -x == y * x;
    } else if y > 0.0 && x < 0.0 {
      ProductPositive(y, -x);
      assert y * -x == -(y * x);
    } else if y < 0.0 && x > 0.0 {
      ProductPositive(-y, x);
      assert -y * x == -(y * x);
    }
  }

  /**
   * The fields of the signal of a run: its ends, the first of its loudest bins, the average of its bins, and
   * a centre that is that bin's, refined only if the bin has neighbours in the window and is no plateau.
   */
  lemma SignalMeans(start: nat, w: seq<real>, r: Run) returns (m: nat)
    requires r.lo <= r.hi < |w|
    ensures r.lo <= m <= r.hi
    ensures forall j :: r.lo <= j <= r.hi ==> w[j] <= w[m] && (j < m ==> w[j] < w[m])
    ensures
      var s := SignalOf(start, w, r);
      && s.startBin == start + r.lo && s.endBin == start + r.hi && s.peak == w[m]
      && s.mean * (r.hi - r.lo + 1) as real == Sum(w[r.lo..r.hi + 1])
      && s.center - (start + m) as real ==
        if 0 < m < |w| - 1 && Abs(2.0 * (2.0 * w[m] - w[m - 1] - w[m + 1])) > 0.000001
        then VertexOffset(w[m - 1], w[m], w[m + 1]) else 0.0
  {
    m := PeakAt(w, r.lo, r.hi);
    hide PeakAt, Sum, MeanOf;
    MeanIs(w, r);
  }
}
