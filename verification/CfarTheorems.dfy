/** What follows about every call of the detector, for every spectrum. */
module CfarTheorems {
  import opened Prelude
  import opened RankStatistic
  import opened CfarSpec

  // ---------- The report is exactly the qualifying maximal runs ----------

  lemma MaximalFromStart(hot: seq<bool>, i: nat, r: Run)
    requires i < |hot| && hot[i] && (i == 0 || !hot[i - 1])
    ensures Maximal(hot, Run(i, RunEnd(hot, i)))
    ensures Maximal(hot, r) && i <= r.lo ==> r == Run(i, RunEnd(hot, i)) || RunEnd(hot, i) + 1 <= r.lo
  {
    if Maximal(hot, r) && r.lo == i && r.hi != RunEnd(hot, i) {
      assert false;
    }
  }

  lemma {:induction false} RunsAreMaximal(hot: seq<bool>, i: nat)
    requires i <= |hot| && (i == 0 || i == |hot| || !hot[i - 1] || !hot[i])
    ensures forall r :: r in Runs(hot, i) <==> Maximal(hot, r) && i <= r.lo
    decreases |hot| - i
  {
    if i == |hot| {
    } else {
      if !hot[i] {
        RunsAreMaximal(hot, i + 1);
      } else {
        var e := RunEnd(hot, i);
        RunsAreMaximal(hot, e + 1);
        forall r ensures r in Runs(hot, i) <==> Maximal(hot, r) && i <= r.lo {
          MaximalFromStart(hot, i, r);
        }
      }
    }
  }

  lemma {:induction false} RunsSeparated(hot: seq<bool>, i: nat)
    requires i <= |hot|
    ensures forall k :: 0 <= k < |Runs(hot, i)| ==> i <= Runs(hot, i)[k].lo < |hot| && hot[Runs(hot, i)[k].lo]
    ensures forall j, k :: 0 <= j < k < |Runs(hot, i)| ==> Runs(hot, i)[j].hi + 1 < Runs(hot, i)[k].lo
    decreases |hot| - i
  {
    if i == |hot| {
    } else {
      RunsSeparated(hot, if hot[i] then RunEnd(hot, i) + 1 else i + 1);
    }
  }

  lemma {:induction false} SelectMembers(q: Cells, w: seq<real>, runs: seq<Run>, s: Signal)
    requires Fits(|w|, runs)
    ensures s in Select(q, w, runs) <==>
      exists k :: 0 <= k < |runs| && Passes(q, w, runs[k]) && s == SignalOf(q.start, w, runs[k])
  {
    hide SignalOf, Passes;
    if runs == [] {
    } else {
      var m := |runs| - 1;
      SelectMembers(q, w, runs[..m], s);
      assert forall k :: 0 <= k < m ==> runs[..m][k] == runs[k];
    }
  }

  /** The hot bins of a call's own window, after blanking. */
  function HotFlags(st: Search, power: seq<real>): (hot: seq<bool>)
    requires st.Valid() && |power| == st.fftSize
    ensures |hot| == st.Width()
  {
    HotBins(st.cells, st.Window(st.Blanked(power)), st.Noise(st.Blanked(power)))
  }

  /** r is a maximal run of above-threshold bins that passes the width and PAPR gates. */
  ghost predicate Reportable(st: Search, power: seq<real>, r: Run)
    requires st.Valid() && |power| == st.fftSize
  {
    Maximal(HotFlags(st, power), r) && Passes(st.cells, st.Window(st.Blanked(power)), r)
  }

  /** Nothing else is reported, and nothing that qualifies is missed. */
  lemma ReportExact(st: Search, power: seq<real>, s: Signal)
    requires st.Valid() && |power| == st.fftSize
    ensures s in Report(st, power) <==>
      exists r :: Reportable(st, power, r) && s == SignalOf(st.cells.start, st.Window(st.Blanked(power)), r)
  {
    hide SignalOf, Passes, HotBins, Select;
    var w, q, hot := st.Window(st.Blanked(power)), st.cells, HotFlags(st, power);
    RunsAreMaximal(hot, 0);
    RunsFit(hot, 0);
    var runs := Runs(hot, 0);
    SelectMembers(q, w, runs, s);
    if s in Report(st, power) {
      var k :| 0 <= k < |runs| && Passes(q, w, runs[k]) && s == SignalOf(q.start, w, runs[k]);
      assert runs[k] in runs;
      assert Reportable(st, power, runs[k]);
    }
    if r :| Reportable(st, power, r) && s == SignalOf(st.cells.start, w, r) {
      assert r in runs;
    }
  }

  lemma {:induction false} SelectOrdered(q: Cells, w: seq<real>, runs: seq<Run>)
    requires Fits(|w|, runs)
    requires forall j, k :: 0 <= j < k < |runs| ==> runs[j].hi + 1 < runs[k].lo
    ensures forall s :: s in Select(q, w, runs) ==> runs != [] && s.endBin <= q.start + runs[|runs| - 1].hi
    ensures forall j, k :: 0 <= j < k < |Select(q, w, runs)| ==>
      Select(q, w, runs)[j].endBin + 1 < Select(q, w, runs)[k].startBin
  {
    hide Passes, MeanOf, CenterOf, PeakAt;
    if runs == [] {
    } else {
      SelectOrdered(q, w, runs[..|runs| - 1]);
      var front := Select(q, w, runs[..|runs| - 1]);
      assert forall j :: 0 <= j < |front| ==> front[j] in front;
    }
  }

  /** Before sorting, reported signals lie left to right with a cold bin between any two. */
  lemma ReportOrdered(st: Search, power: seq<real>)
    requires st.Valid() && |power| == st.fftSize
    ensures forall j, k :: 0 <= j < k < |Report(st, power)| ==>
      Report(st, power)[j].endBin + 1 < Report(st, power)[k].startBin
  {
    hide HotBins, Select;
    RunsSeparated(HotFlags(st, power), 0);
    SelectOrdered(st.cells, st.Window(st.Blanked(power)),
      HotRuns(st.cells, st.Window(st.Blanked(power)), st.Noise(st.Blanked(power))));
  }

  // ---------- Guard cells ----------

  /** w and v agree on the bins a..b, as far as these exist. */
  predicate AgreeOn(w: seq<real>, v: seq<real>, a: int, b: int) {
    |w| == |v| && forall j :: 0 <= j < |w| && a <= j <= b ==> w[j] == v[j]
  }

  lemma RefMeanLocal(w: seq<real>, v: seq<real>, a: int, b: int)
    requires AgreeOn(w, v, a, b)
    ensures RefMean(w, a, b) == RefMean(v, a, b)
  {
    hide Average;
    var lo, hi := Max(a, 0), Min(b, |w| - 1);
    if lo <= hi {
      assert w[lo..hi + 1] == v[lo..hi + 1];
    }
  }

  /**
   * The noise a bin is measured against depends on its reference cells only: neither on itself nor on
   * its guard cells, so a signal does not raise its own threshold, nor on anything further away.
   */
  lemma GuardCellsExcluded(q: Cells, w: seq<real>, v: seq<real>, i: nat, fallback: real)
    requires AgreeOn(w, v, i - q.guard - q.refs, i - q.guard - 1)
    requires AgreeOn(w, v, i + q.guard + 1, i + q.guard + q.refs)
    ensures LocalNoise(q, w, i, fallback) == LocalNoise(q, v, i, fallback)
  {
    hide RefMean;
    RefMeanLocal(w, v, i - q.guard - q.refs, i - q.guard - 1);
    RefMeanLocal(w, v, i + q.guard + 1, i + q.guard + q.refs);
  }

  // ---------- Blanking ----------

  /** Blanking with the window's median leaves the median where it was. */
  lemma BlankingKeepsNoise(st: Search, power: seq<real>)
    requires st.Valid() && |power| == st.fftSize
    ensures st.Noise(st.Blanked(power)) == st.Noise(power)
  {
    OverwriteKeepsRank(st.Window(power), st.Window(st.Blanked(power)), st.Width() / 2);
  }

  /** A second call with the same arguments changes no bin and reports the same signals. */
  lemma DetectTwice(st: Search, power: seq<real>)
    requires st.Valid() && |power| == st.fftSize
    ensures st.Blanked(st.Blanked(power)) == st.Blanked(power)
    ensures Report(st, st.Blanked(power)) == Report(st, power)
  {
    BlankingKeepsNoise(st, power);
    assert st.Blanked(st.Blanked(power)) == st.Blanked(power);
  }

  // ---------- Gain invariance ----------

  lemma {:induction false} SumShift(s: seq<real>, c: real)
    ensures Sum(Shift(s, c)) == Sum(s) + |s| as real * c
  {
    if s == [] {
    } else {
      var m := |s| - 1;
      SumShift(s[..m], c);
      assert Shift(s, c)[..m] == Shift(s[..m], c);
      assert |s| as real * c == m as real * c + c;
    }
  }

  lemma AverageShift(s: seq<real>, c: real)
    requires s != []
    ensures Average(Shift(s, c)) == Average(s) + c
  {
    hide Sum;
    SumShift(s, c);
    QuotientShift(Sum(s), Sum(Shift(s, c)), |s| as real, c);
  }

  lemma QuotientShift(x: real, y: real, n: real, c: real)
    requires n > 0.0 && y == x + n * c
    ensures y / n == x / n + c
  {
    var a := x / n;
    assert a * n == x;
    assert (a + c) * n == y;
  }

  function Shifted(o: Option<real>, c: real): Option<real> {
    match o
    case None => None
    case Some(x) => Some(x + c)
  }

  lemma RefMeanShift(w: seq<real>, a: int, b: int, c: real)
    ensures RefMean(Shift(w, c), a, b) == Shifted(RefMean(w, a, b), c)
  {
    hide Average;
    var lo, hi := Max(a, 0), Min(b, |w| - 1);
    if lo <= hi {
      assert Shift(w, c)[lo..hi + 1] == Shift(w[lo..hi + 1], c);
      AverageShift(w[lo..hi + 1], c);
    }
  }

  lemma LocalNoiseShift(q: Cells, w: seq<real>, i: int, fallback: real, c: real)
    ensures LocalNoise(q, Shift(w, c), i, fallback + c) == LocalNoise(q, w, i, fallback) + c
  {
    hide RefMean;
    RefMeanShift(w, i - q.guard - q.refs, i - q.guard - 1, c);
    RefMeanShift(w, i + q.guard + 1, i + q.guard + q.refs, c);
  }

  lemma HotBinsShift(q: Cells, w: seq<real>, fallback: real, c: real)
    requires q.hist.None?
    ensures HotBins(q, Shift(w, c), fallback + c) == HotBins(q, w, fallback)
  {
    hide LocalNoise;
    forall i | 0 <= i < |w|
      ensures IsHot(q, Shift(w, c), i, fallback + c) == IsHot(q, w, i, fallback)
    {
      LocalNoiseShift(q, w, i, fallback, c);
    }
  }

  lemma {:induction false} PeakAtShift(w: seq<real>, a: nat, b: nat, c: real)
    requires a <= b < |w|
    ensures PeakAt(Shift(w, c), a, b) == PeakAt(w, a, b)
    decreases b - a
  {
    if a == b {
    } else {
      PeakAtShift(w, a, b - 1, c);
    }
  }

  lemma VertexShift(y0: real, y1: real, y2: real, c: real)
    ensures VertexOffset(y0 + c, y1 + c, y2 + c) == VertexOffset(y0, y1, y2)
  {
    assert (y2 + c) - (y0 + c) == y2 - y0;
    assert 2.0 * (2.0 * (y1 + c) - (y0 + c) - (y2 + c)) == 2.0 * (2.0 * y1 - y0 - y2);
  }

  /** The same signal, c louder. */
  function Louder(s: Signal, c: real): Signal {
    s.(peak := s.peak + c, mean := s.mean + c)
  }

  function AllLouder(ss: seq<Signal>, c: real): (t: seq<Signal>)
    ensures |t| == |ss| && forall i :: 0 <= i < |ss| ==> t[i] == Louder(ss[i], c)
  {
    seq(|ss|, i requires 0 <= i < |ss| => Louder(ss[i], c))
  }

  lemma MeanShift(w: seq<real>, r: Run, c: real)
    requires r.lo <= r.hi < |w|
    ensures MeanOf(Shift(w, c), r) == MeanOf(w, r) + c
  {
    hide Average;
    assert Shift(w, c)[r.lo..r.hi + 1] == Shift(w[r.lo..r.hi + 1], c);
    AverageShift(w[r.lo..r.hi + 1], c);
  }

  lemma CenterShift(start: nat, w: seq<real>, m: nat, c: real)
    requires m < |w|
    ensures CenterOf(start, Shift(w, c), m) == CenterOf(start, w, m)
  {
    if 0 < m < |w| - 1 {
      VertexShift(w[m - 1], w[m], w[m + 1], c);
    }
  }

  lemma PassesShift(q: Cells, w: seq<real>, r: Run, c: real)
    requires r.lo <= r.hi < |w|
    ensures Passes(q, Shift(w, c), r) == Passes(q, w, r)
  {
    hide MeanOf, PeakAt;
    PeakAtShift(w, r.lo, r.hi, c);
    MeanShift(w, r, c);
  }

  lemma SignalShift(start: nat, w: seq<real>, r: Run, c: real)
    requires r.lo <= r.hi < |w|
    ensures SignalOf(start, Shift(w, c), r) == Louder(SignalOf(start, w, r), c)
  {
    hide MeanOf, CenterOf, PeakAt;
    PeakAtShift(w, r.lo, r.hi, c);
    MeanShift(w, r, c);
    CenterShift(start, w, PeakAt(w, r.lo, r.hi), c);
  }

  lemma GatedShift(q: Cells, w: seq<real>, r: Run, c: real)
    requires r.lo <= r.hi < |w|
    ensures Gated(q, Shift(w, c), r) == AllLouder(Gated(q, w, r), c)
  {
    hide Passes, SignalOf, Louder;
    PassesShift(q, w, r, c);
    SignalShift(q.start, w, r, c);
  }

  lemma {:induction false} SelectShift(q: Cells, w: seq<real>, runs: seq<Run>, c: real)
    requires Fits(|w|, runs)
    ensures Select(q, Shift(w, c), runs) == AllLouder(Select(q, w, runs), c)
  {
    hide Gated;
    if runs == [] {
    } else {
      SelectShift(q, w, runs[..|runs| - 1], c);
      GatedShift(q, w, runs[|runs| - 1], c);
    }
  }

  lemma BlankedShift(st: Search, power: seq<real>, c: real)
    requires st.Valid() && |power| == st.fftSize
    ensures st.Noise(Shift(power, c)) == st.Noise(power) + c
    ensures st.Blanked(Shift(power, c)) == Shift(st.Blanked(power), c)
  {
    hide RankValue, Search.EndBin;
    assert st.Window(Shift(power, c)) == Shift(st.Window(power), c);
    ShiftRank(st.Window(power), st.Width() / 2, c);
  }

  /** Receiver gain does not matter: adding c dB everywhere finds the same signals, c dB louder. */
  lemma GainInvariance(st: Search, power: seq<real>, c: real)
    requires st.Valid() && |power| == st.fftSize && st.cells.hist.None?
    ensures Report(st, Shift(power, c)) == AllLouder(Report(st, power), c)
  {
    hide HotBins, Select, Runs, Search.Noise;
    var p, q := st.Blanked(power), st.cells;
    BlankedShift(st, power, c);
    BlankedShift(st, p, c);
    assert st.Window(Shift(p, c)) == Shift(st.Window(p), c);
    HotBinsShift(q, st.Window(p), st.Noise(p), c);
    SelectShift(q, st.Window(p), HotRuns(q, st.Window(p), st.Noise(p)), c);
  }

  // ---------- Nesting ----------

  /** The run of hot bins around position i. */
  lemma {:induction false} RunAround(hot: seq<bool>, lo: nat, hi: nat) returns (r: Run)
    requires lo <= hi < |hot| && forall i :: lo <= i <= hi ==> hot[i]
    ensures Maximal(hot, r) && r.lo <= lo && hi <= r.hi
    decreases lo + |hot| - hi
  {
    if lo > 0 && hot[lo - 1] {
      r := RunAround(hot, lo - 1, hi);
    } else if hi + 1 < |hot| && hot[hi + 1] {
      r := RunAround(hot, lo, hi + 1);
    } else {
      r := Run(lo, hi);
    }
  }

  lemma RunsNest(strict: seq<bool>, loose: seq<bool>, r: Run)
    requires |strict| == |loose| && forall i :: 0 <= i < |strict| && strict[i] ==> loose[i]
    requires Maximal(strict, r)
    ensures exists r' :: Maximal(loose, r') && r'.lo <= r.lo && r.hi <= r'.hi
  {
    var r' := RunAround(loose, r.lo, r.hi);
  }

  /** A bin hot under a higher threshold or with a historical floor is hot without; gates play no part. */
  lemma HotMonotone(q: Cells, q': Cells, w: seq<real>, fallback: real)
    requires q'.start == q.start && q'.guard == q.guard && q'.refs == q.refs
    requires q'.threshold >= q.threshold && (q'.hist == q.hist || q.hist.None?)
    ensures forall i :: 0 <= i < |w| && HotBins(q', w, fallback)[i] ==> HotBins(q, w, fallback)[i]
  {
    forall i | 0 <= i < |w| && IsHot(q', w, i, fallback)
      ensures IsHot(q, w, i, fallback)
    {
      assert LocalNoise(q', w, i, fallback) == LocalNoise(q, w, i, fallback);
      hide LocalNoise;
    }
  }

  /** Which bins are blanked, and with what, depends neither on threshold and history nor on the gates. */
  predicate SameLayout(st: Search, st': Search) {
    st' == st.(cells := st'.cells) && st'.cells.start == st.cells.start
    && st'.cells.guard == st.cells.guard && st'.cells.refs == st.cells.refs
  }

  lemma SameBlanking(st: Search, st': Search, power: seq<real>)
    requires st.Valid() && |power| == st.fftSize && SameLayout(st, st')
    ensures st'.Blanked(power) == st.Blanked(power)
    ensures st'.Window(st.Blanked(power)) == st.Window(st.Blanked(power))
    ensures st'.Noise(st.Blanked(power)) == st.Noise(st.Blanked(power))
  {
    hide RankValue;
  }

  lemma FlagsNest(st: Search, st': Search, power: seq<real>, r: Run)
    requires st.Valid() && |power| == st.fftSize && SameLayout(st, st')
    requires st'.cells.threshold >= st.cells.threshold
    requires st'.cells.hist == st.cells.hist || st.cells.hist.None?
    requires Maximal(HotFlags(st', power), r)
    ensures exists r' :: Maximal(HotFlags(st, power), r') && r'.lo <= r.lo && r.hi <= r'.hi
  {
    SameBlanking(st, st', power);
    hide IsHot, Search.Blanked, Search.Window, Search.Noise, HotBins;
    HotMonotone(st.cells, st'.cells, st.Window(st.Blanked(power)), st.Noise(st.Blanked(power)));
    RunsNest(HotFlags(st', power), HotFlags(st, power), r);
  }

  /** Raising the threshold: every raw run lies inside a raw run of the lower threshold. */
  lemma ThresholdNests(st: Search, power: seq<real>, threshold: real, r: Run)
    requires st.Valid() && |power| == st.fftSize && threshold >= st.cells.threshold
    requires Maximal(HotFlags(st.(cells := st.cells.(threshold := threshold)), power), r)
    ensures exists r' :: Maximal(HotFlags(st, power), r') && r'.lo <= r.lo && r.hi <= r'.hi
  {
    hide HotFlags;
    FlagsNest(st, st.(cells := st.cells.(threshold := threshold)), power, r);
  }

  /** Supplying a historical floor: every raw run lies inside a raw run found without it. */
  lemma HistoryNests(st: Search, power: seq<real>, floor: seq<real>, r: Run)
    requires st.Valid() && |power| == st.fftSize && st.cells.hist.None?
    requires Maximal(HotFlags(st.(cells := st.cells.(hist := Some(floor))), power), r)
    ensures exists r' :: Maximal(HotFlags(st, power), r') && r'.lo <= r.lo && r.hi <= r'.hi
  {
    hide HotFlags;
    FlagsNest(st, st.(cells := st.cells.(hist := Some(floor))), power, r);
  }

  /** xs is ys with some elements left out. */
  predicate Subsequence<T(==)>(xs: seq<T>, ys: seq<T>) {
    if xs == [] then true
    else if ys == [] then false
    else if xs[|xs| - 1] == ys[|ys| - 1] then Subsequence(xs[..|xs| - 1], ys[..|ys| - 1])
    else Subsequence(xs, ys[..|ys| - 1])
  }

  lemma {:induction false} SubsequenceDropLast<T>(xs: seq<T>, ys: seq<T>)
    requires xs != [] && Subsequence(xs, ys)
    ensures Subsequence(xs[..|xs| - 1], ys)
    decreases |ys|, 0
  {
    var xs', ys' := xs[..|xs| - 1], ys[..|ys| - 1];
    if xs[|xs| - 1] != ys[|ys| - 1] {
      SubsequenceDropLast(xs, ys');
      SubsequenceSkip(xs', ys', ys[|ys| - 1]);
    } else {
      SubsequenceSkip(xs', ys', ys[|ys| - 1]);
    }
    assert ys' + [ys[|ys| - 1]] == ys;
  }

  lemma {:induction false} SubsequenceSkip<T>(xs: seq<T>, ys: seq<T>, y: T)
    requires Subsequence(xs, ys)
    ensures Subsequence(xs, ys + [y])
    decreases |ys|, 1
  {
    assert (ys + [y])[..|ys|] == ys;
    if xs != [] && xs[|xs| - 1] == y {
      SubsequenceDropLast(xs, ys);
    }
  }

  lemma SubsequenceKeep<T>(xs: seq<T>, ys: seq<T>, y: T)
    requires Subsequence(xs, ys)
    ensures Subsequence(xs + [y], ys + [y])
  {
    assert (ys + [y])[..|ys|] == ys && (xs + [y])[..|xs|] == xs;
  }

  lemma {:induction false} SelectTighter(q: Cells, q': Cells, w: seq<real>, runs: seq<Run>)
    requires Fits(|w|, runs) && q'.start == q.start
    requires q'.minBins >= q.minBins && q'.minPapr >= q.minPapr
    ensures Subsequence(Select(q', w, runs), Select(q, w, runs))
  {
    if runs == [] {
    } else {
      var front, last := runs[..|runs| - 1], runs[|runs| - 1];
      SelectTighter(q, q', w, front);
      GatesMonotone(q, q', w, last);
      hide Passes, SignalOf, Subsequence;
      if Passes(q, w, last) {
        if Passes(q', w, last) {
          SubsequenceKeep(Select(q', w, front), Select(q, w, front), SignalOf(q.start, w, last));
        } else {
          assert Select(q', w, runs) == Select(q', w, front);
          SubsequenceSkip(Select(q', w, front), Select(q, w, front), SignalOf(q.start, w, last));
        }
      } else {
        assert Select(q', w, runs) == Select(q', w, front);
        assert Select(q, w, runs) == Select(q, w, front);
      }
    }
  }

  lemma GatesMonotone(q: Cells, q': Cells, w: seq<real>, r: Run)
    requires r.lo <= r.hi < |w| && q'.minBins >= q.minBins && q'.minPapr >= q.minPapr
    ensures Passes(q', w, r) ==> Passes(q, w, r)
  {
    hide MeanOf, PeakAt;
  }

  /** Tighter gates only leave signals out; order and values of the others stay. */
  lemma GatesNest(st: Search, power: seq<real>, minBins: nat, minPapr: real)
    requires st.Valid() && |power| == st.fftSize
    requires minBins >= st.cells.minBins && minPapr >= st.cells.minPapr
    ensures Subsequence(
      Report(st.(cells := st.cells.(minBins := minBins, minPapr := minPapr)), power), Report(st, power))
  {
    var st' := st.(cells := st.cells.(minBins := minBins, minPapr := minPapr));
    var q, q' := st.cells, st'.cells;
    SameBlanking(st, st', power);
    hide Select, Runs, Subsequence, HotBins, Search.Blanked, Search.Window, Search.Noise;
    var w, noise := st.Window(st.Blanked(power)), st.Noise(st.Blanked(power));
    HotMonotone(q, q', w, noise);
    HotMonotone(q', q, w, noise);
    assert HotBins(q', w, noise) == HotBins(q, w, noise);
    SelectTighter(q, q', w, HotRuns(q, w, noise));
  }

  /** Tighter gates in Hz and dB are tighter gates in bins and dB, and change nothing else. */
  lemma TighterArguments(args: Arguments, minBw: real, minPapr: real)
    requires args.Valid() && minBw >= args.minBw && minPapr >= args.minPapr
    ensures
      var st, st' := args.InBins(), args.(minBw := minBw, minPapr := minPapr).InBins();
      && st' == st.(cells := st.cells.(minBins := st'.cells.minBins, minPapr := minPapr))
      && st'.cells.minBins >= st.cells.minBins && minPapr >= st.cells.minPapr
  {
    var args' := args.(minBw := minBw, minPapr := minPapr);
    SameGrid(args, args', args.dcGuard);
    SameGrid(args, args', minBw);
    BinsMonotone(args, args.minBw, minBw);
    hide Arguments.Bins, Arguments.Margin, Max, Min;
  }

  /** The bin grid depends on the size, the rate and the usable fraction only. */
  lemma SameGrid(args: Arguments, args': Arguments, hz: real)
    requires args.Valid() && args'.Valid()
    requires args'.fftSize == args.fftSize && args'.usable == args.usable && args'.sampleRate == args.sampleRate
    ensures args'.Margin() == args.Margin() && args'.Bins(hz) == args.Bins(hz)
  {
    hide Ceil, Max;
  }

  lemma BinsMonotone(args: Arguments, x: real, y: real)
    requires args.Valid() && x <= y
    ensures args.Bins(x) <= args.Bins(y)
  {
    var bin := args.sampleRate / args.fftSize as real;
    assert bin > 0.0;
    QuotientMonotone(x, y, bin);
    CeilMonotone(x / bin, y / bin);
    hide Ceil;
  }

  lemma QuotientMonotone(x: real, y: real, d: real)
    requires x <= y && d > 0.0
    ensures x / d <= y / d
  {
  }

  lemma CeilMonotone(x: real, y: real)
    requires x <= y
    ensures Ceil(x) <= Ceil(y)
  {
  }

  // ---------- Interpolation ----------

  /**
   * The parabola's vertex is within half a bin of the peak bin exactly when the two neighbours
   * do not lie on opposite sides of it, one strictly above and one strictly below.
   */
  lemma VertexWithinHalfBin(y0: real, y1: real, y2: real)
    requires Abs(2.0 * (2.0 * y1 - y0 - y2)) > 0.000001
    ensures -0.5 <= VertexOffset(y0, y1, y2) <= 0.5 <==>
      (y0 <= y1 && y2 <= y1) || (y0 >= y1 && y2 >= y1)
  {
    var a, b := y1 - y0, y1 - y2;
    var denom := 2.0 * (a + b);
    assert denom == 2.0 * (2.0 * y1 - y0 - y2) && y2 - y0 == a - b;
    var offset := (a - b) / denom;
    assert offset * denom == a - b;
    HalfBound(offset, a, b);
  }

  /**
   * The reported centre of a peak strictly inside the window is within half a bin of it exactly when the
   * curvature is too small to interpolate or the neighbours are not on opposite sides of the peak.
   */
  lemma CenterWithinHalfBin(start: nat, w: seq<real>, m: nat)
    requires 0 < m < |w| - 1
    ensures (start + m) as real - 0.5 <= CenterOf(start, w, m) <= (start + m) as real + 0.5 <==>
      || Abs(2.0 * (2.0 * w[m] - w[m - 1] - w[m + 1])) <= 0.000001
      || (w[m - 1] <= w[m] && w[m + 1] <= w[m])
      || (w[m - 1] >= w[m] && w[m + 1] >= w[m])
  {
    var y0, y1, y2 := w[m - 1], w[m], w[m + 1];
    assert CenterOf(start, w, m) == (start + m) as real + VertexOffset(y0, y1, y2);
    if Abs(2.0 * (2.0 * y1 - y0 - y2)) > 0.000001 {
      VertexWithinHalfBin(y0, y1, y2);
    }
    hide CenterOf;
  }

  lemma HalfBound(x: real, a: real, b: real)
    requires a + b != 0.0 && x * (2.0 * (a + b)) == a - b
    ensures -0.5 <= x <= 0.5 <==> (a >= 0.0 && b >= 0.0) || (a <= 0.0 && b <= 0.0)
  {
    var t := a + b;
    assert (x - 0.5) * (2.0 * t) == -2.0 * b;
    assert (x + 0.5) * (2.0 * t) == 2.0 * a;
    if t > 0.0 {
      assert x <= 0.5 <==> b >= 0.0 by { SignOfProduct(x - 0.5, 2.0 * t); }
      assert x >= -0.5 <==> a >= 0.0 by { SignOfProduct(x + 0.5, 2.0 * t); }
    } else {
      assert x <= 0.5 <==> b <= 0.0 by { SignOfProduct(0.5 - x, -2.0 * t); }
      assert x >= -0.5 <==> a <= 0.0 by { SignOfProduct(-0.5 - x, -2.0 * t); }
    }
  }

  lemma SignOfProduct(u: real, t: real)
    requires t > 0.0
    ensures u <= 0.0 <==> u * t <= 0.0
    ensures u >= 0.0 <==> u * t >= 0.0
  {
  }

  /** A peak inside its run has no higher neighbour, so its centre is within half a bin of it. */
  lemma InteriorPeakCenter(start: nat, w: seq<real>, r: Run)
    requires r.lo <= r.hi < |w| && r.lo < PeakAt(w, r.lo, r.hi) < r.hi
    ensures
      var s, m := SignalOf(start, w, r), start + PeakAt(w, r.lo, r.hi);
      && m as real - 0.5 <= s.center <= m as real + 0.5
      && s.startBin as real + 0.5 <= s.center <= s.endBin as real - 0.5
      && start as real <= s.center <= (start + |w| - 1) as real
  {
    var m := PeakAt(w, r.lo, r.hi);
    assert w[m - 1] <= w[m] && w[m + 1] <= w[m];
    hide MeanOf, PeakAt;
    CenterNear(start, w, m);
  }

  /** Whatever the run, a peak bin that neither neighbour exceeds has its centre within half a bin. */
  lemma CenterNear(start: nat, w: seq<real>, m: nat)
    requires m < |w|
    requires 0 < m < |w| - 1 ==> w[m - 1] <= w[m] && w[m + 1] <= w[m]
    ensures (start + m) as real - 0.5 <= CenterOf(start, w, m) <= (start + m) as real + 0.5
    ensures start as real <= CenterOf(start, w, m) <= (start + |w| - 1) as real
  {
    if 0 < m < |w| - 1 && Abs(2.0 * (2.0 * w[m] - w[m - 1] - w[m + 1])) > 0.000001 {
      VertexWithinHalfBin(w[m - 1], w[m], w[m + 1]);
    }
  }

  // ---------- Frequencies ----------

  lemma BinToHzMonotone(fftSize: nat, a: real, b: real, sampleRate: real, center: real)
    requires fftSize > 0 && sampleRate > 0.0 && a <= b
    ensures BinToHz(fftSize, a, sampleRate, center) <= BinToHz(fftSize, b, sampleRate, center)
    ensures BinToHz(fftSize, b, sampleRate, center) - BinToHz(fftSize, a, sampleRate, center)
      == (b - a) * (sampleRate / fftSize as real)
  {
    var h := sampleRate / fftSize as real;
    var mid := (fftSize / 2) as real;
    assert h > 0.0;
    assert (b - mid) * h - (a - mid) * h == (b - a) * h;
    assert (b - a) * h >= 0.0;
  }

  /** The middle bin is the centre frequency, and each bin further on is one bin width higher. */
  lemma BinToHzAnchored(fftSize: nat, bin: real, sampleRate: real, center: real)
    requires fftSize > 0
    ensures BinToHz(fftSize, (fftSize / 2) as real, sampleRate, center) == center
    ensures BinToHz(fftSize, bin + 1.0, sampleRate, center) == BinToHz(fftSize, bin, sampleRate, center) + sampleRate / fftSize as real
  {
    var h, x := sampleRate / fftSize as real, bin - (fftSize / 2) as real;
    assert (x + 1.0) * h == x * h + h;
  }

  /**
   * When no neighbour exceeds the peak bin, always so for a peak inside its run, the reported centre
   * frequency is inside the usable band around lo and within half a bin of the run.
   */
  lemma ReportedFrequency(fftSize: nat, start: nat, w: seq<real>, r: Run, sampleRate: real, lo: real)
    requires fftSize > 0 && sampleRate > 0.0 && r.lo <= r.hi < |w|
    requires
      var m := PeakAt(w, r.lo, r.hi);
      0 < m < |w| - 1 ==> w[m - 1] <= w[m] && w[m + 1] <= w[m]
    ensures
      var hz := BinToHz(fftSize, SignalOf(start, w, r).center, sampleRate, lo);
      var width, mid := sampleRate / fftSize as real, (fftSize / 2) as real;
      && lo + ((start + r.lo) as real - 0.5 - mid) * width <= hz
      && hz <= lo + ((start + r.hi) as real + 0.5 - mid) * width
      && lo + (start as real - mid) * width <= hz
      && hz <= lo + ((start + |w| - 1) as real - mid) * width
  {
    hide BinToHz, SignalOf, PeakAt;
    CenterNearRun(start, w, r);
    var c := SignalOf(start, w, r).center;
    HzBetween(fftSize, (start + r.lo) as real - 0.5, c, (start + r.hi) as real + 0.5, sampleRate, lo);
    HzBetween(fftSize, start as real, c, (start + |w| - 1) as real, sampleRate, lo);
  }

  lemma CenterNearRun(start: nat, w: seq<real>, r: Run)
    requires r.lo <= r.hi < |w|
    requires
      var m := PeakAt(w, r.lo, r.hi);
      0 < m < |w| - 1 ==> w[m - 1] <= w[m] && w[m + 1] <= w[m]
    ensures
      var s := SignalOf(start, w, r);
      && (start + r.lo) as real - 0.5 <= s.center <= (start + r.hi) as real + 0.5
      && start as real <= s.center <= (start + |w| - 1) as real
  {
    hide CenterOf, MeanOf;
    CenterNear(start, w, PeakAt(w, r.lo, r.hi));
  }

  /** Between two bins, in plain arithmetic. */
  lemma HzBetween(fftSize: nat, a: real, c: real, b: real, sampleRate: real, center: real)
    requires fftSize > 0 && sampleRate > 0.0 && a <= c <= b
    ensures
      var width, mid := sampleRate / fftSize as real, (fftSize / 2) as real;
      center + (a - mid) * width <= BinToHz(fftSize, c, sampleRate, center) <= center + (b - mid) * width
  {
    BinToHzMonotone(fftSize, a, c, sampleRate, center);
    BinToHzMonotone(fftSize, c, b, sampleRate, center);
  }

  /**
   * Without that condition the centre can leave its run, and even the spectrum. In this 64-bin spectrum,
   * searched in its middle six bins with no guard cells, two reference cells a side and a 1 dB threshold,
   * the run of bins 30 and 31 peaks at its edge, beside a louder bin that is not hot because a still
   * louder one raises its noise estimate. The signal reported for it is centred at bin -69.5.
   */
  lemma EdgePeakCenterLeavesSpectrum()
    ensures
      var args, power := EdgeArguments(), EdgeSpectrum();
      args.Valid() && |power| == args.fftSize
      && exists s :: s in Report(args.InBins(), power) && s.startBin == 30 && s.endBin == 31 && s.center == -69.5
  {
    EdgeSearch();
    hide Arguments.InBins, Report;
    var st, power := EdgeArguments().InBins(), EdgeSpectrum();
    var w, q, r := EdgeWindow(), st.cells, Run(1, 2);
    hide EdgeSpectrum, EdgeWindow, Search.Blanked, Search.Window, Search.Noise, HotBins, Average, PeakAt, MeanOf;
    EdgeRun(st.Noise(power));
    assert Reportable(st, power, r);
    EdgeSignal();
    ReportExact(st, power, SignalOf(29, w, r));
  }

  function EdgeArguments(): Arguments {
    Arguments(64, 0, 2, 1.0, 0.09375, 64.0, 0.0, 0.0, 3.0, None)
  }

  function EdgeSpectrum(): (power: seq<real>)
    ensures |power| == 64
  {
    seq(64, k requires 0 <= k < 64 => if 29 <= k < 35 then EdgeWindow()[k - 29] else -100.0)
  }

  function EdgeWindow(): seq<real> {
    [-100.0, 0.0, 10.0, 20.1, 0.0, 70.0]
  }

  function EdgeCells(): Cells {
    Cells(29, 0, 2, 1.0, 1, 3.0, None)
  }

  lemma EdgeSearch()
    ensures
      var args, power := EdgeArguments(), EdgeSpectrum();
      && args.Valid()
      && var st := args.InBins();
        st.cells == EdgeCells() && st.Blanked(power) == power && st.Window(power) == EdgeWindow()
  {
    var args, power := EdgeArguments(), EdgeSpectrum();
    assert args.Margin() == 29;
    assert args.Bins(0.0) == 1 by {
      assert 64.0 / 64.0 == 1.0 && Ceil(0.0) == 0;
    }
    assert args.InBins().Window(power) == power[29..35];
    assert power[29..35] == EdgeWindow();
  }

  /** The run is maximal and passes both gates, whatever the global noise. */
  lemma EdgeRun(fallback: real)
    ensures
      var w, q := EdgeWindow(), EdgeCells();
      Maximal(HotBins(q, w, fallback), Run(1, 2)) && Passes(q, w, Run(1, 2))
  {
    var w, q := EdgeWindow(), EdgeCells();
    EdgeHotBins(fallback);
    PairMean(w, 1, 2);
    EdgePeak();
    hide MeanOf, IsHot, PeakAt;
  }

  lemma EdgePeak()
    ensures PeakAt(EdgeWindow(), 1, 2) == 2
  {
    assert PeakAt(EdgeWindow(), 1, 1) == 1;
  }

  lemma EdgeSignal()
    ensures
      var s := SignalOf(29, EdgeWindow(), Run(1, 2));
      s.startBin == 30 && s.endBin == 31 && s.center == -69.5
  {
    EdgePeak();
    hide MeanOf, PeakAt;
    assert VertexOffset(0.0, 10.0, 20.1) == -100.5;
  }

  lemma EdgeHotBins(fallback: real)
    ensures
      var w, q := EdgeWindow(), EdgeCells();
      && !IsHot(q, w, 0, fallback) && IsHot(q, w, 1, fallback)
      && IsHot(q, w, 2, fallback) && !IsHot(q, w, 3, fallback)
  {
    var w, q := EdgeWindow(), EdgeCells();
    assert RefMean(w, -2, -1) == None;
    EdgeFirstMean(w);
    PairMean(w, 0, 1);
    PairMean(w, 1, 2);
    PairMean(w, 2, 3);
    PairMean(w, 3, 4);
    PairMean(w, 4, 5);
    hide RefMean;
    HotBy(q, w, 0, 5.0, fallback);
    HotBy(q, w, 1, -42.475, fallback);
    HotBy(q, w, 2, -19.975, fallback);
    HotBy(q, w, 3, 20.0, fallback);
  }

  lemma HotBy(q: Cells, w: seq<real>, i: nat, noise: real, fallback: real)
    requires i < |w| && q.hist.None?
    requires noise == LocalNoise(q, w, i, fallback)
    ensures IsHot(q, w, i, fallback) <==> w[i] >= noise + q.threshold
  {
    hide LocalNoise;
  }

  lemma SumOfFew(w: seq<real>, a: nat)
    requires a < |w|
    ensures Sum(w[a..a + 1]) == w[a]
    ensures a + 1 < |w| ==> Sum(w[a..a + 2]) == w[a] + w[a + 1]
  {
    SumSnoc([], w[a]);
    assert w[a..a + 1] == [] + [w[a]];
    if a + 1 < |w| {
      SumSnoc(w[a..a + 1], w[a + 1]);
      assert w[a..a + 2] == w[a..a + 1] + [w[a + 1]];
    }
  }

  /** The average over a reference window that needs no clamping. */
  lemma RefMeanInside(w: seq<real>, a: nat, b: nat, mean: real)
    requires a <= b < |w| && mean == Average(w[a..b + 1])
    ensures RefMean(w, a, b) == Some(mean)
  {
    hide Average;
  }

  lemma EdgeFirstMean(w: seq<real>)
    requires w != []
    ensures RefMean(w, -1, 0) == Some(w[0])
  {
    assert RefMean(w, -1, 0) == RefMean(w, 0, 0);
    SumOfFew(w, 0);
    hide RefMean, Sum;
    var mean := Average(w[0..0 + 1]);
    RefMeanInside(w, 0, 0, mean);
    assert mean == w[0];
  }

  lemma PairMean(w: seq<real>, a: nat, b: nat)
    requires b == a + 1 < |w|
    ensures RefMean(w, a, b) == Some((w[a] + w[b]) / 2.0)
    ensures MeanOf(w, Run(a, b)) == (w[a] + w[b]) / 2.0
  {
    SumOfFew(w, a);
    assert w[a..b + 1] == w[a..a + 2];
    hide RefMean, Sum;
    var mean := Average(w[a..b + 1]);
    RefMeanInside(w, a, b, mean);
    assert mean == (w[a] + w[b]) / 2.0;
  }
}
