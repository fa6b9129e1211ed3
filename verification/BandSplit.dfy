/** SweepConfig::splitBands: distributing n devices over the configured bands, and what the slices cover. */
module BandSplit {
  import opened Prelude

  datatype Band = Band(deviceId: string, required: bool, start: real, stop: real)

  /** How many slices band i of nb gets: the quotient, and one of the remainder while it lasts. */
  function Pieces(n: nat, nb: nat, i: nat): nat
    requires nb > 0
  {
    n / nb + if i < n % nb then 1 else 0
  }

  /** The j-th of the cut points of a band cut into equal pieces. */
  function Edge(b: Band, pieces: nat, j: nat): real
    requires pieces > 0
  {
    b.start + j as real * ((b.stop - b.start) / pieces as real)
  }

  /** The expression the loops use. */
  lemma EdgeIs(b: Band, pieces: nat, j: nat, step: real)
    requires pieces > 0 && step == (b.stop - b.start) / pieces as real
    ensures b.start + j as real * step == Edge(b, pieces, j)
  {
  }

  function Slice(b: Band, pieces: nat, j: nat): Band
    requires pieces > 0
  {
    Band(b.deviceId, b.required, Edge(b, pieces, j), Edge(b, pieces, j + 1))
  }

  lemma SliceIs(b: Band, pieces: nat, j: nat, step: real)
    requires pieces > 0 && step == (b.stop - b.start) / pieces as real
    ensures Band(b.deviceId, b.required, b.start + j as real * step, b.start + (j + 1) as real * step)
      == Slice(b, pieces, j)
  {
    hide Edge;
    EdgeIs(b, pieces, j, step);
    EdgeIs(b, pieces, j + 1, step);
  }

  function Slices(b: Band, pieces: nat, m: nat): (r: seq<Band>)
    requires m <= pieces && pieces > 0
    ensures |r| == m && forall j :: 0 <= j < m ==> r[j] == Slice(b, pieces, j)
  {
    seq(m, j requires 0 <= j < m => Slice(b, pieces, j))
  }

  /** The slices of the first i bands. */
  function SlicesOfFirst(bands: seq<Band>, n: nat, i: nat): seq<Band>
    requires i <= |bands| < n && |bands| > 0
  {
    if i == 0 then []
    else
      EnoughPieces(n, |bands|, i - 1);
      SlicesOfFirst(bands, n, i - 1)
        + Slices(bands[i - 1], Pieces(n, |bands|, i - 1), Pieces(n, |bands|, i - 1))
  }

  /** With no more devices than bands nothing is split. */
  function Split(bands: seq<Band>, n: int): seq<Band>
    requires |bands| > 0 || n <= 0
  {
    if n <= |bands| then bands else SlicesOfFirst(bands, n, |bands|)
  }

  lemma EnoughPieces(n: nat, nb: nat, i: nat)
    requires 0 < nb < n
    ensures Pieces(n, nb, i) >= 1
  {
    assert n / nb >= 1;
  }

  method SplitBands(bands: seq<Band>, n: int) returns (out: seq<Band>)
    requires |bands| > 0 || n <= 0
    ensures out == Split(bands, n)
  {
    if n <= |bands| {
      return bands;
    }
    hide Edge, Slice;
    out := [];
    var nb := |bands|;
    var quotient, remainder := n / nb, n % nb;
    for i := 0 to nb
      invariant out == SlicesOfFirst(bands, n, i)
    {
      EnoughPieces(n, nb, i);
      var pieces := quotient + if i < remainder then 1 else 0;
      var lo, hi := bands[i].start, bands[i].stop;
      var step := (hi - lo) / pieces as real;
      ghost var before := out;
      for j := 0 to pieces
        invariant out == before + Slices(bands[i], pieces, j)
      {
        var slice := Band(bands[i].deviceId, bands[i].required, lo + j as real * step, lo + (j + 1) as real * step);
        SliceIs(bands[i], pieces, j, step);
        out := out + [slice];
        assert Slices(bands[i], pieces, j + 1) == Slices(bands[i], pieces, j) + [slice];
      }
    }
  }

  /** main()'s start-up step: it repeats the splitting inline, unless every band insists on its device. */
  method EffectiveBands(bands: seq<Band>, n: int) returns (effective: seq<Band>)
    requires |bands| > 0
    ensures effective == if forall b :: b in bands ==> b.required then bands else Split(bands, n)
  {
    hide Edge, Slice;
    effective := bands;
    if (exists b :: b in bands && !b.required) && n > |bands| {
      var nb := |bands|;
      var quotient, remainder := n / nb, n % nb;
      var split: seq<Band> := [];
      for i := 0 to nb
        invariant split == SlicesOfFirst(bands, n, i)
      {
        EnoughPieces(n, nb, i);
        var pieces := quotient + if i < remainder then 1 else 0;
        var lo, hi := bands[i].start, bands[i].stop;
        var step := (hi - lo) / pieces as real;
        ghost var before := split;
        for j := 0 to pieces
          invariant split == before + Slices(bands[i], pieces, j)
        {
          var slice := Band(bands[i].deviceId, bands[i].required, lo + j as real * step, lo + (j + 1) as real * step);
          SliceIs(bands[i], pieces, j, step);
          split := split + [slice];
          assert Slices(bands[i], pieces, j + 1) == Slices(bands[i], pieces, j) + [slice];
        }
      }
      effective := split;
    }
  }

  // ---------- Counting ----------

  lemma {:induction false} CountOfFirst(bands: seq<Band>, n: nat, i: nat)
    requires i <= |bands| < n && |bands| > 0
    ensures |SlicesOfFirst(bands, n, i)| == i * (n / |bands|) + Min(i, n % |bands|)
  {
    if i == 0 {
    } else {
      CountOfFirst(bands, n, i - 1);
      EnoughPieces(n, |bands|, i - 1);
      assert i * (n / |bands|) == (i - 1) * (n / |bands|) + n / |bands|;
    }
  }

  /** Every device gets exactly one slice, and no band gets two slices more than another. */
  lemma OneSlicePerDevice(bands: seq<Band>, n: nat, i: nat, k: nat)
    requires 0 < |bands| < n && i < |bands| && k < |bands|
    ensures |Split(bands, n)| == n
    ensures Pieces(n, |bands|, i) <= Pieces(n, |bands|, k) + 1
  {
    var nb := |bands|;
    CountOfFirst(bands, n, nb);
    assert nb * (n / nb) + n % nb == n;
  }

  /** With no more devices than bands every band is left as it is. */
  lemma NothingToSplit(bands: seq<Band>, n: int)
    requires n <= |bands| && (|bands| > 0 || n <= 0)
    ensures Split(bands, n) == bands
  {
  }

  /** What stands where: after the slices of the bands before it, each band's own, the remainder going to the first bands. */
  lemma SplitAt(bands: seq<Band>, n: nat, i: nat, j: nat)
    requires 0 < |bands| < n && i < |bands|
    requires j < n / |bands| + if i < n % |bands| then 1 else 0
    ensures
      var pieces := n / |bands| + if i < n % |bands| then 1 else 0;
      var k := i * (n / |bands|) + Min(i, n % |bands|) + j;
      0 <= k < |Split(bands, n)| && Split(bands, n)[k] == Slice(bands[i], pieces, j)
  {
    CountOfFirst(bands, n, i);
    SplitExtends(bands, n, i + 1, |bands|);
    EnoughPieces(n, |bands|, i);
  }

  lemma {:induction false} SplitExtends(bands: seq<Band>, n: nat, i: nat, m: nat)
    requires 0 < |bands| < n && i <= m <= |bands|
    ensures SlicesOfFirst(bands, n, i) <= SlicesOfFirst(bands, n, m)
    decreases m
  {
    if i == m {
    } else {
      SplitExtends(bands, n, i, m - 1);
      EnoughPieces(n, |bands|, m - 1);
    }
  }

  // ---------- One band ----------

  lemma EdgeEnds(b: Band, pieces: nat)
    requires pieces > 0
    ensures Edge(b, pieces, 0) == b.start && Edge(b, pieces, pieces) == b.stop
  {
    var width, n := b.stop - b.start, pieces as real;
    assert n * (width / n) == width;
  }

  lemma EdgeStep(b: Band, pieces: nat, j: nat)
    requires pieces > 0
    ensures Edge(b, pieces, j + 1) == Edge(b, pieces, j) + (b.stop - b.start) / pieces as real
  {
    var step := (b.stop - b.start) / pieces as real;
    assert (j + 1) as real * step == j as real * step + step;
  }

  lemma {:induction false} EdgesOrdered(b: Band, pieces: nat, j: nat, k: nat)
    requires pieces > 0 && j <= k && b.start <= b.stop
    ensures Edge(b, pieces, j) <= Edge(b, pieces, k)
    decreases k
  {
    if j >= k {
    } else {
      EdgesOrdered(b, pieces, j, k - 1);
      EdgeStep(b, pieces, k - 1);
      assert (b.stop - b.start) / pieces as real >= 0.0;
    }
  }

  /** The slices of a band follow each other without gap from its start to its stop, all equally wide. */
  lemma SlicesTile(b: Band, pieces: nat, j: nat)
    requires j < pieces
    ensures
      var s := Slice(b, pieces, j);
      && s.deviceId == b.deviceId && s.required == b.required
      && (j == 0 ==> s.start == b.start)
      && (j + 1 < pieces ==> Slice(b, pieces, j + 1).start == s.stop)
      && (j + 1 == pieces ==> s.stop == b.stop)
      && s.stop - s.start == (b.stop - b.start) / pieces as real
  {
    EdgeEnds(b, pieces);
    EdgeStep(b, pieces, j);
    hide Edge;
  }

  lemma SlicesOrdered(b: Band, pieces: nat, j: nat, k: nat)
    requires j <= k < pieces && b.start <= b.stop
    ensures b.start <= Slice(b, pieces, j).start <= Slice(b, pieces, j).stop
    ensures j < k ==> Slice(b, pieces, j).stop <= Slice(b, pieces, k).start
    ensures Slice(b, pieces, k).stop <= b.stop
  {
    hide Edge;
    EdgeEnds(b, pieces);
    EdgesOrdered(b, pieces, 0, j);
    EdgesOrdered(b, pieces, j, j + 1);
    EdgesOrdered(b, pieces, k + 1, pieces);
    if j < k {
      EdgesOrdered(b, pieces, j + 1, k);
    }
  }

  predicate Contains(b: Band, f: real) {
    b.start <= f < b.stop
  }

  /** Every frequency of a band lies in exactly one of its slices. */
  lemma OneSlicePerFrequency(b: Band, pieces: nat, f: real) returns (j: nat)
    requires pieces > 0 && Contains(b, f)
    ensures j < pieces && Contains(Slice(b, pieces, j), f)
    ensures forall k :: 0 <= k < pieces && Contains(Slice(b, pieces, k), f) ==> k == j
  {
    j := 0;
    hide Edge;
    SlicesTile(b, pieces, 0);
    while f >= Slice(b, pieces, j).stop
      invariant j < pieces && Slice(b, pieces, j).start <= f
      decreases pieces - j
    {
      SlicesTile(b, pieces, j);
      j := j + 1;
    }
    forall k | 0 <= k < pieces && Contains(Slice(b, pieces, k), f) ensures k == j {
      if k < j {
        SlicesOrdered(b, pieces, k, j);
      } else if j < k {
        SlicesOrdered(b, pieces, j, k);
      }
    }
  }

  // ---------- All bands ----------

  /** Which slice of which band stands at position k. */
  lemma {:induction false} Locate(bands: seq<Band>, n: nat, i: nat, k: nat) returns (at: nat, j: nat)
    requires i <= |bands| < n && |bands| > 0 && k < |SlicesOfFirst(bands, n, i)|
    ensures at < i && j < Pieces(n, |bands|, at)
    ensures SlicesOfFirst(bands, n, i)[k] == Slice(bands[at], Pieces(n, |bands|, at), j)
    ensures k == |SlicesOfFirst(bands, n, at)| + j
  {
    EnoughPieces(n, |bands|, i - 1);
    var m := |SlicesOfFirst(bands, n, i - 1)|;
    if k < m {
      at, j := Locate(bands, n, i - 1, k);
    } else {
      at, j := i - 1, k - m;
    }
  }

  predicate Disjoint(a: Band, b: Band) {
    a.stop <= b.start || b.stop <= a.start
  }

  /** Disjoint bands give disjoint slices: no two devices ever observe the same frequency. */
  lemma DisjointBandsDisjointSlices(bands: seq<Band>, n: nat, k: nat, m: nat)
    requires 0 < |bands| < n
    requires forall i :: 0 <= i < |bands| ==> bands[i].start <= bands[i].stop
    requires forall i, j :: 0 <= i < j < |bands| ==> Disjoint(bands[i], bands[j])
    requires k < m < |Split(bands, n)|
    ensures Disjoint(Split(bands, n)[k], Split(bands, n)[m])
  {
    var i, j := Locate(bands, n, |bands|, k);
    var i', j' := Locate(bands, n, |bands|, m);
    SlicesOrdered(bands[i], Pieces(n, |bands|, i), j, j);
    SlicesOrdered(bands[i'], Pieces(n, |bands|, i'), j', j');
    if i == i' {
      SlicesOrdered(bands[i], Pieces(n, |bands|, i), j, j');
    } else if i < i' {
      assert Disjoint(bands[i], bands[i']);
    } else {
      assert Disjoint(bands[i'], bands[i]);
    }
    hide Slice, SlicesOfFirst;
  }

  function TotalWidth(bands: seq<Band>): real {
    if bands == [] then 0.0
    else TotalWidth(bands[..|bands| - 1]) + (bands[|bands| - 1].stop - bands[|bands| - 1].start)
  }

  lemma {:induction false} TotalWidthSplit(a: seq<Band>, b: seq<Band>)
    ensures TotalWidth(a + b) == TotalWidth(a) + TotalWidth(b)
  {
    if b == [] {
      assert a + b == a;
    } else {
      assert (a + b)[..|a + b| - 1] == a + b[..|b| - 1];
      TotalWidthSplit(a, b[..|b| - 1]);
    }
  }

  lemma {:induction false} SlicesWidth(b: Band, pieces: nat, m: nat)
    requires m <= pieces && pieces > 0
    ensures TotalWidth(Slices(b, pieces, m)) == Edge(b, pieces, m) - b.start
  {
    EdgeEnds(b, pieces);
    hide Edge;
    if m == 0 {
    } else {
      SlicesWidth(b, pieces, m - 1);
      assert Slices(b, pieces, m)[..m - 1] == Slices(b, pieces, m - 1);
    }
  }

  /** Splitting neither adds nor loses bandwidth. */
  lemma {:induction false} WidthConserved(bands: seq<Band>, n: nat, i: nat)
    requires i <= |bands| < n && |bands| > 0
    ensures TotalWidth(SlicesOfFirst(bands, n, i)) == TotalWidth(bands[..i])
  {
    hide Edge, Slice, Slices, Pieces, TotalWidth;
    if i == 0 {
      assert bands[..0] == [] == SlicesOfFirst(bands, n, 0);
    } else {
      WidthConserved(bands, n, i - 1);
      EnoughPieces(n, |bands|, i - 1);
      var b, pieces := bands[i - 1], Pieces(n, |bands|, i - 1);
      BandWidthKept(b, pieces);
      TotalWidthSplit(SlicesOfFirst(bands, n, i - 1), Slices(b, pieces, pieces));
      assert SlicesOfFirst(bands, n, i) == SlicesOfFirst(bands, n, i - 1) + Slices(b, pieces, pieces);
      TotalWidthNext(bands, i);
    }
  }

  lemma TotalWidthNext(bands: seq<Band>, i: nat)
    requires 0 < i <= |bands|
    ensures TotalWidth(bands[..i]) == TotalWidth(bands[..i - 1]) + (bands[i - 1].stop - bands[i - 1].start)
  {
    assert bands[..i][..i - 1] == bands[..i - 1];
  }

  lemma BandWidthKept(b: Band, pieces: nat)
    requires pieces > 0
    ensures TotalWidth(Slices(b, pieces, pieces)) == b.stop - b.start
  {
    hide Edge, Slices, TotalWidth;
    SlicesWidth(b, pieces, pieces);
    EdgeEnds(b, pieces);
  }
}
