/**
 * The noise estimate of FftProcessor::estimateNoise: the element of rank n/2 of a window,
 * found by partially ordering a scratch buffer in place.
 *
 * A rank is stated by counting, independently of any ordering algorithm.
 */
module RankStatistic {
  import opened Prelude

  /** How many elements of s lie strictly below v. */
  function CountLess(s: seq<real>, v: real): nat {
    if s == [] then 0
    else CountLess(s[..|s| - 1], v) + if s[|s| - 1] < v then 1 else 0
  }

  /** How many elements of s are at most v. */
  function CountLeq(s: seq<real>, v: real): nat {
    if s == [] then 0
    else CountLeq(s[..|s| - 1], v) + if s[|s| - 1] <= v then 1 else 0
  }

  /** v is what position k would hold if s were sorted ascending. */
  predicate IsRank(s: seq<real>, k: nat, v: real) {
    CountLess(s, v) <= k < CountLeq(s, v)
  }

  lemma {:induction false} CountsOrdered(s: seq<real>, u: real, v: real)
    requires u < v
    ensures CountLeq(s, u) <= CountLess(s, v)
    ensures CountLess(s, u) <= CountLess(s, v) && CountLeq(s, u) <= CountLeq(s, v)
  {
    if s == [] {
    } else {
      CountsOrdered(s[..|s| - 1], u, v);
    }
  }

  lemma {:induction false} CountBounds(s: seq<real>, v: real)
    ensures CountLess(s, v) <= CountLeq(s, v) <= |s|
  {
    if s == [] {
    } else {
      CountBounds(s[..|s| - 1], v);
    }
  }

  lemma {:induction false} RankIsMember(s: seq<real>, v: real)
    requires CountLess(s, v) < CountLeq(s, v)
    ensures v in s
  {
    if s[|s| - 1] == v {
    } else {
      RankIsMember(s[..|s| - 1], v);
      assert v in s[..|s| - 1];
    }
  }

  /** The rank determines the value. */
  lemma RankUnique(s: seq<real>, k: nat, u: real, v: real)
    requires IsRank(s, k, u) && IsRank(s, k, v)
    ensures u == v
  {
    if u < v {
      CountsOrdered(s, u, v);
    } else if v < u {
      CountsOrdered(s, v, u);
    }
  }

  /** A higher rank holds no smaller value. */
  lemma RankMonotone(s: seq<real>, j: nat, k: nat, u: real, v: real)
    requires j <= k && IsRank(s, j, u) && IsRank(s, k, v)
    ensures u <= v
  {
    if v < u {
      CountsOrdered(s, v, u);
    }
  }

  /** The rank-k value, built by inserting one element at a time. */
  function RankValue(s: seq<real>, k: nat): real
    requires k < |s|
  {
    var m := |s| - 1;
    if m == 0 then s[0]
    else if k == 0 then RMin(s[m], RankValue(s[..m], 0))
    else if k == m then RMax(RankValue(s[..m], k - 1), s[m])
    else RMax(RankValue(s[..m], k - 1), RMin(s[m], RankValue(s[..m], k)))
  }

  lemma {:induction false} RankValueIsRank(s: seq<real>, k: nat)
    requires k < |s|
    ensures IsRank(s, k, RankValue(s, k)) && RankValue(s, k) in s
  {
    var m := |s| - 1;
    assert s == s[..m] + [s[m]];
    if m == 0 {
      assert CountLess([], s[0]) == 0 && CountLeq([], s[0]) == 0;
    } else {
      var t := s[..m];
      if k > 0 {
        RankValueIsRank(t, k - 1);
      }
      if k < m {
        RankValueIsRank(t, k);
      }
      if k == 0 {
        RankInsertBottom(t, s[m], RankValue(t, 0));
      } else if k == m {
        RankInsertTop(t, s[m], RankValue(t, k - 1));
      } else {
        RankInsert(t, s[m], k, RankValue(t, k), RankValue(t, k - 1));
      }
    }
    RankIsMember(s, RankValue(s, k));
  }

  lemma RankInsertBottom(t: seq<real>, x: real, a: real)
    requires IsRank(t, 0, a)
    ensures IsRank(t + [x], 0, RMin(x, a))
  {
    assert (t + [x])[..|t|] == t;
    CountBounds(t, x);
    if x < a {
      CountsOrdered(t, x, a);
    }
  }

  lemma RankInsertTop(t: seq<real>, x: real, b: real)
    requires |t| > 0 && IsRank(t, |t| - 1, b)
    ensures IsRank(t + [x], |t|, RMax(b, x))
  {
    assert (t + [x])[..|t|] == t;
    CountBounds(t, x);
    CountBounds(t, b);
    if b < x {
      CountsOrdered(t, b, x);
    }
  }

  lemma RankInsert(t: seq<real>, x: real, k: nat, a: real, b: real)
    requires 0 < k < |t| && IsRank(t, k, a) && IsRank(t, k - 1, b)
    ensures IsRank(t + [x], k, RMax(b, RMin(x, a)))
  {
    assert (t + [x])[..|t|] == t;
    RankMonotone(t, k - 1, k, b, a);
    if b < x < a {
      CountsOrdered(t, b, x);
      CountsOrdered(t, x, a);
    }
  }

  // ---------- Overwriting with the rank value ----------

  /** t arises from s by overwriting some positions with v. */
  predicate Overwrites(s: seq<real>, t: seq<real>, v: real) {
    |s| == |t| && forall i :: 0 <= i < |s| ==> t[i] == s[i] || t[i] == v
  }

  lemma {:induction false} OverwriteCounts(s: seq<real>, t: seq<real>, v: real)
    requires Overwrites(s, t, v)
    ensures CountLess(t, v) <= CountLess(s, v) && CountLeq(s, v) <= CountLeq(t, v)
  {
    if s == [] {
    } else {
      OverwriteCounts(s[..|s| - 1], t[..|t| - 1], v);
    }
  }

  /** Overwriting any bins with the rank-k value leaves the rank-k value where it was. */
  lemma OverwriteKeepsRank(s: seq<real>, t: seq<real>, k: nat)
    requires k < |s|
    requires Overwrites(s, t, RankValue(s, k))
    ensures RankValue(t, k) == RankValue(s, k)
  {
    var v := RankValue(s, k);
    RankValueIsRank(s, k);
    RankValueIsRank(t, k);
    OverwriteCounts(s, t, v);
    RankUnique(t, k, v, RankValue(t, k));
  }

  // ---------- Adding a constant ----------

  function Shift(s: seq<real>, c: real): (t: seq<real>)
    ensures |t| == |s| && forall i :: 0 <= i < |s| ==> t[i] == s[i] + c
  {
    seq(|s|, i requires 0 <= i < |s| => s[i] + c)
  }

  lemma {:induction false} ShiftCounts(s: seq<real>, v: real, c: real)
    ensures CountLess(Shift(s, c), v + c) == CountLess(s, v)
    ensures CountLeq(Shift(s, c), v + c) == CountLeq(s, v)
  {
    if s == [] {
    } else {
      ShiftCounts(s[..|s| - 1], v, c);
      assert Shift(s, c)[..|s| - 1] == Shift(s[..|s| - 1], c);
    }
  }

  /** The rank value moves with the data. */
  lemma ShiftRank(s: seq<real>, k: nat, c: real)
    requires k < |s|
    ensures RankValue(Shift(s, c), k) == RankValue(s, k) + c
  {
    var v := RankValue(s, k);
    RankValueIsRank(s, k);
    RankValueIsRank(Shift(s, c), k);
    ShiftCounts(s, v, c);
    RankUnique(Shift(s, c), k, v + c, RankValue(Shift(s, c), k));
  }

  // ---------- Counting is blind to order ----------

  lemma {:induction false} CountSplit(s: seq<real>, t: seq<real>, v: real)
    ensures CountLess(s + t, v) == CountLess(s, v) + CountLess(t, v)
    ensures CountLeq(s + t, v) == CountLeq(s, v) + CountLeq(t, v)
  {
    if t == [] {
      assert s + t == s;
    } else {
      assert (s + t)[..|s + t| - 1] == s + t[..|t| - 1];
      CountSplit(s, t[..|t| - 1], v);
    }
  }

  function Without(s: seq<real>, i: nat): seq<real>
    requires i < |s|
  {
    s[..i] + s[i + 1..]
  }

  lemma WithoutCounts(s: seq<real>, i: nat, v: real)
    requires i < |s|
    ensures multiset(Without(s, i)) == multiset(s) - multiset{s[i]}
    ensures CountLess(s, v) == CountLess(Without(s, i), v) + if s[i] < v then 1 else 0
    ensures CountLeq(s, v) == CountLeq(Without(s, i), v) + if s[i] <= v then 1 else 0
  {
    var front, rest := s[..i], s[i + 1..];
    assert s == front + [s[i]] + rest;
    CountSplit(front, rest, v);
    CountSplit(front + [s[i]], rest, v);
    assert (front + [s[i]])[..i] == front;
  }

  lemma PositionIn(t: seq<real>, x: real) returns (i: nat)
    requires x in multiset(t)
    ensures i < |t| && t[i] == x
  {
    i :| i < |t| && t[i] == x;
  }

  lemma {:induction false} CountPermutation(s: seq<real>, t: seq<real>, v: real)
    requires multiset(s) == multiset(t)
    ensures CountLess(s, v) == CountLess(t, v) && CountLeq(s, v) == CountLeq(t, v)
    decreases |s|
  {
    if s == [] {
      assert |multiset(t)| == 0;
    } else {
      hide CountLess, CountLeq, Without;
      var m := |s| - 1;
      assert s[m] in multiset(s);
      var i := PositionIn(t, s[m]);
      WithoutCounts(s, m, v);
      WithoutCounts(t, i, v);
      CountPermutation(Without(s, m), Without(t, i), v);
    }
  }

  lemma {:induction false} CountAllLeq(s: seq<real>, v: real)
    requires forall i :: 0 <= i < |s| ==> s[i] <= v
    ensures CountLeq(s, v) == |s|
  {
    if s == [] {
    } else {
      CountAllLeq(s[..|s| - 1], v);
    }
  }

  lemma {:induction false} CountNoneLess(s: seq<real>, v: real)
    requires forall i :: 0 <= i < |s| ==> v <= s[i]
    ensures CountLess(s, v) == 0
  {
    if s == [] {
    } else {
      CountNoneLess(s[..|s| - 1], v);
    }
  }

  /** Position k of a sequence partitioned around k holds the rank-k value. */
  lemma PartitionedIsRank(s: seq<real>, k: nat)
    requires k < |s|
    requires forall i :: 0 <= i < k ==> s[i] <= s[k]
    requires forall i :: k <= i < |s| ==> s[k] <= s[i]
    ensures IsRank(s, k, s[k])
  {
    var v := s[k];
    assert s == s[..k + 1] + s[k + 1..];
    assert s == s[..k] + s[k..];
    CountSplit(s[..k + 1], s[k + 1..], v);
    CountAllLeq(s[..k + 1], v);
    CountSplit(s[..k], s[k..], v);
    CountNoneLess(s[k..], v);
    CountBounds(s[..k], v);
  }

  // ---------- The in-place selection ----------

  method IndexOfMin(a: array<real>, lo: nat, hi: nat) returns (m: nat)
    requires lo < hi <= a.Length
    ensures lo <= m < hi
    ensures forall i :: lo <= i < hi ==> a[m] <= a[i]
  {
    m := lo;
    for i := lo + 1 to hi
      invariant lo <= m < hi
      invariant forall j :: lo <= j < i ==> a[m] <= a[j]
    {
      if a[i] < a[m] {
        m := i;
      }
    }
  }

  method Swap(a: array<real>, n: nat, i: nat, j: nat)
    requires i < n <= a.Length && j < n
    modifies a
    ensures a[..n] == old(a[..n])[i := old(a[j])][j := old(a[i])]
    ensures multiset(a[..n]) == old(multiset(a[..n]))
  {
    a[i], a[j] := a[j], a[i];
    assert a[..n] == old(a[..n])[i := old(a[j])][j := old(a[i])];
  }

  /** The first i elements are in their final places. */
  ghost predicate Placed(s: seq<real>, i: nat) {
    forall p, q :: 0 <= p < i && p <= q < |s| ==> s[p] <= s[q]
  }

  lemma PlaceNext(s: seq<real>, i: nat, m: nat)
    requires Placed(s, i) && i <= m < |s| && forall q :: i <= q < |s| ==> s[m] <= s[q]
    ensures Placed(s[i := s[m]][m := s[i]], i + 1)
  {
  }

  /** std::nth_element on the first n cells: a permutation partitioned around position k. */
  method NthElement(a: array<real>, n: nat, k: nat)
    requires k < n <= a.Length
    modifies a
    ensures multiset(a[..n]) == old(multiset(a[..n]))
    ensures forall i :: 0 <= i < k ==> a[i] <= a[k]
    ensures forall i :: k <= i < n ==> a[k] <= a[i]
  {
    for i := 0 to k + 1
      invariant multiset(a[..n]) == old(multiset(a[..n]))
      invariant Placed(a[..n], i)
    {
      var m := IndexOfMin(a, i, n);
      PlaceNext(a[..n], i, m);
      hide Placed;
      Swap(a, n, i, m);
    }
    assert forall i :: 0 <= i < n ==> a[..n][i] == a[i];
  }

  /** estimateNoise: copy the window to the scratch buffer and read off its rank-n/2 value. */
  method EstimateNoise(power: array<real>, scratch: array<real>, startBin: nat, endBin: nat) returns (v: real)
    requires startBin <= endBin < power.Length
    requires scratch.Length >= endBin - startBin + 1 && scratch != power
    modifies scratch
    ensures v == RankValue(power[startBin..endBin + 1], (endBin - startBin + 1) / 2)
  {
    var n := endBin - startBin + 1;
    for i := 0 to n
      invariant forall j :: 0 <= j < i ==> scratch[j] == power[startBin + j]
    {
      scratch[i] := power[startBin + i];
    }
    ghost var window := power[startBin..endBin + 1];
    assert scratch[..n] == window;
    var mid := n / 2;
    NthElement(scratch, n, mid);
    v := scratch[mid];
    PartitionedIsRank(scratch[..n], mid);
    CountPermutation(scratch[..n], window, v);
    RankValueIsRank(window, mid);
    RankUnique(window, mid, v, RankValue(window, mid));
  }
}
