/** The per-bin noise-floor tracker: an average that follows rising and falling power at different rates. */
module NoiseFloor {
  import opened Prelude

  const RISE_FACTOR: real := 4.0
  const RISE_CAP: real := 0.4

  function RiseRate(alpha: real): real {
    RMin(RISE_FACTOR * alpha, RISE_CAP)
  }

  function Rate(alpha: real, floor: real, x: real): real {
    if x > floor then RiseRate(alpha) else alpha
  }

  function Track(alpha: real, floor: real, x: real): real {
    var a := Rate(alpha, floor, x);
    a * x + (1.0 - a) * floor
  }

  /** One spectrum folded into the floor, bin by bin. */
  function TrackAll(alpha: real, floor: seq<real>, p: seq<real>): (r: seq<real>)
    requires |floor| == |p|
    ensures |r| == |floor|
  {
    seq(|floor|, k requires 0 <= k < |floor| => Track(alpha, floor[k], p[k]))
  }

  method UpdateFloor(alpha: real, floor: seq<real>, p: seq<real>) returns (r: seq<real>)
    requires |floor| == |p|
    ensures r == TrackAll(alpha, floor, p)
  {
    var alphaFall := alpha;
    var alphaRise := RMin(4.0 * alphaFall, 0.4);
    r := floor;
    for k := 0 to |floor|
      invariant |r| == |floor|
      invariant forall j :: 0 <= j < k ==> r[j] == Track(alpha, floor[j], p[j])
      invariant forall j :: k <= j < |floor| ==> r[j] == floor[j]
    {
      var a := if p[k] > r[k] then alphaRise else alphaFall;
      r := r[k := a * p[k] + (1.0 - a) * r[k]];
    }
  }

  /** The floor of one bin after its first observation and a run of further ones. */
  function FloorAfter(alpha: real, obs: seq<real>): real
    requires obs != []
  {
    if |obs| == 1 then obs[0]
    else Track(alpha, FloorAfter(alpha, obs[..|obs| - 1]), obs[|obs| - 1])
  }

  lemma TrackBetween(alpha: real, floor: real, x: real, lo: real, hi: real)
    requires 0.0 < alpha <= 1.0 && lo <= floor <= hi && lo <= x <= hi
    ensures lo <= Track(alpha, floor, x) <= hi
  {
    var a := Rate(alpha, floor, x);
    assert a * x + (1.0 - a) * floor - lo == a * (x - lo) + (1.0 - a) * (floor - lo);
    assert hi - (a * x + (1.0 - a) * floor) == a * (hi - x) + (1.0 - a) * (hi - floor);
    ProductNonNegative(a, x - lo);
    ProductNonNegative(1.0 - a, floor - lo);
    ProductNonNegative(a, hi - x);
    ProductNonNegative(1.0 - a, hi - floor);
  }

  /** The floor never leaves the range of the powers observed. */
  lemma {:induction false} FloorWithinObserved(alpha: real, obs: seq<real>, lo: real, hi: real)
    requires obs != [] && 0.0 < alpha <= 1.0
    requires forall i :: 0 <= i < |obs| ==> lo <= obs[i] <= hi
    ensures lo <= FloorAfter(alpha, obs) <= hi
  {
    if |obs| == 1 {
    } else {
      var n := |obs| - 1;
      FloorWithinObserved(alpha, obs[..n], lo, hi);
      TrackBetween(alpha, FloorAfter(alpha, obs[..n]), obs[n], lo, hi);
    }
  }

  function Pow(b: real, n: nat): real {
    if n == 0 then 1.0 else Pow(b, n - 1) * b
  }

  /** The floor after n updates with the same power x. */
  function Settled(alpha: real, floor: real, x: real, n: nat): real {
    if n == 0 then floor else Track(alpha, Settled(alpha, floor, x, n - 1), x)
  }

  lemma GapShrinks(alpha: real, floor: real, x: real)
    ensures x - Track(alpha, floor, x) == (x - floor) * (1.0 - Rate(alpha, floor, x))
    ensures Track(alpha, floor, x) - x == (floor - x) * (1.0 - Rate(alpha, floor, x))
  {
    var a := Rate(alpha, floor, x);
    assert a * x + (1.0 - a) * floor == a * x + floor - a * floor;
    assert (x - floor) * (1.0 - a) == x - floor - a * x + a * floor;
    assert (floor - x) * (1.0 - a) == floor - x - a * floor + a * x;
  }

  lemma TrackKeepsSide(alpha: real, floor: real, x: real)
    requires 0.0 < alpha <= 1.0
    ensures floor < x ==> Track(alpha, floor, x) < x
    ensures floor >= x ==> Track(alpha, floor, x) >= x
  {
    GapShrinks(alpha, floor, x);
    var b := 1.0 - Rate(alpha, floor, x);
    if floor < x {
      ProductPositive(x - floor, b);
    } else {
      ProductNonNegative(floor - x, b);
      assert (x - floor) * b == -((floor - x) * b);
    }
    hide Track;
  }

  lemma ScaledStep(now: real, gap: real, b: real, n: nat)
    requires n > 0 && now == gap * Pow(b, n - 1)
    ensures now * b == gap * Pow(b, n)
  {
    var p := Pow(b, n - 1);
    assert (gap * p) * b == gap * (p * b);
  }

  /**
   * Constant power: the gap shrinks geometrically at the rate of the side it started on, and never
   * crosses to the other side.
   */
  lemma {:induction false} GapIsGeometric(alpha: real, floor: real, x: real, n: nat)
    requires 0.0 < alpha <= 1.0
    ensures floor < x ==>
      Settled(alpha, floor, x, n) < x
      && x - Settled(alpha, floor, x, n) == (x - floor) * Pow(1.0 - RMin(4.0 * alpha, 0.4), n)
    ensures floor >= x ==>
      Settled(alpha, floor, x, n) >= x
      && Settled(alpha, floor, x, n) - x == (floor - x) * Pow(1.0 - alpha, n)
  {
    hide Track;
    if n == 0 {
    } else {
      GapIsGeometric(alpha, floor, x, n - 1);
      var s := Settled(alpha, floor, x, n - 1);
      TrackKeepsSide(alpha, s, x);
      GapShrinks(alpha, s, x);
      hide Pow, RMin, Settled;
      if floor < x {
        ScaledStep(x - s, x - floor, 1.0 - RMin(4.0 * alpha, 0.4), n);
      } else {
        ScaledStep(s - x, floor - x, 1.0 - alpha, n);
      }
    }
  }

  /** "Rises quickly, falls slowly" holds exactly for coefficients below the cap; above it the floor falls faster. */
  lemma RisesFasterIff(alpha: real)
    requires 0.0 < alpha <= 1.0
    ensures RiseRate(alpha) > alpha <==> alpha < RISE_CAP
    ensures RiseRate(alpha) < alpha <==> alpha > RISE_CAP
    ensures RiseRate(0.5) < 0.5
  {
  }
}
