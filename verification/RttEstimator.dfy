/**
 The mean-deviation round-trip-time estimator.  The shift-based integer update
 is modelled step by step in the class below and proved to track the exact
 exponentially weighted averages of RFC 6298, section 2.3, for every sequence
 of samples.
 */
module RttEstimator {
  import opened Arithmetic

  /** Round-trip time and its variation, in simulator ticks. */
  datatype Estimate = Estimate(rtt: int, variation: int)

  /** The same pair without rounding. */
  datatype Exact = Exact(rtt: real, variation: real)

  const TOLERANCE: real := 0.000001

  function AbsReal(x: real): real {
    if x < 0.0 then -x else x
  }

  /** The exponent k for a gain of 1/2^k with k in 1..5, and 0 for every other gain. */
  function CheckForReciprocalPowerOfTwo(val: real): nat {
    if val < TOLERANCE then 0
    else if AbsReal(1.0 / val - 8.0) < TOLERANCE then 3
    else if AbsReal(1.0 / val - 4.0) < TOLERANCE then 2
    else if AbsReal(1.0 / val - 32.0) < TOLERANCE then 5
    else if AbsReal(1.0 / val - 16.0) < TOLERANCE then 4
    else if AbsReal(1.0 / val - 2.0) < TOLERANCE then 1
    else 0
  }

  lemma ShiftRecognised(val: real, k: nat)
    requires 1 <= k <= 5
    ensures CheckForReciprocalPowerOfTwo(val) == k
       <==> val >= TOLERANCE && AbsReal(1.0 / val - Pow2(k) as real) < TOLERANCE
  {
    assert Pow2(1) == 2 && Pow2(2) == 4 && Pow2(3) == 8;
    assert Pow2(4) == 16 && Pow2(5) == 32 by { assert Pow2(4) == 2 * Pow2(3); }
  }

  /** An arithmetic right shift: division by 2^n rounding down, also for negative x. */
  function ShiftRight(x: int, n: nat): int {
    x / Pow2(n)
  }

  function First(m: nat): Estimate {
    Estimate(m, m / 2)
  }

  /** One smoothed update: move 1/2^shift of the way from cur to target, rounding down. */
  function Smooth(cur: int, target: int, shift: nat): int {
    ShiftRight(cur * Pow2(shift) + (target - cur), shift)
  }

  function IntegerStep(e: Estimate, m: nat, a: nat, b: nat): Estimate {
    Estimate(Smooth(e.rtt, m, a), Smooth(e.variation, Abs(m - e.rtt), b))
  }

  function IntegerRun(samples: seq<nat>, a: nat, b: nat): Estimate
    requires |samples| > 0
  {
    var last := |samples| - 1;
    if last == 0 then First(samples[0]) else IntegerStep(IntegerRun(samples[..last], a, b), samples[last], a, b)
  }

  function ExactSmooth(cur: real, target: real, gain: real): real {
    (1.0 - gain) * cur + gain * target
  }

  function ExactStep(x: Exact, m: nat, alpha: real, beta: real): Exact {
    Exact(ExactSmooth(x.rtt, m as real, alpha), ExactSmooth(x.variation, AbsReal(x.rtt - m as real), beta))
  }

  /** RFC 6298, sections 2.2 and 2.3, over the rationals. */
  function ExactRun(samples: seq<nat>, alpha: real, beta: real): Exact
    requires |samples| > 0
  {
    var last := |samples| - 1;
    if last == 0 then Exact(samples[0] as real, samples[0] as real / 2.0)
    else ExactStep(ExactRun(samples[..last], alpha, beta), samples[last], alpha, beta)
  }

  function Gain(shift: nat): real {
    1.0 / Pow2(shift) as real
  }

  lemma SmoothBounds(cur: int, target: int, shift: nat)
    ensures var A, q := Pow2(shift), Smooth(cur, target, shift);
            q * A <= (A - 1) * cur + target < q * A + A
  {
    var A := Pow2(shift);
    var x := cur * A + (target - cur);
    assert x == (A - 1) * cur + target;
    assert x == (x / A) * A + x % A;
  }

  /** The exact average, cleared of its denominator. */
  lemma ExactScaled(cur: real, target: real, shift: nat)
    ensures var A := Pow2(shift) as real;
            A >= 1.0 && A * ExactSmooth(cur, target, Gain(shift)) == (A - 1.0) * cur + target
  {
    var A := Pow2(shift) as real;
    var g := Gain(shift);
    assert A * g == 1.0;
    calc {
      A * ((1.0 - g) * cur + g * target);
      A * cur - (A * g) * cur + (A * g) * target;
      A * cur - cur + target;
    }
  }

  /** The exact step of a smoothed value, with the divisor cleared: y = ((A - 1) x + t) / A. */
  lemma TracksReal(A: real, cur: real, target: real, q: real, x: real, t: real, y: real,
                   low: real, high: real, slackLow: real, slackHigh: real)
    requires A >= 1.0
    requires q * A <= (A - 1.0) * cur + target <= q * A + (A - 1.0)
    requires cur - low <= x <= cur + high
    requires target - slackLow <= t <= target + slackHigh
    requires slackLow <= low && slackHigh + (A - 1.0) <= high
    requires A * y == (A - 1.0) * x + t
    ensures q - low <= y <= q + high
  {
    MulMonotone(A - 1.0, cur - low, x);
    MulMonotone(A - 1.0, x, cur + high);
    Distribute(A, cur, low);
    Distribute(A, cur, -high);
    Linear(A * y, (A - 1.0) * cur, q * A, A * low, A * high, (A - 1.0) * x, A,
           target, t, low, high, slackLow, slackHigh);
    if y < q - low { MulStrict(A, y, q - low); }
    if y > q + high { MulStrict(A, q + high, y); }
  }

  lemma Distribute(A: real, u: real, v: real)
    ensures (A - 1.0) * (u - v) == (A - 1.0) * u - A * v + v
    ensures A * (u - v) == A * u - A * v
  {
  }

  /** The linear part of TracksReal: every product is a variable of its own. */
  lemma Linear(ay: real, ac: real, qa: real, alow: real, ahigh: real, ax: real, A: real,
               target: real, t: real, low: real, high: real, slackLow: real, slackHigh: real)
    requires qa <= ac + target <= qa + (A - 1.0)
    requires target - slackLow <= t <= target + slackHigh
    requires slackLow <= low && slackHigh + (A - 1.0) <= high
    requires ac - alow + low <= ax <= ac + ahigh - high
    requires ay == ax + t
    ensures qa - alow <= ay <= qa + ahigh
  {
  }

  lemma MulMonotone(c: real, x: real, y: real)
    requires c >= 0.0 && x <= y
    ensures c * x <= c * y
  {
    assert c * (y - x) >= 0.0;
  }

  lemma MulStrict(c: real, x: real, y: real)
    requires c > 0.0 && x < y
    ensures c * x < c * y
  {
    assert c * (y - x) > 0.0;
  }

  /**
   Smoothing in integers against smoothing exactly: error bounds that the
   rounding and the error of the target leave fixed are kept by one step.
   */
  lemma SmoothTracks(cur: int, target: int, shift: nat, x: real, t: real,
                     low: real, high: real, slackLow: real, slackHigh: real)
    requires cur as real - low <= x <= cur as real + high
    requires target as real - slackLow <= t <= target as real + slackHigh
    requires slackLow <= low && slackHigh + Pow2(shift) as real - 1.0 <= high
    ensures var q, y := Smooth(cur, target, shift) as real, ExactSmooth(x, t, Gain(shift));
            q - low <= y <= q + high
  {
    var A, q, y := ScaledFacts(cur, target, shift, x, t);
    TracksReal(A, cur as real, target as real, q, x, t, y, low, high, slackLow, slackHigh);
  }

  /** Divisor, integer result and exact result of one smoothing, with the divisor cleared. */
  lemma ScaledFacts(cur: int, target: int, shift: nat, x: real, t: real) returns (A: real, q: real, y: real)
    ensures A == Pow2(shift) as real && A >= 1.0
    ensures q == Smooth(cur, target, shift) as real && y == ExactSmooth(x, t, Gain(shift))
    ensures q * A <= (A - 1.0) * cur as real + target as real <= q * A + (A - 1.0)
    ensures A * y == (A - 1.0) * x + t
  {
    A, q, y := Pow2(shift) as real, Smooth(cur, target, shift) as real, ExactSmooth(x, t, Gain(shift));
    SmoothBoundsReal(cur, target, shift);
    ExactScaled(x, t, shift);
  }

  lemma SmoothBoundsReal(cur: int, target: int, shift: nat)
    ensures var A, q := Pow2(shift) as real, Smooth(cur, target, shift) as real;
            q * A <= (A - 1.0) * cur as real + target as real <= q * A + (A - 1.0)
  {
    SmoothBounds(cur, target, shift);
    ProductAsReal(Smooth(cur, target, shift), Pow2(shift));
    ProductAsReal(Pow2(shift) - 1, cur);
  }

  lemma ProductAsReal(a: int, b: int)
    ensures (a * b) as real == a as real * b as real
  {
  }

  lemma SmoothHull(cur: int, target: int, shift: nat)
    ensures Min(cur, target) <= Smooth(cur, target, shift) <= Max(cur, target)
  {
    SmoothBounds(cur, target, shift);
    HullOfQuotient(Pow2(shift), cur, target, Smooth(cur, target, shift));
  }

  lemma HullOfQuotient(A: nat, cur: int, target: int, q: int)
    requires A >= 1 && q * A <= (A - 1) * cur + target < q * A + A
    ensures Min(cur, target) <= q <= Max(cur, target)
    ensures q == cur <==> 0 <= target - cur < A
  {
    var d := q - cur;
    assert d * A <= target - cur < (d + 1) * A by {
      assert (d + 1) * A == q * A + A - cur * A && d * A == q * A - cur * A;
      assert (A - 1) * cur == cur * A - cur;
    }
    if d >= 1 {
      ProductAtLeast(d, A);
    } else if d <= -1 {
      ProductAtLeast(-d, A);
      ProductAtLeast(-(d + 1), A);
    }
  }

  lemma ProductAtLeast(n: int, A: nat)
    requires n >= 0 && A >= 1
    ensures n * A >= n && (n >= 1 ==> n * A >= A)
  {
    assert n * (A - 1) >= 0;
    if n >= 1 { assert (n - 1) * A >= 0; }
  }

  /**
   The integer time never exceeds the exact average and trails it by at most
   2^a - 1 ticks; the integer variation is at most 2^a - 1 ticks above and
   2^a + 2^b - 2 ticks below the exact one.
   */
  ghost predicate Tracks(i: Estimate, x: Exact, a: nat, b: nat) {
    var A, B := Pow2(a) as real, Pow2(b) as real;
    && i.rtt as real <= x.rtt <= i.rtt as real + (A - 1.0)
    && i.variation as real - (A - 1.0) <= x.variation <= i.variation as real + (A + B - 2.0)
  }

  lemma StepTracks(i: Estimate, x: Exact, m: nat, a: nat, b: nat)
    requires Tracks(i, x, a, b)
    ensures Tracks(IntegerStep(i, m, a, b), ExactStep(x, m, Gain(a), Gain(b)), a, b)
  {
    var A, B := Pow2(a) as real, Pow2(b) as real;
    SmoothTracks(i.rtt, m, a, x.rtt, m as real, 0.0, A - 1.0, 0.0, 0.0);
    SmoothTracks(i.variation, Abs(m - i.rtt), b, x.variation, AbsReal(x.rtt - m as real),
                 A - 1.0, A + B - 2.0, A - 1.0, A - 1.0);
  }

  /** The integer estimator refines the exact one on every sample sequence. */
  lemma {:induction false} IntegerTracksExact(samples: seq<nat>, a: nat, b: nat)
    requires |samples| > 0 && a >= 1 && b >= 1
    ensures Tracks(IntegerRun(samples, a, b), ExactRun(samples, Gain(a), Gain(b)), a, b)
  {
    var last := |samples| - 1;
    if last == 0 {
      assert Pow2(a) >= 2 && Pow2(b) >= 2;
    } else {
      IntegerTracksExact(samples[..last], a, b);
      StepTracks(IntegerRun(samples[..last], a, b), ExactRun(samples[..last], Gain(a), Gain(b)), samples[last], a, b);
    }
  }

  /**
   The estimate never leaves the range of the samples, and the variation never exceeds
   that range or half the first sample.
   */
  lemma {:induction false} EstimateWithinSamples(samples: seq<nat>, a: nat, b: nat, lo: nat, hi: nat)
    requires |samples| > 0
    requires forall k :: 0 <= k < |samples| ==> lo <= samples[k] <= hi
    ensures var i := IntegerRun(samples, a, b);
            && lo <= i.rtt <= hi
            && 0 <= i.variation <= Max(hi - lo, samples[0] / 2)
  {
    var last := |samples| - 1;
    if last > 0 {
      var init := samples[..last];
      EstimateWithinSamples(init, a, b, lo, hi);
      var i := IntegerRun(init, a, b);
      SmoothHull(i.rtt, samples[last], a);
      SmoothHull(i.variation, Abs(samples[last] - i.rtt), b);
    }
  }

  /** The dead zone of the rounding: the estimate stands still exactly for samples less than 2^a ticks above it. */
  lemma StandsStill(e: Estimate, m: nat, a: nat, b: nat)
    ensures IntegerStep(e, m, a, b).rtt == e.rtt <==> 0 <= m - e.rtt < Pow2(a)
  {
    SmoothBounds(e.rtt, m, a);
    HullOfQuotient(Pow2(a), e.rtt, m, Smooth(e.rtt, m, a));
  }

  class RttMeanDeviation {
    const initialEstimatedRtt: nat
    const alpha: real
    const beta: real
    var estimatedRtt: int
    var lastPktRtt: int
    var estimatedVariation: int
    var nSamples: nat
    /** The samples measured since the last reset. */
    ghost var samples: seq<nat>

    ghost function RttShift(): nat {
      CheckForReciprocalPowerOfTwo(alpha)
    }

    ghost function VariationShift(): nat {
      CheckForReciprocalPowerOfTwo(beta)
    }

    ghost predicate Valid()
      reads this
    {
      && nSamples == |samples|
      && (nSamples == 0 ==> estimatedRtt == initialEstimatedRtt && estimatedVariation == 0)
      && lastPktRtt == (if nSamples == 0 then initialEstimatedRtt else samples[nSamples - 1])
      && (nSamples > 0 && RttShift() > 0 && VariationShift() > 0 ==>
            Estimate(estimatedRtt, estimatedVariation) == IntegerRun(samples, RttShift(), VariationShift()))
    }

    constructor (initial: nat, alpha: real, beta: real)
      ensures Valid() && samples == []
      ensures this.alpha == alpha && this.beta == beta && initialEstimatedRtt == initial
    {
      this.initialEstimatedRtt, this.alpha, this.beta := initial, alpha, beta;
      estimatedRtt, lastPktRtt, estimatedVariation, nSamples := initial, initial, 0, 0;
      samples := [];
    }

    method Reset()
      modifies this
      ensures Valid() && samples == []
    {
      estimatedRtt := initialEstimatedRtt;
      lastPktRtt := initialEstimatedRtt;
      estimatedVariation := 0;
      nSamples := 0;
      samples := [];
    }

    method IntegerUpdate(m: nat, rttShift: nat, variationShift: nat)
      modifies this`estimatedRtt, this`estimatedVariation, this`lastPktRtt
      ensures Estimate(estimatedRtt, estimatedVariation)
           == IntegerStep(Estimate(old(estimatedRtt), old(estimatedVariation)), m, rttShift, variationShift)
      ensures lastPktRtt == m
    {
      var delta := m - estimatedRtt;
      var srtt := estimatedRtt * Pow2(rttShift) + delta;
      estimatedRtt := ShiftRight(srtt, rttShift);
      if delta < 0 {
        delta := -delta;
      }
      delta := delta - estimatedVariation;
      var rttvar := estimatedVariation * Pow2(variationShift);
      rttvar := rttvar + delta;
      estimatedVariation := ShiftRight(rttvar, variationShift);
      lastPktRtt := m;
    }

    /** `floating` stands for what the floating-point update would leave behind. */
    method Measurement(m: nat, floating: Estimate)
      requires Valid()
      modifies this
      ensures Valid() && samples == old(samples) + [m]
      ensures nSamples > 1 && (RttShift() == 0 || VariationShift() == 0) ==>
                Estimate(estimatedRtt, estimatedVariation) == floating
    {
      if nSamples != 0 {
        var rttShift := CheckForReciprocalPowerOfTwo(alpha);
        var variationShift := CheckForReciprocalPowerOfTwo(beta);
        if rttShift != 0 && variationShift != 0 {
          IntegerUpdate(m, rttShift, variationShift);
        } else {
          estimatedRtt, estimatedVariation := floating.rtt, floating.variation;
          lastPktRtt := m;
        }
      } else {
        estimatedRtt := m;
        lastPktRtt := m;
        estimatedVariation := m / 2;
      }
      nSamples := nSamples + 1;
      samples := samples + [m];
      assert samples[..|samples| - 1] == old(samples);
    }
  }
}
