/**
 * The observation discretizer shared by the Q-learning agents: every component of a
 * continuous observation is mapped to a bucket index, given per-dimension lower and
 * upper bounds and bucket counts.  Values outside the bounds are clamped into the
 * first or last bucket, never out of range.
 *
 * Observations are exact reals.  Python's `round` (nearest integer, ties to the even
 * one) is defined exactly on reals.
 */
module Discretizer {

  function Abs(r: real): real { if r < 0.0 then -r else r }

  /** Python's `round(r)`: the nearest integer, ties going to the even neighbour. */
  function RoundHalfEven(r: real): (n: int)
    ensures -0.5 <= n as real - r <= 0.5
    ensures n as real - r == 0.5 || r - n as real == 0.5 ==> n % 2 == 0
  {
    var f := r.Floor;
    var d := r - f as real;
    if d < 0.5 then f
    else if d > 0.5 then f + 1
    else if f % 2 == 0 then f
    else f + 1
  }

  /** The normalised position of an observation between the bounds, as the source writes it. */
  function Ratio(ob: real, lower: real, upper: real): real
    requires upper != lower
  {
    (ob + Abs(lower)) / (upper - lower)
  }

  /** The bucket index before clamping: the ratio scaled by `buckets - 1`, then rounded. */
  function RawIndex(ob: real, lower: real, upper: real, buckets: int): int
    requires upper != lower
  {
    RoundHalfEven((buckets - 1) as real * Ratio(ob, lower, upper))
  }

  /** One dimension of the discretizer: the raw index clamped into `[0, buckets - 1]`. */
  function BucketIndex(ob: real, lower: real, upper: real, buckets: int): (k: int)
    requires upper != lower
    ensures buckets >= 1 ==> 0 <= k < buckets
    ensures buckets >= 1 && 0 <= RawIndex(ob, lower, upper, buckets) < buckets ==>
              k == RawIndex(ob, lower, upper, buckets)
    ensures buckets >= 1 && RawIndex(ob, lower, upper, buckets) < 0 ==> k == 0
    ensures buckets >= 1 && RawIndex(ob, lower, upper, buckets) >= buckets ==> k == buckets - 1
    ensures buckets < 1 ==> k == buckets - 1
  {
    var raw := RawIndex(ob, lower, upper, buckets);
    var atLeastZero := if raw < 0 then 0 else raw;
    if buckets - 1 < atLeastZero then buckets - 1 else atLeastZero
  }

  /**
   * `discretize(obs, lower_bounds, upper_bounds, buckets)`: one bucket index per
   * observation component.  The source divides by `upper - lower` and indexes the
   * three bound lists by the observation's positions, so both are demanded of callers.
   */
  function Discretize(obs: seq<real>, lower: seq<real>, upper: seq<real>, buckets: seq<int>): (r: seq<int>)
    requires |lower| >= |obs| && |upper| >= |obs| && |buckets| >= |obs|
    requires forall i :: 0 <= i < |obs| ==> upper[i] != lower[i]
    ensures |r| == |obs|
    ensures forall i :: 0 <= i < |obs| ==> r[i] == BucketIndex(obs[i], lower[i], upper[i], buckets[i])
    ensures forall i :: 0 <= i < |obs| && buckets[i] >= 1 ==> 0 <= r[i] < buckets[i]
  {
    seq(|obs|, i requires 0 <= i < |obs| => BucketIndex(obs[i], lower[i], upper[i], buckets[i]))
  }

  /** A dimension with a single bucket always maps to index 0. */
  lemma SingleBucketIsZero(ob: real, lower: real, upper: real)
    requires upper != lower
    ensures BucketIndex(ob, lower, upper, 1) == 0
  {
  }

  /** With a non-positive lower bound, an observation at the lower bound lands in bucket 0. */
  lemma LowerBoundMapsToFirstBucket(lower: real, upper: real, buckets: int)
    requires lower <= 0.0 && upper != lower && buckets >= 1
    ensures BucketIndex(lower, lower, upper, buckets) == 0
  {
    assert Ratio(lower, lower, upper) == 0.0;
    assert RawIndex(lower, lower, upper, buckets) == 0;
  }

  /** With a non-positive lower bound, an observation at the upper bound lands in the last bucket. */
  lemma UpperBoundMapsToLastBucket(lower: real, upper: real, buckets: int)
    requires lower <= 0.0 && upper != lower && buckets >= 1
    ensures BucketIndex(upper, lower, upper, buckets) == buckets - 1
  {
    var d := upper - lower;
    assert upper + Abs(lower) == d;
    assert d / d == 1.0;
    assert Ratio(upper, lower, upper) == 1.0;
    assert RawIndex(upper, lower, upper, buckets) == buckets - 1;
  }

  /**
   * The formula adds `|lower|` rather than subtracting `lower`, so the previous two
   * facts need `lower <= 0`: with bounds [1, 3] and three buckets, the lower bound
   * itself lands in the last bucket.
   */
  lemma PositiveLowerBoundMisplaced()
    ensures BucketIndex(1.0, 1.0, 3.0, 3) == 2
  {
    assert RawIndex(1.0, 1.0, 3.0, 3) == RoundHalfEven(2.0) by {
      assert Ratio(1.0, 1.0, 3.0) == 1.0;
    }
    assert RoundHalfEven(2.0) == 2 by {
      assert (2.0).Floor == 2;
    }
  }

  /** Rounding half to even never reverses the order of two reals. */
  lemma RoundMonotone(a: real, b: real)
    requires a <= b
    ensures RoundHalfEven(a) <= RoundHalfEven(b)
  {
  }

  /** Dividing by a positive real keeps the order. */
  lemma DivideMonotone(x: real, y: real, d: real)
    requires x <= y && d > 0.0
    ensures x / d <= y / d
  {
    var q := y / d - x / d;
    assert q * d == y - x;
  }

  /** Multiplying by a non-negative real keeps the order. */
  lemma ScaleMonotone(x: real, y: real, m: real)
    requires x <= y && m >= 0.0
    ensures m * x <= m * y
  {
    assert m * y - m * x == m * (y - x);
  }

  /** A larger observation gets a raw index at least as large, when the bounds are ordered. */
  lemma RawIndexMonotone(ob1: real, ob2: real, lower: real, upper: real, buckets: int)
    requires lower < upper && ob1 <= ob2 && buckets >= 1
    ensures RawIndex(ob1, lower, upper, buckets) <= RawIndex(ob2, lower, upper, buckets)
  {
    var scaled1 := (buckets - 1) as real * Ratio(ob1, lower, upper);
    var scaled2 := (buckets - 1) as real * Ratio(ob2, lower, upper);
    assert scaled1 <= scaled2 by {
      DivideMonotone(ob1 + Abs(lower), ob2 + Abs(lower), upper - lower);
      ScaleMonotone(Ratio(ob1, lower, upper), Ratio(ob2, lower, upper), (buckets - 1) as real);
    }
    RoundMonotone(scaled1, scaled2);
  }

  /** Discretization is order-preserving: a larger observation never gets a smaller bucket. */
  lemma BucketIndexMonotone(ob1: real, ob2: real, lower: real, upper: real, buckets: int)
    requires lower < upper && ob1 <= ob2
    ensures BucketIndex(ob1, lower, upper, buckets) <= BucketIndex(ob2, lower, upper, buckets)
  {
    if buckets >= 1 {
      RawIndexMonotone(ob1, ob2, lower, upper, buckets);
    }
  }
}
