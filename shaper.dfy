/**
 * The lookup-table waveshaper of src/shaper.rs: a table of TABLE_SIZE
 * samples whose cells sit at evenly spaced points from f32::MIN to
 * f32::MAX, a map from a value to the index of its cell, and linear
 * interpolation between neighbouring cells.
 */
module Shaper {
  import opened Float32
  import opened RealArithmetic

  const TABLE_SIZE: nat := 128
  const INDEX_MAX: nat := TABLE_SIZE - 1
  const F32_RANGE: real := MAX - MIN
  /** Distance between two neighbouring sample points. */
  const STEP: real := F32_RANGE / INDEX_MAX as real

  /** A shaper owns its table by value, as the Rust struct owns its array. */
  datatype Shaper = Shaper(lut: seq<real>) {

    ghost predicate Valid() {
      |lut| == TABLE_SIZE
    }

    /** The table holds the identity ramp: each cell stores its own sample point. */
    ghost predicate IsIdentity()
      requires Valid()
    {
      forall i :: 0 <= i < TABLE_SIZE ==> lut[i] == ValueFromIndex(i)
    }

    /** The sample point of table cell `index`. */
    static function ValueFromIndex(index: nat): (v: real)
      ensures index <= INDEX_MAX ==> MIN <= v <= MAX
    {
      MIN + index as real * STEP
    }

    /** The cell whose sample point is the largest one not above `value`. */
    static function NearestLowerIndex(value: real): (index: nat)
      requires MIN <= value <= MAX
      ensures index <= INDEX_MAX
      ensures ValueFromIndex(index) <= value
      ensures index < INDEX_MAX ==> value < ValueFromIndex(index + 1)
    {
      var q := (value - MIN) / STEP;
      assert q * STEP == value - MIN;
      assert q <= INDEX_MAX as real;
      q.Floor
    }

    /**
     * Linear interpolation between cell `lowerIndex` and the next one;
     * the last cell is returned as it is.
     */
    function Interpolate(lowerIndex: nat, x: real): (y: real)
      requires Valid()
      requires lowerIndex <= INDEX_MAX
      ensures lowerIndex == INDEX_MAX ==> y == lut[INDEX_MAX]
      ensures lowerIndex < INDEX_MAX && x == ValueFromIndex(lowerIndex) ==> y == lut[lowerIndex]
      ensures lowerIndex < INDEX_MAX && x == ValueFromIndex(lowerIndex + 1) ==> y == lut[lowerIndex + 1]
    {
      if lowerIndex == INDEX_MAX then
        lut[INDEX_MAX]
      else
        var y1 := lut[lowerIndex];
        var x1 := ValueFromIndex(lowerIndex);
        var y2 := lut[lowerIndex + 1];
        var x2 := ValueFromIndex(lowerIndex + 1);
        assert x1 - x2 == -STEP;
        Line(x1, y1, x2, y2, x)
    }

    /** The table a default shaper starts with. */
    static method DefaultLut() returns (lut: array<real>)
      ensures fresh(lut)
      ensures lut.Length == TABLE_SIZE
      ensures forall i :: 0 <= i < TABLE_SIZE ==> lut[i] == ValueFromIndex(i)
      ensures lut[0] == MIN && lut[INDEX_MAX] == MAX
    {
      lut := new real[TABLE_SIZE];
      for i := 0 to lut.Length
        invariant forall k :: 0 <= k < i ==> lut[k] == ValueFromIndex(k)
      {
        lut[i] := MIN + STEP * i as real;
      }
    }

    /** A shaper holding the default table. */
    static method Default() returns (s: Shaper)
      ensures s.Valid() && s.IsIdentity()
    {
      var lut := DefaultLut();
      s := Shaper(lut[..]);
    }
  }

  /**
   * The straight line through (x1, y1) and (x2, y2) at x, computed as the
   * interpolation computes it: both differences are taken first minus second.
   */
  function Line(x1: real, y1: real, x2: real, y2: real, x: real): (y: real)
    requires x1 != x2
    ensures x == x1 ==> y == y1
    ensures x == x2 ==> y == y2
  {
    var deltaY := y1 - y2;
    var deltaX := x1 - x2;
    var position := (x - x1) / deltaX;
    assert x == x2 ==> position == -1.0 by {
      if x == x2 {
        assert x - x1 == -deltaX;
        assert (-deltaX) / deltaX == -1.0;
      }
    }
    y1 + deltaY * position
  }

  lemma StepIsPositive()
    ensures STEP > 0.0
    ensures STEP * INDEX_MAX as real == F32_RANGE
  {
  }

  /** Consecutive sample points are exactly STEP apart, so they increase strictly. */
  lemma ValueFromIndexIncreasing(i: nat, j: nat)
    requires i < j
    ensures Shaper.ValueFromIndex(j) - Shaper.ValueFromIndex(i) == (j - i) as real * STEP
    ensures Shaper.ValueFromIndex(i) < Shaper.ValueFromIndex(j)
  {
  }

  /** Sample points never decrease with the index. */
  lemma ValueFromIndexMonotone(i: nat, j: nat)
    requires i <= j
    ensures Shaper.ValueFromIndex(i) <= Shaper.ValueFromIndex(j)
  {
    if i < j {
      ValueFromIndexIncreasing(i, j);
    }
  }

  /** The first and the last sample points are f32::MIN and f32::MAX. */
  lemma ValueFromIndexEndpoints()
    ensures Shaper.ValueFromIndex(0) == MIN
    ensures Shaper.ValueFromIndex(INDEX_MAX) == MAX
  {
  }

  lemma NearestLowerIndexEndpoints()
    ensures Shaper.NearestLowerIndex(MIN) == 0
    ensures Shaper.NearestLowerIndex(MAX) == INDEX_MAX
  {
  }

  /** NearestLowerIndex is the only cell whose interval brackets the value. */
  lemma NearestLowerIndexUnique(value: real, j: nat)
    requires MIN <= value <= MAX
    requires j <= INDEX_MAX
    requires Shaper.ValueFromIndex(j) <= value
    requires j < INDEX_MAX ==> value < Shaper.ValueFromIndex(j + 1)
    ensures Shaper.NearestLowerIndex(value) == j
  {
    var i := Shaper.NearestLowerIndex(value);
    if i < j {
      ValueFromIndexMonotone(i + 1, j);
    } else if j < i {
      ValueFromIndexMonotone(j + 1, i);
    }
  }

  /** Moving from a to b by the fraction t in [0, 1] stays between a and b. */
  lemma BetweenEnds(a: real, b: real, t: real)
    requires 0.0 <= t <= 1.0
    ensures a <= b ==> a <= a + (b - a) * t <= b
    ensures b <= a ==> b <= a + (b - a) * t <= a
  {
    var d := b - a;
    NonNegativeProduct(if d >= 0.0 then d else -d, t);
    NonNegativeProduct(if d >= 0.0 then d else -d, 1.0 - t);
  }

  /** Between two sample points, the result lies between the two table entries. */
  lemma InterpolateBetween(s: Shaper, i: nat, x: real)
    requires s.Valid()
    requires i < INDEX_MAX
    requires Shaper.ValueFromIndex(i) <= x <= Shaper.ValueFromIndex(i + 1)
    ensures s.lut[i] <= s.lut[i + 1] ==> s.lut[i] <= s.Interpolate(i, x) <= s.lut[i + 1]
    ensures s.lut[i + 1] <= s.lut[i] ==> s.lut[i + 1] <= s.Interpolate(i, x) <= s.lut[i]
  {
    var x1 := Shaper.ValueFromIndex(i);
    var x2 := Shaper.ValueFromIndex(i + 1);
    assert x1 - x2 == -STEP;
    LineBetween(x1, s.lut[i], x2, s.lut[i + 1], x);
  }

  /** Between x1 and x2 the line stays between y1 and y2. */
  lemma LineBetween(x1: real, y1: real, x2: real, y2: real, x: real)
    requires x1 < x2 && x1 <= x <= x2
    ensures y1 <= y2 ==> y1 <= Line(x1, y1, x2, y2, x) <= y2
    ensures y2 <= y1 ==> y2 <= Line(x1, y1, x2, y2, x) <= y1
  {
    var d := x2 - x1;
    var t := (x - x1) / d;
    assert t * d == x - x1;
    assert 0.0 <= t <= 1.0 by {
      if t > 1.0 {
        assert (t - 1.0) * d > 0.0;
      }
    }
    assert (x - x1) / (x1 - x2) == -t;
    assert Line(x1, y1, x2, y2, x) == y1 + (y2 - y1) * t;
    BetweenEnds(y1, y2, t);
  }

  /** The line through two points of an affine function is that function. */
  lemma LineOfAffine(a: real, b: real, x1: real, x2: real, x: real)
    requires x1 != x2
    ensures Line(x1, a * x1 + b, x2, a * x2 + b, x) == a * x + b
  {
    var dx := x1 - x2;
    var p := (x - x1) / dx;
    assert dx * p == x - x1;
    calc {
      Line(x1, a * x1 + b, x2, a * x2 + b, x);
      (a * x1 + b) + ((a * x1 + b) - (a * x2 + b)) * p;
      (a * x1 + b) + (a * dx) * p;
      (a * x1 + b) + a * (dx * p);
      a * x + b;
    }
  }

  /**
   * A table sampled from an affine function reproduces that function
   * exactly on [MIN, MAX]: interpolating a straight line is lossless.
   */
  lemma InterpolateAffineExact(s: Shaper, a: real, b: real, x: real)
    requires s.Valid()
    requires forall i :: 0 <= i < TABLE_SIZE ==> s.lut[i] == a * Shaper.ValueFromIndex(i) + b
    requires MIN <= x <= MAX
    ensures s.Interpolate(Shaper.NearestLowerIndex(x), x) == a * x + b
  {
    var i := Shaper.NearestLowerIndex(x);
    if i < INDEX_MAX {
      InterpolateAffineCell(s, a, b, i, x);
    } else {
      ValueFromIndexEndpoints();
    }
  }

  /** Below the last cell, interpolating a table sampled from a line follows that line for every x. */
  lemma InterpolateAffineCell(s: Shaper, a: real, b: real, i: nat, x: real)
    requires s.Valid()
    requires i < INDEX_MAX
    requires s.lut[i] == a * Shaper.ValueFromIndex(i) + b
    requires s.lut[i + 1] == a * Shaper.ValueFromIndex(i + 1) + b
    ensures s.Interpolate(i, x) == a * x + b
  {
    var x1 := Shaper.ValueFromIndex(i);
    var x2 := Shaper.ValueFromIndex(i + 1);
    ValueFromIndexIncreasing(i, i + 1);
    assert s.Interpolate(i, x) == Line(x1, s.lut[i], x2, s.lut[i + 1], x);
    LineOfAffine(a, b, x1, x2, x);
  }

  /**
   * With the default table, looking up a value and interpolating gives the
   * value back.
   */
  lemma DefaultInterpolatesIdentity(s: Shaper, x: real)
    requires s.Valid() && s.IsIdentity()
    requires MIN <= x <= MAX
    ensures s.Interpolate(Shaper.NearestLowerIndex(x), x) == x
  {
    forall i | 0 <= i < TABLE_SIZE
      ensures s.lut[i] == 1.0 * Shaper.ValueFromIndex(i) + 0.0
    {
    }
    InterpolateAffineExact(s, 1.0, 0.0, x);
  }

  /** At the two ends of the range the lookup returns the first and the last entry. */
  lemma InterpolateAtEnds(s: Shaper)
    requires s.Valid()
    ensures s.Interpolate(Shaper.NearestLowerIndex(MIN), MIN) == s.lut[0]
    ensures s.Interpolate(Shaper.NearestLowerIndex(MAX), MAX) == s.lut[INDEX_MAX]
  {
    NearestLowerIndexEndpoints();
  }
}
