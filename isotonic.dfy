/** Isotonic calibration: `isotonicMap` clamps a raw probability to the
    curve's end points and otherwise interpolates linearly between the two
    breakpoints a binary search brackets it with. */
module Isotonic {

  /** The isotonic curve of the calibrated model: breakpoints `x` and the
      calibrated values `y` at them. */
  datatype Curve = Curve(x: seq<real>, y: seq<real>)

  /** What `isotonicMap` reads: as many values as breakpoints, at least one. */
  predicate WellFormed(c: Curve) {
    |c.x| == |c.y| > 0
  }

  predicate StrictlyAscending(xs: seq<real>) {
    forall i, j :: 0 <= i < j < |xs| ==> xs[i] < xs[j]
  }

  predicate NonDecreasing(ys: seq<real>) {
    forall i, j :: 0 <= i < j < |ys| ==> ys[i] <= ys[j]
  }

  /** The interpolation of lines 72-75: `t` is where `p` lies between the
      breakpoints, and the result lies as far between the values. */
  function Lerp(x0: real, y0: real, x1: real, y1: real, p: real): (r: real)
    requires x0 < x1 && x0 <= p <= x1
    ensures y0 <= y1 ==> y0 <= r <= y1
    ensures y1 < y0 ==> y1 <= r <= y0
    ensures p == x0 ==> r == y0
    ensures p == x1 ==> r == y1
  {
    var t := (p - x0) / (x1 - x0);
    DivBounds(p - x0, x1 - x0);
    LerpBetween(t, y0, y1);
    y0 + t * (y1 - y0)
  }

  lemma LerpBetween(t: real, y0: real, y1: real)
    requires 0.0 <= t <= 1.0
    ensures y0 <= y1 ==> y0 <= y0 + t * (y1 - y0) <= y1
    ensures y1 < y0 ==> y1 <= y0 + t * (y1 - y0) <= y0
  {
    if y0 <= y1 {
      Rising(t, y0, y1);
    } else {
      Falling(t, y0, y1);
    }
  }

  lemma Rising(t: real, y0: real, y1: real)
    requires 0.0 <= t <= 1.0 && y0 <= y1
    ensures y0 <= y0 + t * (y1 - y0) <= y1
  {
    ScaleLeq(0.0, t, y1 - y0);
    ScaleLeq(t, 1.0, y1 - y0);
  }

  lemma Falling(t: real, y0: real, y1: real)
    requires 0.0 <= t <= 1.0 && y1 < y0
    ensures y1 <= y0 + t * (y1 - y0) <= y0
  {
    ScaleLeq(0.0, t, y0 - y1);
    ScaleLeq(t, 1.0, y0 - y1);
    assert t * (y1 - y0) == -(t * (y0 - y1));
  }

  lemma ScaleLeq(a: real, b: real, c: real)
    requires a <= b && 0.0 <= c
    ensures a * c <= b * c
  {
    var d := b - a;
    assert d * c >= 0.0;
    assert b * c == a * c + d * c;
  }

  lemma DivBounds(a: real, b: real)
    requires 0.0 <= a <= b && 0.0 < b
    ensures 0.0 <= a / b <= 1.0
    ensures a == b ==> a / b == 1.0
  {
    assert a / b * b == a;
  }

  /** Moving `p` right never lowers the interpolation on a rising segment. */
  lemma LerpMonotone(x0: real, y0: real, x1: real, y1: real, p: real, q: real)
    requires x0 < x1 && x0 <= p <= q <= x1 && y0 <= y1
    ensures Lerp(x0, y0, x1, y1, p) <= Lerp(x0, y0, x1, y1, q)
  {
    var d := x1 - x0;
    assert (p - x0) / d <= (q - x0) / d;
    assert (p - x0) / d * (y1 - y0) <= (q - x0) / d * (y1 - y0);
  }

  // ---- The binary search, as a function ------------------------------------

  /** The loop of lines 66-71 from the bracket `lo`, `hi`: halve the bracket
      until it is one segment wide, returning early on an exact hit. */
  function Search(xs: seq<real>, ys: seq<real>, p: real, lo: nat, hi: nat): (r: real)
    requires |xs| == |ys| && lo < hi < |xs| && xs[lo] < p < xs[hi]
    ensures exists k :: lo <= k < hi && Bracketed(xs, ys, p, k, r)
    decreases hi - lo
  {
    if lo + 1 < hi then
      var mid := (lo + hi) / 2;
      if xs[mid] == p then
        assert Bracketed(xs, ys, p, mid, ys[mid]);
        ys[mid]
      else if xs[mid] < p then Search(xs, ys, p, mid, hi)
      else Search(xs, ys, p, lo, mid)
    else
      var r := Lerp(xs[lo], ys[lo], xs[hi], ys[hi], p);
      assert Bracketed(xs, ys, p, lo, r);
      r
  }

  /** `r` is what the search may return at segment `k`: the value of an
      exact hit, or the interpolation across a segment that brackets `p`. */
  predicate Bracketed(xs: seq<real>, ys: seq<real>, p: real, k: nat, r: real)
    requires |xs| == |ys| && k + 1 < |xs|
  {
    || (xs[k] == p && r == ys[k])
    || (xs[k] < p < xs[k + 1] && r == Lerp(xs[k], ys[k], xs[k + 1], ys[k + 1], p))
  }

  /** `isotonicMap(x, y, p)` as a value. */
  function IsotonicValue(c: Curve, p: real): (r: real)
    requires WellFormed(c)
    ensures p <= c.x[0] ==> r == c.y[0]
    ensures c.x[0] < p && c.x[|c.x| - 1] <= p ==> r == c.y[|c.y| - 1]
    ensures c.x[0] < p < c.x[|c.x| - 1] ==> exists k :: 0 <= k < |c.x| - 1 && Bracketed(c.x, c.y, p, k, r)
  {
    if p <= c.x[0] then c.y[0]
    else if p >= c.x[|c.x| - 1] then c.y[|c.y| - 1]
    else Search(c.x, c.y, p, 0, |c.x| - 1)
  }

  /** `isotonicMap`: the clamp, then the binary search over `lo`, `hi`. */
  method IsotonicMap(xs: seq<real>, ys: seq<real>, p: real) returns (r: real)
    requires |xs| == |ys| > 0
    ensures r == IsotonicValue(Curve(xs, ys), p)
  {
    if p <= xs[0] {
      return ys[0];
    }
    if p >= xs[|xs| - 1] {
      return ys[|ys| - 1];
    }
    var lo, hi := 0, |xs| - 1;
    while lo + 1 < hi
      invariant 0 <= lo < hi < |xs|
      invariant xs[lo] < p < xs[hi]
      invariant Search(xs, ys, p, lo, hi) == IsotonicValue(Curve(xs, ys), p)
      decreases hi - lo
    {
      var mid := (lo + hi) / 2;
      SearchStep(xs, ys, p, lo, hi);
      if xs[mid] == p {
        return ys[mid];
      }
      if xs[mid] < p {
        lo := mid;
      } else {
        hi := mid;
      }
    }
    SearchBase(xs, ys, p, lo, hi);
    r := Lerp(xs[lo], ys[lo], xs[hi], ys[hi], p);
  }

  /** A wider bracket is halved at its midpoint. */
  lemma SearchStep(xs: seq<real>, ys: seq<real>, p: real, lo: nat, hi: nat)
    requires |xs| == |ys| && lo + 1 < hi < |xs| && xs[lo] < p < xs[hi]
    ensures var mid := (lo + hi) / 2;
      && (xs[mid] == p ==> Search(xs, ys, p, lo, hi) == ys[mid])
      && (xs[mid] < p ==> Search(xs, ys, p, lo, hi) == Search(xs, ys, p, mid, hi))
      && (xs[mid] > p ==> Search(xs, ys, p, lo, hi) == Search(xs, ys, p, lo, mid))
  {
  }

  /** A bracket one segment wide is interpolated. */
  lemma SearchBase(xs: seq<real>, ys: seq<real>, p: real, lo: nat, hi: nat)
    requires |xs| == |ys| && lo + 1 == hi < |xs| && xs[lo] < p < xs[hi]
    ensures Search(xs, ys, p, lo, hi) == Lerp(xs[lo], ys[lo], xs[hi], ys[hi], p)
  {
  }

  // ---- An independent reference: linear search -----------------------------

  /** The first segment, from `k` on, whose right breakpoint lies above `p`. */
  function SegmentFrom(xs: seq<real>, p: real, k: nat): (j: nat)
    requires k < |xs| - 1 && p < xs[|xs| - 1]
    ensures k <= j < |xs| - 1 && p < xs[j + 1]
    ensures forall i :: k < i <= j ==> xs[i] <= p
    decreases |xs| - k
  {
    if p < xs[k + 1] then k else SegmentFrom(xs, p, k + 1)
  }

  /** The calibration a strictly ascending curve defines: the end values
      outside the breakpoints, the line through the bracketing breakpoints
      inside. */
  function Calibrate(c: Curve, p: real): real
    requires WellFormed(c)
  {
    var n := |c.x|;
    if p <= c.x[0] then c.y[0]
    else if p >= c.x[n - 1] then c.y[n - 1]
    else
      var k := SegmentFrom(c.x, p, 0);
      Lerp(c.x[k], c.y[k], c.x[k + 1], c.y[k + 1], p)
  }

  /** On a strictly ascending curve only one segment brackets `p`. */
  lemma SegmentUnique(xs: seq<real>, p: real, k: nat)
    requires StrictlyAscending(xs) && k + 1 < |xs| && xs[k] <= p < xs[k + 1]
    ensures SegmentFrom(xs, p, 0) == k
  {
  }

  /** On a strictly ascending curve the binary search computes the reference
      calibration. */
  lemma IsotonicValueIsCalibrate(c: Curve, p: real)
    requires WellFormed(c) && StrictlyAscending(c.x)
    ensures IsotonicValue(c, p) == Calibrate(c, p)
  {
    var n := |c.x|;
    if c.x[0] < p < c.x[n - 1] {
      var r := IsotonicValue(c, p);
      var k :| 0 <= k < n - 1 && Bracketed(c.x, c.y, p, k, r);
      SegmentUnique(c.x, p, k);
    }
  }

  /** The reference returns the curve's value at every breakpoint. */
  lemma CalibrateAtBreakpoint(c: Curve, k: nat)
    requires WellFormed(c) && StrictlyAscending(c.x) && k < |c.x|
    ensures Calibrate(c, c.x[k]) == c.y[k]
  {
    var n := |c.x|;
    if 0 < k < n - 1 {
      SegmentUnique(c.x, c.x[k], k);
    }
  }

  /** The calibrated value always lies within the range of the curve's
      values. */
  lemma CalibrateWithinRange(c: Curve, p: real)
    requires WellFormed(c) && NonDecreasing(c.y)
    ensures c.y[0] <= Calibrate(c, p) <= c.y[|c.y| - 1]
  {
  }

  /** A calibration with non-decreasing values is monotone. */
  lemma CalibrateMonotone(c: Curve, p: real, q: real)
    requires WellFormed(c) && StrictlyAscending(c.x) && NonDecreasing(c.y) && p <= q
    ensures Calibrate(c, p) <= Calibrate(c, q)
  {
    var n := |c.x|;
    CalibrateWithinRange(c, p);
    CalibrateWithinRange(c, q);
    if c.x[0] < p && q < c.x[n - 1] {
      var j, k := SegmentFrom(c.x, p, 0), SegmentFrom(c.x, q, 0);
      if j == k {
        LerpMonotone(c.x[k], c.y[k], c.x[k + 1], c.y[k + 1], p, q);
      } else {
        assert j < k;
        assert Calibrate(c, p) <= c.y[j + 1] <= c.y[k] <= Calibrate(c, q);
      }
    }
  }
}
