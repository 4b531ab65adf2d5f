/** The interpolant keeps the shape of its data: slope ratios stay in [0, 3], which makes every
    cubic segment monotone, so the curve hits its knots, never overshoots them, and is
    nondecreasing on all reals exactly when its knot values are. */
module PchipShape {
  import opened Pchip

  // ---------- Slope ratios ----------

  /** `d` has the sign of the secant `m` (or is zero) and at most three times its size. */
  ghost predicate SlopeBounded(d: real, m: real) {
    && (m >= 0.0 ==> 0.0 <= d <= 3.0 * m)
    && (m <= 0.0 ==> 3.0 * m <= d <= 0.0)
  }

  lemma QuotientAtMost(a: real, b: real, c: real)
    requires b > 0.0 && a <= c * b
    ensures a / b <= c
  {
    var q := a / b;
    assert q * b == a;
    assert (q - c) * b <= 0.0;
  }

  lemma EdgePositive(h0: real, h1: real, m0: real, m1: real)
    requires h0 > 0.0 && h1 > 0.0 && m0 > 0.0
    ensures SlopeBounded(EdgeDerivative(h0, h1, m0, m1), m0)
  {
    var a := (2.0 * h0 + h1) * m0 - h0 * m1;
    if m1 >= 0.0 {
      assert h0 * m1 >= 0.0;
      assert 3.0 * m0 * (h0 + h1) - (2.0 * h0 + h1) * m0 == m0 * h0 + 2.0 * (m0 * h1);
      assert m0 * h0 > 0.0 && m0 * h1 > 0.0;
      QuotientAtMost(a, h0 + h1, 3.0 * m0);
    }
  }

  lemma NegatedNumerator(a: real, b: real)
    requires b != 0.0
    ensures (-a) / b == -(a / b)
  {
    var q := a / b;
    assert q * b == a;
    assert (-q) * b == -a;
  }

  /** Negating the data negates the boundary slope. */
  lemma EdgeOdd(h0: real, h1: real, m0: real, m1: real)
    requires h0 > 0.0 && h1 > 0.0
    ensures EdgeDerivative(h0, h1, -m0, -m1) == -EdgeDerivative(h0, h1, m0, m1)
  {
    var a := (2.0 * h0 + h1) * m0 - h0 * m1;
    assert (2.0 * h0 + h1) * (-m0) - h0 * (-m1) == -a;
    NegatedNumerator(a, h0 + h1);
  }

  lemma EdgeBounded(h0: real, h1: real, m0: real, m1: real)
    requires h0 > 0.0 && h1 > 0.0
    ensures SlopeBounded(EdgeDerivative(h0, h1, m0, m1), m0)
  {
    if m0 > 0.0 {
      EdgePositive(h0, h1, m0, m1);
    } else if m0 < 0.0 {
      EdgePositive(h0, h1, -m0, -m1);
      EdgeOdd(h0, h1, m0, m1);
    }
  }

  lemma InteriorPositive(h0: real, h1: real, m0: real, m1: real)
    requires h0 > 0.0 && h1 > 0.0 && m0 > 0.0 && m1 > 0.0
    ensures 0.0 < InteriorDerivative(h0, h1, m0, m1) <= 3.0 * m0
    ensures InteriorDerivative(h0, h1, m0, m1) <= 3.0 * m1
  {
    var w0, w1 := 2.0 * h1 + h0, h1 + 2.0 * h0;
    var q0, q1 := w0 / m0, w1 / m1;
    assert q0 > 0.0 && q1 > 0.0;
    assert q0 * m0 == w0 && q1 * m1 == w1;
    assert m0 * q1 > 0.0 && m1 * q0 > 0.0;
    assert 3.0 * m0 * (q0 + q1) == 3.0 * w0 + 3.0 * (m0 * q1);
    assert 3.0 * m1 * (q0 + q1) == 3.0 * w1 + 3.0 * (m1 * q0);
    QuotientAtMost(w0 + w1, q0 + q1, 3.0 * m0);
    QuotientAtMost(w0 + w1, q0 + q1, 3.0 * m1);
  }

  lemma NegatedQuotient(a: real, b: real)
    requires b != 0.0
    ensures a / (-b) == -(a / b)
  {
    var q := a / b;
    assert q * b == a;
    assert (-q) * (-b) == a;
  }

  lemma InteriorOdd(h0: real, h1: real, m0: real, m1: real)
    requires h0 > 0.0 && h1 > 0.0 && m0 < 0.0 && m1 < 0.0
    ensures InteriorDerivative(h0, h1, -m0, -m1) == -InteriorDerivative(h0, h1, m0, m1)
  {
    var w0, w1 := 2.0 * h1 + h0, h1 + 2.0 * h0;
    HarmonicDenominatorNonzero(w0, w1, m0, m1);
    NegatedQuotient(w0, m0);
    NegatedQuotient(w1, m1);
    NegatedQuotient(w0 + w1, w0 / m0 + w1 / m1);
  }

  lemma InteriorBounded(h0: real, h1: real, m0: real, m1: real)
    requires h0 > 0.0 && h1 > 0.0
    ensures SlopeBounded(InteriorDerivative(h0, h1, m0, m1), m0)
    ensures SlopeBounded(InteriorDerivative(h0, h1, m0, m1), m1)
  {
    if m0 > 0.0 && m1 > 0.0 {
      InteriorPositive(h0, h1, m0, m1);
    } else if m0 < 0.0 && m1 < 0.0 {
      InteriorPositive(h0, h1, -m0, -m1);
      InteriorOdd(h0, h1, m0, m1);
    }
  }

  /** Both end slopes of every segment have a ratio in [0, 3] to that segment's secant. */
  lemma SegmentSlopesBounded(xs: seq<real>, ys: seq<real>, i: nat)
    requires Knots(xs, ys) && i < |xs| - 1
    ensures SlopeBounded(Derivative(xs, ys, i), Secant(xs, ys, i))
    ensures SlopeBounded(Derivative(xs, ys, i + 1), Secant(xs, ys, i))
  {
    var n := |xs|;
    if n > 2 {
      if i == 0 {
        EdgeBounded(Width(xs, 0), Width(xs, 1), Secant(xs, ys, 0), Secant(xs, ys, 1));
      } else {
        InteriorBounded(Width(xs, i - 1), Width(xs, i), Secant(xs, ys, i - 1), Secant(xs, ys, i));
      }
      if i + 1 == n - 1 {
        EdgeBounded(Width(xs, n - 2), Width(xs, n - 3), Secant(xs, ys, n - 2), Secant(xs, ys, n - 3));
      } else {
        InteriorBounded(Width(xs, i), Width(xs, i + 1), Secant(xs, ys, i), Secant(xs, ys, i + 1));
      }
    }
  }

  // ---------- The normalised cubic ----------

  function Cube(t: real): real { t * t * t }

  /** The segment's cubic after scaling it to run from (0, 0) to (1, 1): slope ratios `a`, `b`. */
  function Phi(t: real, a: real, b: real): real {
    (3.0 * t * t - 2.0 * Cube(t)) + a * (Cube(t) - 2.0 * t * t + t) + b * (Cube(t) - t * t)
  }

  lemma ProductNonnegative(a: real, b: real)
    requires a >= 0.0 && b >= 0.0
    ensures a * b >= 0.0
  {
  }

  lemma SquareNonnegative(a: real)
    ensures a * a >= 0.0
  {
  }

  lemma CubeMonotone(u: real, v: real)
    requires u <= v
    ensures Cube(u) <= Cube(v)
  {
    var d, q := v - u, u * u + u * v + v * v;
    assert q == (u + v / 2.0) * (u + v / 2.0) + 0.75 * (v * v);
    SquareNonnegative(u + v / 2.0);
    SquareNonnegative(v);
    ProductNonnegative(d, q);
    assert Cube(v) - Cube(u) == d * q;
  }

  lemma SmoothstepMonotone(s: real, t: real)
    requires 0.0 <= s <= t <= 1.0
    ensures 3.0 * s * s - 2.0 * Cube(s) <= 3.0 * t * t - 2.0 * Cube(t)
  {
    var bracket := 3.0 * (s + t) - 2.0 * (s * s + s * t + t * t);
    assert bracket == 2.0 * (s * (1.0 - s)) + 2.0 * (t * (1.0 - t)) + s * (1.0 - t) + t * (1.0 - s);
    ProductNonnegative(s, 1.0 - s);
    ProductNonnegative(t, 1.0 - t);
    ProductNonnegative(s, 1.0 - t);
    ProductNonnegative(t, 1.0 - s);
    ProductNonnegative(t - s, bracket);
    assert (3.0 * t * t - 2.0 * Cube(t)) - (3.0 * s * s - 2.0 * Cube(s)) == (t - s) * bracket;
  }

  lemma CubeExpansions(t: real)
    ensures Cube(1.0 - t) == 1.0 - 3.0 * t + 3.0 * t * t - Cube(t)
    ensures Cube(2.0 * t - 1.0) == 8.0 * Cube(t) - 12.0 * t * t + 6.0 * t - 1.0
  {
  }

  /** Closed forms of the corner cubics. */
  lemma CornerForms(t: real)
    ensures Phi(t, 0.0, 0.0) == 3.0 * t * t - 2.0 * Cube(t)
    ensures Phi(t, 3.0, 0.0) == 1.0 - Cube(1.0 - t)
    ensures Phi(t, 0.0, 3.0) == Cube(t)
    ensures Phi(t, 3.0, 3.0) == (Cube(2.0 * t - 1.0) + 1.0) / 2.0
  {
    hide Cube;
    CubeExpansions(t);
  }

  /** The four corner cubics, slope ratios (0,0), (3,0), (0,3) and (3,3), are monotone. */
  lemma CornersMonotone(s: real, t: real)
    requires 0.0 <= s <= t <= 1.0
    ensures Phi(s, 0.0, 0.0) <= Phi(t, 0.0, 0.0)
    ensures Phi(s, 3.0, 0.0) <= Phi(t, 3.0, 0.0)
    ensures Phi(s, 0.0, 3.0) <= Phi(t, 0.0, 3.0)
    ensures Phi(s, 3.0, 3.0) <= Phi(t, 3.0, 3.0)
  {
    hide *;
    SmoothstepMonotone(s, t);
    CubeMonotone(s, t);
    CubeMonotone(1.0 - t, 1.0 - s);
    CubeMonotone(2.0 * s - 1.0, 2.0 * t - 1.0);
    CornerForms(s);
    CornerForms(t);
  }

  /** Weighted sum of four values. */
  function Blend(w0: real, w1: real, w2: real, w3: real, x0: real, x1: real, x2: real, x3: real): real {
    w0 * x0 + w1 * x1 + w2 * x2 + w3 * x3
  }

  lemma WeightedLeq(w: real, x: real, y: real)
    requires w >= 0.0 && x <= y
    ensures w * x <= w * y
  {
  }

  lemma BlendMonotone(w0: real, w1: real, w2: real, w3: real,
                      x0: real, x1: real, x2: real, x3: real,
                      y0: real, y1: real, y2: real, y3: real)
    requires w0 >= 0.0 && w1 >= 0.0 && w2 >= 0.0 && w3 >= 0.0
    requires x0 <= y0 && x1 <= y1 && x2 <= y2 && x3 <= y3
    ensures Blend(w0, w1, w2, w3, x0, x1, x2, x3) <= Blend(w0, w1, w2, w3, y0, y1, y2, y3)
  {
    WeightedLeq(w0, x0, y0);
    WeightedLeq(w1, x1, y1);
    WeightedLeq(w2, x2, y2);
    WeightedLeq(w3, x3, y3);
  }

  /** Values at the corners of the unit square, interpolated at `(p, q)`. */
  function Mix(p: real, q: real, c00: real, c30: real, c03: real, c33: real): real {
    Blend((1.0 - p) * (1.0 - q), p * (1.0 - q), (1.0 - p) * q, p * q, c00, c30, c03, c33)
  }

  lemma MixIdentity(p: real, q: real, c: real, u: real, v: real)
    ensures Mix(p, q, c, c + 3.0 * u, c + 3.0 * v, c + 3.0 * u + 3.0 * v)
         == c + 3.0 * p * u + 3.0 * q * v
  {
  }

  lemma MixMonotone(p: real, q: real, x00: real, x30: real, x03: real, x33: real,
                    y00: real, y30: real, y03: real, y33: real)
    requires 0.0 <= p <= 1.0 && 0.0 <= q <= 1.0
    requires x00 <= y00 && x30 <= y30 && x03 <= y03 && x33 <= y33
    ensures Mix(p, q, x00, x30, x03, x33) <= Mix(p, q, y00, y30, y03, y33)
  {
    ProductNonnegative(1.0 - p, 1.0 - q);
    ProductNonnegative(p, 1.0 - q);
    ProductNonnegative(1.0 - p, q);
    ProductNonnegative(p, q);
    BlendMonotone((1.0 - p) * (1.0 - q), p * (1.0 - q), (1.0 - p) * q, p * q,
                  x00, x30, x03, x33, y00, y30, y03, y33);
  }

  /** `Phi` is a mixture of the four corners with the weights of (a/3, b/3). */
  lemma PhiMixesCorners(t: real, p: real, q: real)
    ensures Phi(t, 3.0 * p, 3.0 * q)
         == Mix(p, q, Phi(t, 0.0, 0.0), Phi(t, 3.0, 0.0), Phi(t, 0.0, 3.0), Phi(t, 3.0, 3.0))
  {
    MixIdentity(p, q, Phi(t, 0.0, 0.0), Cube(t) - 2.0 * t * t + t, Cube(t) - t * t);
  }

  /** Every normalised cubic with slope ratios in [0, 3] is monotone on [0, 1]. */
  lemma PhiMonotone(s: real, t: real, a: real, b: real)
    requires 0.0 <= s <= t <= 1.0 && 0.0 <= a <= 3.0 && 0.0 <= b <= 3.0
    ensures Phi(s, a, b) <= Phi(t, a, b)
  {
    hide *;
    CornersMonotone(s, t);
    MixMonotone(a / 3.0, b / 3.0,
                Phi(s, 0.0, 0.0), Phi(s, 3.0, 0.0), Phi(s, 0.0, 3.0), Phi(s, 3.0, 3.0),
                Phi(t, 0.0, 0.0), Phi(t, 3.0, 0.0), Phi(t, 0.0, 3.0), Phi(t, 3.0, 3.0));
    PhiMixesCorners(s, a / 3.0, b / 3.0);
    PhiMixesCorners(t, a / 3.0, b / 3.0);
    assert 3.0 * (a / 3.0) == a && 3.0 * (b / 3.0) == b;
  }

  lemma PhiOrder(s: real, t: real, a: real, b: real)
    requires 0.0 <= s <= t <= 1.0 && 0.0 <= a <= 3.0 && 0.0 <= b <= 3.0
    ensures 0.0 <= Phi(s, a, b) <= Phi(t, a, b) <= 1.0
  {
    hide *;
    PhiMonotone(0.0, s, a, b);
    PhiMonotone(s, t, a, b);
    PhiMonotone(t, 1.0, a, b);
    PhiEnds(a, b);
  }

  lemma PhiEnds(a: real, b: real)
    ensures Phi(0.0, a, b) == 0.0 && Phi(1.0, a, b) == 1.0
  {
    assert Cube(1.0) - 2.0 * 1.0 * 1.0 + 1.0 == 0.0 && Cube(1.0) - 1.0 * 1.0 == 0.0;
    assert a * 0.0 == 0.0 && b * 0.0 == 0.0;
  }

  // ---------- One segment ----------

  /** A Hermite segment is its normalised cubic stretched over the rise. */
  lemma HermiteIsPhi(t: real, h: real, y0: real, m: real, a: real, b: real)
    ensures Hermite(t, h, y0, y0 + m * h, a * m, b * m) == y0 + m * h * Phi(t, a, b)
  {
    var h10 := t * t * t - 2.0 * t * t + t;
    var h01 := -2.0 * t * t * t + 3.0 * t * t;
    var h11 := t * t * t - t * t;
    var rise := m * h;
    assert Cube(t) == t * t * t;
    assert Phi(t, a, b) == h01 + a * h10 + b * h11;
    assert h10 * h * (a * m) == rise * (a * h10);
    assert h11 * h * (b * m) == rise * (b * h11);
    assert (2.0 * t * t * t - 3.0 * t * t + 1.0) * y0 + h01 * (y0 + rise) == y0 + h01 * rise;
  }

  lemma StretchOrder(y0: real, rise: real, u: real, v: real, hu: real, hv: real)
    requires 0.0 <= u <= v <= 1.0 && hu == y0 + rise * u && hv == y0 + rise * v
    ensures rise >= 0.0 ==> y0 <= hu <= hv <= y0 + rise
    ensures rise <= 0.0 ==> y0 >= hu >= hv >= y0 + rise
  {
  }

  /** A Hermite segment with end slopes `a`, `b` times its secant, for `a`, `b` in [0, 3], runs
      monotonically between its ends. */
  lemma HermiteMonotone(s: real, t: real, h: real, y0: real, y1: real, m: real, a: real, b: real, d0: real, d1: real)
    requires 0.0 <= s <= t <= 1.0 && h > 0.0 && 0.0 <= a <= 3.0 && 0.0 <= b <= 3.0
    requires y1 == y0 + m * h && d0 == a * m && d1 == b * m
    ensures y0 <= y1 ==> y0 <= Hermite(s, h, y0, y1, d0, d1) <= Hermite(t, h, y0, y1, d0, d1) <= y1
    ensures y0 >= y1 ==> y0 >= Hermite(s, h, y0, y1, d0, d1) >= Hermite(t, h, y0, y1, d0, d1) >= y1
  {
    hide *;
    PhiOrder(s, t, a, b);
    HermiteIsPhi(s, h, y0, m, a, b);
    HermiteIsPhi(t, h, y0, m, a, b);
    StretchOrder(y0, y1 - y0, Phi(s, a, b), Phi(t, a, b), Hermite(s, h, y0, y1, d0, d1), Hermite(t, h, y0, y1, d0, d1));
  }

  lemma RatioInRange(d: real, m: real)
    requires m != 0.0 && SlopeBounded(d, m)
    ensures 0.0 <= d / m <= 3.0 && d == (d / m) * m
  {
    var q := d / m;
    assert q * m == d;
    if m > 0.0 {
      assert (q - 3.0) * m <= 0.0;
    } else {
      assert (q - 3.0) * m >= 0.0;
    }
  }

  /** The slope ratio at one end of a segment: a number in [0, 3] (zero on a flat segment). */
  lemma SlopeRatio(d: real, m: real) returns (a: real)
    requires SlopeBounded(d, m)
    ensures 0.0 <= a <= 3.0 && d == a * m
  {
    if m == 0.0 {
      a := 0.0;
    } else {
      a := d / m;
      RatioInRange(d, m);
    }
  }

  /** Every segment's end slopes are within [0, 3] times its secant. */
  ghost predicate Shaped(p: Interpolant) {
    p.WellFormed() && forall i :: 0 <= i < |p.xs| - 1 ==>
      SlopeBounded(p.ds[i], Secant(p.xs, p.ys, i)) && SlopeBounded(p.ds[i + 1], Secant(p.xs, p.ys, i))
  }

  lemma ValidIsShaped(p: Interpolant)
    requires p.Valid()
    ensures Shaped(p)
  {
    forall i | 0 <= i < |p.xs| - 1
      ensures SlopeBounded(p.ds[i], Secant(p.xs, p.ys, i)) && SlopeBounded(p.ds[i + 1], Secant(p.xs, p.ys, i))
    {
      SegmentSlopesBounded(p.xs, p.ys, i);
    }
  }

  lemma ScaleOrder(u: real, v: real, h: real)
    requires 0.0 <= u <= v <= h && h > 0.0
    ensures 0.0 <= u / h <= v / h <= 1.0
  {
  }

  /** Segment `i` runs monotonically from its left knot value to its right one. */
  lemma SegmentMonotone(p: Interpolant, i: nat, x: real, z: real)
    requires Shaped(p) && i < |p.xs| - 1 && p.xs[i] <= x <= z <= p.xs[i + 1]
    ensures p.ys[i] <= p.ys[i + 1] ==> p.ys[i] <= OnSegment(p, i, x) <= OnSegment(p, i, z) <= p.ys[i + 1]
    ensures p.ys[i] >= p.ys[i + 1] ==> p.ys[i] >= OnSegment(p, i, x) >= OnSegment(p, i, z) >= p.ys[i + 1]
  {
    var h, m := Width(p.xs, i), Secant(p.xs, p.ys, i);
    var a := SlopeRatio(p.ds[i], m);
    var b := SlopeRatio(p.ds[i + 1], m);
    assert p.ys[i + 1] == p.ys[i] + m * h;
    ScaleOrder(x - p.xs[i], z - p.xs[i], h);
    HermiteMonotone((x - p.xs[i]) / h, (z - p.xs[i]) / h, h, p.ys[i], p.ys[i + 1], m, a, b, p.ds[i], p.ds[i + 1]);
  }

  lemma HermiteEnds(h: real, y0: real, y1: real, d0: real, d1: real)
    ensures Hermite(0.0, h, y0, y1, d0, d1) == y0 && Hermite(1.0, h, y0, y1, d0, d1) == y1
  {
  }

  lemma SegmentEnds(p: Interpolant, i: nat)
    requires p.WellFormed() && i < |p.xs| - 1
    ensures OnSegment(p, i, p.xs[i]) == p.ys[i] && OnSegment(p, i, p.xs[i + 1]) == p.ys[i + 1]
  {
    HermiteEnds(Width(p.xs, i), p.ys[i], p.ys[i + 1], p.ds[i], p.ds[i + 1]);
  }

  // ---------- The whole curve ----------

  lemma {:induction false} KnotsOrdered(xs: seq<real>, i: nat, j: nat)
    requires StrictlyIncreasing(xs) && i <= j < |xs|
    ensures i < j ==> xs[i] < xs[j]
    decreases j - i
  {
    if i + 1 < j {
      KnotsOrdered(xs, i + 1, j);
    }
  }

  /** The knot found by the search: a point in segment `i` is found there, or, when it is the
      segment's right end, possibly in the next one. */
  lemma SearchFindsSegment(xs: seq<real>, i: nat, x: real)
    requires StrictlyIncreasing(xs) && i < |xs| - 1 && xs[i] <= x <= xs[i + 1]
    ensures BisectRight(xs, x) - 1 == i || (x == xs[i + 1] && BisectRight(xs, x) - 1 == i + 1)
  {
    var j := BisectRight(xs, x) - 1;
    if j < i {
      KnotsOrdered(xs, j + 1, i);
    } else if j > i {
      KnotsOrdered(xs, i + 1, j);
    }
  }

  /** On the closed interval between two neighbouring knots the curve is that segment's cubic. */
  lemma EvalOnSegment(p: Interpolant, i: nat, x: real)
    requires p.WellFormed() && i < |p.xs| - 1 && p.xs[i] <= x <= p.xs[i + 1]
    ensures Eval(p, x) == OnSegment(p, i, x)
  {
    var n := |p.xs|;
    KnotsOrdered(p.xs, 0, i);
    KnotsOrdered(p.xs, i + 1, n - 1);
    SearchFindsSegment(p.xs, i, x);
    SegmentEnds(p, i);
    if i + 1 < n - 1 { SegmentEnds(p, i + 1); }
  }

  /** The curve passes through every knot. */
  lemma HitsEveryKnot(p: Interpolant, k: nat)
    requires p.WellFormed() && k < |p.xs|
    ensures Eval(p, p.xs[k]) == p.ys[k]
  {
    var i := if k < |p.xs| - 1 then k else k - 1;
    EvalOnSegment(p, i, p.xs[k]);
    SegmentEnds(p, i);
  }

  /** Between neighbouring knots the curve is monotone in the direction of the data and stays
      between the two knot values. */
  lemma MonotoneBetweenKnots(p: Interpolant, i: nat, x: real, z: real)
    requires p.Valid() && i < |p.xs| - 1 && p.xs[i] <= x <= z <= p.xs[i + 1]
    ensures p.ys[i] <= p.ys[i + 1] ==> p.ys[i] <= Eval(p, x) <= Eval(p, z) <= p.ys[i + 1]
    ensures p.ys[i] >= p.ys[i + 1] ==> p.ys[i] >= Eval(p, x) >= Eval(p, z) >= p.ys[i + 1]
  {
    ValidIsShaped(p);
    EvalOnSegment(p, i, x);
    EvalOnSegment(p, i, z);
    SegmentMonotone(p, i, x, z);
  }

  /** `f` is nondecreasing left of the first knot, between neighbouring knots, and right of the last. */
  ghost predicate NondecreasingPieces(xs: seq<real>, f: real -> real)
    requires |xs| >= 2
  {
    && (forall x, z :: x <= z <= xs[0] ==> f(x) <= f(z))
    && (forall i, x, z :: 0 <= i < |xs| - 1 && xs[i] <= x <= z <= xs[i + 1] ==> f(x) <= f(z))
    && (forall x, z :: xs[|xs| - 1] <= x <= z ==> f(x) <= f(z))
  }

  lemma {:induction false} ValuesAtKnotsOrdered(xs: seq<real>, f: real -> real, i: nat, j: nat)
    requires |xs| >= 2 && StrictlyIncreasing(xs) && NondecreasingPieces(xs, f) && i <= j < |xs|
    ensures f(xs[i]) <= f(xs[j])
    decreases j - i
  {
    if i < j {
      assert xs[i] <= xs[i] <= xs[i + 1] <= xs[i + 1];
      ValuesAtKnotsOrdered(xs, f, i + 1, j);
    }
  }

  lemma WithinPiece(xs: seq<real>, f: real -> real, i: nat, x: real, z: real)
    requires |xs| >= 2 && NondecreasingPieces(xs, f) && i < |xs| - 1 && xs[i] <= x <= z <= xs[i + 1]
    ensures f(x) <= f(z)
  {
  }

  /** A point between the first and the last knot lies in some piece. */
  lemma PieceOf(xs: seq<real>, x: real) returns (i: nat)
    requires |xs| >= 2 && StrictlyIncreasing(xs) && xs[0] <= x <= xs[|xs| - 1]
    ensures i < |xs| - 1 && xs[i] <= x <= xs[i + 1]
  {
    var r := BisectRight(xs, x);
    i := if r == |xs| then r - 2 else r - 1;
  }

  /** The value right of a knot is at least the knot's value. */
  lemma RightOfKnot(xs: seq<real>, f: real -> real, k: nat, z: real)
    requires |xs| >= 2 && StrictlyIncreasing(xs) && NondecreasingPieces(xs, f) && k < |xs| && xs[k] <= z
    ensures f(xs[k]) <= f(z)
  {
    var n := |xs|;
    KnotsOrdered(xs, 0, k);
    if z > xs[n - 1] {
      ValuesAtKnotsOrdered(xs, f, k, n - 1);
    } else {
      var i := PieceOf(xs, z);
      if k <= i {
        ValuesAtKnotsOrdered(xs, f, k, i);
        WithinPiece(xs, f, i, xs[i], z);
      } else {
        KnotsOrdered(xs, i + 1, k);
      }
    }
  }

  /** Pieces that are nondecreasing and share their end points make a nondecreasing whole. */
  lemma NondecreasingWhole(xs: seq<real>, f: real -> real, x: real, z: real)
    requires |xs| >= 2 && StrictlyIncreasing(xs) && NondecreasingPieces(xs, f) && x <= z
    ensures f(x) <= f(z)
  {
    var n := |xs|;
    if x < xs[0] < z {
      assert x <= xs[0] <= xs[0];
      RightOfKnot(xs, f, 0, z);
    } else if xs[0] <= x <= xs[n - 1] {
      var i := PieceOf(xs, x);
      if z <= xs[i + 1] {
        WithinPiece(xs, f, i, x, z);
      } else {
        WithinPiece(xs, f, i, x, xs[i + 1]);
        RightOfKnot(xs, f, i + 1, z);
      }
    }
  }

  /** The curve as a function of its argument alone. */
  ghost function Curve(p: Interpolant): real -> real
    requires p.WellFormed()
  {
    x => if p.WellFormed() then Eval(p, x) else 0.0
  }

  lemma CurveLeft(p: Interpolant, x: real, z: real)
    requires p.WellFormed() && x <= z <= p.xs[0] && p.ds[0] >= 0.0
    ensures Curve(p)(x) <= Curve(p)(z)
  {
    WeightedLeq(p.ds[0], x - p.xs[0], z - p.xs[0]);
  }

  lemma CurveRight(p: Interpolant, x: real, z: real)
    requires p.WellFormed() && p.xs[|p.xs| - 1] <= x <= z && p.ds[|p.xs| - 1] >= 0.0
    ensures Curve(p)(x) <= Curve(p)(z)
  {
    var n := |p.xs|;
    KnotsOrdered(p.xs, 0, n - 1);
    WeightedLeq(p.ds[n - 1], x - p.xs[n - 1], z - p.xs[n - 1]);
  }

  lemma CurveBetween(p: Interpolant, i: nat, x: real, z: real)
    requires Shaped(p) && i < |p.xs| - 1 && p.xs[i] <= x <= z <= p.xs[i + 1] && p.ys[i] <= p.ys[i + 1]
    ensures Curve(p)(x) <= Curve(p)(z)
  {
    EvalOnSegment(p, i, x);
    EvalOnSegment(p, i, z);
    SegmentMonotone(p, i, x, z);
  }

  /** A rising first and last segment extrapolate upwards. */
  lemma EndSlopesNonnegative(p: Interpolant)
    requires Shaped(p) && p.Nondecreasing()
    ensures p.ds[0] >= 0.0 && p.ds[|p.xs| - 1] >= 0.0
  {
    var n := |p.xs|;
    assert p.ys[0] <= p.ys[0 + 1] && p.ys[n - 2] <= p.ys[n - 2 + 1];
    assert Secant(p.xs, p.ys, 0) >= 0.0 && Secant(p.xs, p.ys, n - 2) >= 0.0;
  }

  lemma CurveInnerPieces(p: Interpolant)
    requires Shaped(p) && p.Nondecreasing()
    ensures forall i, x, z :: 0 <= i < |p.xs| - 1 && p.xs[i] <= x <= z <= p.xs[i + 1] ==> Curve(p)(x) <= Curve(p)(z)
  {
    forall i, x: real, z: real | 0 <= i < |p.xs| - 1 && p.xs[i] <= x <= z <= p.xs[i + 1]
      ensures Curve(p)(x) <= Curve(p)(z)
    {
      CurveBetween(p, i, x, z);
    }
  }

  lemma CurvePieces(p: Interpolant)
    requires Shaped(p) && p.Nondecreasing()
    ensures NondecreasingPieces(p.xs, Curve(p))
  {
    EndSlopesNonnegative(p);
    CurveInnerPieces(p);
    forall x: real, z: real | x <= z <= p.xs[0] ensures Curve(p)(x) <= Curve(p)(z) {
      CurveLeft(p, x, z);
    }
    forall x: real, z: real | p.xs[|p.xs| - 1] <= x <= z ensures Curve(p)(x) <= Curve(p)(z) {
      CurveRight(p, x, z);
    }
  }

  /** With nondecreasing data the curve, extrapolations included, is nondecreasing everywhere. */
  lemma NondecreasingEverywhere(p: Interpolant, x: real, z: real)
    requires p.Valid() && p.Nondecreasing() && x <= z
    ensures Eval(p, x) <= Eval(p, z)
  {
    ValidIsShaped(p);
    CurvePieces(p);
    NondecreasingWhole(p.xs, Curve(p), x, z);
  }

  /** The whole curve is nondecreasing if and only if the knot values, anchor included, are. */
  lemma NondecreasingIffDataIs(p: Interpolant)
    requires p.Valid()
    ensures p.Nondecreasing() <==> forall x: real, z: real :: x <= z ==> Eval(p, x) <= Eval(p, z)
  {
    if p.Nondecreasing() {
      forall x: real, z: real | x <= z ensures Eval(p, x) <= Eval(p, z) {
        NondecreasingEverywhere(p, x, z);
      }
    }
    if forall x: real, z: real :: x <= z ==> Eval(p, x) <= Eval(p, z) {
      forall i | 0 <= i < |p.ys| - 1 ensures p.ys[i] <= p.ys[i + 1] {
        HitsEveryKnot(p, i);
        HitsEveryKnot(p, i + 1);
        assert p.xs[i] <= p.xs[i + 1];
      }
    }
  }
}
