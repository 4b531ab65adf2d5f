/** The slopes at the knots as functions of the data, and the curve's slope at its knots. */
module PchipSlopes {
  import opened Pchip
  import PS = PchipShape

  // ---------- Which secant counts more ----------

  /** Between two different secants of the same sign the slope is their plain harmonic mean exactly when the two
      segments are equally wide; otherwise it leans towards the secant of the narrower one. */
  lemma NarrowerCountsMore(h0: real, h1: real, m0: real, m1: real, d: real)
    requires h0 > 0.0 && h1 > 0.0 && 0.0 < m0 < m1 && IsHarmonic(h0, h1, m0, m1, d)
    ensures d * (m0 + m1) < 2.0 * m0 * m1 <==> h0 < h1
    ensures d * (m0 + m1) == 2.0 * m0 * m1 <==> h0 == h1
    ensures d * (m0 + m1) > 2.0 * m0 * m1 <==> h0 > h1
  {
    var w0, w1, p := 2.0 * h1 + h0, h1 + 2.0 * h0, m0 * m1;
    var den := w0 * m1 + w1 * m0;
    assert p > 0.0;
    assert w0 * m1 > 0.0 && w1 * m0 > 0.0;
    assert d * den == (w0 + w1) * p by { assert 3.0 * (h0 + h1) * m0 * m1 == (w0 + w1) * p; }
    var gap := d * (m0 + m1) - 2.0 * p;
    assert gap * den == p * ((w0 + w1) * (m0 + m1) - 2.0 * den) by {
      assert d * (m0 + m1) * den == d * den * (m0 + m1);
      assert (w0 + w1) * p * (m0 + m1) == p * ((w0 + w1) * (m0 + m1));
    }
    assert (w0 + w1) * (m0 + m1) - 2.0 * den == (w0 - w1) * (m0 - m1);
    assert w0 - w1 == h1 - h0;
    SignOfGap(gap, den, p, h1 - h0, m0 - m1);
  }

  lemma SignOfGap(gap: real, den: real, p: real, a: real, b: real)
    requires den > 0.0 && p > 0.0 && b < 0.0 && gap * den == p * (a * b)
    ensures gap < 0.0 <==> a > 0.0
    ensures gap > 0.0 <==> a < 0.0
  {
    var x := a * b;
    if a > 0.0 { assert x < 0.0; assert p * x < 0.0; }
    if a < 0.0 { assert x > 0.0; assert p * x > 0.0; }
    if gap > 0.0 { assert gap * den > 0.0; }
    if gap < 0.0 { assert gap * den < 0.0; }
  }

  // ---------- The slope of the curve ----------

  function Abs(v: real): real { if v < 0.0 then -v else v }

  /** How far the cubic of segment `i` can bend away from its tangents. */
  function Bend(p: Interpolant, i: nat): real
    requires p.WellFormed() && i < |p.xs| - 1
  {
    (5.0 * Abs(Secant(p.xs, p.ys, i)) + 3.0 * Abs(p.ds[i]) + 3.0 * Abs(p.ds[i + 1])) / Width(p.xs, i)
  }

  /** What is left of a segment's cubic without its tangent, per square of the distance. */
  function Remainder(t: real, m: real, d0: real, d1: real): real { (3.0 * m - 2.0 * d0 - d1) + t * (d0 + d1 - 2.0 * m) }

  lemma HermiteFromLeft(t: real, h: real, y0: real, m: real, d0: real, d1: real)
    ensures Hermite(t, h, y0, y0 + m * h, d0, d1) == y0 + d0 * (t * h) + t * t * h * Remainder(t, m, d0, d1)
  {
    var c, q := t * t * t, t * t;
    assert Hermite(t, h, y0, y0 + m * h, d0, d1)
        == (2.0 * c - 3.0 * q + 1.0) * y0 + (c - 2.0 * q + t) * h * d0 + (-2.0 * c + 3.0 * q) * (y0 + m * h) + (c - q) * h * d1;
    assert (-2.0 * c + 3.0 * q) * (m * h) == 3.0 * (q * m * h) - 2.0 * (c * m * h);
    assert (c - 2.0 * q + t) * h * d0 == c * h * d0 - 2.0 * (q * h * d0) + t * h * d0;
    assert (c - q) * h * d1 == c * h * d1 - q * h * d1;
    assert q * h * (t * (d0 + d1 - 2.0 * m)) == c * h * d0 + c * h * d1 - 2.0 * (c * m * h);
    assert q * h * (3.0 * m - 2.0 * d0 - d1) == 3.0 * (q * m * h) - 2.0 * (q * h * d0) - q * h * d1;
  }

  lemma Same(d: real, v: real, u: real)
    requires v == u
    ensures d * v == d * u
  {
  }

  lemma SameCurve(t: real, h: real, y0: real, y1: real, y2: real, d0: real, d1: real)
    requires y1 == y2
    ensures Hermite(t, h, y0, y1, d0, d1) == Hermite(t, h, y0, y2, d0, d1)
  {
    hide *;
  }

  lemma TurnedPowers(t: real, u: real)
    requires u == 1.0 - t
    ensures 2.0 * u * u * u - 3.0 * u * u + 1.0 == -2.0 * t * t * t + 3.0 * t * t
    ensures -2.0 * u * u * u + 3.0 * u * u == 2.0 * t * t * t - 3.0 * t * t + 1.0
    ensures u * u * u - 2.0 * u * u + u == -(t * t * t - t * t)
    ensures u * u * u - u * u == -(t * t * t - 2.0 * t * t + t)
  {
    var q := t * t;
    assert u * u == 1.0 - 2.0 * t + q;
    assert u * u * u == u * (1.0 - 2.0 * t + q);
    assert u * (1.0 - 2.0 * t + q) == 1.0 - 3.0 * t + 3.0 * q - t * q;
    assert t * t * t == t * q;
  }

  function Weighted(h00: real, h10: real, h01: real, h11: real, h: real, y0: real, y1: real, d0: real, d1: real): real {
    h00 * y0 + h10 * h * d0 + h01 * y1 + h11 * h * d1
  }

  lemma WeightedTurned(h00: real, h10: real, h01: real, h11: real, h: real, y0: real, y1: real, d0: real, d1: real)
    ensures Weighted(h00, h10, h01, h11, h, y0, y1, d0, d1) == Weighted(h01, -h11, h00, -h10, h, y1, y0, -d1, -d0)
  {
    assert (-h11) * h * (-d1) == h11 * h * d1 && (-h10) * h * (-d0) == h10 * h * d0;
  }

  lemma HermiteIsWeighted(t: real, h: real, y0: real, y1: real, d0: real, d1: real)
    ensures Hermite(t, h, y0, y1, d0, d1)
         == Weighted(2.0 * t * t * t - 3.0 * t * t + 1.0, t * t * t - 2.0 * t * t + t,
                     -2.0 * t * t * t + 3.0 * t * t, t * t * t - t * t, h, y0, y1, d0, d1)
  {
  }

  /** Seen from its other end a segment is a segment again. */
  lemma HermiteTurned(t: real, u: real, h: real, y0: real, y1: real, d0: real, d1: real)
    requires u == 1.0 - t
    ensures Hermite(t, h, y0, y1, d0, d1) == Hermite(u, h, y1, y0, -d1, -d0)
  {
    hide *;
    HermiteIsWeighted(t, h, y0, y1, d0, d1);
    HermiteIsWeighted(u, h, y1, y0, -d1, -d0);
    TurnedPowers(t, u);
    WeightedTurned(2.0 * t * t * t - 3.0 * t * t + 1.0, t * t * t - 2.0 * t * t + t,
                   -2.0 * t * t * t + 3.0 * t * t, t * t * t - t * t, h, y0, y1, d0, d1);
  }

  lemma Shrinks(t: real, v: real)
    requires 0.0 <= t <= 1.0
    ensures Abs(t * v) <= Abs(v)
  {
    var w := Abs(v);
    PS.ProductNonnegative(t, w);
    PS.ProductNonnegative(1.0 - t, w);
    assert (1.0 - t) * w == w - t * w;
    if v < 0.0 { assert t * v == -(t * w); }
  }

  lemma BendBound(t: real, m: real, d0: real, d1: real)
    requires 0.0 <= t <= 1.0
    ensures Abs(Remainder(t, m, d0, d1)) <= 5.0 * Abs(m) + 3.0 * Abs(d0) + 3.0 * Abs(d1)
  {
    var v := d0 + d1 - 2.0 * m;
    var w := t * v;
    Shrinks(t, v);
    Same(t, d0 + d1 - 2.0 * m, v);
    AbsSum(m, d0, d1, v, w);
    SameAbs(Remainder(t, m, d0, d1), (3.0 * m - 2.0 * d0 - d1) + w);
  }

  lemma SameAbs(a: real, b: real)
    requires a == b
    ensures Abs(a) == Abs(b)
  {
  }

  lemma AbsSum(m: real, d0: real, d1: real, v: real, w: real)
    requires v == d0 + d1 - 2.0 * m && Abs(w) <= Abs(v)
    ensures Abs((3.0 * m - 2.0 * d0 - d1) + w) <= 5.0 * Abs(m) + 3.0 * Abs(d0) + 3.0 * Abs(d1)
  {
  }

  lemma Regroup(a: real, k: real, h: real)
    ensures a * (k * h) == k * (a * h)
  {
    assert a * (k * h) == (a * k) * h;
    assert k * (a * h) == (a * k) * h;
  }

  lemma SquareOfProduct(t: real, h: real)
    ensures t * t * h * h == (t * h) * (t * h)
  {
  }

  lemma QuadraticForm(t: real, h: real, u: real, g: real, k: real)
    requires t * h == u && k * h == g
    ensures t * t * h * g == k * (u * u)
  {
    Regroup(t * t * h, k, h);
    SquareOfProduct(t, h);
  }

  lemma QuotientBound(g: real, k: real, h: real)
    requires h > 0.0 && Abs(g) <= k
    ensures Abs(g / h) <= k / h && (g / h) * h == g
  {
    assert (k / h) * h == k;
    PS.QuotientAtMost(g, h, k / h);
    PS.QuotientAtMost(-g, h, k / h);
    PS.NegatedNumerator(g, h);
  }

  /** The segment's cubic as its tangent at the left end and a remainder. */
  lemma TangentForm(t: real, h: real, u: real, y0: real, y1: real, m: real, d0: real, d1: real) returns (q: real)
    requires h > 0.0 && t * h == u && 0.0 <= t <= 1.0 && y1 == y0 + m * h
    ensures Hermite(t, h, y0, y1, d0, d1) == y0 + d0 * u + q * (u * u)
    ensures Abs(q) <= (5.0 * Abs(m) + 3.0 * Abs(d0) + 3.0 * Abs(d1)) / h
  {
    hide *;
    var g := Remainder(t, m, d0, d1);
    q := g / h;
    BendBound(t, m, d0, d1);
    QuotientBound(g, 5.0 * Abs(m) + 3.0 * Abs(d0) + 3.0 * Abs(d1), h);
    var e, a, c := Hermite(t, h, y0, y1, d0, d1), d0 * (t * h), t * t * h * g;
    assert e == y0 + a + c by {
      HermiteFromLeft(t, h, y0, m, d0, d1);
      SameCurve(t, h, y0, y1, y0 + m * h, d0, d1);
    }
    assert a == d0 * u by { Same(d0, t * h, u); }
    assert c == q * (u * u) by { QuadraticForm(t, h, u, g, q); }
  }

  /** A point of segment `i`: how far along it is, and the value there. */
  lemma OnCubic(p: Interpolant, i: nat, x: real) returns (t: real)
    requires p.WellFormed() && i < |p.xs| - 1 && p.xs[i] <= x <= p.xs[i + 1]
    ensures var h := Width(p.xs, i);
      && h == p.xs[i + 1] - p.xs[i] > 0.0
      && 0.0 <= t <= 1.0 && t * h == x - p.xs[i]
      && p.ys[i + 1] == p.ys[i] + Secant(p.xs, p.ys, i) * h
      && Eval(p, x) == Hermite(t, h, p.ys[i], p.ys[i + 1], p.ds[i], p.ds[i + 1])
  {
    hide Hermite, Eval;
    t := (x - p.xs[i]) / Width(p.xs, i);
    PS.EvalOnSegment(p, i, x);
    PS.ScaleOrder(x - p.xs[i], x - p.xs[i], Width(p.xs, i));
  }

  /** To the right of knot `i` the curve leaves along the slope of that knot: it differs from the tangent by at
      most a fixed multiple of the square of the distance. */
  lemma LeavesAlongSlope(p: Interpolant, i: nat, x: real) returns (q: real)
    requires p.WellFormed() && i < |p.xs| - 1 && p.xs[i] <= x <= p.xs[i + 1]
    ensures Eval(p, x) == p.ys[i] + p.ds[i] * (x - p.xs[i]) + q * ((x - p.xs[i]) * (x - p.xs[i]))
    ensures Abs(q) <= Bend(p, i)
  {
    hide Hermite, Eval, Secant, Width, Abs;
    var h, m, u := Width(p.xs, i), Secant(p.xs, p.ys, i), x - p.xs[i];
    var t := OnCubic(p, i, x);
    var y0, y1 := p.ys[i], p.ys[i + 1];
    assert y1 == y0 + m * h && t * h == u;
    q := TangentForm(t, h, u, y0, y1, m, p.ds[i], p.ds[i + 1]);
  }

  lemma Backwards(y0: real, y1: real, m: real, h: real, t: real, a: real)
    requires y1 == y0 + m * h && t * h == a
    ensures y0 == y1 + (-m) * h && (1.0 - t) * h == h - a
  {
  }

  lemma Flip(d: real, q: real, u: real, v: real)
    requires v == -u
    ensures (-d) * u + q * (u * u) == d * v + q * (v * v)
  {
    assert v * v == u * u;
    assert (-d) * u == d * v;
  }

  lemma AbsFlip(m: real, d0: real, d1: real)
    ensures 5.0 * Abs(-m) + 3.0 * Abs(-d1) + 3.0 * Abs(-d0) == 5.0 * Abs(m) + 3.0 * Abs(d0) + 3.0 * Abs(d1)
  {
  }

  /** To the left of knot `i + 1` it arrives along the slope of that knot. */
  lemma ArrivesAlongSlope(p: Interpolant, i: nat, x: real) returns (q: real)
    requires p.WellFormed() && i < |p.xs| - 1 && p.xs[i] <= x <= p.xs[i + 1]
    ensures Eval(p, x) == p.ys[i + 1] + p.ds[i + 1] * (x - p.xs[i + 1]) + q * ((x - p.xs[i + 1]) * (x - p.xs[i + 1]))
    ensures Abs(q) <= Bend(p, i)
  {
    hide Hermite, Eval, Secant, Width, Abs;
    var h, m, u := Width(p.xs, i), Secant(p.xs, p.ys, i), p.xs[i + 1] - x;
    var t := OnCubic(p, i, x);
    Backwards(p.ys[i], p.ys[i + 1], m, h, t, x - p.xs[i]);
    HermiteTurned(t, 1.0 - t, h, p.ys[i], p.ys[i + 1], p.ds[i], p.ds[i + 1]);
    q := TangentForm(1.0 - t, h, u, p.ys[i + 1], p.ys[i], -m, -p.ds[i + 1], -p.ds[i]);
    Flip(p.ds[i + 1], q, u, x - p.xs[i + 1]);
    AbsFlip(m, p.ds[i], p.ds[i + 1]);
  }

  /** Past the knots the curve is the straight line along the boundary slope. */
  lemma StraightOutside(p: Interpolant, x: real)
    requires p.WellFormed()
    ensures x <= p.xs[0] ==> Eval(p, x) - Eval(p, p.xs[0]) == p.ds[0] * (x - p.xs[0])
    ensures var n := |p.xs| - 1; x >= p.xs[n] ==> Eval(p, x) - Eval(p, p.xs[n]) == p.ds[n] * (x - p.xs[n])
  {
    PS.HitsEveryKnot(p, 0);
    PS.HitsEveryKnot(p, |p.xs| - 1);
    PS.KnotsOrdered(p.xs, 0, |p.xs| - 1);
  }
}
