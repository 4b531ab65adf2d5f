/** The monotone cubic Hermite interpolant of py_kvcache/_pchip.py, over the reals. */
module Pchip {
  import opened Outcomes

  function Sign(v: real): int {
    if v > 0.0 then 1 else if v < 0.0 then -1 else 0
  }

  function Abs(v: real): real {
    if v < 0.0 then -v else v
  }

  /** One-sided three-point estimate of the slope at a boundary knot. */
  function EdgeDerivative(h0: real, h1: real, m0: real, m1: real): real
    requires h0 > 0.0 && h1 > 0.0
  {
    var d := ((2.0 * h0 + h1) * m0 - h0 * m1) / (h0 + h1);
    if Sign(d) != Sign(m0) then 0.0
    else if Sign(m0) != Sign(m1) && Abs(d) > Abs(3.0 * m0) then 3.0 * m0
    else d
  }

  /** Slope at an interior knot between secants `m0` and `m1`: zero at a local extremum or a
      flat side, otherwise their weighted harmonic mean. */
  function InteriorDerivative(h0: real, h1: real, m0: real, m1: real): real
    requires h0 > 0.0 && h1 > 0.0
  {
    if m0 == 0.0 || m1 == 0.0 || Sign(m0) != Sign(m1) then 0.0
    else
      var w0, w1 := 2.0 * h1 + h0, h1 + 2.0 * h0;
      HarmonicDenominatorNonzero(w0, w1, m0, m1);
      (w0 + w1) / (w0 / m0 + w1 / m1)
  }

  lemma HarmonicDenominatorNonzero(w0: real, w1: real, m0: real, m1: real)
    requires w0 > 0.0 && w1 > 0.0 && m0 != 0.0 && m1 != 0.0 && Sign(m0) == Sign(m1)
    ensures m0 > 0.0 ==> w0 / m0 > 0.0 && w1 / m1 > 0.0
    ensures m0 < 0.0 ==> w0 / m0 < 0.0 && w1 / m1 < 0.0
  {
  }

  predicate StrictlyIncreasing(xs: seq<real>) {
    forall i :: 0 <= i < |xs| - 1 ==> xs[i] < xs[i + 1]
  }

  predicate Knots(xs: seq<real>, ys: seq<real>) {
    |xs| == |ys| >= 2 && StrictlyIncreasing(xs)
  }

  function Width(xs: seq<real>, i: nat): (h: real)
    requires i < |xs| - 1 && StrictlyIncreasing(xs)
    ensures h > 0.0
  {
    xs[i + 1] - xs[i]
  }

  function Secant(xs: seq<real>, ys: seq<real>, i: nat): real
    requires Knots(xs, ys) && i < |xs| - 1
  {
    (ys[i + 1] - ys[i]) / Width(xs, i)
  }

  /** The slope the interpolant uses at knot `k`. */
  function Derivative(xs: seq<real>, ys: seq<real>, k: nat): real
    requires Knots(xs, ys) && k < |xs|
  {
    var n := |xs|;
    if n == 2 then Secant(xs, ys, 0)
    else if k == 0 then
      EdgeDerivative(Width(xs, 0), Width(xs, 1), Secant(xs, ys, 0), Secant(xs, ys, 1))
    else if k == n - 1 then
      EdgeDerivative(Width(xs, n - 2), Width(xs, n - 3), Secant(xs, ys, n - 2), Secant(xs, ys, n - 3))
    else
      InteriorDerivative(Width(xs, k - 1), Width(xs, k), Secant(xs, ys, k - 1), Secant(xs, ys, k))
  }

  // ---------- What the slopes mean ----------

  predicate SameSign(m0: real, m1: real) { (m0 > 0.0 && m1 > 0.0) || (m0 < 0.0 && m1 < 0.0) }

  /** `d` is the harmonic mean of the two secants, each weighted by its own width and twice the other one, if
      they have the same sign, and zero otherwise. */
  predicate IsHarmonic(h0: real, h1: real, m0: real, m1: real, d: real) {
    if SameSign(m0, m1) then d * ((2.0 * h1 + h0) * m1 + (h1 + 2.0 * h0) * m0) == 3.0 * (h0 + h1) * m0 * m1 else d == 0.0
  }

  lemma InteriorIsHarmonic(h0: real, h1: real, m0: real, m1: real)
    requires h0 > 0.0 && h1 > 0.0
    ensures IsHarmonic(h0, h1, m0, m1, InteriorDerivative(h0, h1, m0, m1))
  {
    if SameSign(m0, m1) {
      HarmonicDenominatorNonzero(2.0 * h1 + h0, h1 + 2.0 * h0, m0, m1);
      MeanIdentity(2.0 * h1 + h0, h1 + 2.0 * h0, m0, m1, InteriorDerivative(h0, h1, m0, m1));
    }
  }

  lemma MeanIdentity(w0: real, w1: real, m0: real, m1: real, d: real)
    requires m0 != 0.0 && m1 != 0.0 && w0 / m0 + w1 / m1 != 0.0 && d == (w0 + w1) / (w0 / m0 + w1 / m1)
    ensures d * (w0 * m1 + w1 * m0) == (w0 + w1) * m0 * m1
  {
    var q0, q1 := w0 / m0, w1 / m1;
    assert q0 * m0 == w0 && q1 * m1 == w1;
    assert d * (q0 + q1) == w0 + w1;
    assert w0 * m1 + w1 * m0 == (q0 + q1) * (m0 * m1) by {
      assert w0 * m1 == q0 * m0 * m1 && w1 * m0 == q1 * m1 * m0;
    }
    assert d * ((q0 + q1) * (m0 * m1)) == d * (q0 + q1) * (m0 * m1);
  }

  /** The value nearest to `q` between zero and `limit`. */
  function Nearest(q: real, limit: real): real {
    if limit >= 0.0 then (if q < 0.0 then 0.0 else if q > limit then limit else q)
    else (if q > 0.0 then 0.0 else if q < limit then limit else q)
  }

  /** Secant of the parabola `b * u + c * u * u` between `u` and `v`. */
  function ParabolaSecant(b: real, c: real, u: real, v: real): real { b + c * (u + v) }

  lemma ParabolaSecantIs(b: real, c: real, u: real, v: real)
    ensures ParabolaSecant(b, c, u, v) * (v - u) == (b * v + c * v * v) - (b * u + c * u * u)
  {
  }

  /** `d` follows the parabola through the three outermost knots: it is the parabola's slope at the boundary,
      moved to the nearest value between zero and three times the outermost secant. */
  ghost predicate FollowsParabola(h0: real, h1: real, m0: real, m1: real, d: real) {
    forall b: real, c: real ::
      ParabolaSecant(b, c, 0.0, h0) == m0 && ParabolaSecant(b, c, h0, h0 + h1) == m1 ==> d == Nearest(b, 3.0 * m0)
  }

  lemma EdgeFollowsParabola(h0: real, h1: real, m0: real, m1: real)
    requires h0 > 0.0 && h1 > 0.0
    ensures FollowsParabola(h0, h1, m0, m1, EdgeDerivative(h0, h1, m0, m1))
  {
    forall b: real, c: real | ParabolaSecant(b, c, 0.0, h0) == m0 && ParabolaSecant(b, c, h0, h0 + h1) == m1
      ensures EdgeDerivative(h0, h1, m0, m1) == Nearest(b, 3.0 * m0)
    {
      BoundarySlope(h0, h1, m0, m1, b, c);
      ClippedToNearest(h0, h1, m0, m1, b);
    }
  }

  lemma BoundarySlope(h0: real, h1: real, m0: real, m1: real, b: real, c: real)
    requires h0 > 0.0 && h1 > 0.0
    requires ParabolaSecant(b, c, 0.0, h0) == m0 && ParabolaSecant(b, c, h0, h0 + h1) == m1
    ensures ((2.0 * h0 + h1) * m0 - h0 * m1) / (h0 + h1) == b
  {
    var w := h0 + h1;
    assert m0 == b + c * h0 && m1 == b + c * (2.0 * h0 + h1);
    assert (2.0 * h0 + h1) * m0 - h0 * m1 == b * w + c * h0 * (2.0 * h0 + h1) - c * h0 * (2.0 * h0 + h1);
    assert (b * w) / w == b;
  }

  /** With secants of the same sign the parabola's slope is less than twice the outermost one, so the bound
      never matters there. */
  lemma ClippedToNearest(h0: real, h1: real, m0: real, m1: real, q: real)
    requires h0 > 0.0 && h1 > 0.0 && ((2.0 * h0 + h1) * m0 - h0 * m1) / (h0 + h1) == q
    ensures EdgeDerivative(h0, h1, m0, m1) == Nearest(q, 3.0 * m0)
  {
    if m0 > 0.0 && m1 > 0.0 { BoundaryAtMost(h0, h1, m0, m1, q); }
    if m0 < 0.0 && m1 < 0.0 {
      assert (-q) * (h0 + h1) == (2.0 * h0 + h1) * (-m0) - h0 * (-m1) by { assert q * (h0 + h1) == (2.0 * h0 + h1) * m0 - h0 * m1; }
      BoundaryAtMost(h0, h1, -m0, -m1, -q);
    }
  }

  lemma BoundaryAtMost(h0: real, h1: real, m0: real, m1: real, q: real)
    requires h0 > 0.0 && h1 > 0.0 && m0 > 0.0 && m1 > 0.0 && q * (h0 + h1) == (2.0 * h0 + h1) * m0 - h0 * m1
    ensures q <= 3.0 * m0
  {
    assert h0 * m1 > 0.0 && h0 * m0 > 0.0 && h1 * m0 > 0.0;
    assert (3.0 * m0 - q) * (h0 + h1) == h0 * m0 + 2.0 * (h1 * m0) + h0 * m1;
  }

  /** The slopes at the knots, in terms of the data alone. */
  ghost predicate FollowData(xs: seq<real>, ys: seq<real>, d: seq<real>)
    requires Knots(xs, ys) && |d| == |xs|
  {
    var n := |xs|;
    if n == 2 then d[0] == d[1] && d[0] * (xs[1] - xs[0]) == ys[1] - ys[0]
    else
      && (forall k :: 0 < k < n - 1 ==>
            IsHarmonic(Width(xs, k - 1), Width(xs, k), Secant(xs, ys, k - 1), Secant(xs, ys, k), d[k]))
      && FollowsParabola(Width(xs, 0), Width(xs, 1), Secant(xs, ys, 0), Secant(xs, ys, 1), d[0])
      && FollowsParabola(Width(xs, n - 2), Width(xs, n - 3), Secant(xs, ys, n - 2), Secant(xs, ys, n - 3), d[n - 1])
  }

  lemma SlopesFollowData(xs: seq<real>, ys: seq<real>, d: seq<real>)
    requires Knots(xs, ys) && |d| == |xs| && forall k :: 0 <= k < |xs| ==> d[k] == Derivative(xs, ys, k)
    ensures FollowData(xs, ys, d)
  {
    hide EdgeDerivative, InteriorDerivative, IsHarmonic, FollowsParabola;
    var n := |xs|;
    if n == 2 { return; }
    forall k | 0 < k < n - 1
      ensures IsHarmonic(Width(xs, k - 1), Width(xs, k), Secant(xs, ys, k - 1), Secant(xs, ys, k), d[k])
    {
      InteriorIsHarmonic(Width(xs, k - 1), Width(xs, k), Secant(xs, ys, k - 1), Secant(xs, ys, k));
    }
    EdgeFollowsParabola(Width(xs, 0), Width(xs, 1), Secant(xs, ys, 0), Secant(xs, ys, 1));
    EdgeFollowsParabola(Width(xs, n - 2), Width(xs, n - 3), Secant(xs, ys, n - 2), Secant(xs, ys, n - 3));
  }

  /** Values beyond the knots are not looked at; too few of them is an error. */
  method Derivatives(xs: seq<real>, values: seq<real>) returns (r: Result<seq<real>>)
    requires StrictlyIncreasing(xs)
    ensures r.Ok? <==> 2 <= |xs| <= |values|
    ensures r.Ok? ==> |r.value| == |xs| && forall k :: 0 <= k < |xs| ==> r.value[k] == Derivative(xs, values[..|xs|], k)
    ensures r.Ok? ==> FollowData(xs, values[..|xs|], r.value)
  {
    var n := |xs|;
    if n < 2 {
      return Err("Pchip needs at least two knots");
    }
    if |values| < n {
      return Err("list index out of range");
    }
    var ys := values[..n];
    var h := seq(n - 1, i requires 0 <= i < n - 1 => Width(xs, i));
    var m := seq(n - 1, i requires 0 <= i < n - 1 => Secant(xs, ys, i));
    if n == 2 {
      SlopesFollowData(xs, ys, [m[0], m[0]]);
      return Ok([m[0], m[0]]);
    }
    var d := seq(n, i => 0.0);
    for k := 1 to n - 1
      invariant |d| == n
      invariant forall j :: 1 <= j < k ==> d[j] == Derivative(xs, ys, j)
      invariant forall j :: k <= j < n - 1 ==> d[j] == 0.0
    {
      var mPrev, mNext := m[k - 1], m[k];
      if mPrev == 0.0 || mNext == 0.0 || Sign(mPrev) != Sign(mNext) {
        continue;
      }
      var w1 := 2.0 * h[k] + h[k - 1];
      var w2 := h[k] + 2.0 * h[k - 1];
      HarmonicDenominatorNonzero(w1, w2, mPrev, mNext);
      d := d[k := (w1 + w2) / (w1 / mPrev + w2 / mNext)];
    }
    d := d[0 := EdgeDerivative(h[0], h[1], m[0], m[1])];
    d := d[n - 1 := EdgeDerivative(h[n - 2], h[n - 3], m[n - 2], m[n - 3])];
    SlopesFollowData(xs, ys, d);
    r := Ok(d);
  }

  /** A constructed interpolant: its knots (anchor included) and the slope at each of them. */
  datatype Interpolant = Interpolant(xs: seq<real>, ys: seq<real>, ds: seq<real>) {
    predicate WellFormed() {
      Knots(xs, ys) && |ds| == |xs|
    }

    ghost predicate Valid() {
      && WellFormed()
      && forall k :: 0 <= k < |xs| ==> ds[k] == Derivative(xs, ys, k)
    }

    ghost predicate Nondecreasing() {
      forall i :: 0 <= i < |ys| - 1 ==> ys[i] <= ys[i + 1]
    }
  }

  /** The knots after the anchor `(0, floor)` is put in front of data that does not start at zero. */
  function Anchored(xs: seq<real>, ys: seq<real>, floor: real): (seq<real>, seq<real>)
    requires |xs| > 0
  {
    if xs[0] != 0.0 then ([0.0] + xs, [floor] + ys) else (xs, ys)
  }

  /** Builds the interpolant, or reports why it cannot. Values beyond the knots go unnoticed. */
  method Construct(xs0: seq<real>, ys0: seq<real>, floor: real) returns (r: Result<Interpolant>)
    ensures r.Ok? <==> StrictlyIncreasing(xs0) && |xs0| > 0 && xs0[0] >= 0.0 && (xs0[0] == 0.0 ==> |xs0| >= 2) && |xs0| <= |ys0|
    ensures r.Ok? ==> (r.value.xs, r.value.ys) == Anchored(xs0, ys0, floor)
    ensures r.Ok? ==> 2 <= |r.value.xs| <= |r.value.ys| && r.value.(ys := r.value.ys[..|r.value.xs|]).Valid()
    ensures r.Ok? && |xs0| == |ys0| ==> r.value.Valid()
  {
    hide FollowData, Derivative;
    var xs, ys := xs0, ys0;
    if |xs| == 0 {
      return Err("Pchip requires at least two knots");
    }
    if xs[0] != 0.0 {
      xs := [0.0] + xs;
      ys := [floor] + ys;
      assert forall i :: 0 <= i < |xs0| ==> xs[i + 1] == xs0[i];
      assert StrictlyIncreasing(xs) ==> xs[0] < xs[1];
      assert StrictlyIncreasing(xs) ==> StrictlyIncreasing(xs0) by {
        if StrictlyIncreasing(xs) {
          forall i | 0 <= i < |xs0| - 1 ensures xs0[i] < xs0[i + 1] {
            assert xs[i + 1] < xs[i + 1 + 1];
          }
        }
      }
    }
    if |xs| < 2 {
      return Err("Pchip requires at least two knots");
    }
    if exists i :: 0 <= i < |xs| - 1 && xs[i] >= xs[i + 1] {
      return Err("Pchip requires strictly increasing xs");
    }
    var ds := Derivatives(xs, ys);
    if ds.Err? {
      return Err(ds.message);
    }
    r := Ok(Interpolant(xs, ys, ds.value));
    assert |xs| == |ys| ==> ys[..|xs|] == ys;
  }

  /** Number of knots at or left of `x` (the library's `bisect_right`). */
  function BisectRight(xs: seq<real>, x: real): (r: nat)
    requires StrictlyIncreasing(xs)
    ensures r <= |xs|
    ensures r > 0 ==> xs[r - 1] <= x
    ensures r < |xs| ==> x < xs[r]
  {
    if xs == [] then 0
    else if xs[|xs| - 1] <= x then |xs|
    else BisectRight(xs[..|xs| - 1], x)
  }

  /** The cubic through `(0, y0)` and `(1, y1)` in the scaled parameter `t`. */
  function Hermite(t: real, h: real, y0: real, y1: real, d0: real, d1: real): real {
    var h00 := 2.0 * t * t * t - 3.0 * t * t + 1.0;
    var h10 := t * t * t - 2.0 * t * t + t;
    var h01 := -2.0 * t * t * t + 3.0 * t * t;
    var h11 := t * t * t - t * t;
    h00 * y0 + h10 * h * d0 + h01 * y1 + h11 * h * d1
  }

  /** Value of the interpolant at `x`; past the knots it continues along the boundary slope. */
  function Eval(p: Interpolant, x: real): real
    requires p.WellFormed()
  {
    var n := |p.xs|;
    if x <= p.xs[0] then p.ys[0] + p.ds[0] * (x - p.xs[0])
    else if x >= p.xs[n - 1] then p.ys[n - 1] + p.ds[n - 1] * (x - p.xs[n - 1])
    else
      var i := BisectRight(p.xs, x) - 1;
      FirstBelow(p.xs, x);
      OnSegment(p, i, x)
  }

  /** The cubic of segment `i`, evaluated at `x`. */
  function OnSegment(p: Interpolant, i: nat, x: real): real
    requires p.WellFormed() && i < |p.xs| - 1
  {
    var h := Width(p.xs, i);
    Hermite((x - p.xs[i]) / h, h, p.ys[i], p.ys[i + 1], p.ds[i], p.ds[i + 1])
  }

  /** A point right of the first knot and left of the last has a knot on either side. */
  lemma FirstBelow(xs: seq<real>, x: real)
    requires StrictlyIncreasing(xs) && |xs| >= 2 && xs[0] < x < xs[|xs| - 1]
    ensures 0 < BisectRight(xs, x) < |xs|
  {
  }
}
