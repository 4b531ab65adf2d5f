/** Block-granular cost tables baked from the measured curves (py_kvcache/cost_model.py). */
module CostModel {
  import opened Outcomes
  import opened Pchip
  import PchipShape

  const GOLDEN_ABS_TOL := 0.000001
  const GOLDEN_REL_TOL := 0.001

  datatype Curve = Curve(floor: real, knots: seq<(int, real)>)

  datatype GoldenPoint = GoldenPoint(tokens: int, f: real, gSsd: real, gMem: real)

  datatype CurveData = CurveData(f: Curve, gSsd: Curve, gMem: Curve, golden: seq<GoldenPoint>)

  function Max(a: real, b: real): real { if a >= b then a else b }

  // ---------- Tables ----------

  datatype CostTables = CostTables(
    blockTokens: int, fS: seq<real>, gSsdS: seq<real>, gMemS: seq<real>, serviceS: seq<real>, maxBlocks: nat)
  {
    predicate Valid() {
      && blockTokens > 0
      && |fS| == |gSsdS| == |gMemS| == |serviceS| == maxBlocks + 1
      && (forall i :: 0 <= i <= maxBlocks ==> fS[i] >= 0.0)
      && (forall i :: 0 <= i <= maxBlocks ==> gSsdS[i] >= 0.0)
      && (forall i :: 0 <= i <= maxBlocks ==> gMemS[i] >= 0.0)
      && (forall i :: 0 <= i <= maxBlocks ==> serviceS[i] >= 0.0)
    }

    function Clamp(nblocks: int): (r: nat)
      ensures r <= maxBlocks
    {
      if nblocks < 0 then 0 else if nblocks > maxBlocks then maxBlocks else nblocks
    }

    function RecomputeS(nblocks: int): real requires Valid() { fS[Clamp(nblocks)] }

    function LoadSsdS(nblocks: int): real requires Valid() { gSsdS[Clamp(nblocks)] }

    function LoadMemS(nblocks: int): real requires Valid() { gMemS[Clamp(nblocks)] }

    function ServiceSOf(nblocks: int): real requires Valid() { serviceS[Clamp(nblocks)] }
  }

  // ---------- Interpolating a curve ----------

  function Tokens(curve: Curve): seq<real> {
    seq(|curve.knots|, i requires 0 <= i < |curve.knots| => curve.knots[i].0 as real)
  }

  function Values(curve: Curve): seq<real> {
    seq(|curve.knots|, i requires 0 <= i < |curve.knots| => curve.knots[i].1)
  }

  /** The curve's knots can be interpolated: nonnegative, strictly increasing token counts, and at
      least two points once the anchor at zero tokens is counted. */
  predicate Interpolable(curve: Curve) {
    && |curve.knots| > 0
    && StrictlyIncreasing(Tokens(curve))
    && curve.knots[0].0 >= 0
    && (curve.knots[0].0 == 0 ==> |curve.knots| >= 2)
  }

  /** The interpolant through a curve's knots, anchor included. */
  ghost function InterpolantOf(curve: Curve): (p: Interpolant)
    requires Interpolable(curve)
    ensures p.Valid()
  {
    var (xs, ys) := Anchored(Tokens(curve), Values(curve), curve.floor);
    AnchoredIncreasing(Tokens(curve), Values(curve), curve.floor);
    Interpolant(xs, ys, seq(|xs|, k requires 0 <= k < |xs| => Derivative(xs, ys, k)))
  }

  lemma AnchoredIncreasing(xs: seq<real>, ys: seq<real>, floor: real)
    requires |xs| == |ys| > 0 && StrictlyIncreasing(xs) && xs[0] >= 0.0 && (xs[0] == 0.0 ==> |xs| >= 2)
    ensures Knots(Anchored(xs, ys, floor).0, Anchored(xs, ys, floor).1)
  {
  }

  method BuildInterpolator(curve: Curve) returns (r: Result<Interpolant>)
    ensures r.Ok? <==> Interpolable(curve)
    ensures r.Ok? ==> r.value == InterpolantOf(curve)
  {
    r := Construct(Tokens(curve), Values(curve), curve.floor);
    if r.Ok? {
      ghost var p := InterpolantOf(curve);
      assert r.value.ds == p.ds;
    }
  }

  // ---------- The golden self-check ----------

  predicate GoldenOk(expected: real, produced: real) {
    var diff := Abs(expected - produced);
    if diff <= GOLDEN_ABS_TOL then true
    else if expected == 0.0 then false
    else diff / Abs(expected) <= GOLDEN_REL_TOL
  }

  /** The self-check accepts exactly the values within the absolute or the relative tolerance. */
  lemma GoldenOkIff(expected: real, produced: real)
    ensures GoldenOk(expected, produced) <==>
      Abs(expected - produced) <= GOLDEN_ABS_TOL || Abs(expected - produced) <= GOLDEN_REL_TOL * Abs(expected)
  {
    var diff, scale := Abs(expected - produced), Abs(expected);
    if expected != 0.0 {
      assert (diff / scale) * scale == diff;
      if diff / scale <= GOLDEN_REL_TOL {
        PchipShape.WeightedLeq(scale, diff / scale, GOLDEN_REL_TOL);
      }
      if diff <= GOLDEN_REL_TOL * scale {
        PchipShape.QuotientAtMost(diff, scale, GOLDEN_REL_TOL);
      }
    }
  }

  ghost predicate GoldenAgrees(curves: CurveData, point: GoldenPoint)
    requires Interpolable(curves.f) && Interpolable(curves.gSsd) && Interpolable(curves.gMem)
  {
    && GoldenOk(point.f, Eval(InterpolantOf(curves.f), point.tokens as real))
    && GoldenOk(point.gSsd, Eval(InterpolantOf(curves.gSsd), point.tokens as real))
    && GoldenOk(point.gMem, Eval(InterpolantOf(curves.gMem), point.tokens as real))
  }

  /** The configurations for which tables can be baked. */
  ghost predicate Bakeable(curves: CurveData, blockTokens: int, maxModelLen: int) {
    && blockTokens > 0 && maxModelLen >= 0
    && Interpolable(curves.f) && Interpolable(curves.gSsd) && Interpolable(curves.gMem)
    && forall i :: 0 <= i < |curves.golden| ==> GoldenAgrees(curves, curves.golden[i])
  }

  // ---------- Baking ----------

  /** Table entry for `n` blocks: the curve at that many tokens, never below zero. */
  ghost function Entry(curve: Curve, blockTokens: int, n: nat): real
    requires Interpolable(curve)
  {
    Max(0.0, Eval(InterpolantOf(curve), (n * blockTokens) as real))
  }

  /** `table` holds a curve's entries for 0 to `count - 1` blocks. */
  ghost predicate Samples(table: seq<real>, curve: Curve, blockTokens: int, count: nat)
    requires Interpolable(curve)
  {
    |table| == count && forall n :: 0 <= n < count ==> table[n] == Entry(curve, blockTokens, n)
  }

  method BuildCostTables(curves: CurveData, blockTokens: int, maxModelLen: int) returns (r: Result<CostTables>)
    ensures r.Ok? <==> Bakeable(curves, blockTokens, maxModelLen)
    ensures r.Ok? ==>
      && r.value.Valid() && r.value.blockTokens == blockTokens && r.value.maxBlocks == maxModelLen / blockTokens
      && Samples(r.value.fS, curves.f, blockTokens, r.value.maxBlocks + 1)
      && Samples(r.value.gSsdS, curves.gSsd, blockTokens, r.value.maxBlocks + 1)
      && Samples(r.value.gMemS, curves.gMem, blockTokens, r.value.maxBlocks + 1)
      && ServiceIsDifference(r.value)
  {
    hide Eval, InterpolantOf;
    if blockTokens <= 0 {
      return Err("block_tokens must be positive");
    }
    if maxModelLen < 0 {
      return Err("max_model_len must be non-negative");
    }
    var f := BuildInterpolator(curves.f);
    if f.Err? { return Err(f.message); }
    var gSsd := BuildInterpolator(curves.gSsd);
    if gSsd.Err? { return Err(gSsd.message); }
    var gMem := BuildInterpolator(curves.gMem);
    if gMem.Err? { return Err(gMem.message); }

    for k := 0 to |curves.golden|
      invariant forall i :: 0 <= i < k ==> GoldenAgrees(curves, curves.golden[i])
    {
      var point := curves.golden[k];
      var tokens := point.tokens as real;
      if !GoldenOk(point.f, Eval(f.value, tokens)) || !GoldenOk(point.gSsd, Eval(gSsd.value, tokens))
         || !GoldenOk(point.gMem, Eval(gMem.value, tokens))
      {
        assert !GoldenAgrees(curves, point);
        return Err("cost model golden self-check failed");
      }
    }

    var maxBlocks := maxModelLen / blockTokens;
    var fS: seq<real>, gSsdS: seq<real>, gMemS: seq<real>, serviceS: seq<real> := [], [], [], [];
    for n := 0 to maxBlocks + 1
      invariant Samples(fS, curves.f, blockTokens, n)
      invariant Samples(gSsdS, curves.gSsd, blockTokens, n)
      invariant Samples(gMemS, curves.gMem, blockTokens, n)
      invariant |serviceS| == n
      invariant forall i :: 0 <= i < n ==> serviceS[i] == Max(0.0, gSsdS[i] - gMemS[i])
    {
      var tok := (n * blockTokens) as real;
      var fV := Max(0.0, Eval(f.value, tok));
      var ssdV := Max(0.0, Eval(gSsd.value, tok));
      var memV := Max(0.0, Eval(gMem.value, tok));
      fS := fS + [fV];
      gSsdS := gSsdS + [ssdV];
      gMemS := gMemS + [memV];
      serviceS := serviceS + [Max(0.0, ssdV - memV)];
    }
    r := Ok(CostTables(blockTokens, fS, gSsdS, gMemS, serviceS, maxBlocks));
  }

  // ---------- What the tables promise ----------

  /** A curve whose values, anchor included, never fall. */
  ghost predicate Rising(curve: Curve)
    requires Interpolable(curve)
  {
    InterpolantOf(curve).Nondecreasing()
  }

  lemma EntriesRise(curve: Curve, blockTokens: int, n: nat, m: nat)
    requires Interpolable(curve) && Rising(curve) && blockTokens > 0 && n <= m
    ensures Entry(curve, blockTokens, n) <= Entry(curve, blockTokens, m)
  {
    hide Eval;
    assert n * blockTokens <= m * blockTokens;
    PchipShape.NondecreasingEverywhere(InterpolantOf(curve), (n * blockTokens) as real, (m * blockTokens) as real);
  }

  /** A table sampled from a rising curve prices more blocks at least as high, for any block counts,
      negative or past the end of the table included. */
  lemma AccessorsMonotone(t: CostTables, curves: CurveData, a: int, b: int)
    requires t.Valid() && a <= b
    requires Interpolable(curves.f) && Interpolable(curves.gSsd) && Interpolable(curves.gMem)
    requires Samples(t.fS, curves.f, t.blockTokens, t.maxBlocks + 1)
    requires Samples(t.gSsdS, curves.gSsd, t.blockTokens, t.maxBlocks + 1)
    requires Samples(t.gMemS, curves.gMem, t.blockTokens, t.maxBlocks + 1)
    ensures Rising(curves.f) ==> 0.0 <= t.RecomputeS(a) <= t.RecomputeS(b)
    ensures Rising(curves.gSsd) ==> 0.0 <= t.LoadSsdS(a) <= t.LoadSsdS(b)
    ensures Rising(curves.gMem) ==> 0.0 <= t.LoadMemS(a) <= t.LoadMemS(b)
  {
    hide Entry, Rising;
    var n, m := t.Clamp(a), t.Clamp(b);
    if Rising(curves.f) { EntriesRise(curves.f, t.blockTokens, n, m); }
    if Rising(curves.gSsd) { EntriesRise(curves.gSsd, t.blockTokens, n, m); }
    if Rising(curves.gMem) { EntriesRise(curves.gMem, t.blockTokens, n, m); }
  }

  /** The service time of a read is what the disk adds to a copy from memory. */
  predicate ServiceIsDifference(t: CostTables)
    requires t.Valid()
  {
    forall n :: 0 <= n <= t.maxBlocks ==> t.serviceS[n] == Max(0.0, t.gSsdS[n] - t.gMemS[n])
  }

  /** The service time does not fall from `a` to `b` blocks exactly when it was zero, or when loading from
      memory gains no more than loading from disk does. */
  lemma ServiceRisesIff(t: CostTables, a: int, b: int)
    requires t.Valid() && ServiceIsDifference(t)
    ensures t.ServiceSOf(a) <= t.ServiceSOf(b)
       <==> t.LoadSsdS(a) <= t.LoadMemS(a) || t.LoadMemS(b) - t.LoadMemS(a) <= t.LoadSsdS(b) - t.LoadSsdS(a)
  {
    var n, m := t.Clamp(a), t.Clamp(b);
    assert t.serviceS[n] == Max(0.0, t.gSsdS[n] - t.gMemS[n]) && t.serviceS[m] == Max(0.0, t.gSsdS[m] - t.gMemS[m]);
  }

  const EARLY := Curve(0.0, [(0, 0.0), (1, 2.0), (2, 2.0)])
  const LATE := Curve(0.0, [(0, 0.0), (1, 0.0), (2, 2.0)])

  /** It can fall although both curves rise: here the disk costs its two seconds at the first block, and the copy
      from memory costs them at the second. */
  lemma ServiceCanFall(t: CostTables)
    requires t.Valid() && t.blockTokens == 1 && t.maxBlocks == 2 && ServiceIsDifference(t)
    requires Interpolable(EARLY) && Samples(t.gSsdS, EARLY, 1, 3)
    requires Interpolable(LATE) && Samples(t.gMemS, LATE, 1, 3)
    ensures Rising(EARLY) && Rising(LATE)
    ensures t.ServiceSOf(1) == 2.0 && t.ServiceSOf(2) == 0.0
  {
    hide Eval, Samples;
    assert Rising(EARLY) && Rising(LATE);
    hide InterpolantOf;
    forall k | 1 <= k <= 2 ensures t.gSsdS[k] == EARLY.knots[k].1 && t.gMemS[k] == LATE.knots[k].1 {
      TableHitsKnots(t, EARLY, t.gSsdS, k);
      TableHitsKnots(t, LATE, t.gMemS, k);
    }
  }

  /** Every measured knot lies on the interpolated curve. */
  lemma CurveHitsKnots(curve: Curve, k: nat)
    requires Interpolable(curve) && k < |curve.knots|
    ensures curve.knots[k].0 >= 0
    ensures Eval(InterpolantOf(curve), curve.knots[k].0 as real) == curve.knots[k].1
  {
    hide Eval, Derivative;
    var p := InterpolantOf(curve);
    var j := if curve.knots[0].0 != 0 then k + 1 else k;
    assert p.xs[j] == Tokens(curve)[k] && p.ys[j] == Values(curve)[k];
    PchipShape.HitsEveryKnot(p, j);
    PchipShape.KnotsOrdered(Tokens(curve), 0, k);
    assert Tokens(curve)[0] <= Tokens(curve)[k];
  }

  /** At a block count whose tokens are a measured knot, the table holds the measured value. */
  lemma TableHitsKnots(t: CostTables, curve: Curve, table: seq<real>, k: nat)
    requires t.blockTokens > 0 && Interpolable(curve) && k < |curve.knots|
    requires Samples(table, curve, t.blockTokens, t.maxBlocks + 1)
    requires curve.knots[k].0 % t.blockTokens == 0 && curve.knots[k].0 / t.blockTokens <= t.maxBlocks
    ensures 0 <= curve.knots[k].0 / t.blockTokens <= t.maxBlocks
    ensures table[curve.knots[k].0 / t.blockTokens] == Max(0.0, curve.knots[k].1)
  {
    hide Eval, InterpolantOf;
    CurveHitsKnots(curve, k);
    var tokens := curve.knots[k].0;
    var n := tokens / t.blockTokens;
    assert n * t.blockTokens == tokens && n >= 0;
    assert table[n] == Entry(curve, t.blockTokens, n);
  }
}
