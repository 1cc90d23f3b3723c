// What clipping and the parameter steps do over the reals.
module OptimizerMeaning {
  import opened Scalar
  import opened Parallel
  import opened KernelPolicy
  import opened Meaning
  import opened Optimizer

  // -------------------------------------------------------------------- the norm

  ghost function Square(x: real): real { x * x }

  ghost function Squares(sn: Sense, g: seq<F>): (f: nat -> real)
    ensures forall i: nat :: i < |g| ==> f(i) == Square(sn.val(g[i]))
  {
    (i: nat) => if i < |g| then Square(sn.val(g[i])) else 0.0
  }

  /** The sum of the squares of a gradient. */
  ghost function SquareSum(sn: Sense, g: seq<F>): real { Sum(Squares(sn, g), |g|) }

  lemma {:induction false} SerialSquares(sn: Sense, g: seq<F>, b: nat, e: nat)
    requires sn.Exact() && b <= e <= |g|
    ensures sn.wide(SumSquares(g, b, e)) == Sum(Squares(sn, g), e) - Sum(Squares(sn, g), b)
  {
    if e > b {
      SerialSquares(sn, g, b, e - 1);
    }
  }

  /** The chunks' partials add up to the squares of all they cover. */
  lemma {:induction false} ChunkedSquares(sn: Sense, g: seq<F>, n: nat)
    requires sn.Exact() && n <= ChunkCount(|g|, GRAIN_CHEAP)
    ensures sn.wide(Combined(g, n)) == Sum(Squares(sn, g), Min(ChunkBegin(|g|, GRAIN_CHEAP, n), |g|))
  {
    if n > 0 {
      ChunkedSquares(sn, g, n - 1);
      OneMoreChunk(sn, g, n - 1, n);
    } else {
      assert ChunkBegin(|g|, GRAIN_CHEAP, 0) == 0;
    }
  }

  lemma OneMoreChunk(sn: Sense, g: seq<F>, c: nat, n: nat)
    requires sn.Exact() && n == c + 1 <= ChunkCount(|g|, GRAIN_CHEAP)
    requires sn.wide(Combined(g, c)) == Sum(Squares(sn, g), Min(ChunkBegin(|g|, GRAIN_CHEAP, c), |g|))
    ensures sn.wide(Combined(g, n)) == Sum(Squares(sn, g), Min(ChunkBegin(|g|, GRAIN_CHEAP, n), |g|))
  {
    ChunkInside(|g|, GRAIN_CHEAP, c);
    NextChunk(|g|, GRAIN_CHEAP, c);
    CombinedStep(sn, g, c, n);
    hide Sum, ChunkCount, ChunkBegin, ChunkEnd, Sense.Exact, Combined;
    SerialSquares(sn, g, ChunkBegin(|g|, GRAIN_CHEAP, c), ChunkEnd(|g|, GRAIN_CHEAP, c));
  }

  lemma CombinedStep(sn: Sense, g: seq<F>, c: nat, n: nat)
    requires sn.Exact() && n == c + 1 <= ChunkCount(|g|, GRAIN_CHEAP)
    requires ChunkBegin(|g|, GRAIN_CHEAP, c) <= ChunkEnd(|g|, GRAIN_CHEAP, c) <= |g|
    ensures sn.wide(Combined(g, n)) ==
      sn.wide(Combined(g, c)) + sn.wide(SumSquares(g, ChunkBegin(|g|, GRAIN_CHEAP, c), ChunkEnd(|g|, GRAIN_CHEAP, c)))
  {
    assert Combined(g, n) == DAdd(Combined(g, c), ChunkSquares(g, c));
  }

  lemma NextChunk(n: nat, grain: nat, c: nat)
    ensures ChunkEnd(n, grain, c) == Min(ChunkBegin(n, grain, c + 1), n)
  {
    assert (c + 1) * ChunkGrain(n, grain) == c * ChunkGrain(n, grain) + ChunkGrain(n, grain);
  }

  lemma {:induction false} SquareSumPositive(sn: Sense, g: seq<F>, n: nat)
    requires n <= |g|
    ensures Sum(Squares(sn, g), n) >= 0.0
  {
    if n > 0 {
      SquareSumPositive(sn, g, n - 1);
      SquarePositive(sn.val(g[n - 1]));
    }
  }

  lemma SquarePositive(x: real)
    ensures Square(x) >= 0.0
  {
  }

  /** The chunked norm is the root of the sum of squares. */
  lemma NormIsRoot(sn: Sense, g: seq<F>)
    requires sn.Exact() && sn.Roots()
    ensures IsRoot(sn.wide(Norm(g)), SquareSum(sn, g))
  {
    var n := ChunkCount(|g|, GRAIN_CHEAP);
    ChunkCountBound(|g|, GRAIN_CHEAP);
    ChunkedSquares(sn, g, n);
    assert Min(ChunkBegin(|g|, GRAIN_CHEAP, n), |g|) == |g|;
    SquareSumPositive(sn, g, |g|);
    assert sn.wide(Norm(g)) == sn.sqrt(SquareSum(sn, g));
  }

  // -------------------------------------------------------------------- clipping

  /** The float comparisons, decided by the values; no norm overflows. */
  ghost predicate ByValue(sn: Sense, cmp: Compare) {
    && (forall x {:trigger cmp.positive(x)} :: cmp.positive(x) <==> sn.val(x) > 0.0)
    && (forall x {:trigger cmp.finite(x)} :: cmp.finite(x))
    && (forall a, b {:trigger cmp.atMost(a, b)} :: cmp.atMost(a, b) <==> sn.wide(a) <= sn.wide(b))
    && (forall x {:trigger cmp.isZero(x)} :: cmp.isZero(x) <==> sn.wide(x) == 0.0)
  }

  lemma ShrinkVal(sn: Sense, norm: D, maxNorm: F)
    requires sn.Exact()
    ensures sn.val(ShrinkFactor(norm, maxNorm)) == Quotient(sn.val(maxNorm), sn.wide(norm))
  {
  }

  /** Every element of the clipped gradient is k times the one it replaces. */
  ghost predicate IsMultiple(sn: Sense, g: seq<F>, g': seq<F>, k: real) {
    |g'| == |g| && forall i: nat :: i < |g| ==> sn.val(g'[i]) == k * sn.val(g[i])
  }

  lemma MultipleSquares(sn: Sense, g: seq<F>, g': seq<F>, k: real)
    requires IsMultiple(sn, g, g', k)
    ensures SquareSum(sn, g') == Square(k) * SquareSum(sn, g)
  {
    hide Square, Sum;
    forall i: nat | i < |g| ensures Squares(sn, g')(i) == Square(k) * Squares(sn, g)(i) {
      ScaledSquare(k, sn.val(g[i]), sn.val(g'[i]));
    }
    SumScales(Squares(sn, g), Squares(sn, g'), Square(k), |g|);
  }

  lemma ScaledSquare(k: real, x: real, y: real)
    requires y == k * x
    ensures Square(y) == Square(k) * Square(x)
  {
    assert y * y == (k * x) * (k * x);
  }

  lemma ShrunkRoot(norm: real, max: real, k: real, sum: real, sum': real)
    requires 0.0 < max < norm && k == Quotient(max, norm) && IsRoot(norm, sum) && sum' == Square(k) * sum
    ensures 0.0 <= k <= 1.0 && IsRoot(max, sum')
  {
    assert k * norm == max;
    assert (k * k) * (norm * norm) == (k * norm) * (k * norm);
  }

  /** The gradient ClipNorm leaves, which is also the one the fused steps use, is a multiple of the old
      one between nothing and all of it, and its norm is the old norm or the limit, whichever is less. */
  lemma ClipShrinks(sn: Sense, cmp: Compare, g: seq<F>, maxNorm: F) returns (norm: real, k: real)
    requires sn.Exact() && sn.Roots() && ByValue(sn, cmp) && sn.val(maxNorm) > 0.0
    ensures IsRoot(norm, SquareSum(sn, g)) && 0.0 <= k <= 1.0
    ensures IsMultiple(sn, g, Clipped(cmp, g, maxNorm), k)
    ensures IsRoot(if norm <= sn.val(maxNorm) then norm else sn.val(maxNorm), SquareSum(sn, Clipped(cmp, g, maxNorm)))
    ensures Clippable(cmp, g, maxNorm)
    ensures forall i: nat :: i < |g| ==> Times(g[i], ClipFactor(cmp, g, maxNorm)) == Clipped(cmp, g, maxNorm)[i]
  {
    hide *;
    NormIsRoot(sn, g);
    ComparedNorm(sn, cmp, g, maxNorm);
    FusedClipIsClip(cmp, g, maxNorm);
    norm, k := sn.wide(Norm(g)), 1.0;
    if norm > sn.val(maxNorm) {
      k := sn.val(ShrinkFactor(Norm(g), maxNorm));
      ShrinkVal(sn, Norm(g), maxNorm);
      ClippedMultiple(sn, cmp, g, maxNorm, k);
      MultipleSquares(sn, g, Clipped(cmp, g, maxNorm), k);
      ShrunkRoot(norm, sn.val(maxNorm), k, SquareSum(sn, g), SquareSum(sn, Clipped(cmp, g, maxNorm)));
    }
  }

  lemma ComparedNorm(sn: Sense, cmp: Compare, g: seq<F>, maxNorm: F)
    requires sn.Exact() && ByValue(sn, cmp) && sn.val(maxNorm) > 0.0
    ensures LeavesAlone(cmp, Norm(g), maxNorm) <==> sn.wide(Norm(g)) <= sn.val(maxNorm)
    ensures Clippable(cmp, g, maxNorm) && cmp.positive(maxNorm)
    ensures sn.wide(Norm(g)) <= sn.val(maxNorm) ==> Clipped(cmp, g, maxNorm) == g && IsMultiple(sn, g, g, 1.0)
  {
  }

  lemma ClippedMultiple(sn: Sense, cmp: Compare, g: seq<F>, maxNorm: F, k: real)
    requires sn.Exact() && !LeavesAlone(cmp, Norm(g), maxNorm) && k == sn.val(ShrinkFactor(Norm(g), maxNorm))
    ensures IsMultiple(sn, g, Clipped(cmp, g, maxNorm), k)
  {
    hide Norm, ShrinkFactor, Sense.Exact, LeavesAlone;
    forall i: nat | i < |g| ensures sn.val(Clipped(cmp, g, maxNorm)[i]) == k * sn.val(g[i]) {
      ProductVal(sn, g[i], ShrinkFactor(Norm(g), maxNorm));
    }
  }

  lemma ProductVal(sn: Sense, x: F, s: F)
    requires sn.Exact()
    ensures sn.val(Mul(x, s)) == sn.val(s) * sn.val(x)
  {
  }

  // ----------------------------------------------------------------------- AdamW

  lemma {:induction false} PowerBetween(a: real, n: nat)
    requires 0.0 <= a < 1.0
    ensures 0.0 <= Power(a, n) <= 1.0 && (n > 0 ==> Power(a, n) < 1.0)
  {
    if n > 0 {
      PowerBetween(a, n - 1);
      TimesBelow(Power(a, n - 1), a, Power(a, n));
    }
  }

  lemma TimesBelow(p: real, a: real, r: real)
    requires 0.0 <= a < 1.0 && 0.0 <= p <= 1.0 && r == p * a
    ensures 0.0 <= r < 1.0
  {
    var q := 1.0 - p;
    NoneNegative(p, a);
    NoneNegative(q, a);
    assert q * a == a - p * a;
  }

  /** Rates of an AdamW run. */
  ghost predicate Rates(sn: Sense, h: Hyper) {
    0.0 <= sn.val(h.beta1) < 1.0 && 0.0 <= sn.val(h.beta2) < 1.0
  }

  /** One parameter after t steps on the given gradients, from zero moments. */
  function AdamRun(h: Hyper, p: F, grads: seq<F>, t: nat): Param
    requires t <= |grads|
  {
    if t == 0 then Param(p, ZERO, ZERO) else Stepped(true, h.(step := t), AdamRun(h, p, grads, t - 1), grads[t - 1])
  }

  ghost function Blend(m: real, beta: real, x: real): real { beta * m + (1.0 - beta) * x }

  /** An exponential average of values within bounds, from zero: within the bounds but for its weight. */
  ghost predicate Averaged(m: real, beta: real, t: nat, lo: real, hi: real) {
    (1.0 - Power(beta, t)) * lo <= m <= (1.0 - Power(beta, t)) * hi
  }

  lemma AverageStep(m: real, beta: real, t: nat, lo: real, hi: real, x: real, m': real)
    requires 0.0 <= beta < 1.0 && Averaged(m, beta, t, lo, hi) && lo <= x <= hi && m' == Blend(m, beta, x)
    ensures Averaged(m', beta, t + 1, lo, hi)
  {
    hide Blend, Power;
    var w, w' := 1.0 - Power(beta, t), 1.0 - Power(beta, t + 1);
    WeightStep(beta, t, w, w');
    BlendAbove(beta, w, w', lo, m, x);
    BlendBelow(beta, w, w', hi, m, x);
  }

  lemma WeightStep(beta: real, t: nat, w: real, w': real)
    requires w == 1.0 - Power(beta, t) && w' == 1.0 - Power(beta, t + 1)
    ensures w' == beta * w + (1.0 - beta)
  {
    assert Power(beta, t + 1) == Power(beta, t) * beta;
  }

  lemma NoneNegative(a: real, b: real)
    requires a >= 0.0 && b >= 0.0
    ensures a * b >= 0.0
  {
  }

  lemma BlendAbove(beta: real, w: real, w': real, lo: real, m: real, x: real)
    requires 0.0 <= beta < 1.0 && w * lo <= m && lo <= x && w' == beta * w + (1.0 - beta)
    ensures w' * lo <= Blend(m, beta, x)
  {
    var y, z, gamma := m - w * lo, x - lo, 1.0 - beta;
    NoneNegative(beta, y);
    NoneNegative(gamma, z);
    assert beta * y == beta * m - beta * w * lo;
    assert gamma * z == gamma * x - gamma * lo;
  }

  lemma BlendBelow(beta: real, w: real, w': real, hi: real, m: real, x: real)
    requires 0.0 <= beta < 1.0 && m <= w * hi && x <= hi && w' == beta * w + (1.0 - beta)
    ensures Blend(m, beta, x) <= w' * hi
  {
    var y, z, gamma := w * hi - m, hi - x, 1.0 - beta;
    NoneNegative(beta, y);
    NoneNegative(gamma, z);
    assert beta * y == beta * w * hi - beta * m;
    assert gamma * z == gamma * hi - gamma * x;
  }

  /** A moment with its bias correction, and the move of a parameter. */
  ghost function Corrected(m: real, beta: real, t: nat): real { m * Quotient(1.0, 1.0 - Power(beta, t)) }

  ghost function Move(p: real, lr: real, a: real, b: real, wd: real): real { p - lr * (Quotient(a, b) + wd * p) }

  lemma MomentVals(sn: Sense, h: Hyper, x: Param, g: F)
    requires sn.Exact()
    ensures sn.val(Stepped(true, h, x, g).m) == Blend(sn.val(x.m), sn.val(h.beta1), sn.val(g))
    ensures sn.val(Stepped(true, h, x, g).v) == Blend(sn.val(x.v), sn.val(h.beta2), Square(sn.val(g)))
  {
    assert sn.val(ONE) == 1.0;
    assert (1.0 - sn.val(h.beta2)) * sn.val(g) * sn.val(g) == (1.0 - sn.val(h.beta2)) * (sn.val(g) * sn.val(g));
  }

  lemma CorrectionVal(sn: Sense, beta: F, m: F, t: nat)
    requires sn.Exact()
    ensures sn.val(Mul(m, Div(ONE, Sub(ONE, Pow(beta, OfNat(t)))))) == Corrected(sn.val(m), sn.val(beta), t)
  {
    assert sn.val(ONE) == 1.0;
  }

  lemma MoveVal(sn: Sense, h: Hyper, p: F, mHat: F, vHat: F)
    requires sn.Exact()
    ensures sn.val(Sub(p, Mul(h.lr, Add(Div(mHat, Add(Sqrt(vHat), h.eps)), Mul(h.weightDecay, p))))) ==
      Move(sn.val(p), sn.val(h.lr), sn.val(mHat), sn.sqrt(sn.val(vHat)) + sn.val(h.eps), sn.val(h.weightDecay))
  {
  }

  lemma StepVal(sn: Sense, h: Hyper, x: Param, g: F, y: Param)
    requires sn.Exact() && y == Stepped(true, h, x, g)
    ensures sn.val(y.p) == Move(sn.val(x.p), sn.val(h.lr), Corrected(sn.val(y.m), sn.val(h.beta1), h.step),
      sn.sqrt(Corrected(sn.val(y.v), sn.val(h.beta2), h.step)) + sn.val(h.eps), sn.val(h.weightDecay))
  {
    var t := OfNat(h.step);
    var mHat, vHat := Mul(y.m, Div(ONE, Sub(ONE, Pow(h.beta1, t)))), Mul(y.v, Div(ONE, Sub(ONE, Pow(h.beta2, t))));
    assert y.p == Sub(x.p, Mul(h.lr, Add(Div(mHat, Add(Sqrt(vHat), h.eps)), Mul(h.weightDecay, x.p))));
    hide *;
    CorrectionVal(sn, h.beta1, y.m, h.step);
    CorrectionVal(sn, h.beta2, y.v, h.step);
    MoveVal(sn, h, x.p, mHat, vHat);
  }

  /** Every gradient so far lies within [lo, hi], every square within [lo2, hi2]. */
  ghost predicate Within(sn: Sense, grads: seq<F>, t: nat, lo: real, hi: real, lo2: real, hi2: real)
    requires t <= |grads|
  {
    forall i: nat :: i < t ==> lo <= sn.val(grads[i]) <= hi && lo2 <= Square(sn.val(grads[i])) <= hi2
  }

  lemma {:induction false} MomentsAveraged(sn: Sense, h: Hyper, p: F, grads: seq<F>, t: nat, lo: real, hi: real, lo2: real, hi2: real)
    requires sn.Exact() && Rates(sn, h) && t <= |grads| && Within(sn, grads, t, lo, hi, lo2, hi2)
    ensures Averaged(sn.val(AdamRun(h, p, grads, t).m), sn.val(h.beta1), t, lo, hi)
    ensures Averaged(sn.val(AdamRun(h, p, grads, t).v), sn.val(h.beta2), t, lo2, hi2)
  {
    hide Stepped, Averaged, Blend, Square, Sense.Exact;
    if t == 0 {
      NothingAveraged(sn, sn.val(h.beta1), lo, hi);
      NothingAveraged(sn, sn.val(h.beta2), lo2, hi2);
    } else {
      var x, g := AdamRun(h, p, grads, t - 1), grads[t - 1];
      MomentsAveraged(sn, h, p, grads, t - 1, lo, hi, lo2, hi2);
      MomentVals(sn, h.(step := t), x, g);
      AverageStep(sn.val(x.m), sn.val(h.beta1), t - 1, lo, hi, sn.val(g), sn.val(AdamRun(h, p, grads, t).m));
      AverageStep(sn.val(x.v), sn.val(h.beta2), t - 1, lo2, hi2, Square(sn.val(g)), sn.val(AdamRun(h, p, grads, t).v));
    }
  }

  lemma NothingAveraged(sn: Sense, beta: real, lo: real, hi: real)
    requires sn.Exact()
    ensures Averaged(sn.val(ZERO), beta, 0, lo, hi)
  {
    assert Power(beta, 0) == 1.0;
  }

  /** The bias correction makes an average of what was averaged. */
  lemma CorrectedBetween(m: real, beta: real, t: nat, lo: real, hi: real)
    requires 0.0 <= beta < 1.0 && t > 0 && Averaged(m, beta, t, lo, hi)
    ensures lo <= Corrected(m, beta, t) <= hi
  {
    PowerBetween(beta, t);
    var w := 1.0 - Power(beta, t);
    var inv := Quotient(1.0, w);
    assert w > 0.0 && inv > 0.0 && inv * w == 1.0;
    DivideOut(w, inv, lo, m);
    DivideOut(w, inv, -hi, -m);
    assert w * -hi == -(w * hi);
    assert -m * inv == -(m * inv);
  }

  lemma DivideOut(w: real, inv: real, lo: real, m: real)
    requires inv > 0.0 && inv * w == 1.0 && w * lo <= m
    ensures lo <= m * inv
  {
    var y := m - w * lo;
    NoneNegative(inv, y);
    assert inv * y == m * inv - (inv * w) * lo;
  }

  /** AdamW from zero moments, at any step t: the parameter moves against the learning rate times a mean of the
      gradients over the root of a mean of their squares. The decay takes its share of the parameter alone. */
  lemma AdamMoves(sn: Sense, h: Hyper, p: F, grads: seq<F>, t: nat, lo: real, hi: real, lo2: real, hi2: real)
    returns (mean: real, square: real)
    requires sn.Exact() && Rates(sn, h) && 0 < t <= |grads| && Within(sn, grads, t, lo, hi, lo2, hi2)
    ensures lo <= mean <= hi && lo2 <= square <= hi2
    ensures sn.val(AdamRun(h, p, grads, t).p) ==
      Move(sn.val(AdamRun(h, p, grads, t - 1).p), sn.val(h.lr), mean, sn.sqrt(square) + sn.val(h.eps), sn.val(h.weightDecay))
  {
    var x, y := AdamRun(h, p, grads, t - 1), AdamRun(h, p, grads, t);
    MomentsAveraged(sn, h, p, grads, t, lo, hi, lo2, hi2);
    mean, square := Corrected(sn.val(y.m), sn.val(h.beta1), t), Corrected(sn.val(y.v), sn.val(h.beta2), t);
    hide Stepped, Corrected, Sense.Exact, Averaged, Move, Within;
    CorrectedBetween(sn.val(y.m), sn.val(h.beta1), t, lo, hi);
    CorrectedBetween(sn.val(y.v), sn.val(h.beta2), t, lo2, hi2);
    StepVal(sn, h.(step := t), x, grads[t - 1], y);
  }

  /** SGD: the parameter decays, then moves against its gradient. */
  lemma SgdMoves(sn: Sense, h: Hyper, x: Param, g: F)
    requires sn.Exact()
    ensures sn.val(Stepped(false, h, x, g).p) ==
      (1.0 - sn.val(h.lr) * sn.val(h.weightDecay)) * sn.val(x.p) - sn.val(h.lr) * sn.val(g)
    ensures Stepped(false, h, x, g).m == x.m && Stepped(false, h, x, g).v == x.v
  {
    var lr, wd, p, gi := sn.val(h.lr), sn.val(h.weightDecay), sn.val(x.p), sn.val(g);
    assert sn.val(Stepped(false, h, x, g).p) == p - lr * (gi + wd * p);
    assert lr * (gi + wd * p) == lr * gi + (lr * wd) * p;
  }
}
