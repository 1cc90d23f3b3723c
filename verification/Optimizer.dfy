// The optimizer kernels: gradient clipping and the in-place parameter steps
// (runtime/executor/optimizer.cc).
module Optimizer {
  import opened Scalar
  import opened Parallel
  import opened KernelPolicy

  /** The outcomes of the float comparisons and classifications the kernels branch on. */
  datatype Compare = Compare(positive: F -> bool, finite: D -> bool, atMost: (D, D) -> bool, isZero: D -> bool)

  /** Multiplication with the one identity the fused steps rely on: x * 1 is x. */
  function Times(x: F, s: F): F { if s == ONE then x else Mul(x, s) }

  // -------------------------------------------------------------------- the norm

  /** The serial sum of squares of g[b..e]. */
  function SumSquares(g: seq<F>, b: nat, e: nat): D
    requires b <= e <= |g|
  {
    if e == b then DZero else DAdd(SumSquares(g, b, e - 1), DMul(Widen(g[e - 1]), Widen(g[e - 1])))
  }

  function ChunkSquares(g: seq<F>, c: nat): D
    requires c < ChunkCount(|g|, GRAIN_CHEAP)
  {
    ChunkInside(|g|, GRAIN_CHEAP, c);
    SumSquares(g, ChunkBegin(|g|, GRAIN_CHEAP, c), ChunkEnd(|g|, GRAIN_CHEAP, c))
  }

  /** The partials of the first n chunks, combined in chunk order. */
  function Combined(g: seq<F>, n: nat): D
    requires n <= ChunkCount(|g|, GRAIN_CHEAP)
  {
    if n == 0 then DZero else DAdd(Combined(g, n - 1), ChunkSquares(g, n - 1))
  }

  function Norm(g: seq<F>): D { DSqrt(Combined(g, ChunkCount(|g|, GRAIN_CHEAP))) }

  /** The chunks run in any order, each filling its own slot of a table of MAX_CHUNKS. */
  method L2Norm(g: seq<F>) returns (norm: D)
    ensures norm == Norm(g)
  {
    var chunks := ChunkCount(|g|, GRAIN_CHEAP);
    ChunkCountBound(|g|, GRAIN_CHEAP);
    var partials := new D[MAX_CHUNKS];
    var remaining := TaskSet(chunks);
    while remaining != {}
      invariant forall c :: c in remaining ==> c < chunks
      invariant forall c: nat {:trigger partials[c]} :: c < chunks && c !in remaining ==> partials[c] == ChunkSquares(g, c)
      decreases remaining
    {
      var c :| c in remaining;
      ChunkInside(|g|, GRAIN_CHEAP, c);
      var sq := SquaresLoop(g, ChunkBegin(|g|, GRAIN_CHEAP, c), ChunkEnd(|g|, GRAIN_CHEAP, c));
      partials[c] := sq;
      remaining := remaining - {c};
    }
    var sq := DZero;
    for c := 0 to chunks
      invariant sq == Combined(g, c)
    {
      sq := DAdd(sq, partials[c]);
    }
    norm := DSqrt(sq);
  }

  method SquaresLoop(g: seq<F>, b: nat, e: nat) returns (sq: D)
    requires b <= e <= |g|
    ensures sq == SumSquares(g, b, e)
  {
    sq := DZero;
    for i := b to e
      invariant sq == SumSquares(g, b, i)
    {
      sq := DAdd(sq, DMul(Widen(g[i]), Widen(g[i])));
    }
  }

  // -------------------------------------------------------------------- clipping

  predicate LeavesAlone(cmp: Compare, norm: D, maxNorm: F) { cmp.atMost(norm, Widen(maxNorm)) || cmp.isZero(norm) }

  function ShrinkFactor(norm: D, maxNorm: F): F { Narrow(DDiv(Widen(maxNorm), norm)) }

  /** ClipScale refuses exactly a non-finite norm of a gradient it was asked to clip. */
  predicate Clippable(cmp: Compare, g: seq<F>, maxNorm: F) { cmp.positive(maxNorm) ==> cmp.finite(Norm(g)) }

  function ClipFactor(cmp: Compare, g: seq<F>, maxNorm: F): F {
    if !cmp.positive(maxNorm) || LeavesAlone(cmp, Norm(g), maxNorm) then ONE else ShrinkFactor(Norm(g), maxNorm)
  }

  method ClipScale(cmp: Compare, g: seq<F>, maxNorm: F) returns (ok: bool, scale: F)
    ensures ok == Clippable(cmp, g, maxNorm)
    ensures ok ==> scale == ClipFactor(cmp, g, maxNorm)
  {
    ok, scale := true, ONE;
    if !cmp.positive(maxNorm) {
      return;
    }
    var norm := L2Norm(g);
    if !cmp.finite(norm) {
      return false, ONE;
    }
    if !LeavesAlone(cmp, norm, maxNorm) {
      scale := ShrinkFactor(norm, maxNorm);
    }
  }

  /** What the standalone ClipNorm leaves in the gradient. */
  function Clipped(cmp: Compare, g: seq<F>, maxNorm: F): (g': seq<F>)
    ensures |g'| == |g|
  {
    if LeavesAlone(cmp, Norm(g), maxNorm) then g
    else seq(|g|, i requires 0 <= i < |g| => Mul(g[i], ShrinkFactor(Norm(g), maxNorm)))
  }

  method ClipNorm(cmp: Compare, g: array<F>, maxNorm: F)
    modifies g
    ensures g[..] == Clipped(cmp, old(g[..]), maxNorm)
  {
    var norm := L2Norm(g[..]);
    if LeavesAlone(cmp, norm, maxNorm) {
      return;
    }
    var s := ShrinkFactor(norm, maxNorm);
    var n := g.Length;
    var remaining := TaskSet(ChunkCount(n, GRAIN_CHEAP));
    ChunksAll(n, GRAIN_CHEAP);
    while remaining != {}
      invariant forall c :: c in remaining ==> c < ChunkCount(n, GRAIN_CHEAP)
      invariant forall i: nat {:trigger g[i]} :: i < n ==>
        g[i] == if ChunkOf(n, GRAIN_CHEAP, i) in remaining then old(g[i]) else Mul(old(g[i]), s)
      decreases remaining
    {
      var c :| c in remaining;
      ChunkInside(n, GRAIN_CHEAP, c);
      ChunkMembers(n, GRAIN_CHEAP, c);
      ghost var mid := g[..];
      var b, e := ChunkBegin(n, GRAIN_CHEAP, c), ChunkEnd(n, GRAIN_CHEAP, c);
      for i := b to e
        invariant forall j: nat {:trigger g[j]} :: j < n ==> g[j] == if b <= j < i then Mul(mid[j], s) else mid[j]
      {
        g[i] := Mul(g[i], s);
      }
      remaining := remaining - {c};
    }
  }

  lemma ChunkMembers(n: nat, grain: nat, c: nat)
    requires c < ChunkCount(n, grain)
    ensures forall i: nat {:trigger ChunkOf(n, grain, i)} :: i < n ==>
      (ChunkBegin(n, grain, c) <= i < ChunkEnd(n, grain, c) <==> c == ChunkOf(n, grain, i))
  {
    forall i: nat | i < n
      ensures ChunkBegin(n, grain, c) <= i < ChunkEnd(n, grain, c) <==> c == ChunkOf(n, grain, i)
    {
      ChunkOwner(n, grain, i);
    }
  }

  // ------------------------------------------------------------------- the steps

  /** The per-step scalars of a parameter step. */
  datatype Hyper = Hyper(lr: F, beta1: F, beta2: F, eps: F, weightDecay: F, step: nat)

  /** One parameter with its two moments (the moments are unused by SGD). */
  datatype Param = Param(p: F, m: F, v: F)

  /** The update of one element from its conditioned gradient gi. */
  function Stepped(adam: bool, h: Hyper, x: Param, gi: F): Param {
    if !adam then x.(p := Sub(x.p, Mul(h.lr, Add(gi, Mul(h.weightDecay, x.p)))))
    else
      var t := OfNat(h.step);
      var invBc1, invBc2 := Div(ONE, Sub(ONE, Pow(h.beta1, t))), Div(ONE, Sub(ONE, Pow(h.beta2, t)));
      var mi := Add(Mul(h.beta1, x.m), Mul(Sub(ONE, h.beta1), gi));
      var vi := Add(Mul(h.beta2, x.v), Mul(Mul(Sub(ONE, h.beta2), gi), gi));
      var mHat, vHat := Mul(mi, invBc1), Mul(vi, invBc2);
      Param(Sub(x.p, Mul(h.lr, Add(Div(mHat, Add(Sqrt(vHat), h.eps)), Mul(h.weightDecay, x.p)))), mi, vi)
  }

  /** SgdStep and AdamWStep with a fused clip: nothing changes when the norm is not finite. */
  method Step(adam: bool, cmp: Compare, h: Hyper, params: array<Param>, g: seq<F>, clipNorm: F) returns (ok: bool)
    requires params.Length == |g|
    modifies params
    ensures ok == Clippable(cmp, g, clipNorm)
    ensures !ok ==> params[..] == old(params[..])
    ensures ok ==> forall i: nat :: i < |g| ==>
      params[i] == Stepped(adam, h, old(params[i]), Times(g[i], ClipFactor(cmp, g, clipNorm)))
  {
    var s;
    ok, s := ClipScale(cmp, g, clipNorm);
    if !ok {
      return;
    }
    var n, grain := |g|, if adam then GRAIN_MATH else GRAIN_CHEAP;
    var remaining := TaskSet(ChunkCount(n, grain));
    ChunksAll(n, grain);
    while remaining != {}
      invariant forall c :: c in remaining ==> c < ChunkCount(n, grain)
      invariant forall i: nat {:trigger params[i]} :: i < n ==>
        params[i] == if ChunkOf(n, grain, i) in remaining then old(params[i])
                     else Stepped(adam, h, old(params[i]), Times(g[i], s))
      decreases remaining
    {
      var c :| c in remaining;
      ChunkInside(n, grain, c);
      ChunkMembers(n, grain, c);
      ghost var mid := params[..];
      var b, e := ChunkBegin(n, grain, c), ChunkEnd(n, grain, c);
      for i := b to e
        invariant forall j: nat {:trigger params[j]} :: j < n ==>
          params[j] == if b <= j < i then Stepped(adam, h, mid[j], Times(g[j], s)) else mid[j]
      {
        params[i] := Stepped(adam, h, params[i], Times(g[i], s));
      }
      remaining := remaining - {c};
    }
  }

  /** The program a fused step replaces: ClipNorm on the gradient, then the step with no clip (0 is not positive). */
  method ClipThenStep(adam: bool, cmp: Compare, h: Hyper, params: array<Param>, g: array<F>, clipNorm: F)
    requires params.Length == g.Length && !cmp.positive(ZERO)
    modifies params, g
    ensures forall i: nat :: i < g.Length ==>
      params[i] == Stepped(adam, h, old(params[i]), Clipped(cmp, old(g[..]), clipNorm)[i])
  {
    ClipNorm(cmp, g, clipNorm);
    var ok := Step(adam, cmp, h, params, g[..], ZERO);
  }

  /** The two conditionings agree element for element where clipping is on. Where the norm is finite the
      fused step runs, so it leaves the parameters ClipThenStep leaves; elsewhere it changes nothing. */
  lemma FusedClipIsClip(cmp: Compare, g: seq<F>, clipNorm: F)
    requires cmp.positive(clipNorm)
    ensures forall i: nat :: i < |g| ==> Times(g[i], ClipFactor(cmp, g, clipNorm)) == Clipped(cmp, g, clipNorm)[i]
    ensures Clippable(cmp, g, clipNorm) <==> cmp.finite(Norm(g))
  {
  }

  method SameStep(adam: bool, cmp: Compare, h: Hyper, fused: array<Param>, plain: array<Param>, g: array<F>, clipNorm: F)
    returns (ok: bool)
    requires fused.Length == plain.Length == g.Length && fused != plain && fused[..] == plain[..]
    requires cmp.positive(clipNorm) && !cmp.positive(ZERO)
    modifies fused, plain, g
    ensures ok == cmp.finite(Norm(old(g[..])))
    ensures ok ==> fused[..] == plain[..]
    ensures !ok ==> fused[..] == old(fused[..])
  {
    ghost var g0 := g[..];
    ok := Step(adam, cmp, h, fused, g[..], clipNorm);
    ClipThenStep(adam, cmp, h, plain, g, clipNorm);
    FusedClipIsClip(cmp, g0, clipNorm);
  }
}
