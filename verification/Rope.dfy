// Rotary embedding over the reals: the weight import (tool/export_model.py) that turns
// rotate-half checkpoints into interleaved ones, and the kernels that rotate
// (runtime/executor/attention.cc, Rotate and RopeTable).
module Rope {
  import opened Scalar
  import opened Parallel

  /** cos and sin of one position's pair angles. */
  datatype Angles = Angles(cs: seq<real>, sn: seq<real>) {
    predicate For(half: nat) { |cs| == |sn| == half }

    predicate Unit() { |cs| == |sn| && forall c :: 0 <= c < |cs| ==> cs[c] * cs[c] + sn[c] * sn[c] == 1.0 }
  }

  // ------------------------------------------------------------------ the import

  /** The checkpoint feature behind each interleaved feature: pair (2c, 2c+1) <- (c, c + half). */
  function Order(half: nat): (order: seq<nat>)
    ensures |order| == 2 * half
    ensures forall i :: 0 <= i < 2 * half ==> order[i] == if i % 2 == 0 then i / 2 else i / 2 + half
  {
    seq(2 * half, i requires 0 <= i < 2 * half => if i % 2 == 0 then i / 2 else i / 2 + half)
  }

  /** Every feature is used exactly once. */
  lemma OrderPermutes(half: nat)
    ensures forall i :: 0 <= i < 2 * half ==> Order(half)[i] < 2 * half
    ensures forall i, j :: 0 <= i < j < 2 * half ==> Order(half)[i] != Order(half)[j]
    ensures forall f :: 0 <= f < 2 * half ==> f in Order(half)
  {
    forall f | 0 <= f < 2 * half ensures f in Order(half) {
      assert Order(half)[if f < half then 2 * f else 2 * (f - half) + 1] == f;
    }
  }

  function Interleave<T>(v: seq<T>, half: nat): (r: seq<T>)
    requires |v| == 2 * half
    ensures |r| == 2 * half && forall i :: 0 <= i < 2 * half ==> Order(half)[i] < |v| && r[i] == v[Order(half)[i]]
  {
    seq(2 * half, i requires 0 <= i < 2 * half => v[Order(half)[i]])
  }

  lemma PairAt<T>(v: seq<T>, half: nat, c: nat)
    requires |v| == 2 * half && c < half
    ensures Interleave(v, half)[2 * c] == v[c] && Interleave(v, half)[2 * c + 1] == v[c + half]
  {
    var even, odd := 2 * c, 2 * c + 1;
    assert Order(half)[even] == c;
    assert Order(half)[odd] == c + half;
  }

  // ----------------------------------------------------------------- the rotations

  /** The checkpoint's rotation: feature c is paired with c + half. */
  function RotateHalf(x: seq<real>, a: Angles): (y: seq<real>)
    requires a.For(|a.cs|) && |x| == 2 * |a.cs|
    ensures |y| == |x|
  {
    var half := |a.cs|;
    seq(2 * half, i requires 0 <= i < 2 * half =>
      if i < half then x[i] * a.cs[i] - x[i + half] * a.sn[i]
      else x[i] * a.cs[i - half] + x[i - half] * a.sn[i - half])
  }

  /** One pair turned by its angle, or back. */
  function Turn(x0: real, x1: real, cs: real, sn: real, backward: bool): (real, real) {
    if backward then (x0 * cs + x1 * sn, -x0 * sn + x1 * cs) else (x0 * cs - x1 * sn, x0 * sn + x1 * cs)
  }

  /** One output element of the interleaved rotation, and of the rotation back. */
  function FwdAt(x: seq<real>, a: Angles, i: nat): real
    requires a.For(|a.cs|) && |x| == 2 * |a.cs| && i < |x|
  {
    var c := i / 2;
    if i % 2 == 0 then Turn(x[i], x[i + 1], a.cs[c], a.sn[c], false).0 else Turn(x[i - 1], x[i], a.cs[c], a.sn[c], false).1
  }

  function BwdAt(x: seq<real>, a: Angles, i: nat): real
    requires a.For(|a.cs|) && |x| == 2 * |a.cs| && i < |x|
  {
    var c := i / 2;
    if i % 2 == 0 then Turn(x[i], x[i + 1], a.cs[c], a.sn[c], true).0 else Turn(x[i - 1], x[i], a.cs[c], a.sn[c], true).1
  }

  function Fwd(x: seq<real>, a: Angles): (y: seq<real>)
    requires a.For(|a.cs|) && |x| == 2 * |a.cs|
    ensures |y| == |x|
  {
    seq(|x|, i requires 0 <= i < |x| => FwdAt(x, a, i))
  }

  function Bwd(x: seq<real>, a: Angles): (y: seq<real>)
    requires a.For(|a.cs|) && |x| == 2 * |a.cs|
    ensures |y| == |x|
  {
    seq(|x|, i requires 0 <= i < |x| => BwdAt(x, a, i))
  }

  lemma RotatesPair(x: seq<real>, a: Angles, half: nat, c: nat)
    requires a.For(half) && |x| == 2 * half && c < half
    ensures FwdAt(Interleave(x, half), a, 2 * c) == RotateHalf(x, a)[c]
    ensures FwdAt(Interleave(x, half), a, 2 * c + 1) == RotateHalf(x, a)[c + half]
  {
    PairAt(x, half, c);
    assert 2 * c / 2 == c && 2 * c % 2 == 0;
    assert (2 * c + 1) / 2 == c && (2 * c + 1) % 2 == 1;
  }

  /** Interleaving turns the checkpoint's rotation into the kernel's. */
  lemma InterleaveRotates(x: seq<real>, a: Angles, half: nat)
    requires a.For(half) && |x| == 2 * half
    ensures Fwd(Interleave(x, half), a) == Interleave(RotateHalf(x, a), half)
  {
    var turned, laid := Fwd(Interleave(x, half), a), Interleave(RotateHalf(x, a), half);
    forall i | 0 <= i < 2 * half ensures turned[i] == laid[i] {
      var c := i / 2;
      SamePair(x, a, half, c);
      assert i == 2 * c || i == 2 * c + 1;
    }
  }

  lemma SamePair(x: seq<real>, a: Angles, half: nat, c: nat)
    requires a.For(half) && |x| == 2 * half && c < half
    ensures Fwd(Interleave(x, half), a)[2 * c] == Interleave(RotateHalf(x, a), half)[2 * c]
    ensures Fwd(Interleave(x, half), a)[2 * c + 1] == Interleave(RotateHalf(x, a), half)[2 * c + 1]
  {
    RotatesPair(x, a, half, c);
    PairAt(RotateHalf(x, a), half, c);
  }

  // -------------------------------------------------------------- scores unchanged

  function Dot(x: seq<real>, y: seq<real>, b: nat, e: nat): real
    requires b <= e <= |x| && |x| == |y|
  {
    if b == e then 0.0 else Dot(x, y, b, e - 1) + x[e - 1] * y[e - 1]
  }

  function Score(x: seq<real>, y: seq<real>): real
    requires |x| == |y|
  {
    Dot(x, y, 0, |x|)
  }

  lemma {:induction false} InterleavedDot(x: seq<real>, y: seq<real>, px: seq<real>, py: seq<real>, half: nat, c: nat)
    requires |x| == |y| == 2 * half && c <= half && px == Interleave(x, half) && py == Interleave(y, half)
    ensures Dot(px, py, 0, 2 * c) == Dot(x, y, 0, c) + Dot(x, y, half, half + c)
  {
    if c > 0 {
      InterleavedDot(x, y, px, py, half, c - 1);
      PairJoins(x, y, px, py, half, c - 1, c, 2 * c - 2, 2 * c - 1, 2 * c, half + c - 1, half + c);
    }
  }

  /** The b-th pair's two products, on either side. */
  lemma PairJoins(x: seq<real>, y: seq<real>, px: seq<real>, py: seq<real>, half: nat, b: nat, c: nat,
                  even: nat, odd: nat, next: nat, low: nat, high: nat)
    requires |x| == |y| == 2 * half && c <= half && px == Interleave(x, half) && py == Interleave(y, half)
    requires c == b + 1 && even == 2 * b && odd == even + 1 && next == odd + 1 && low == half + b && high == low + 1
    requires Dot(px, py, 0, even) == Dot(x, y, 0, b) + Dot(x, y, half, low)
    ensures Dot(px, py, 0, next) == Dot(x, y, 0, c) + Dot(x, y, half, high)
  {
    var p, r := SameProducts(x, y, px, py, half, b, even, odd, low);
    DotGrows(px, py, 0, even, odd, p);
    DotGrows(px, py, 0, odd, next, r);
    DotGrows(x, y, 0, b, c, p);
    DotGrows(x, y, half, low, high, r);
  }

  lemma SameProducts(x: seq<real>, y: seq<real>, px: seq<real>, py: seq<real>, half: nat, b: nat, even: nat, odd: nat, low: nat)
    returns (p: real, r: real)
    requires |x| == |y| == 2 * half && b < half && px == Interleave(x, half) && py == Interleave(y, half)
    requires even == 2 * b && odd == even + 1 && low == half + b
    ensures p == px[even] * py[even] && p == x[b] * y[b]
    ensures r == px[odd] * py[odd] && r == x[low] * y[low]
  {
    PairAt(x, half, b);
    PairAt(y, half, b);
    p, r := x[b] * y[b], x[low] * y[low];
  }

  lemma DotGrows(x: seq<real>, y: seq<real>, b: nat, e: nat, next: nat, product: real)
    requires b <= e < next == e + 1 <= |x| == |y| && product == x[e] * y[e]
    ensures Dot(x, y, b, next) == Dot(x, y, b, e) + product
  {
  }

  lemma DotStep(x: seq<real>, y: seq<real>, b: nat, e: nat, next: nat)
    requires b <= e < next == e + 1 <= |x| == |y|
    ensures Dot(x, y, b, next) == Dot(x, y, b, e) + x[e] * y[e]
  {
  }

  lemma {:induction false} DotJoins(x: seq<real>, y: seq<real>, m: nat, e: nat)
    requires m <= e <= |x| == |y|
    ensures Dot(x, y, 0, e) == Dot(x, y, 0, m) + Dot(x, y, m, e)
  {
    if m < e {
      DotJoins(x, y, m, e - 1);
    }
  }

  /** Interleaving both sides leaves every product sum as it was. */
  lemma InterleaveScores(x: seq<real>, y: seq<real>, half: nat)
    requires |x| == |y| == 2 * half
    ensures Score(Interleave(x, half), Interleave(y, half)) == Score(x, y)
  {
    InterleavedDot(x, y, Interleave(x, half), Interleave(y, half), half, half);
    DotJoins(x, y, half, 2 * half);
  }

  /** The score of an interleaved, kernel-rotated query and key is the checkpoint's. */
  lemma SameScore(q: seq<real>, k: seq<real>, aq: Angles, ak: Angles, half: nat)
    requires aq.For(half) && ak.For(half) && |q| == |k| == 2 * half
    ensures Score(Fwd(Interleave(q, half), aq), Fwd(Interleave(k, half), ak)) == Score(RotateHalf(q, aq), RotateHalf(k, ak))
  {
    InterleaveRotates(q, aq, half);
    InterleaveRotates(k, ak, half);
    InterleaveScores(RotateHalf(q, aq), RotateHalf(k, ak), half);
  }

  // --------------------------------------------------- imported weights, head by head

  /** A projection: one output a feature. Weights are cut into heads, feature rows within. */
  function Project(x: seq<real>, rows: seq<seq<real>>, bias: seq<real>): (y: seq<real>)
    requires |bias| == |rows| && forall i :: 0 <= i < |rows| ==> |rows[i]| == |x|
    ensures |y| == |rows| && forall i :: 0 <= i < |rows| ==> y[i] == Score(x, rows[i]) + bias[i]
  {
    seq(|rows|, i requires 0 <= i < |rows| => Score(x, rows[i]) + bias[i])
  }

  datatype Weights = Weights(rows: seq<seq<seq<real>>>, bias: seq<seq<real>>) {
    ghost predicate Shaped(heads: nat, d: nat, width: nat) {
      && |rows| == |bias| == heads
      && (forall h :: 0 <= h < heads ==> |rows[h]| == |bias[h]| == d)
      && (forall h, i :: 0 <= h < heads && 0 <= i < d ==> |rows[h][i]| == width)
    }
  }

  /** The query import: every head's features interleaved. */
  function ImportQ(w: Weights, half: nat): Weights
    requires |w.rows| == |w.bias|
    requires forall h :: 0 <= h < |w.rows| ==> |w.rows[h]| == |w.bias[h]| == 2 * half
  {
    Weights(seq(|w.rows|, h requires 0 <= h < |w.rows| => Interleave(w.rows[h], half)),
            seq(|w.rows|, h requires 0 <= h < |w.rows| => Interleave(w.bias[h], half)))
  }

  /** The key or value head that serves a query head. */
  function KvOf(h: nat, heads: nat, kvHeads: nat): (k: nat)
    requires h < heads && kvHeads > 0 && heads % kvHeads == 0
    ensures k < kvHeads && k * (heads / kvHeads) <= h < (k + 1) * (heads / kvHeads)
  {
    DivisionBounds(heads, kvHeads);
    QuotientUnique(heads, kvHeads, heads / kvHeads);
    RepeatBound(h, heads / kvHeads, kvHeads);
    DivisionBounds(h, heads / kvHeads);
    h / (heads / kvHeads)
  }

  lemma RepeatBound(h: nat, rep: nat, kvHeads: nat)
    requires h < rep * kvHeads && rep > 0
    ensures h / rep < kvHeads
  {
    DivisionBounds(h, rep);
    TimesLess(h / rep, kvHeads, rep);
    assert rep * kvHeads == kvHeads * rep;
  }

  /** The key and value imports: heads repeated, keys interleaved as well. */
  function ImportKv(w: Weights, heads: nat, kvHeads: nat, half: nat, permute: bool): Weights
    requires |w.rows| == |w.bias| == kvHeads > 0 && heads % kvHeads == 0
    requires forall h :: 0 <= h < kvHeads ==> |w.rows[h]| == |w.bias[h]| == 2 * half
  {
    Weights(
      seq(heads, h requires 0 <= h < heads => var k := KvOf(h, heads, kvHeads); if permute then Interleave(w.rows[k], half) else w.rows[k]),
      seq(heads, h requires 0 <= h < heads => var k := KvOf(h, heads, kvHeads); if permute then Interleave(w.bias[k], half) else w.bias[k]))
  }

  /** Interleaving the columns and biases interleaves what they project. */
  lemma ProjectInterleaved(x: seq<real>, rows: seq<seq<real>>, bias: seq<real>, half: nat)
    requires |rows| == |bias| == 2 * half && forall i :: 0 <= i < |rows| ==> |rows[i]| == |x|
    ensures forall i :: 0 <= i < 2 * half ==> |Interleave(rows, half)[i]| == |x|
    ensures Project(x, Interleave(rows, half), Interleave(bias, half)) == Interleave(Project(x, rows, bias), half)
  {
  }

  /** Grouped attention of the checkpoint, computed by the imported per-head weights: the
      scores of every query head against the key head that serves it are the same at any
      two positions, and its values are the serving head's. */
  lemma ImportKeepsAttention(x: seq<real>, y: seq<real>, q: Weights, k: Weights, v: Weights, heads: nat, kvHeads: nat, half: nat,
                             aq: Angles, ak: Angles, h: nat)
    requires q.Shaped(heads, 2 * half, |x|) && k.Shaped(kvHeads, 2 * half, |x|) && v.Shaped(kvHeads, 2 * half, |x|)
    requires |y| == |x| && kvHeads > 0 && heads % kvHeads == 0 && h < heads && aq.For(half) && ak.For(half)
    ensures var iq, ik, iv := ImportQ(q, half), ImportKv(k, heads, kvHeads, half, true), ImportKv(v, heads, kvHeads, half, false);
      var g := KvOf(h, heads, kvHeads);
      && (forall i :: 0 <= i < 2 * half ==> |iq.rows[h][i]| == |ik.rows[h][i]| == |iv.rows[h][i]| == |x|)
      && Score(Fwd(Project(x, iq.rows[h], iq.bias[h]), aq), Fwd(Project(y, ik.rows[h], ik.bias[h]), ak))
         == Score(RotateHalf(Project(x, q.rows[h], q.bias[h]), aq), RotateHalf(Project(y, k.rows[g], k.bias[g]), ak))
      && Project(y, iv.rows[h], iv.bias[h]) == Project(y, v.rows[g], v.bias[g])
  {
    var g := KvOf(h, heads, kvHeads);
    ProjectInterleaved(x, q.rows[h], q.bias[h], half);
    ProjectInterleaved(y, k.rows[g], k.bias[g], half);
    SameScore(Project(x, q.rows[h], q.bias[h]), Project(y, k.rows[g], k.bias[g]), aq, ak, half);
  }

  // ------------------------------------------------------------ backward is adjoint

  lemma AdjointPair(x0: real, x1: real, y0: real, y1: real, c: real, s: real)
    ensures (x0 * c - x1 * s) * y0 + (x0 * s + x1 * c) * y1 == x0 * (y0 * c + y1 * s) + x1 * (-y0 * s + y1 * c)
  {
    assert (x0 * c - x1 * s) * y0 == x0 * c * y0 - x1 * s * y0;
    assert (x0 * s + x1 * c) * y1 == x0 * s * y1 + x1 * c * y1;
    assert x0 * (y0 * c + y1 * s) == x0 * y0 * c + x0 * y1 * s;
    assert x1 * (-y0 * s + y1 * c) == -(x1 * y0 * s) + x1 * y1 * c;
  }

  lemma {:induction false} AdjointTo(x: seq<real>, y: seq<real>, fx: seq<real>, back: seq<real>, a: Angles, half: nat, c: nat)
    requires a.For(half) && |x| == |y| == 2 * half && c <= half && fx == Fwd(x, a) && back == Bwd(y, a)
    ensures Dot(fx, y, 0, 2 * c) == Dot(x, back, 0, 2 * c)
  {
    if c > 0 {
      var b := c - 1;
      AdjointTo(x, y, fx, back, a, half, b);
      DotStep(fx, y, 0, 2 * b, 2 * b + 1);
      DotStep(fx, y, 0, 2 * b + 1, 2 * c);
      DotStep(x, back, 0, 2 * b, 2 * b + 1);
      DotStep(x, back, 0, 2 * b + 1, 2 * c);
      AdjointAt(x, y, a, half, b, 2 * b, 2 * b + 1);
    }
  }

  lemma TurnAdjoint(x0: real, x1: real, y0: real, y1: real, c: real, s: real)
    ensures Turn(x0, x1, c, s, false).0 * y0 + Turn(x0, x1, c, s, false).1 * y1 ==
      x0 * Turn(y0, y1, c, s, true).0 + x1 * Turn(y0, y1, c, s, true).1
  {
    AdjointPair(x0, x1, y0, y1, c, s);
  }

  lemma AdjointAt(x: seq<real>, y: seq<real>, a: Angles, half: nat, b: nat, even: nat, odd: nat)
    requires a.For(half) && |x| == |y| == 2 * half && b < half && even == 2 * b && odd == even + 1
    ensures Fwd(x, a)[even] * y[even] + Fwd(x, a)[odd] * y[odd] == x[even] * Bwd(y, a)[even] + x[odd] * Bwd(y, a)[odd]
  {
    TurnsForth(x, a, half, b, even, odd);
    TurnsBack(y, a, half, b, even, odd);
    TurnAdjoint(x[even], x[odd], y[even], y[odd], a.cs[b], a.sn[b]);
  }

  // The two elements of one pair, rotated forth and back.
  lemma TurnsForth(x: seq<real>, a: Angles, half: nat, b: nat, even: nat, odd: nat)
    requires a.For(half) && |x| == 2 * half && b < half && even == 2 * b && odd == even + 1
    ensures (Fwd(x, a)[even], Fwd(x, a)[odd]) == Turn(x[even], x[odd], a.cs[b], a.sn[b], false)
  {
    assert even / 2 == b && odd / 2 == b && odd % 2 == 1;
  }

  lemma TurnsBack(x: seq<real>, a: Angles, half: nat, b: nat, even: nat, odd: nat)
    requires a.For(half) && |x| == 2 * half && b < half && even == 2 * b && odd == even + 1
    ensures (Bwd(x, a)[even], Bwd(x, a)[odd]) == Turn(x[even], x[odd], a.cs[b], a.sn[b], true)
  {
    assert even / 2 == b && odd / 2 == b && odd % 2 == 1;
  }

  /** RopeBwd is the adjoint of RopeFwd. */
  lemma BackwardIsAdjoint(x: seq<real>, y: seq<real>, a: Angles, half: nat)
    requires a.For(half) && |x| == |y| == 2 * half
    ensures Score(Fwd(x, a), y) == Score(x, Bwd(y, a))
  {
    AdjointTo(x, y, Fwd(x, a), Bwd(y, a), a, half, half);
  }

  /** Turning by an angle and then back: both components, by expanding the products. */
  lemma InverseForth(x0: real, x1: real, c: real, s: real, f0: real, f1: real)
    requires c * c + s * s == 1.0 && f0 == x0 * c - x1 * s && f1 == x0 * s + x1 * c
    ensures f0 * c + f1 * s == x0 && -f0 * s + f1 * c == x1
  {
    var cc, ss := c * c, s * s;
    assert f0 * c == x0 * cc - x1 * s * c;
    assert f1 * s == x0 * ss + x1 * c * s;
    assert f0 * s == x0 * c * s - x1 * ss;
    assert f1 * c == x0 * s * c + x1 * cc;
    assert x0 * cc + x0 * ss == x0 * (cc + ss);
    assert x1 * cc + x1 * ss == x1 * (cc + ss);
    assert -f0 * s == -(f0 * s);
  }

  lemma InverseBack(x0: real, x1: real, c: real, s: real, b0: real, b1: real)
    requires c * c + s * s == 1.0 && b0 == x0 * c + x1 * s && b1 == -x0 * s + x1 * c
    ensures b0 * c - b1 * s == x0 && b0 * s + b1 * c == x1
  {
    var cc, ss := c * c, s * s;
    assert b0 * c == x0 * cc + x1 * s * c;
    assert b1 * s == -(x0 * ss) + x1 * c * s;
    assert b0 * s == x0 * c * s + x1 * ss;
    assert b1 * c == -(x0 * s * c) + x1 * cc;
    assert x0 * cc + x0 * ss == x0 * (cc + ss);
    assert x1 * cc + x1 * ss == x1 * (cc + ss);
  }

  lemma TurnInverse(x0: real, x1: real, c: real, s: real, f0: real, f1: real, b0: real, b1: real)
    requires c * c + s * s == 1.0 && (f0, f1) == Turn(x0, x1, c, s, false) && (b0, b1) == Turn(x0, x1, c, s, true)
    ensures Turn(f0, f1, c, s, true) == (x0, x1) && Turn(b0, b1, c, s, false) == (x0, x1)
  {
    InverseForth(x0, x1, c, s, f0, f1);
    InverseBack(x0, x1, c, s, b0, b1);
  }

  /** On true angles the rotation back undoes the rotation, and the other way round. */
  lemma BackwardIsInverse(x: seq<real>, a: Angles, half: nat)
    requires a.For(half) && a.Unit() && |x| == 2 * half
    ensures Bwd(Fwd(x, a), a) == x && Fwd(Bwd(x, a), a) == x
  {
    forall i | 0 <= i < 2 * half ensures Bwd(Fwd(x, a), a)[i] == x[i] && Fwd(Bwd(x, a), a)[i] == x[i] {
      var b := i / 2;
      InverseAt(x, a, half, b, 2 * b, 2 * b + 1);
      assert i == 2 * b || i == 2 * b + 1;
    }
  }

  lemma InverseAt(x: seq<real>, a: Angles, half: nat, b: nat, even: nat, odd: nat)
    requires a.For(half) && a.Unit() && |x| == 2 * half && b < half && even == 2 * b && odd == even + 1
    ensures Bwd(Fwd(x, a), a)[even] == x[even] && Bwd(Fwd(x, a), a)[odd] == x[odd]
    ensures Fwd(Bwd(x, a), a)[even] == x[even] && Fwd(Bwd(x, a), a)[odd] == x[odd]
  {
    var forth, back := Fwd(x, a), Bwd(x, a);
    TurnsForth(x, a, half, b, even, odd);
    TurnsBack(x, a, half, b, even, odd);
    TurnsBack(forth, a, half, b, even, odd);
    TurnsForth(back, a, half, b, even, odd);
    TurnInverse(x[even], x[odd], a.cs[b], a.sn[b], forth[even], forth[odd], back[even], back[odd]);
  }

  // ------------------------------------------------------------------ the kernels

  /** cos, sin and the frequency step of one call. */
  datatype Trig = Trig(cos: real -> real, sin: real -> real, step: real)

  /** The frequency of pair c, by the multiplicative recurrence. */
  function Freq(t: Trig, c: nat): real { if c == 0 then 1.0 else Freq(t, c - 1) * t.step }

  function Power(a: real, n: nat): real { if n == 0 then 1.0 else Power(a, n - 1) * a }

  lemma {:induction false} PowerOfProduct(a: real, b: real, g: real, n: nat)
    requires g == a * b
    ensures Power(g, n) == Power(a, n) * Power(b, n)
  {
    if n > 0 {
      PowerOfProduct(a, b, g, n - 1);
      Regroup(Power(a, n - 1), Power(b, n - 1), a, b, Power(g, n - 1), g);
    }
  }

  lemma Regroup(p: real, q: real, a: real, b: real, r: real, g: real)
    requires r == p * q && g == a * b
    ensures r * g == (p * a) * (q * b)
  {
  }

  /** The pair frequencies are the powers base^(-c / half): with the step base^(-1 / half), that is the positive
      number whose half-th power is one over the base, pair c's is the one whose half-th power is one over base^c. */
  lemma {:induction false} FreqIsPower(t: Trig, base: real, half: nat, c: nat)
    requires t.step > 0.0 && Power(t.step, half) * base == 1.0
    ensures Freq(t, c) > 0.0 && Power(Freq(t, c), half) * Power(base, c) == 1.0
  {
    if c == 0 {
      OnePower(half);
    } else {
      FreqIsPower(t, base, half, c - 1);
      var f := Freq(t, c - 1);
      PowerOfProduct(f, t.step, Freq(t, c), half);
      RootsMultiply(Power(f, half), Power(base, c - 1), Power(t.step, half), base, Power(Freq(t, c), half), Power(base, c));
    }
  }

  lemma RootsMultiply(p: real, q: real, a: real, b: real, pa: real, qb: real)
    requires p * q == 1.0 && a * b == 1.0 && pa == p * a && qb == q * b
    ensures pa * qb == 1.0
  {
    assert pa * qb == (p * q) * (a * b);
  }

  lemma {:induction false} OnePower(n: nat)
    ensures Power(1.0, n) == 1.0
  {
    if n > 0 {
      OnePower(n - 1);
    }
  }

  function Theta(t: Trig, s: nat, c: nat): real { s as real * Freq(t, c) }

  /** The angles of position s. */
  function AnglesAt(t: Trig, s: nat, half: nat): (a: Angles)
    ensures a.For(half)
  {
    Angles(seq(half, c requires 0 <= c < half => t.cos(Theta(t, s, c))), seq(half, c requires 0 <= c < half => t.sin(Theta(t, s, c))))
  }

  /** One row of RopeTable: cos and sin of each pair, side by side. */
  function TableRowOf(t: Trig, s: nat, half: nat): (row: seq<real>)
    ensures |row| == 2 * half
  {
    if half == 0 then []
    else TableRowOf(t, s, half - 1) + [t.cos(Theta(t, s, half - 1)), t.sin(Theta(t, s, half - 1))]
  }

  lemma {:induction false} TablePair(t: Trig, s: nat, half: nat, c: nat)
    requires c < half
    ensures TableRowOf(t, s, half)[2 * c] == AnglesAt(t, s, half).cs[c]
    ensures TableRowOf(t, s, half)[2 * c + 1] == AnglesAt(t, s, half).sn[c]
    decreases half
  {
    if c < half - 1 {
      TablePair(t, s, half - 1, c);
    }
  }

  ghost predicate IsTableRow(row: seq<real>, t: Trig, s: nat, half: nat) { row == TableRowOf(t, s, half) }

  method TableRow(t: Trig, s: nat, half: nat) returns (row: seq<real>)
    ensures IsTableRow(row, t, s, half)
  {
    row := [];
    var freq := 1.0;
    for c := 0 to half
      invariant freq == Freq(t, c) && row == TableRowOf(t, s, c)
    {
      var theta := s as real * freq;
      assert theta == Theta(t, s, c);
      row := row + [t.cos(theta), t.sin(theta)];
      freq := freq * t.step;
    }
  }

  /** RopeTable: the rows in any order. */
  method RopeTable(t: Trig, positions: nat, half: nat, table: array<seq<real>>)
    requires table.Length == positions
    modifies table
    ensures forall s :: 0 <= s < positions ==> IsTableRow(table[s], t, s, half)
  {
    var remaining := TaskSet(positions);
    while remaining != {}
      invariant forall s :: s in remaining ==> s < positions
      invariant forall s: nat :: s < positions && s !in remaining ==> IsTableRow(table[s], t, s, half)
      decreases remaining
    {
      var s :| s in remaining;
      var row := TableRow(t, s, half);
      table[s] := row;
      remaining := remaining - {s};
    }
  }

  function Rotated(x: seq<real>, a: Angles, backward: bool): (y: seq<real>)
    requires a.For(|a.cs|) && |x| == 2 * |a.cs|
    ensures |y| == |x|
  {
    if backward then Bwd(x, a) else Fwd(x, a)
  }

  lemma TurnsPair(x: seq<real>, a: Angles, half: nat, b: nat, even: nat, odd: nat, backward: bool)
    requires a.For(half) && |x| == 2 * half && b < half && even == 2 * b && odd == even + 1
    ensures (Rotated(x, a, backward)[even], Rotated(x, a, backward)[odd]) == Turn(x[even], x[odd], a.cs[b], a.sn[b], backward)
  {
    if backward {
      TurnsBack(x, a, half, b, even, odd);
    } else {
      TurnsForth(x, a, half, b, even, odd);
    }
  }

  lemma TwoMore(y: seq<real>, even: nat)
    requires even + 2 <= |y|
    ensures y[..even] + [y[even], y[even + 1]] == y[..even + 2]
  {
  }

  /** One unit rotated, with the table's row for its position or by the recurrence. */
  method RotateUnit(x: seq<real>, t: Trig, s: nat, half: nat, row: Option<seq<real>>, backward: bool) returns (y: seq<real>)
    requires |x| == 2 * half && (row.Some? ==> IsTableRow(row.value, t, s, half))
    ensures y == Rotated(x, AnglesAt(t, s, half), backward)
  {
    ghost var want := Rotated(x, AnglesAt(t, s, half), backward);
    y := [];
    var freq := 1.0;
    var b := 0;
    while b < half
      invariant b <= half && |y| == 2 * b && y == want[..|y|] && (row.None? ==> freq == Freq(t, b))
    {
      var turned, next := RotatePair(x, t, s, half, b, row, freq, backward);
      TwoMore(want, |y|);
      y := y + [turned.0, turned.1];
      freq, b := next, b + 1;
    }
    assert want[..|y|] == want;
  }

  /** One pair of a unit, and the next pair's frequency where the angle is recomputed. */
  method RotatePair(x: seq<real>, t: Trig, s: nat, half: nat, b: nat, row: Option<seq<real>>, freq: real, backward: bool)
    returns (turned: (real, real), next: real)
    requires |x| == 2 * half && b < half && (row.Some? ==> IsTableRow(row.value, t, s, half)) && (row.None? ==> freq == Freq(t, b))
    ensures turned == (Rotated(x, AnglesAt(t, s, half), backward)[2 * b], Rotated(x, AnglesAt(t, s, half), backward)[2 * b + 1])
    ensures row.None? ==> next == Freq(t, b + 1)
  {
    var cs, sn := PairAngle(t, s, half, b, row, freq);
    TurnsPair(x, AnglesAt(t, s, half), half, b, 2 * b, 2 * b + 1, backward);
    turned := Turn(x[2 * b], x[2 * b + 1], cs, sn, backward);
    next := if row.None? then freq * t.step else freq;
  }

  method PairAngle(t: Trig, s: nat, half: nat, b: nat, row: Option<seq<real>>, freq: real) returns (cs: real, sn: real)
    requires b < half && (row.Some? ==> IsTableRow(row.value, t, s, half)) && (row.None? ==> freq == Freq(t, b))
    ensures cs == AnglesAt(t, s, half).cs[b] && sn == AnglesAt(t, s, half).sn[b]
  {
    if row.Some? {
      TablePair(t, s, half, b);
      cs, sn := row.value[2 * b], row.value[2 * b + 1];
    } else {
      var theta := s as real * freq;
      assert theta == Theta(t, s, b);
      cs, sn := t.cos(theta), t.sin(theta);
    }
  }

  /** RopeFwd and RopeBwd over all units, in any order: unit u is head u % heads of row
      u / heads, at position u / heads % positions; with and without the table alike. */
  method Rotate(x: seq<seq<real>>, y: array<seq<real>>, t: Trig, positions: nat, heads: nat, half: nat,
                table: Option<array<seq<real>>>, backward: bool)
    requires y.Length == |x| && heads > 0 && positions > 0 && forall u :: 0 <= u < |x| ==> |x[u]| == 2 * half
    requires table.Some? ==> table.value != y && table.value.Length == positions
    requires table.Some? ==> forall s :: 0 <= s < positions ==> IsTableRow(table.value[s], t, s, half)
    modifies y
    ensures forall u :: 0 <= u < |x| ==> IsRotated(y[u], x[u], t, u / heads % positions, half, backward)
  {
    var remaining := TaskSet(|x|);
    while remaining != {}
      invariant forall u :: u in remaining ==> u < |x|
      invariant forall u: nat :: u < |x| && u !in remaining ==> IsRotated(y[u], x[u], t, u / heads % positions, half, backward)
      decreases remaining
    {
      var u :| u in remaining;
      var s := u / heads % positions;
      var row := RowAt(table, t, positions, half, s);
      var unit := RotateUnit(x[u], t, s, half, row, backward);
      y[u] := unit;
      remaining := remaining - {u};
    }
  }

  method RowAt(table: Option<array<seq<real>>>, t: Trig, positions: nat, half: nat, s: nat) returns (row: Option<seq<real>>)
    requires s < positions
    requires table.Some? ==> table.value.Length == positions && forall k :: 0 <= k < positions ==> IsTableRow(table.value[k], t, k, half)
    ensures row.Some? ==> IsTableRow(row.value, t, s, half)
    ensures row.Some? == table.Some?
  {
    row := if table.Some? then Some(table.value[s]) else None;
  }

  ghost predicate IsRotated(y: seq<real>, x: seq<real>, t: Trig, s: nat, half: nat, backward: bool)
    requires |x| == 2 * half
  {
    y == Rotated(x, AnglesAt(t, s, half), backward)
  }
}
