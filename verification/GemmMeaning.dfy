// What the GEMM cores compute over the reals: the matrix product, whatever the order of
// the quads, the tail and the eight lanes.
module GemmMeaning {
  import opened Scalar
  import opened Meaning
  import opened GemmNN
  import opened GemmNT

  // ----------------------------------------------------------------------- NN, TN

  /** Element (m, k) of A and (k, n) of B, as the matrices hold them. */
  ghost function AVal(sn: Sense, p: Operands, m: nat, k: nat): real
    requires p.Valid() && m < p.M && k < p.K
  {
    sn.val(if p.transposed then p.a[k][m] else p.a[m][k])
  }

  ghost function BVal(sn: Sense, p: Operands, k: nat, n: nat): real
    requires p.Valid() && k < p.K && n < p.N
  {
    sn.val(OfStored(p.b[k][n])) * (if p.colScale.Some? then sn.val(p.colScale.value[n]) else 1.0)
  }

  /** The products of row m of A with column n of B. */
  ghost function RowByColumn(sn: Sense, p: Operands, m: nat, n: nat): (f: nat -> real)
    requires p.Valid() && m < p.M && n < p.N
    ensures forall k: nat :: k < p.K ==> f(k) == AVal(sn, p, m, k) * BVal(sn, p, k, n)
  {
    (k: nat) => if k < p.K then AVal(sn, p, m, k) * BVal(sn, p, k, n) else 0.0
  }

  lemma TermVal(sn: Sense, p: Operands, m: nat, n: nat, k: nat)
    requires sn.Exact() && p.Valid() && m < p.M && n < p.N && k < p.K
    ensures sn.val(p.Term(m, n, k)) == Multiple(sn.val(p.alpha), RowByColumn(sn, p, m, n))(k)
  {
    var a, b := p.A(k, m), p.B(k, n);
    assert sn.val(a) == sn.val(p.alpha) * AVal(sn, p, m, k);
    assert sn.val(b) == BVal(sn, p, k, n);
    hide *;
    assert sn.val(a) * sn.val(b) == sn.val(p.alpha) * (AVal(sn, p, m, k) * BVal(sn, p, k, n));
  }

  lemma QuadVal(sn: Sense, p: Operands, m: nat, n: nat, k: nat)
    requires sn.Exact() && p.Valid() && m < p.M && n < p.N && k + 4 <= p.K
    ensures var t := Multiple(sn.val(p.alpha), RowByColumn(sn, p, m, n));
      sn.val(p.Step(m, n, k, 4)) == t(k) + t(k + 1) + t(k + 2) + t(k + 3)
  {
    TermVal(sn, p, m, n, k);
    TermVal(sn, p, m, n, k + 1);
    TermVal(sn, p, m, n, k + 2);
    TermVal(sn, p, m, n, k + 3);
    hide Operands.Term, Operands.Valid;
  }

  lemma TailVal(sn: Sense, p: Operands, m: nat, n: nat, k: nat)
    requires sn.Exact() && p.Valid() && m < p.M && n < p.N && k + 1 <= p.K
    ensures sn.val(p.Step(m, n, k, 1)) == Multiple(sn.val(p.alpha), RowByColumn(sn, p, m, n))(k)
  {
    TermVal(sn, p, m, n, k);
  }

  lemma SumFour(f: nat -> real, k: nat)
    ensures Sum(f, k + 4) == Sum(f, k) + (f(k) + f(k + 1) + f(k + 2) + f(k + 3))
  {
    assert Sum(f, k + 1) == Sum(f, k) + f(k);
    assert Sum(f, k + 2) == Sum(f, k + 1) + f(k + 1);
    assert Sum(f, k + 3) == Sum(f, k + 2) + f(k + 2);
    assert Sum(f, k + 4) == Sum(f, k + 3) + f(k + 3);
  }

  lemma FoldQuad(sn: Sense, p: Operands, m: nat, n: nat, c: F, k: nat, next: nat)
    requires sn.Exact() && p.Valid() && m < p.M && n < p.N && next == k + 4 <= p.K && next % 4 == 0
    ensures sn.val(p.Fold(m, n, c, next)) == sn.val(p.Fold(m, n, c, k)) + sn.val(p.Step(m, n, k, 4))
  {
  }

  lemma FoldTail(sn: Sense, p: Operands, m: nat, n: nat, c: F, k: nat, next: nat)
    requires sn.Exact() && p.Valid() && m < p.M && n < p.N && next == k + 1 <= p.K && next % 4 != 0
    ensures sn.val(p.Fold(m, n, c, next)) == sn.val(p.Fold(m, n, c, k)) + sn.val(p.Step(m, n, k, 1))
  {
  }

  ghost predicate FoldsTo(sn: Sense, p: Operands, m: nat, n: nat, c: F, k: nat)
    requires p.Valid() && m < p.M && n < p.N && k <= p.K
  {
    sn.val(p.Fold(m, n, c, k)) == sn.val(c) + Sum(Multiple(sn.val(p.alpha), RowByColumn(sn, p, m, n)), k)
  }

  lemma QuadFolds(sn: Sense, p: Operands, m: nat, n: nat, c: F, k: nat, next: nat)
    requires sn.Exact() && p.Valid() && m < p.M && n < p.N && next == k + 4 <= p.K && next % 4 == 0 && FoldsTo(sn, p, m, n, c, k)
    ensures FoldsTo(sn, p, m, n, c, next)
  {
    hide Operands.Fold, Operands.Step, Sense.Exact, Operands.Valid, Sum;
    FoldQuad(sn, p, m, n, c, k, next);
    QuadVal(sn, p, m, n, k);
    SumFour(Multiple(sn.val(p.alpha), RowByColumn(sn, p, m, n)), k);
  }

  lemma TailFolds(sn: Sense, p: Operands, m: nat, n: nat, c: F, k: nat, next: nat)
    requires sn.Exact() && p.Valid() && m < p.M && n < p.N && next == k + 1 <= p.K && next % 4 != 0 && FoldsTo(sn, p, m, n, c, k)
    ensures FoldsTo(sn, p, m, n, c, next)
  {
    hide Operands.Fold, Operands.Step, Sense.Exact, Operands.Valid;
    FoldTail(sn, p, m, n, c, k, next);
    TailVal(sn, p, m, n, k);
  }

  lemma NothingFolds(sn: Sense, p: Operands, m: nat, n: nat, c: F)
    requires p.Valid() && m < p.M && n < p.N
    ensures FoldsTo(sn, p, m, n, c, 0)
  {
  }

  lemma {:induction false} FoldVal(sn: Sense, p: Operands, m: nat, n: nat, c: F, k: nat)
    requires sn.Exact() && p.Valid() && m < p.M && n < p.N && k <= p.K
    ensures FoldsTo(sn, p, m, n, c, k)
  {
    hide *;
    if k == 0 {
      NothingFolds(sn, p, m, n, c);
    } else {
      if k % 4 == 0 {
        FoldVal(sn, p, m, n, c, k - 4);
        QuadFolds(sn, p, m, n, c, k - 4, k);
      } else {
        FoldVal(sn, p, m, n, c, k - 1);
        TailFolds(sn, p, m, n, c, k - 1, k);
      }
    }
  }

  /** An element ends as its old value plus alpha times row m of A times column n of B. */
  lemma FoldIsProduct(sn: Sense, p: Operands, m: nat, n: nat, c: F)
    requires sn.Exact() && p.Valid() && m < p.M && n < p.N
    ensures sn.val(p.Fold(m, n, c, p.K)) == sn.val(c) + sn.val(p.alpha) * Sum(RowByColumn(sn, p, m, n), p.K)
  {
    hide Operands.Fold, Sum, Sense.Exact;
    FoldVal(sn, p, m, n, c, p.K);
    SumScales(RowByColumn(sn, p, m, n), Multiple(sn.val(p.alpha), RowByColumn(sn, p, m, n)), sn.val(p.alpha), p.K);
  }

  // -------------------------------------------------------------------------- NT

  /** The products of a row of A with a stored row of B. */
  ghost function RowByRow(sn: Sense, a: seq<F>, b: seq<W>): (f: nat -> real)
    ensures forall k: nat :: k < |a| && k < |b| ==> f(k) == sn.val(Mul(a[k], OfStored(b[k])))
  {
    (k: nat) => if k < |a| && k < |b| then sn.val(Mul(a[k], OfStored(b[k]))) else 0.0
  }

  lemma {:induction false} CombineVal(sn: Sense, acc: seq<F>, n: nat)
    requires sn.Exact() && 1 <= n <= |acc|
    ensures sn.val(Combine(acc, n)) == Sum(Vals(sn, acc), n)
  {
    if n > 1 {
      CombineVal(sn, acc, n - 1);
    }
  }

  /** One lane gains x. */
  lemma {:induction false} LaneGains(sn: Sense, acc: seq<F>, acc': seq<F>, l: nat, x: F, n: nat)
    requires sn.Exact() && l < |acc| && n <= |acc| && acc' == acc[l := Add(acc[l], x)]
    ensures Sum(Vals(sn, acc'), n) == Sum(Vals(sn, acc), n) + if l < n then sn.val(x) else 0.0
  {
    if n > 0 {
      LaneGains(sn, acc, acc', l, x, n - 1);
    }
  }

  lemma {:induction false} LanesVal(sn: Sense, a: seq<F>, b: seq<W>, k: nat)
    requires sn.Exact() && k <= |a| && k <= |b|
    ensures Sum(Vals(sn, LanesAt(a, b, k)), LANES) == Sum(RowByRow(sn, a, b), k)
  {
    hide *;
    if k == 0 {
      EmptyLanes(sn, a, b);
    } else {
      LanesVal(sn, a, b, k - 1);
      LaneStep(sn, a, b, k - 1, k);
    }
  }

  lemma EmptyLanes(sn: Sense, a: seq<F>, b: seq<W>)
    requires sn.Exact()
    ensures Sum(Vals(sn, LanesAt(a, b, 0)), LANES) == Sum(RowByRow(sn, a, b), 0)
  {
    assert sn.val(ZERO) == 0.0;
    SumZero(Vals(sn, LanesAt(a, b, 0)), LANES);
  }

  lemma LaneStep(sn: Sense, a: seq<F>, b: seq<W>, k: nat, next: nat)
    requires sn.Exact() && next == k + 1 <= |a| && next <= |b|
    requires Sum(Vals(sn, LanesAt(a, b, k)), LANES) == Sum(RowByRow(sn, a, b), k)
    ensures Sum(Vals(sn, LanesAt(a, b, next)), LANES) == Sum(RowByRow(sn, a, b), next)
  {
    var acc := LanesAt(a, b, k);
    assert Sum(RowByRow(sn, a, b), next) == Sum(RowByRow(sn, a, b), k) + RowByRow(sn, a, b)(k);
    hide Sum, Sense.Exact;
    LaneGains(sn, acc, LanesAt(a, b, next), k % LANES, Mul(a[k], OfStored(b[k])), LANES);
  }

  /** The eight lanes add up to the inner product. */
  lemma LanesAddUp(sn: Sense, a: seq<F>, b: seq<W>)
    requires sn.Exact() && |a| == |b|
    ensures sn.val(GemmNT.Dot(a, b)) == Sum(RowByRow(sn, a, b), |a|)
  {
    hide Sum, Sense.Exact, LanesAt, Combine;
    CombineVal(sn, LanesAt(a, b, |a|), LANES);
    LanesVal(sn, a, b, |a|);
  }

  /** What RunGemmNT leaves at (m, n) is alpha times row m of A times row n of B. */
  lemma RowIsProduct(sn: Sense, p: NtOperands, m: nat, n: nat)
    requires sn.Exact() && p.Valid() && m < |p.a| && n < |p.b|
    ensures sn.val(p.Row(m)[n]) == sn.val(p.alpha) * Sum(RowByRow(sn, p.a[m], p.b[n]), p.K)
  {
    LanesAddUp(sn, p.a[m], p.b[n]);
    hide Sum, GemmNT.Dot;
    assert p.Row(m)[n] == Mul(p.alpha, GemmNT.Dot(p.a[m], p.b[n]));
  }
}
