// What causal attention computes over the reals: the forward pass is the softmax-weighted
// mean of the value rows, and the backward pass is its gradient.
module AttentionMeaning {
  import opened Scalar
  import opened Meaning
  import opened Attention
  import opened AttentionShape
  import opened AttentionKernels

  /** The elements of many rows, and how they move. */
  ghost function ValsOf(sn: Sense, rows: Rows): (x: (nat, nat) -> real)
    ensures forall j: nat, c: nat :: x(j, c) == if j < |rows| then Vals(sn, rows[j])(c) else 0.0
  {
    (j: nat, c: nat) => if j < |rows| then Vals(sn, rows[j])(c) else 0.0
  }

  ghost function DersOf(sn: Sense, rows: Rows): (x: (nat, nat) -> real)
    ensures forall j: nat, c: nat :: x(j, c) == if j < |rows| then Ders(sn, rows[j])(c) else 0.0
  {
    (j: nat, c: nat) => if j < |rows| then Ders(sn, rows[j])(c) else 0.0
  }

  /** The inner product of two rows, and of a row with the direction another one moves in. */
  ghost function Inner(sn: Sense, x: Row, y: Row): real { Sum(Products(Vals(sn, x), Vals(sn, y)), |x|) }

  ghost function Pairing(sn: Sense, x: Row, y: Row): real { Sum(Products(Vals(sn, x), Ders(sn, y)), |x|) }

  // ------------------------------------------------------------------- dots and sums

  lemma {:induction false} DotToVal(sn: Sense, x: Row, y: Row, n: nat)
    requires sn.Exact() && n <= |x| == |y|
    ensures sn.wide(DotTo(x, y, n)) == Sum(Products(Vals(sn, x), Vals(sn, y)), n)
  {
    if n > 0 {
      DotToVal(sn, x, y, n - 1);
    }
  }

  lemma {:induction false} DotToDer(sn: Sense, x: Row, y: Row, n: nat)
    requires sn.Exact() && sn.Calculus() && n <= |x| == |y|
    ensures sn.derWide(DotTo(x, y, n)) ==
      Sum(Products(Vals(sn, x), Ders(sn, y)), n) + Sum(Products(Vals(sn, y), Ders(sn, x)), n)
  {
    if n > 0 {
      DotToDer(sn, x, y, n - 1);
    }
  }

  lemma DotVal(sn: Sense, x: Row, y: Row)
    requires sn.Exact() && |x| == |y|
    ensures sn.val(Dot(x, y)) == Inner(sn, x, y)
  {
    DotToVal(sn, x, y, |x|);
  }

  lemma DotDer(sn: Sense, x: Row, y: Row)
    requires sn.Exact() && sn.Calculus() && |x| == |y|
    ensures sn.der(Dot(x, y)) == Pairing(sn, x, y) + Pairing(sn, y, x)
  {
    DotToDer(sn, x, y, |x|);
  }

  /** The coefficients from position lo on. */
  ghost function From(f: nat -> real, lo: nat): (h: nat -> real)
    ensures forall i: nat :: h(i) == if i < lo then 0.0 else f(i)
  {
    (i: nat) => if i < lo then 0.0 else f(i)
  }

  lemma {:induction false} WeightedVal(sn: Sense, coef: Row, rows: Rows, c: nat, lo: nat, n: nat)
    requires sn.Exact() && lo <= n <= |coef| && n <= |rows| && forall i :: lo <= i < n ==> c < |rows[i]|
    ensures sn.val(Weighted(coef, rows, c, lo, n)) == Sum(Products(From(Vals(sn, coef), lo), ColumnOf(ValsOf(sn, rows), c)), n)
  {
    if n == lo {
      SumZero(Products(From(Vals(sn, coef), lo), ColumnOf(ValsOf(sn, rows), c)), n);
    } else {
      WeightedVal(sn, coef, rows, c, lo, n - 1);
    }
  }

  lemma {:induction false} WeightedDer(sn: Sense, coef: Row, rows: Rows, c: nat, lo: nat, n: nat)
    requires sn.Exact() && sn.Calculus() && lo <= n <= |coef| && n <= |rows| && forall i :: lo <= i < n ==> c < |rows[i]|
    ensures sn.der(Weighted(coef, rows, c, lo, n)) ==
      Sum(Products(From(Ders(sn, coef), lo), ColumnOf(ValsOf(sn, rows), c)), n)
      + Sum(Products(From(Vals(sn, coef), lo), ColumnOf(DersOf(sn, rows), c)), n)
  {
    if n == lo {
      SumZero(Products(From(Ders(sn, coef), lo), ColumnOf(ValsOf(sn, rows), c)), n);
      SumZero(Products(From(Vals(sn, coef), lo), ColumnOf(DersOf(sn, rows), c)), n);
    } else {
      WeightedDer(sn, coef, rows, c, lo, n - 1);
    }
  }

  /** A weighted row mixes the rows. */
  lemma WeightedMixes(sn: Sense, coef: Row, rows: Rows, d: nat, lo: nat, n: nat, c: nat)
    requires sn.Exact() && lo <= n <= |coef| && n <= |rows| && AllWide(rows, d) && c < d
    ensures Vals(sn, WeightedRow(coef, rows, d, lo, n))(c) == Mixed(From(Vals(sn, coef), lo), ValsOf(sn, rows), n)(c)
  {
    WeightedVal(sn, coef, rows, c, lo, n);
  }

  lemma WeightedMoves(sn: Sense, coef: Row, rows: Rows, d: nat, lo: nat, n: nat, c: nat)
    requires sn.Exact() && sn.Calculus() && lo <= n <= |coef| && n <= |rows| && AllWide(rows, d) && c < d
    ensures Ders(sn, WeightedRow(coef, rows, d, lo, n))(c) ==
      Mixed(From(Ders(sn, coef), lo), ValsOf(sn, rows), n)(c) + Mixed(From(Vals(sn, coef), lo), DersOf(sn, rows), n)(c)
  {
    WeightedDer(sn, coef, rows, c, lo, n);
  }

  /** Vectors against a weighted row, row by row. */
  lemma WeightedAgainst(sn: Sense, coef: Row, rows: Rows, d: nat, lo: nat, n: nat, y: nat -> real)
    requires sn.Exact() && lo <= n <= |coef| && n <= |rows| && AllWide(rows, d)
    ensures Sum(Products(y, Vals(sn, WeightedRow(coef, rows, d, lo, n))), d) ==
      Sum(Products(From(Vals(sn, coef), lo), Against(y, ValsOf(sn, rows), d)), n)
  {
    hide *;
    var r, mixed := Vals(sn, WeightedRow(coef, rows, d, lo, n)), Mixed(From(Vals(sn, coef), lo), ValsOf(sn, rows), n);
    forall c: nat | c < d ensures Products(y, r)(c) == Products(y, mixed)(c) {
      WeightedMixes(sn, coef, rows, d, lo, n, c);
    }
    SumSame(Products(y, r), Products(y, mixed), d);
    MixedAgainst(From(Vals(sn, coef), lo), y, ValsOf(sn, rows), n, d);
  }

  lemma WeightedMovesAgainst(sn: Sense, coef: Row, rows: Rows, d: nat, lo: nat, n: nat, y: nat -> real)
    requires sn.Exact() && sn.Calculus() && lo <= n <= |coef| && n <= |rows| && AllWide(rows, d)
    ensures Sum(Products(y, Ders(sn, WeightedRow(coef, rows, d, lo, n))), d) ==
      Sum(Products(From(Ders(sn, coef), lo), Against(y, ValsOf(sn, rows), d)), n)
      + Sum(Products(From(Vals(sn, coef), lo), Against(y, DersOf(sn, rows), d)), n)
  {
    hide *;
    var r := Ders(sn, WeightedRow(coef, rows, d, lo, n));
    var m1, m2 := Mixed(From(Ders(sn, coef), lo), ValsOf(sn, rows), n), Mixed(From(Vals(sn, coef), lo), DersOf(sn, rows), n);
    forall c: nat | c < d ensures Products(y, r)(c) == Products(y, m1)(c) + Products(y, m2)(c) {
      WeightedMoves(sn, coef, rows, d, lo, n, c);
    }
    SumAdds(Products(y, m1), Products(y, m2), Products(y, r), d);
    MixedAgainst(From(Ders(sn, coef), lo), y, ValsOf(sn, rows), n, d);
    MixedAgainst(From(Vals(sn, coef), lo), y, DersOf(sn, rows), n, d);
  }

  // ------------------------------------------------------------ the forward pass

  /** The scale is one over the root of the head width. */
  lemma ScaleVal(sn: Sense, d: nat)
    requires sn.Exact() && sn.Roots() && d > 0
    ensures sn.val(ScaleOf(d)) > 0.0 && sn.val(ScaleOf(d)) * sn.val(ScaleOf(d)) * d as real == 1.0
  {
    var r := sn.sqrt(d as real);
    assert IsRoot(r, d as real);
    assert r > 0.0;
    assert sn.val(ScaleOf(d)) == 1.0 / r;
    InverseSquare(r, d as real, 1.0 / r);
  }

  lemma InverseSquare(r: real, x: real, s: real)
    requires r > 0.0 && r * r == x && s == 1.0 / r
    ensures s > 0.0 && s * s * x == 1.0
  {
    assert s * r == 1.0;
    assert s * s * x == (s * r) * (s * r);
  }

  lemma ScaleDer(sn: Sense, d: nat)
    requires sn.Exact() && sn.Calculus()
    ensures sn.der(ScaleOf(d)) == 0.0
  {
    assert sn.der(Sqrt(OfNat(d))) == 0.0;
  }

  /** A score is the scaled inner product of query and key. */
  lemma ScoreVal(sn: Sense, hd: Head, i: nat, j: nat)
    requires sn.Exact() && hd.Valid() && i < |hd.q| && j < |hd.q|
    ensures sn.val(hd.Score(i, j)) == Inner(sn, hd.q[i], hd.k[j]) * sn.val(ScaleOf(hd.d))
  {
    DotVal(sn, hd.q[i], hd.k[j]);
  }

  lemma ScoreDer(sn: Sense, hd: Head, i: nat, j: nat)
    requires sn.Exact() && sn.Calculus() && hd.Valid() && i < |hd.q| && j < |hd.q|
    ensures sn.der(hd.Score(i, j)) ==
      (Pairing(sn, hd.q[i], hd.k[j]) + Pairing(sn, hd.k[j], hd.q[i])) * sn.val(ScaleOf(hd.d))
  {
    DotDer(sn, hd.q[i], hd.k[j]);
    ScaleDer(sn, hd.d);
  }

  /** What the kernel subtracts is the greatest of the row's scores. */
  lemma {:induction false} MaxIsGreatest(sn: Sense, hd: Head, i: nat, n: nat)
    requires sn.Exact() && hd.Valid() && i < |hd.q| && 0 < n <= |hd.q|
    ensures forall j :: 0 <= j < n ==> sn.val(hd.Score(i, j)) <= sn.val(hd.MaxTo(i, n))
    ensures exists j :: 0 <= j < n && sn.val(hd.Score(i, j)) == sn.val(hd.MaxTo(i, n))
  {
    if n > 1 {
      MaxIsGreatest(sn, hd, i, n - 1);
    } else {
      assert hd.MaxTo(i, 0) == NegInf;
      assert sn.val(hd.Score(i, 0)) == sn.val(hd.MaxTo(i, 1));
    }
  }

  /** The exponentials of a row's scores as the kernel shifts them, the row's probabilities,
      and how scores, exponentials and probabilities move. */
  ghost function Exps(sn: Sense, hd: Head, i: nat): (f: nat -> real)
    requires hd.Valid() && i < |hd.q|
    ensures forall j: nat :: j < |hd.q| ==> f(j) == sn.val(hd.ExpScore(i, j))
  {
    (j: nat) => if j < |hd.q| then sn.val(hd.ExpScore(i, j)) else 0.0
  }

  ghost function DerExps(sn: Sense, hd: Head, i: nat): (f: nat -> real)
    requires hd.Valid() && i < |hd.q|
    ensures forall j: nat :: j < |hd.q| ==> f(j) == sn.der(hd.ExpScore(i, j))
  {
    (j: nat) => if j < |hd.q| then sn.der(hd.ExpScore(i, j)) else 0.0
  }

  ghost function DerScores(sn: Sense, hd: Head, i: nat): (f: nat -> real)
    requires hd.Valid() && i < |hd.q|
    ensures forall j: nat :: j < |hd.q| ==> f(j) == sn.der(hd.Score(i, j))
  {
    (j: nat) => if j < |hd.q| then sn.der(hd.Score(i, j)) else 0.0
  }

  lemma {:induction false} DenomVal(sn: Sense, hd: Head, i: nat, n: nat)
    requires sn.Exact() && hd.Valid() && i < |hd.q| && n <= |hd.q|
    ensures sn.wide(hd.DenomTo(i, n)) == Sum(Exps(sn, hd, i), n)
  {
    if n > 0 {
      DenomVal(sn, hd, i, n - 1);
    }
  }

  lemma {:induction false} DenomDer(sn: Sense, hd: Head, i: nat, n: nat)
    requires sn.Calculus() && hd.Valid() && i < |hd.q| && n <= |hd.q|
    ensures sn.derWide(hd.DenomTo(i, n)) == Sum(DerExps(sn, hd, i), n)
  {
    if n > 0 {
      DenomDer(sn, hd, i, n - 1);
    }
  }

  lemma Reciprocal(sn: Sense, d: D)
    requires sn.Exact()
    ensures sn.val(Div(ONE, Narrow(d))) == Quotient(1.0, sn.wide(d))
  {
  }

  /** How one over a sum moves when the sum does. */
  ghost function ReciprocalSlope(sum: real, move: real): real { Quotient(-move, sum * sum) }

  lemma ReciprocalDer(sn: Sense, d: D)
    requires sn.Exact() && sn.Calculus()
    ensures sn.der(Div(ONE, Narrow(d))) == ReciprocalSlope(sn.wide(d), sn.derWide(d))
  {
    OverNarrow(sn, Narrow(d));
    hide ReciprocalSlope;
  }

  lemma OverNarrow(sn: Sense, x: F)
    requires sn.Exact() && sn.Calculus()
    ensures sn.der(Div(ONE, x)) == ReciprocalSlope(sn.val(x), sn.der(x))
  {
    assert sn.der(ONE) == 0.0 && sn.val(ONE) == 1.0;
    assert sn.der(ONE) * sn.val(x) - sn.val(ONE) * sn.der(x) == -sn.der(x);
  }

  lemma InvDenomVal(sn: Sense, hd: Head, i: nat, n: nat)
    requires sn.Exact() && hd.Valid() && i < |hd.q| && n == i + 1
    ensures sn.val(hd.InvDenom(i)) == Quotient(1.0, Sum(Exps(sn, hd, i), n))
  {
    hide Head.DenomTo, Sense.Exact, Sum;
    DenomVal(sn, hd, i, n);
    Reciprocal(sn, hd.DenomTo(i, n));
  }

  lemma InvDenomDer(sn: Sense, hd: Head, i: nat, n: nat)
    requires sn.Exact() && sn.Calculus() && hd.Valid() && i < |hd.q| && n == i + 1
    ensures sn.der(hd.InvDenom(i)) == ReciprocalSlope(Sum(Exps(sn, hd, i), n), Sum(DerExps(sn, hd, i), n))
  {
    hide Head.DenomTo, Sense.Exact, Sense.Calculus, Sum, ReciprocalSlope;
    DenomVal(sn, hd, i, n);
    DenomDer(sn, hd, i, n);
    ReciprocalDer(sn, hd.DenomTo(i, n));
  }

  lemma ExpVal(sn: Sense, hd: Head, i: nat, j: nat)
    requires sn.Exact() && sn.Positive() && hd.Valid() && i < |hd.q| && j < |hd.q|
    ensures Exps(sn, hd, i)(j) > 0.0
  {
  }

  lemma ProbVal(sn: Sense, hd: Head, i: nat, j: nat)
    requires sn.Exact() && hd.Valid() && i < |hd.q| && j < |hd.q|
    ensures Vals(sn, hd.PRow(i))(j) == if j <= i then Exps(sn, hd, i)(j) * sn.val(hd.InvDenom(i)) else 0.0
  {
    assert hd.PRow(i)[j] == hd.P(i, j);
  }

  lemma RowNormalised(sn: Sense, hd: Head, i: nat, n: nat)
    requires sn.Exact() && sn.Positive() && hd.Valid() && i < |hd.q| && n == i + 1
    ensures forall j: nat :: j < n ==> Exps(sn, hd, i)(j) > 0.0
    ensures forall j: nat :: j < n ==> Vals(sn, hd.PRow(i))(j) == Exps(sn, hd, i)(j) * sn.val(hd.InvDenom(i))
    ensures forall j: nat :: n <= j < |hd.q| ==> Vals(sn, hd.PRow(i))(j) == 0.0
  {
    hide *;
    forall j: nat | j < n ensures Exps(sn, hd, i)(j) > 0.0 {
      ExpVal(sn, hd, i, j);
    }
    forall j: nat | j < |hd.q|
      ensures Vals(sn, hd.PRow(i))(j) == if j < n then Exps(sn, hd, i)(j) * sn.val(hd.InvDenom(i)) else 0.0
    {
      ProbVal(sn, hd, i, j);
    }
  }

  /** Positive numbers over their sum are positive and add up to one. */
  lemma Normalised(e: nat -> real, p: nat -> real, inv: real, n: nat, m: nat)
    requires 0 < n <= m && inv == Quotient(1.0, Sum(e, n)) && forall j: nat :: j < n ==> e(j) > 0.0
    requires forall j: nat :: j < n ==> p(j) == e(j) * inv
    requires forall j: nat :: n <= j < m ==> p(j) == 0.0
    ensures Sum(e, n) > 0.0 && inv > 0.0 && inv * Sum(e, n) == 1.0
    ensures Sum(p, m) == Sum(p, n) == 1.0 && forall j: nat :: j < n ==> p(j) > 0.0
  {
    hide Sum, Quotient;
    SumPositive(e, n);
    InverseOf(Sum(e, n), inv);
    SumScales(e, p, inv, n);
    SumStops(p, n, m);
    forall j: nat | j < n ensures p(j) > 0.0 {
      TimesPositive(e(j), inv);
    }
  }

  lemma InverseOf(sum: real, inv: real)
    requires sum > 0.0 && inv == Quotient(1.0, sum)
    ensures inv > 0.0 && inv * sum == 1.0
  {
  }

  lemma TimesPositive(a: real, b: real)
    requires a > 0.0 && b > 0.0
    ensures a * b > 0.0
  {
  }

  /** Every causal probability row is positive, zero where masked, and adds up to one. */
  lemma RowIsDistribution(sn: Sense, hd: Head, i: nat)
    requires sn.Exact() && sn.Positive() && hd.Valid() && i < |hd.q|
    ensures forall j: nat :: j < |hd.q| ==> if j <= i then Vals(sn, hd.PRow(i))(j) > 0.0 else Vals(sn, hd.PRow(i))(j) == 0.0
    ensures Sum(Vals(sn, hd.PRow(i)), |hd.q|) == Sum(Vals(sn, hd.PRow(i)), i + 1) == 1.0
  {
    hide *;
    InvDenomVal(sn, hd, i, i + 1);
    RowNormalised(sn, hd, i, i + 1);
    Normalised(Exps(sn, hd, i), Vals(sn, hd.PRow(i)), sn.val(hd.InvDenom(i)), i + 1, |hd.q|);
  }

  /** The exponentials of the scores themselves. */
  ghost function ScoreExps(sn: Sense, hd: Head, i: nat): (f: nat -> real)
    requires hd.Valid() && i < |hd.q|
    ensures forall j: nat :: j < |hd.q| ==> f(j) == sn.exp(sn.val(hd.Score(i, j)))
  {
    (j: nat) => if j < |hd.q| then sn.exp(sn.val(hd.Score(i, j))) else 0.0
  }

  lemma Unshifted(sn: Sense, hd: Head, i: nat, j: nat)
    requires sn.Exact() && sn.Exponential() && hd.Valid() && i < |hd.q| && j < |hd.q|
    ensures ScoreExps(sn, hd, i)(j) == sn.exp(sn.val(hd.RowMax(i))) * Exps(sn, hd, i)(j)
  {
    assert sn.Adds(sn.val(hd.Score(i, j)) - sn.val(hd.RowMax(i)), sn.val(hd.RowMax(i)));
  }

  lemma ExpPositive(sn: Sense, x: real)
    requires sn.Exponential()
    ensures sn.Positive() && sn.exp(x) > 0.0
  {
  }

  /** It is the softmax of the scores: the maximum the kernel subtracts does not show. */
  lemma RowIsSoftmax(sn: Sense, hd: Head, i: nat, j: nat)
    requires sn.Exact() && sn.Exponential() && hd.Valid() && j <= i < |hd.q|
    ensures Sum(ScoreExps(sn, hd, i), i + 1) > 0.0
    ensures Vals(sn, hd.PRow(i))(j) == ScoreExps(sn, hd, i)(j) / Sum(ScoreExps(sn, hd, i), i + 1)
  {
    hide *;
    var m := sn.exp(sn.val(hd.RowMax(i)));
    ExpPositive(sn, sn.val(hd.RowMax(i)));
    InvDenomVal(sn, hd, i, i + 1);
    RowNormalised(sn, hd, i, i + 1);
    forall l: nat | l < i + 1 ensures ScoreExps(sn, hd, i)(l) == m * Exps(sn, hd, i)(l) {
      Unshifted(sn, hd, i, l);
    }
    Shifted(Exps(sn, hd, i), Vals(sn, hd.PRow(i)), sn.val(hd.InvDenom(i)), ScoreExps(sn, hd, i), m, i + 1, j);
  }

  lemma Shifted(e: nat -> real, p: nat -> real, inv: real, e': nat -> real, m: real, n: nat, j: nat)
    requires j < n && inv == Quotient(1.0, Sum(e, n)) && m > 0.0
    requires forall l: nat :: l < n ==> e(l) > 0.0 && p(l) == e(l) * inv && e'(l) == m * e(l)
    ensures Sum(e', n) > 0.0 && p(j) == e'(j) / Sum(e', n)
  {
    Normalised(e, p, inv, n, n);
    SumScales(e, e', m, n);
    TimesPositive(m, Sum(e, n));
    SameRatio(e(j), inv, Sum(e, n), m, e'(j), Sum(e', n));
  }

  lemma SameRatio(e: real, inv: real, sum: real, m: real, e': real, sum': real)
    requires inv * sum == 1.0 && e' == m * e && sum' == m * sum && sum' > 0.0
    ensures e * inv == e' / sum'
  {
    assert e * inv * sum' == m * e * (inv * sum);
  }

  lemma HeadShape(hd: Head)
    requires hd.Valid()
    ensures |hd.q| == |hd.k| == |hd.v| && AllWide(hd.q, hd.d) && AllWide(hd.k, hd.d) && AllWide(hd.v, hd.d)
  {
  }

  lemma OutputRow(hd: Head, i: nat)
    requires hd.Valid() && i < |hd.q|
    ensures hd.ORow(i) == WeightedRow(hd.PRow(i), hd.v, hd.d, 0, i + 1)
  {
  }

  /** An output row is the mean of the value rows 0..i, weighted by the row's probabilities. */
  lemma OutputIsMean(sn: Sense, hd: Head, i: nat, c: nat)
    requires sn.Exact() && hd.Valid() && i < |hd.q| && c < hd.d
    ensures Vals(sn, hd.ORow(i))(c) == Sum(Products(Vals(sn, hd.PRow(i)), ColumnOf(ValsOf(sn, hd.v), c)), i + 1)
  {
    hide *;
    HeadShape(hd);
    OutputRow(hd, i);
    var p, x := Vals(sn, hd.PRow(i)), ColumnOf(ValsOf(sn, hd.v), c);
    WeightedMixes(sn, hd.PRow(i), hd.v, hd.d, 0, i + 1, c);
    SumSame(Products(From(p, 0), x), Products(p, x), i + 1);
  }

  lemma MultipleSum(a: real, p: nat -> real, n: nat)
    requires Sum(p, n) == 1.0
    ensures Sum(Multiple(a, p), n) == a
  {
    SumScales(p, Multiple(a, p), a, n);
  }

  lemma TimesBetween(p: real, lo: real, x: real, hi: real)
    requires p > 0.0 && lo <= x <= hi
    ensures lo * p <= p * x <= hi * p
  {
  }

  /** A mean lies between the bounds of what it is the mean of. */
  lemma MeanBetween(p: nat -> real, x: nat -> real, lo: real, hi: real, n: nat)
    requires Sum(p, n) == 1.0 && forall j: nat :: j < n ==> p(j) > 0.0 && lo <= x(j) <= hi
    ensures lo <= Sum(Products(p, x), n) <= hi
  {
    hide *;
    MultipleSum(lo, p, n);
    MultipleSum(hi, p, n);
    forall j: nat | j < n ensures Multiple(lo, p)(j) <= Products(p, x)(j) <= Multiple(hi, p)(j) {
      TimesBetween(p(j), lo, x(j), hi);
    }
    SumBetween(Products(p, x), Multiple(lo, p), Multiple(hi, p), n);
  }

  /** So it stays within the bounds of the values it may look at. */
  lemma OutputBetween(sn: Sense, hd: Head, i: nat, c: nat, lo: real, hi: real)
    requires sn.Exact() && sn.Positive() && hd.Valid() && i < |hd.q| && c < hd.d
    requires forall j: nat :: j <= i ==> lo <= ValsOf(sn, hd.v)(j, c) <= hi
    ensures lo <= Vals(sn, hd.ORow(i))(c) <= hi
  {
    hide *;
    OutputIsMean(sn, hd, i, c);
    RowIsDistribution(sn, hd, i);
    MeanBetween(Vals(sn, hd.PRow(i)), ColumnOf(ValsOf(sn, hd.v), c), lo, hi, i + 1);
  }

  // -------------------------------------------------- how the probabilities move

  /** A weight times what a value has above a reference. */
  ghost function Rise(p: real, x: real, mean: real): real { p * (x - mean) }

  ghost function ProductRule(a: real, da: real, b: real, db: real): real { da * b + a * db }

  lemma ExpDer(sn: Sense, hd: Head, i: nat, j: nat)
    requires sn.Exact() && sn.Calculus() && hd.Valid() && i < |hd.q| && j < |hd.q|
    ensures DerExps(sn, hd, i)(j) == Rise(Exps(sn, hd, i)(j), DerScores(sn, hd, i)(j), sn.der(hd.RowMax(i)))
  {
  }

  lemma ProbDer(sn: Sense, hd: Head, i: nat, j: nat)
    requires sn.Exact() && sn.Calculus() && hd.Valid() && j <= i < |hd.q|
    ensures Ders(sn, hd.PRow(i))(j) ==
      ProductRule(Exps(sn, hd, i)(j), DerExps(sn, hd, i)(j), sn.val(hd.InvDenom(i)), sn.der(hd.InvDenom(i)))
  {
    hide *;
    ProbIs(hd, i, j);
    TimesDer(sn, hd.ExpScore(i, j), hd.InvDenom(i));
  }

  lemma ProbIs(hd: Head, i: nat, j: nat)
    requires hd.Valid() && i < |hd.q| && j < |hd.q|
    ensures hd.PRow(i)[j] == if j <= i then Mul(hd.ExpScore(i, j), hd.InvDenom(i)) else ZERO
  {
  }

  lemma TimesDer(sn: Sense, a: F, b: F)
    requires sn.Exact() && sn.Calculus()
    ensures sn.der(Mul(a, b)) == ProductRule(sn.val(a), sn.der(a), sn.val(b), sn.der(b))
  {
  }

  /** A softmax moves by p(j) times what its score moves above the mean. The shift dm, common to
      all scores, drops out. */
  lemma SoftmaxMoves(e: nat -> real, de: nat -> real, p: nat -> real, dp: nat -> real, ds: nat -> real, dm: real,
                     inv: real, dinv: real, n: nat)
    requires n > 0 && inv == Quotient(1.0, Sum(e, n)) && dinv == ReciprocalSlope(Sum(e, n), Sum(de, n))
    requires forall j: nat :: j < n ==> e(j) > 0.0 && p(j) == e(j) * inv
    requires forall j: nat :: j < n ==> de(j) == Rise(e(j), ds(j), dm) && dp(j) == ProductRule(e(j), de(j), inv, dinv)
    ensures forall j: nat :: j < n ==> dp(j) == Rise(p(j), ds(j), Sum(Products(p, ds), n))
  {
    hide Sum, ReciprocalSlope, ProductRule, Quotient;
    var mean := Sum(Products(p, ds), n);
    MeanMove(e, de, p, ds, dm, inv, n);
    SlopeIs(Sum(e, n), Sum(de, n), inv, mean - dm);
    forall j: nat | j < n ensures dp(j) == Rise(p(j), ds(j), mean) {
      MovedTwice(e(j), inv, p(j), ds(j), dm, de(j), dinv, mean);
    }
  }

  lemma MeanMove(e: nat -> real, de: nat -> real, p: nat -> real, ds: nat -> real, dm: real, inv: real, n: nat)
    requires n > 0 && inv == Quotient(1.0, Sum(e, n))
    requires forall j: nat :: j < n ==> e(j) > 0.0 && p(j) == e(j) * inv && de(j) == Rise(e(j), ds(j), dm)
    ensures Sum(e, n) > 0.0 && inv * Sum(e, n) == 1.0
    ensures inv * Sum(de, n) == Sum(Products(p, ds), n) - dm
  {
    hide *;
    Normalised(e, p, inv, n, n);
    forall j: nat | j < n ensures Multiple(inv, de)(j) == Products(p, ds)(j) + -dm * p(j) {
      MovedOnce(e(j), inv, p(j), ds(j), dm, de(j));
    }
    SumCombines(Products(p, ds), p, Multiple(inv, de), -dm, n);
    SumScales(de, Multiple(inv, de), inv, n);
  }

  lemma MovedOnce(e: real, inv: real, p: real, ds: real, dm: real, de: real)
    requires p == e * inv && de == Rise(e, ds, dm)
    ensures inv * de == p * ds + -dm * p
  {
    assert inv * de == (e * inv) * (ds - dm);
  }

  lemma SlopeIs(sum: real, move: real, inv: real, m: real)
    requires sum > 0.0 && inv * sum == 1.0 && inv * move == m
    ensures ReciprocalSlope(sum, move) == -m * inv
  {
    assert sum * sum > 0.0;
    assert (-m * inv) * (sum * sum) == -move by {
      assert (-m * inv) * (sum * sum) == -m * sum * (inv * sum);
      assert m * sum == move * (inv * sum);
    }
    var q := -move / (sum * sum);
    assert q * (sum * sum) == -move;
    SameFactor(q, -m * inv, sum * sum);
  }

  lemma SameFactor(a: real, b: real, c: real)
    requires c > 0.0 && a * c == b * c
    ensures a == b
  {
    assert (a - b) * c == 0.0;
  }

  lemma MovedTwice(e: real, inv: real, p: real, ds: real, dm: real, de: real, dinv: real, mean: real)
    requires p == e * inv && de == Rise(e, ds, dm) && dinv == -(mean - dm) * inv
    ensures ProductRule(e, de, inv, dinv) == Rise(p, ds, mean)
  {
    assert de * inv == p * (ds - dm);
    assert e * dinv == -(p * (mean - dm));
  }

  /** How far the mean of a row's scores moves. */
  ghost function MeanMoves(sn: Sense, hd: Head, i: nat): real
    requires hd.Valid() && i < |hd.q|
  {
    Sum(Products(Vals(sn, hd.PRow(i)), DerScores(sn, hd, i)), i + 1)
  }

  /** Every probability of a causal row, along the direction the inputs move in. */
  lemma RowMoves(sn: Sense, hd: Head, i: nat, n: nat)
    requires sn.Exact() && sn.Calculus() && sn.Positive() && hd.Valid() && i < |hd.q| && n == i + 1
    ensures forall j: nat :: j < n ==>
      Ders(sn, hd.PRow(i))(j) == Rise(Vals(sn, hd.PRow(i))(j), DerScores(sn, hd, i)(j), MeanMoves(sn, hd, i))
  {
    hide *;
    MeanMovesIs(sn, hd, i, n);
    InvDenomVal(sn, hd, i, n);
    InvDenomDer(sn, hd, i, n);
    RowNormalised(sn, hd, i, n);
    forall j: nat | j < n
      ensures DerExps(sn, hd, i)(j) == Rise(Exps(sn, hd, i)(j), DerScores(sn, hd, i)(j), sn.der(hd.RowMax(i)))
      ensures Ders(sn, hd.PRow(i))(j) ==
        ProductRule(Exps(sn, hd, i)(j), DerExps(sn, hd, i)(j), sn.val(hd.InvDenom(i)), sn.der(hd.InvDenom(i)))
    {
      ExpDer(sn, hd, i, j);
      ProbDer(sn, hd, i, j);
    }
    SoftmaxMoves(Exps(sn, hd, i), DerExps(sn, hd, i), Vals(sn, hd.PRow(i)), Ders(sn, hd.PRow(i)), DerScores(sn, hd, i),
                 sn.der(hd.RowMax(i)), sn.val(hd.InvDenom(i)), sn.der(hd.InvDenom(i)), n);
  }

  lemma MeanMovesIs(sn: Sense, hd: Head, i: nat, n: nat)
    requires hd.Valid() && i < |hd.q| && n == i + 1
    ensures MeanMoves(sn, hd, i) == Sum(Products(Vals(sn, hd.PRow(i)), DerScores(sn, hd, i)), n)
  {
  }

  // ----------------------------------------------------------- the backward pass

  lemma {:induction false} RowSumVal(sn: Sense, dp: Row, p: Row, n: nat)
    requires sn.Exact() && n <= |dp| && n <= |p|
    ensures sn.wide(RowSumTo(dp, p, n)) == Sum(Products(Vals(sn, dp), Vals(sn, p)), n)
  {
    if n > 0 {
      RowSumVal(sn, dp, p, n - 1);
      SkipVal(sn, RowSumTo(dp, p, n - 1), dp[n - 1], p[n - 1]);
    }
  }

  /** Leaving out a product of two zeros changes no value. */
  lemma SkipVal(sn: Sense, acc: D, x: F, y: F)
    requires sn.Exact()
    ensures sn.wide(Accumulate(acc, DMul(Widen(x), Widen(y)))) == sn.wide(acc) + sn.val(x) * sn.val(y)
  {
    assert sn.val(ZERO) == 0.0;
  }

  /** The gradient of the output fits the head. */
  ghost predicate Upstream(hd: Head, g: Rows) { hd.Valid() && |g| == |hd.q| && AllWide(g, hd.d) }

  /** The gradients of a row's probabilities, and the score gradients the kernels compute from them. */
  ghost function Up(sn: Sense, hd: Head, g: Rows, i: nat): (f: nat -> real)
    requires Upstream(hd, g) && i < |hd.q|
  {
    Vals(sn, DProbRow(g, hd.v, hd.d, i))
  }

  ghost function Back(sn: Sense, hd: Head, g: Rows, i: nat): (f: nat -> real)
    requires Upstream(hd, g) && i < |hd.q|
  {
    Vals(sn, hd.DSRows(g)[i])
  }

  lemma UpstreamShape(hd: Head, g: Rows, i: nat)
    requires Upstream(hd, g) && i < |hd.q|
    ensures hd.Valid() && |g| == |hd.q| && |g[i]| == |hd.q[i]| == |hd.k[i]| == |hd.v[i]| == hd.d
  {
  }

  lemma UpstreamWide(hd: Head, g: Rows)
    requires Upstream(hd, g)
    ensures AllWide(g, hd.d)
  {
  }

  lemma RowDelta(sn: Sense, dp: Row, p: Row)
    requires sn.Exact() && |dp| == |p|
    ensures sn.val(Narrow(RowSumTo(dp, p, |p|))) == Sum(Products(Vals(sn, dp), Vals(sn, p)), |p|)
  {
    RowSumVal(sn, dp, p, |p|);
  }

  lemma SoftmaxBwdVal(sn: Sense, p: Row, dp: Row, c: nat)
    requires sn.Exact() && |p| == |dp| && c < |p|
    ensures Vals(sn, SoftmaxBwdRow(p, dp))(c) == Rise(Vals(sn, p)(c), Vals(sn, dp)(c), sn.val(Narrow(RowSumTo(dp, p, |p|))))
  {
    hide Sense.Exact, RowSumTo, Rise;
    GapVal(sn, p[c], dp[c], Narrow(RowSumTo(dp, p, |p|)));
  }

  lemma GapVal(sn: Sense, p: F, dp: F, sum: F)
    requires sn.Exact()
    ensures sn.val(Mul(p, Sub(dp, sum))) == Rise(sn.val(p), sn.val(dp), sn.val(sum))
  {
  }

  lemma BackIs(sn: Sense, hd: Head, g: Rows, i: nat)
    requires Upstream(hd, g) && i < |hd.q|
    ensures |DProbRow(g, hd.v, hd.d, i)| == |hd.PRow(i)| == |hd.q|
    ensures Up(sn, hd, g, i) == Vals(sn, DProbRow(g, hd.v, hd.d, i))
    ensures Back(sn, hd, g, i) == Vals(sn, SoftmaxBwdRow(hd.PRow(i), DProbRow(g, hd.v, hd.d, i)))
  {
  }

  lemma BackVal(sn: Sense, hd: Head, g: Rows, i: nat, j: nat)
    requires sn.Exact() && Upstream(hd, g) && i < |hd.q| && j < |hd.q|
    ensures Back(sn, hd, g, i)(j) ==
      Rise(Vals(sn, hd.PRow(i))(j), Up(sn, hd, g, i)(j), Sum(Products(Up(sn, hd, g, i), Vals(sn, hd.PRow(i))), |hd.q|))
  {
    hide *;
    UpstreamShape(hd, g, i);
    HeadShape(hd);
    UpstreamWide(hd, g);
    BackIs(sn, hd, g, i);
    RowDelta(sn, DProbRow(g, hd.v, hd.d, i), hd.PRow(i));
    SoftmaxBwdVal(sn, hd.PRow(i), DProbRow(g, hd.v, hd.d, i), j);
  }

  lemma DeltaStops(sn: Sense, hd: Head, g: Rows, i: nat, n: nat)
    requires sn.Exact() && Upstream(hd, g) && i < |hd.q| && n == i + 1
    ensures Sum(Products(Up(sn, hd, g, i), Vals(sn, hd.PRow(i))), |hd.q|) == Sum(Products(Up(sn, hd, g, i), Vals(sn, hd.PRow(i))), n)
  {
    hide *;
    UpstreamShape(hd, g, i);
    var up, p := Up(sn, hd, g, i), Vals(sn, hd.PRow(i));
    forall j: nat | n <= j < |hd.q| ensures Products(up, p)(j) == 0.0 {
      ProbVal(sn, hd, i, j);
    }
    SumStops(Products(up, p), n, |hd.q|);
  }

  /** Every row of score gradients adds up to zero. */
  lemma BackSumsToZero(sn: Sense, hd: Head, g: Rows, i: nat)
    requires sn.Exact() && sn.Positive() && Upstream(hd, g) && i < |hd.q|
    ensures Sum(Back(sn, hd, g, i), |hd.q|) == 0.0
  {
    hide *;
    UpstreamShape(hd, g, i);
    var up, p, back := Up(sn, hd, g, i), Vals(sn, hd.PRow(i)), Back(sn, hd, g, i);
    RowIsDistribution(sn, hd, i);
    forall j: nat | j < |hd.q| ensures back(j) == Rise(p(j), up(j), Sum(Products(up, p), |hd.q|)) {
      BackVal(sn, hd, g, i, j);
    }
    RisesCancel(p, up, back, Sum(Products(up, p), |hd.q|), |hd.q|);
  }

  lemma RisesCancel(p: nat -> real, x: nat -> real, r: nat -> real, mean: real, n: nat)
    requires Sum(p, n) == 1.0 && mean == Sum(Products(x, p), n)
    requires forall j: nat :: j < n ==> r(j) == Rise(p(j), x(j), mean)
    ensures Sum(r, n) == 0.0
  {
    SumCombines(Products(x, p), p, r, -mean, n);
  }

  /** Against the gradient of the probabilities a softmax moves as the scores do against the
      score gradients. */
  lemma SoftmaxAdjoint(p: nat -> real, up: nat -> real, ds: nat -> real, dp: nat -> real, back: nat -> real, n: nat)
    requires forall j: nat :: j < n ==> dp(j) == Rise(p(j), ds(j), Sum(Products(p, ds), n))
    requires forall j: nat :: j < n ==> back(j) == Rise(p(j), up(j), Sum(Products(up, p), n))
    ensures Sum(Products(up, dp), n) == Sum(Products(back, ds), n)
  {
    hide *;
    var mean, delta, t := Sum(Products(p, ds), n), Sum(Products(up, p), n), Products(Products(up, p), ds);
    forall j: nat | j < n
      ensures Products(up, dp)(j) == t(j) + -mean * Products(up, p)(j)
      ensures Products(back, ds)(j) == t(j) + -delta * Products(p, ds)(j)
    {
      RiseTimes(p(j), ds(j), mean, up(j));
      RiseTimes(p(j), up(j), delta, ds(j));
    }
    SumCombines(t, Products(up, p), Products(up, dp), -mean, n);
    SumCombines(t, Products(p, ds), Products(back, ds), -delta, n);
  }

  lemma RiseTimes(p: real, x: real, mean: real, y: real)
    ensures y * Rise(p, x, mean) == (y * p) * x + -mean * (y * p)
    ensures Rise(p, x, mean) * y == (x * p) * y + -mean * (p * y)
  {
    assert y * Rise(p, x, mean) == (y * p) * (x - mean);
  }

  lemma UpVal(sn: Sense, hd: Head, g: Rows, i: nat, j: nat)
    requires sn.Exact() && Upstream(hd, g) && j <= i < |hd.q|
    ensures Up(sn, hd, g, i)(j) == Inner(sn, g[i], hd.v[j])
  {
    DotVal(sn, g[i], hd.v[j]);
  }

  lemma AgainstVal(sn: Sense, y: Row, rows: Rows, d: nat, j: nat)
    requires j < |rows| && |y| == d
    ensures Against(Vals(sn, y), ValsOf(sn, rows), d)(j) == Inner(sn, y, rows[j])
    ensures Against(Vals(sn, y), DersOf(sn, rows), d)(j) == Pairing(sn, y, rows[j])
  {
    SumSame(Products(Vals(sn, y), RowOf(ValsOf(sn, rows), j)), Products(Vals(sn, y), Vals(sn, rows[j])), d);
    SumSame(Products(Vals(sn, y), RowOf(DersOf(sn, rows), j)), Products(Vals(sn, y), Ders(sn, rows[j])), d);
  }

  lemma AgainstDer(sn: Sense, y: Row, rows: Rows, d: nat, j: nat)
    requires j < |rows| && |rows[j]| == d
    ensures Against(Ders(sn, y), ValsOf(sn, rows), d)(j) == Pairing(sn, rows[j], y)
  {
    SumSame(Products(Ders(sn, y), RowOf(ValsOf(sn, rows), j)), Products(Vals(sn, rows[j]), Ders(sn, y)), d);
  }

  /** A row of the loss's gradient against how the output row moves: through the scores, by the score
      gradients, and through the values. */
  ghost function Passed(sn: Sense, hd: Head, g: Rows, i: nat): (f: nat -> real)
    requires Upstream(hd, g) && i < |hd.q|
  {
    Against(Vals(sn, g[i]), DersOf(sn, hd.v), hd.d)
  }

  lemma OutputMoves(sn: Sense, hd: Head, g: Rows, i: nat, n: nat)
    requires sn.Exact() && sn.Calculus() && Upstream(hd, g) && i < |hd.q| && n == i + 1
    ensures Pairing(sn, g[i], hd.ORow(i)) ==
      Sum(Products(Up(sn, hd, g, i), Ders(sn, hd.PRow(i))), n) + Sum(Products(Vals(sn, hd.PRow(i)), Passed(sn, hd, g, i)), n)
  {
    hide *;
    UpstreamShape(hd, g, i);
    var y, p, dp := Vals(sn, g[i]), Vals(sn, hd.PRow(i)), Ders(sn, hd.PRow(i));
    HeadShape(hd);
    OutputRow(hd, i);
    WeightedMovesAgainst(sn, hd.PRow(i), hd.v, hd.d, 0, n, y);
    forall j: nat | j < n
      ensures Products(From(dp, 0), Against(y, ValsOf(sn, hd.v), hd.d))(j) == Products(Up(sn, hd, g, i), dp)(j)
    {
      UpVal(sn, hd, g, i, j);
      AgainstVal(sn, g[i], hd.v, hd.d, j);
    }
    SumSame(Products(From(dp, 0), Against(y, ValsOf(sn, hd.v), hd.d)), Products(Up(sn, hd, g, i), dp), n);
    SumSame(Products(From(p, 0), Against(y, DersOf(sn, hd.v), hd.d)), Products(p, Against(y, DersOf(sn, hd.v), hd.d)), n);
    PairingIs(sn, g[i], hd.ORow(i), hd.d);
    PassedIs(sn, hd, g, i);
  }

  lemma PairingIs(sn: Sense, x: Row, y: Row, d: nat)
    requires |x| == d
    ensures Pairing(sn, x, y) == Sum(Products(Vals(sn, x), Ders(sn, y)), d)
  {
  }

  lemma PassedIs(sn: Sense, hd: Head, g: Rows, i: nat)
    requires Upstream(hd, g) && i < |hd.q|
    ensures Passed(sn, hd, g, i) == Against(Vals(sn, g[i]), DersOf(sn, hd.v), hd.d)
  {
  }

  /** One output row. */
  lemma RowGradient(sn: Sense, hd: Head, g: Rows, i: nat, n: nat)
    requires sn.Exact() && sn.Calculus() && sn.Positive() && Upstream(hd, g) && i < |hd.q| && n == i + 1
    ensures Pairing(sn, g[i], hd.ORow(i)) ==
      Sum(Products(Back(sn, hd, g, i), DerScores(sn, hd, i)), n) + Sum(Products(Vals(sn, hd.PRow(i)), Passed(sn, hd, g, i)), n)
  {
    hide *;
    UpstreamShape(hd, g, i);
    var up, p, dp, ds, back := Up(sn, hd, g, i), Vals(sn, hd.PRow(i)), Ders(sn, hd.PRow(i)), DerScores(sn, hd, i), Back(sn, hd, g, i);
    OutputMoves(sn, hd, g, i, n);
    RowMoves(sn, hd, i, n);
    MeanMovesIs(sn, hd, i, n);
    DeltaStops(sn, hd, g, i, n);
    forall j: nat | j < n ensures back(j) == Rise(p(j), up(j), Sum(Products(up, p), n)) {
      BackVal(sn, hd, g, i, j);
    }
    SoftmaxAdjoint(p, up, ds, dp, back, n);
  }

  /** The three ways a movement reaches output row i through position j: by the query row, by the
      key row and by the value row. */
  ghost function QTerm(sn: Sense, hd: Head, g: Rows, i: nat, j: nat): real
    requires Upstream(hd, g) && i < |hd.q| && j < |hd.q|
  {
    UpstreamShape(hd, g, i);
    Back(sn, hd, g, i)(j) * sn.val(ScaleOf(hd.d)) * Pairing(sn, hd.k[j], hd.q[i])
  }

  ghost function KTerm(sn: Sense, hd: Head, g: Rows, i: nat, j: nat): real
    requires Upstream(hd, g) && i < |hd.q| && j < |hd.q|
  {
    UpstreamShape(hd, g, i);
    Back(sn, hd, g, i)(j) * sn.val(ScaleOf(hd.d)) * Pairing(sn, hd.q[i], hd.k[j])
  }

  ghost function VTerm(sn: Sense, hd: Head, g: Rows, i: nat, j: nat): real
    requires Upstream(hd, g) && i < |hd.q| && j < |hd.q|
  {
    UpstreamShape(hd, g, i);
    Vals(sn, hd.PRow(i))(j) * Pairing(sn, g[i], hd.v[j])
  }

  ghost function QTerms(sn: Sense, hd: Head, g: Rows): (t: (nat, nat) -> real)
    requires Upstream(hd, g)
    ensures forall i: nat, j: nat :: t(i, j) == if j <= i < |hd.q| then QTerm(sn, hd, g, i, j) else 0.0
  {
    (i: nat, j: nat) => if j <= i < |hd.q| then QTerm(sn, hd, g, i, j) else 0.0
  }

  ghost function KTerms(sn: Sense, hd: Head, g: Rows): (t: (nat, nat) -> real)
    requires Upstream(hd, g)
    ensures forall i: nat, j: nat :: t(i, j) == if j <= i < |hd.q| then KTerm(sn, hd, g, i, j) else 0.0
  {
    (i: nat, j: nat) => if j <= i < |hd.q| then KTerm(sn, hd, g, i, j) else 0.0
  }

  ghost function VTerms(sn: Sense, hd: Head, g: Rows): (t: (nat, nat) -> real)
    requires Upstream(hd, g)
    ensures forall i: nat, j: nat :: t(i, j) == if j <= i < |hd.q| then VTerm(sn, hd, g, i, j) else 0.0
  {
    (i: nat, j: nat) => if j <= i < |hd.q| then VTerm(sn, hd, g, i, j) else 0.0
  }

  lemma ScoreTerms(sn: Sense, hd: Head, g: Rows, i: nat, j: nat)
    requires sn.Exact() && sn.Calculus() && Upstream(hd, g) && j <= i < |hd.q|
    ensures Products(Back(sn, hd, g, i), DerScores(sn, hd, i))(j) == RowOf(QTerms(sn, hd, g), i)(j) + RowOf(KTerms(sn, hd, g), i)(j)
  {
    hide *;
    UpstreamShape(hd, g, i);
    HeadShape(hd);
    TermsAre(sn, hd, g, i, j);
    DerScoreIs(sn, hd, i, j);
    ScoreDer(sn, hd, i, j);
    Shared(Back(sn, hd, g, i)(j), sn.val(ScaleOf(hd.d)), Pairing(sn, hd.q[i], hd.k[j]), Pairing(sn, hd.k[j], hd.q[i]),
           DerScores(sn, hd, i)(j));
  }

  lemma DerScoreIs(sn: Sense, hd: Head, i: nat, j: nat)
    requires hd.Valid() && i < |hd.q| && j < |hd.q|
    ensures DerScores(sn, hd, i)(j) == sn.der(hd.Score(i, j))
  {
  }

  lemma TermsAre(sn: Sense, hd: Head, g: Rows, i: nat, j: nat)
    requires Upstream(hd, g) && i < |hd.q| && j < |hd.q| == |hd.k| == |hd.v| == |g|
    ensures QTerm(sn, hd, g, i, j) == Back(sn, hd, g, i)(j) * sn.val(ScaleOf(hd.d)) * Pairing(sn, hd.k[j], hd.q[i])
    ensures KTerm(sn, hd, g, i, j) == Back(sn, hd, g, i)(j) * sn.val(ScaleOf(hd.d)) * Pairing(sn, hd.q[i], hd.k[j])
    ensures VTerm(sn, hd, g, i, j) == Vals(sn, hd.PRow(i))(j) * Pairing(sn, g[i], hd.v[j])
  {
  }

  lemma Shared(b: real, s: real, x: real, y: real, ds: real)
    requires ds == (x + y) * s
    ensures b * ds == b * s * y + b * s * x
  {
  }

  lemma RowTerms(sn: Sense, hd: Head, g: Rows, i: nat, n: nat)
    requires sn.Exact() && sn.Calculus() && sn.Positive() && Upstream(hd, g) && i < |hd.q| == |g| && n == i + 1
    ensures Pairing(sn, g[i], hd.ORow(i)) ==
      Sum(RowOf(QTerms(sn, hd, g), i), |hd.q|) + Sum(RowOf(KTerms(sn, hd, g), i), |hd.q|) + Sum(RowOf(VTerms(sn, hd, g), i), |hd.q|)
  {
    hide *;
    UpstreamShape(hd, g, i);
    HeadShape(hd);
    RowGradient(sn, hd, g, i, n);
    var qs, ks, vs := RowOf(QTerms(sn, hd, g), i), RowOf(KTerms(sn, hd, g), i), RowOf(VTerms(sn, hd, g), i);
    forall j: nat | j < n
      ensures Products(Back(sn, hd, g, i), DerScores(sn, hd, i))(j) == qs(j) + ks(j)
      ensures Products(Vals(sn, hd.PRow(i)), Passed(sn, hd, g, i))(j) == vs(j)
    {
      ScoreTerms(sn, hd, g, i, j);
      TermsAre(sn, hd, g, i, j);
      PassedIs(sn, hd, g, i);
      AgainstVal(sn, g[i], hd.v, hd.d, j);
    }
    SumAdds(qs, ks, Products(Back(sn, hd, g, i), DerScores(sn, hd, i)), n);
    SumSame(Products(Vals(sn, hd.PRow(i)), Passed(sn, hd, g, i)), vs, n);
    SumStops(qs, n, |hd.q|);
    SumStops(ks, n, |hd.q|);
    SumStops(vs, n, |hd.q|);
  }

  /** The gradient rows as weighted rows. */
  lemma GradientRows(hd: Head, g: Rows, i: nat)
    requires Upstream(hd, g) && i < |hd.q|
    ensures (forall r :: 0 <= r < |hd.q| ==> |hd.DSRows(g)[r]| == |hd.q|) && |hd.DSRows(g)| == |hd.PRows()| == |hd.q|
    ensures forall r :: 0 <= r < |hd.q| ==> hd.PRows()[r] == hd.PRow(r)
    ensures |hd.DQRow(g, i)| == |hd.DKRow(g, i)| == |hd.DVRow(g, i)| == hd.d
    ensures hd.DQRow(g, i) == WeightedRow(Scaled(hd.DSRows(g)[i], ScaleOf(hd.d)), hd.k, hd.d, 0, i + 1)
    ensures hd.DKRow(g, i) == WeightedRow(Scaled(Column(hd.DSRows(g), i), ScaleOf(hd.d)), hd.q, hd.d, i, |hd.q|)
    ensures hd.DVRow(g, i) == WeightedRow(Column(hd.PRows(), i), g, hd.d, i, |hd.q|)
  {
  }

  lemma ScaledVal(sn: Sense, r: Row, f: F, c: nat)
    requires sn.Exact() && c < |r|
    ensures Vals(sn, Scaled(r, f))(c) == Vals(sn, r)(c) * sn.val(f)
  {
  }

  lemma ColumnVal(sn: Sense, rows: Rows, j: nat, i: nat)
    requires i < |rows| && forall r :: 0 <= r < |rows| ==> j < |rows[r]|
    ensures Vals(sn, Column(rows, j))(i) == Vals(sn, rows[i])(j)
  {
  }

  /** The scaled score gradients as coefficients: of one row, and of one column. */
  lemma ScaledBack(sn: Sense, hd: Head, g: Rows, i: nat, j: nat)
    requires sn.Exact() && Upstream(hd, g) && i < |hd.q| && j < |hd.q|
    requires |g| == |hd.q| && AllWide(g, hd.d) && forall r :: 0 <= r < |hd.q| ==> |hd.DSRows(g)[r]| == |hd.q|
    ensures Vals(sn, Scaled(hd.DSRows(g)[i], ScaleOf(hd.d)))(j) == Back(sn, hd, g, i)(j) * sn.val(ScaleOf(hd.d))
    ensures Vals(sn, Scaled(Column(hd.DSRows(g), j), ScaleOf(hd.d)))(i) == Back(sn, hd, g, i)(j) * sn.val(ScaleOf(hd.d))
  {
    hide *;
    UpstreamShape(hd, g, i);
    BackRow(sn, hd, g, i);
    ScaledVal(sn, hd.DSRows(g)[i], ScaleOf(hd.d), j);
    ScaledVal(sn, Column(hd.DSRows(g), j), ScaleOf(hd.d), i);
    ColumnVal(sn, hd.DSRows(g), j, i);
  }

  lemma BackRow(sn: Sense, hd: Head, g: Rows, i: nat)
    requires Upstream(hd, g) && i < |hd.q|
    ensures Back(sn, hd, g, i) == Vals(sn, hd.DSRows(g)[i])
  {
  }

  /** dQ against the movement of a query row, dK of a key row, dV of a value row. */
  lemma QueryTerms(sn: Sense, hd: Head, g: Rows, i: nat, n: nat)
    requires sn.Exact() && Upstream(hd, g) && i < |hd.q| && n == i + 1
    ensures Pairing(sn, hd.DQRow(g, i), hd.q[i]) == Sum(RowOf(QTerms(sn, hd, g), i), |hd.q|)
  {
    hide *;
    UpstreamShape(hd, g, i);
    HeadShape(hd);
    UpstreamWide(hd, g);
    GradientRows(hd, g, i);
    var coef, y := Scaled(hd.DSRows(g)[i], ScaleOf(hd.d)), Ders(sn, hd.q[i]);
    ScaledBack(sn, hd, g, i, i);
    WeightedAgainst(sn, coef, hd.k, hd.d, 0, n, y);
    forall j: nat | j < n
      ensures Products(From(Vals(sn, coef), 0), Against(y, ValsOf(sn, hd.k), hd.d))(j) == RowOf(QTerms(sn, hd, g), i)(j)
    {
      ScaledBack(sn, hd, g, i, j);
      UpstreamShape(hd, g, j);
      AgainstDer(sn, hd.q[i], hd.k, hd.d, j);
      TermsAre(sn, hd, g, i, j);
    }
    SumSame(Products(From(Vals(sn, coef), 0), Against(y, ValsOf(sn, hd.k), hd.d)), RowOf(QTerms(sn, hd, g), i), n);
    SumStops(RowOf(QTerms(sn, hd, g), i), n, |hd.q|);
    PairingIs(sn, hd.DQRow(g, i), hd.q[i], hd.d);
    ProductsCommute(y, Vals(sn, hd.DQRow(g, i)), hd.d);
  }

  lemma KeyTerms(sn: Sense, hd: Head, g: Rows, j: nat)
    requires sn.Exact() && Upstream(hd, g) && j < |hd.q| == |hd.k|
    ensures Pairing(sn, hd.DKRow(g, j), hd.k[j]) == Sum(ColumnOf(KTerms(sn, hd, g), j), |hd.q|)
  {
    hide *;
    UpstreamShape(hd, g, j);
    HeadShape(hd);
    UpstreamWide(hd, g);
    GradientRows(hd, g, j);
    var coef, y := Scaled(Column(hd.DSRows(g), j), ScaleOf(hd.d)), Ders(sn, hd.k[j]);
    ScaledBack(sn, hd, g, j, j);
    WeightedAgainst(sn, coef, hd.q, hd.d, j, |hd.q|, y);
    forall i: nat | i < |hd.q|
      ensures Products(From(Vals(sn, coef), j), Against(y, ValsOf(sn, hd.q), hd.d))(i) == ColumnOf(KTerms(sn, hd, g), j)(i)
    {
      ScaledBack(sn, hd, g, i, j);
      UpstreamShape(hd, g, i);
      AgainstDer(sn, hd.k[j], hd.q, hd.d, i);
      TermsAre(sn, hd, g, i, j);
    }
    SumSame(Products(From(Vals(sn, coef), j), Against(y, ValsOf(sn, hd.q), hd.d)), ColumnOf(KTerms(sn, hd, g), j), |hd.q|);
    PairingIs(sn, hd.DKRow(g, j), hd.k[j], hd.d);
    ProductsCommute(y, Vals(sn, hd.DKRow(g, j)), hd.d);
  }

  lemma ValueTerms(sn: Sense, hd: Head, g: Rows, j: nat)
    requires sn.Exact() && Upstream(hd, g) && j < |hd.q| == |hd.v|
    ensures Pairing(sn, hd.DVRow(g, j), hd.v[j]) == Sum(ColumnOf(VTerms(sn, hd, g), j), |hd.q|)
  {
    hide *;
    UpstreamShape(hd, g, j);
    HeadShape(hd);
    UpstreamWide(hd, g);
    GradientRows(hd, g, j);
    var coef, y := Column(hd.PRows(), j), Ders(sn, hd.v[j]);
    WeightedAgainst(sn, coef, g, hd.d, j, |hd.q|, y);
    forall i: nat | i < |hd.q|
      ensures Products(From(Vals(sn, coef), j), Against(y, ValsOf(sn, g), hd.d))(i) == ColumnOf(VTerms(sn, hd, g), j)(i)
    {
      UpstreamShape(hd, g, i);
      AgainstDer(sn, hd.v[j], g, hd.d, i);
      TermsAre(sn, hd, g, i, j);
    }
    SumSame(Products(From(Vals(sn, coef), j), Against(y, ValsOf(sn, g), hd.d)), ColumnOf(VTerms(sn, hd, g), j), |hd.q|);
    PairingIs(sn, hd.DVRow(g, j), hd.v[j], hd.d);
    ProductsCommute(y, Vals(sn, hd.DVRow(g, j)), hd.d);
  }

  // ------------------------------------------------------------------- the theorem

  /** How rows pair with the movement of other rows, over a whole head. */
  ghost function Pairings(sn: Sense, x: Rows, y: Rows): (f: nat -> real)
    ensures forall i: nat :: i < |x| && i < |y| ==> f(i) == Pairing(sn, x[i], y[i])
  {
    (i: nat) => if i < |x| && i < |y| then Pairing(sn, x[i], y[i]) else 0.0
  }

  ghost function Flow(sn: Sense, x: Rows, y: Rows): real { Sum(Pairings(sn, x, y), |x|) }

  /** Output and gradient rows of a head. */
  ghost function ORows(hd: Head): (r: Rows)
    requires hd.Valid()
    ensures |r| == |hd.q| && forall i :: 0 <= i < |r| ==> r[i] == hd.ORow(i)
  {
    seq(|hd.q|, i requires 0 <= i < |hd.q| => hd.ORow(i))
  }

  ghost function DQRows(hd: Head, g: Rows): (r: Rows)
    requires Upstream(hd, g)
    ensures |r| == |hd.q| && forall i :: 0 <= i < |r| ==> r[i] == hd.DQRow(g, i)
  {
    seq(|hd.q|, i requires 0 <= i < |hd.q| => hd.DQRow(g, i))
  }

  ghost function DKRows(hd: Head, g: Rows): (r: Rows)
    requires Upstream(hd, g)
    ensures |r| == |hd.q| && forall i :: 0 <= i < |r| ==> r[i] == hd.DKRow(g, i)
  {
    seq(|hd.q|, i requires 0 <= i < |hd.q| => hd.DKRow(g, i))
  }

  ghost function DVRows(hd: Head, g: Rows): (r: Rows)
    requires Upstream(hd, g)
    ensures |r| == |hd.q| && forall i :: 0 <= i < |r| ==> r[i] == hd.DVRow(g, i)
  {
    seq(|hd.q|, i requires 0 <= i < |hd.q| => hd.DVRow(g, i))
  }

  ghost function RowSums(t: (nat, nat) -> real, m: nat): (f: nat -> real)
    ensures forall i: nat :: f(i) == Sum(RowOf(t, i), m)
  {
    (i: nat) => Sum(RowOf(t, i), m)
  }

  lemma OutputFlow(sn: Sense, hd: Head, g: Rows)
    requires sn.Exact() && sn.Calculus() && sn.Positive() && Upstream(hd, g) && hd.Valid() && |g| == |hd.q|
    ensures Flow(sn, g, ORows(hd)) ==
      Sum(RowSums(QTerms(sn, hd, g), |g|), |g|) + Sum(RowSums(KTerms(sn, hd, g), |g|), |g|) + Sum(RowSums(VTerms(sn, hd, g), |g|), |g|)
  {
    hide *;
    FlowIs(sn, g, ORows(hd));
    var qs, ks, vs := RowSums(QTerms(sn, hd, g), |g|), RowSums(KTerms(sn, hd, g), |g|), RowSums(VTerms(sn, hd, g), |g|);
    forall i: nat | i < |g| ensures Pairings(sn, g, ORows(hd))(i) == (qs(i) + ks(i)) + vs(i) {
      RowTerms(sn, hd, g, i, i + 1);
    }
    SumThree(qs, ks, vs, Pairings(sn, g, ORows(hd)), |g|);
  }

  lemma FlowIs(sn: Sense, x: Rows, y: Rows)
    ensures Flow(sn, x, y) == Sum(Pairings(sn, x, y), |x|)
  {
  }

  lemma {:induction false} SumThree(a: nat -> real, b: nat -> real, c: nat -> real, h: nat -> real, n: nat)
    requires forall i: nat :: i < n ==> h(i) == (a(i) + b(i)) + c(i)
    ensures Sum(h, n) == Sum(a, n) + Sum(b, n) + Sum(c, n)
  {
    if n > 0 {
      SumThree(a, b, c, h, n - 1);
    }
  }

  lemma GradientFlows(sn: Sense, hd: Head, g: Rows)
    requires sn.Exact() && Upstream(hd, g) && |g| == |hd.q| == |hd.k| == |hd.v|
    ensures Flow(sn, DQRows(hd, g), hd.q) == Sum(RowSums(QTerms(sn, hd, g), |g|), |g|)
    ensures Flow(sn, DKRows(hd, g), hd.k) == Sum(RowSums(KTerms(sn, hd, g), |g|), |g|)
    ensures Flow(sn, DVRows(hd, g), hd.v) == Sum(RowSums(VTerms(sn, hd, g), |g|), |g|)
  {
    hide *;
    FlowIs(sn, DQRows(hd, g), hd.q);
    FlowIs(sn, DKRows(hd, g), hd.k);
    FlowIs(sn, DVRows(hd, g), hd.v);
    var n := |g|;
    forall j: nat | j < n
      ensures Pairings(sn, DQRows(hd, g), hd.q)(j) == RowSums(QTerms(sn, hd, g), n)(j)
      ensures Pairings(sn, DKRows(hd, g), hd.k)(j) == Sum(ColumnOf(KTerms(sn, hd, g), j), n)
      ensures Pairings(sn, DVRows(hd, g), hd.v)(j) == Sum(ColumnOf(VTerms(sn, hd, g), j), n)
    {
      QueryTerms(sn, hd, g, j, j + 1);
      KeyTerms(sn, hd, g, j);
      ValueTerms(sn, hd, g, j);
    }
    SumSame(Pairings(sn, DQRows(hd, g), hd.q), RowSums(QTerms(sn, hd, g), n), n);
    SumSwaps(KTerms(sn, hd, g), RowSums(KTerms(sn, hd, g), n), Pairings(sn, DKRows(hd, g), hd.k), n, n);
    SumSwaps(VTerms(sn, hd, g), RowSums(VTerms(sn, hd, g), n), Pairings(sn, DVRows(hd, g), hd.v), n, n);
  }

  /** The backward pass is the gradient of the forward pass: in whatever direction queries, keys and
      values move, the output moves against g as they move against dQ, dK and dV. */
  lemma BackwardIsGradient(sn: Sense, hd: Head, g: Rows)
    requires sn.Exact() && sn.Calculus() && sn.Positive() && hd.Valid() && |g| == |hd.q| && AllWide(g, hd.d)
    ensures Flow(sn, g, ORows(hd)) ==
      Flow(sn, DQRows(hd, g), hd.q) + Flow(sn, DKRows(hd, g), hd.k) + Flow(sn, DVRows(hd, g), hd.v)
  {
    assert Upstream(hd, g);
    OutputFlow(sn, hd, g);
    GradientFlows(sn, hd, g);
  }

  // ------------------------------------------------------------ what the kernels leave

  /** The rows of P that AttnFwd leaves. */
  lemma CachedRowsAreDistributions(sn: Sense, sh: Shape, q: Rows, k: Rows, v: Rows, probs: Rows, u: nat)
    requires sn.Exact() && sn.Positive() && Operand(sh, q) && Operand(sh, k) && Operand(sh, v)
    requires probs == WantP(sh, q, k, v) && u < sh.Units()
    ensures |probs| == sh.Units() && |probs[u]| == sh.S
    ensures forall j: nat :: j < sh.S ==> if j <= UnitAt(sh, u).i then Vals(sn, probs[u])(j) > 0.0 else Vals(sn, probs[u])(j) == 0.0
    ensures Sum(Vals(sn, probs[u]), sh.S) == 1.0
  {
    hide Attention.Head.PRow, Sum, Sense.Exact;
    RowIsDistribution(sn, HeadAt(sh, q, k, v, u), UnitAt(sh, u).i);
  }

  /** The probabilities the tiled passes recompute from the stats of a row. */
  ghost function FromStats(sn: Sense, hd: Head, i: nat, st: Stats): (f: nat -> real)
    requires hd.Valid() && i < |hd.q|
    ensures forall j: nat :: j < |hd.q| ==> f(j) == sn.val(Mul(Exp(Sub(hd.Score(i, j), st.max)), st.invDenom))
  {
    (j: nat) => if j < |hd.q| then sn.val(Mul(Exp(Sub(hd.Score(i, j), st.max)), st.invDenom)) else 0.0
  }

  /** Recomputed from the stats AttnFwdTiled leaves, the same positive numbers that add up to one. */
  lemma TiledRowsAreDistributions(sn: Sense, sh: Shape, q: Rows, k: Rows, v: Rows, stats: seq<Stats>, u: nat)
    requires sn.Exact() && sn.Positive() && Operand(sh, q) && Operand(sh, k) && Operand(sh, v)
    requires stats == WantStats(sh, q, k, v) && u < sh.Units()
    ensures |stats| == sh.Units()
    ensures forall j: nat :: j <= UnitAt(sh, u).i ==> FromStats(sn, HeadAt(sh, q, k, v, u), UnitAt(sh, u).i, stats[u])(j) > 0.0
    ensures Sum(FromStats(sn, HeadAt(sh, q, k, v, u), UnitAt(sh, u).i, stats[u]), UnitAt(sh, u).i + 1) == 1.0
  {
    var hd, i := HeadAt(sh, q, k, v, u), UnitAt(sh, u).i;
    assert stats[u] == Stats(hd.RowMax(i), hd.InvDenom(i), ZERO, ZERO);
    StatsGiveRow(sn, hd, i, stats[u], i + 1);
  }

  lemma StatsGiveRow(sn: Sense, hd: Head, i: nat, st: Stats, n: nat)
    requires sn.Exact() && sn.Positive() && hd.Valid() && i < |hd.q| && HasForward(hd, i, st) && n == i + 1
    ensures forall j: nat :: j < n ==> FromStats(sn, hd, i, st)(j) == Vals(sn, hd.PRow(i))(j)
    ensures (forall j: nat :: j < n ==> FromStats(sn, hd, i, st)(j) > 0.0) && Sum(FromStats(sn, hd, i, st), n) == 1.0
  {
    hide *;
    forall j: nat | j < n ensures FromStats(sn, hd, i, st)(j) == Vals(sn, hd.PRow(i))(j) {
      StatsGive(sn, hd, i, st, j);
    }
    SumSame(FromStats(sn, hd, i, st), Vals(sn, hd.PRow(i)), n);
    RowIsDistribution(sn, hd, i);
  }

  lemma StatsGive(sn: Sense, hd: Head, i: nat, st: Stats, j: nat)
    requires hd.Valid() && j <= i < |hd.q| && HasForward(hd, i, st)
    ensures FromStats(sn, hd, i, st)(j) == Vals(sn, hd.PRow(i))(j)
  {
    assert hd.PRow(i)[j] == Mul(Exp(Sub(hd.Score(i, j), st.max)), st.invDenom);
  }

  /** The rows of one head in an activation whose units have left their wanted rows. */
  lemma HeadHolds(sh: Shape, x: Rows, want: Rows, b: nat, h: nat, rows: Rows)
    requires Operand(sh, x) && BySlot(SlotTable(sh), x, want, {}) && b < sh.B && h < sh.H && |rows| == sh.S
    requires forall i: nat :: i < sh.S ==> (sh.IndexOfIsIndex(Unit(b, h, i)); want[sh.IndexOf(Unit(b, h, i))] == rows[i])
    ensures HeadRows(sh, x, b, h) == rows
  {
    forall i: nat | i < sh.S ensures HeadRows(sh, x, b, h)[i] == rows[i] {
      var t := Unit(b, h, i);
      sh.IndexOfIsIndex(t);
      assert UnitAt(sh, sh.IndexOf(t)) == t;
      assert SlotTable(sh)[sh.IndexOf(t)] == sh.Slot(t);
    }
  }

  /** A tensor filled slot by slot with rows of the head width is an activation. */
  lemma FilledIsOperand(sh: Shape, x: Rows, want: Rows)
    requires |x| == sh.Slots() && BySlot(SlotTable(sh), x, want, {}) && AllWide(want, sh.d)
    ensures Operand(sh, x)
  {
    var slots := SlotTable(sh);
    forall s: nat | s < |x| ensures |x[s]| == sh.d {
      SlotInTable(sh, s);
      var u :| 0 <= u < |slots| && slots[u] == s;
    }
  }

  lemma WantedWide(sh: Shape, q: Rows, k: Rows, v: Rows, g: Rows)
    requires Operand(sh, q) && Operand(sh, k) && Operand(sh, v) && Operand(sh, g)
    ensures AllWide(WantO(sh, q, k, v), sh.d)
    ensures AllWide(WantGrad(sh, q, k, v, g, DQ), sh.d) && AllWide(WantGrad(sh, q, k, v, g, DK), sh.d)
    ensures AllWide(WantGrad(sh, q, k, v, g, DV), sh.d)
  {
  }

  /** Of either family, as SameAttention shows: what its four tensors say of every head. */
  lemma KernelsGiveGradient(sn: Sense, sh: Shape, q: Rows, k: Rows, v: Rows, g: Rows, o: Rows, dq: Rows, dk: Rows, dv: Rows, b: nat, h: nat)
    requires sn.Exact() && sn.Calculus() && sn.Positive()
    requires Operand(sh, q) && Operand(sh, k) && Operand(sh, v) && Operand(sh, g) && b < sh.B && h < sh.H
    requires |o| == |dq| == |dk| == |dv| == sh.Slots()
    requires BySlot(SlotTable(sh), o, WantO(sh, q, k, v), {}) && BySlot(SlotTable(sh), dq, WantGrad(sh, q, k, v, g, DQ), {})
    requires BySlot(SlotTable(sh), dk, WantGrad(sh, q, k, v, g, DK), {}) && BySlot(SlotTable(sh), dv, WantGrad(sh, q, k, v, g, DV), {})
    ensures Operand(sh, o) && Operand(sh, dq) && Operand(sh, dk) && Operand(sh, dv)
    ensures Flow(sn, HeadRows(sh, g, b, h), HeadRows(sh, o, b, h)) ==
      Flow(sn, HeadRows(sh, dq, b, h), HeadRows(sh, q, b, h)) + Flow(sn, HeadRows(sh, dk, b, h), HeadRows(sh, k, b, h))
      + Flow(sn, HeadRows(sh, dv, b, h), HeadRows(sh, v, b, h))
  {
    hide *;
    WantedWide(sh, q, k, v, g);
    FilledIsOperand(sh, o, WantO(sh, q, k, v));
    FilledIsOperand(sh, dq, WantGrad(sh, q, k, v, g, DQ));
    FilledIsOperand(sh, dk, WantGrad(sh, q, k, v, g, DK));
    FilledIsOperand(sh, dv, WantGrad(sh, q, k, v, g, DV));
    UpstreamHolds(sh, q, k, v, g, b, h);
    var hd, gh := HeadOf(sh, q, k, v, b, h), HeadRows(sh, g, b, h);
    HeadOutput(sh, q, k, v, o, b, h);
    HeadGradients(sh, q, k, v, g, dq, dk, dv, b, h);
    BackwardIsGradient(sn, hd, gh);
  }

  lemma UpstreamHolds(sh: Shape, q: Rows, k: Rows, v: Rows, g: Rows, b: nat, h: nat)
    requires Operand(sh, q) && Operand(sh, k) && Operand(sh, v) && Operand(sh, g) && b < sh.B && h < sh.H
    ensures (var hd := HeadOf(sh, q, k, v, b, h);
      && hd.Valid() && |HeadRows(sh, g, b, h)| == |hd.q| && AllWide(HeadRows(sh, g, b, h), hd.d)
      && hd.q == HeadRows(sh, q, b, h) && hd.k == HeadRows(sh, k, b, h) && hd.v == HeadRows(sh, v, b, h))
  {
  }

  lemma HeadOutput(sh: Shape, q: Rows, k: Rows, v: Rows, o: Rows, b: nat, h: nat)
    requires Operand(sh, q) && Operand(sh, k) && Operand(sh, v) && Operand(sh, o) && b < sh.B && h < sh.H
    requires BySlot(SlotTable(sh), o, WantO(sh, q, k, v), {})
    ensures HeadRows(sh, o, b, h) == ORows(HeadOf(sh, q, k, v, b, h))
  {
    forall i: nat | i < sh.S
      ensures (sh.IndexOfIsIndex(Unit(b, h, i));
        WantO(sh, q, k, v)[sh.IndexOf(Unit(b, h, i))] == ORows(HeadOf(sh, q, k, v, b, h))[i])
    {
      sh.IndexOfIsIndex(Unit(b, h, i));
      assert UnitAt(sh, sh.IndexOf(Unit(b, h, i))) == Unit(b, h, i);
    }
    HeadHolds(sh, o, WantO(sh, q, k, v), b, h, ORows(HeadOf(sh, q, k, v, b, h)));
  }

  lemma HeadGradients(sh: Shape, q: Rows, k: Rows, v: Rows, g: Rows, dq: Rows, dk: Rows, dv: Rows, b: nat, h: nat)
    requires Operand(sh, q) && Operand(sh, k) && Operand(sh, v) && Operand(sh, g) && b < sh.B && h < sh.H
    requires Operand(sh, dq) && Operand(sh, dk) && Operand(sh, dv)
    requires BySlot(SlotTable(sh), dq, WantGrad(sh, q, k, v, g, DQ), {})
    requires BySlot(SlotTable(sh), dk, WantGrad(sh, q, k, v, g, DK), {}) && BySlot(SlotTable(sh), dv, WantGrad(sh, q, k, v, g, DV), {})
    ensures Upstream(HeadOf(sh, q, k, v, b, h), HeadRows(sh, g, b, h))
    ensures HeadRows(sh, dq, b, h) == DQRows(HeadOf(sh, q, k, v, b, h), HeadRows(sh, g, b, h))
    ensures HeadRows(sh, dk, b, h) == DKRows(HeadOf(sh, q, k, v, b, h), HeadRows(sh, g, b, h))
    ensures HeadRows(sh, dv, b, h) == DVRows(HeadOf(sh, q, k, v, b, h), HeadRows(sh, g, b, h))
  {
    var hd, gh := HeadOf(sh, q, k, v, b, h), HeadRows(sh, g, b, h);
    forall i: nat | i < sh.S
      ensures (sh.IndexOfIsIndex(Unit(b, h, i)); WantGrad(sh, q, k, v, g, DQ)[sh.IndexOf(Unit(b, h, i))] == hd.DQRow(gh, i))
      ensures (sh.IndexOfIsIndex(Unit(b, h, i)); WantGrad(sh, q, k, v, g, DK)[sh.IndexOf(Unit(b, h, i))] == hd.DKRow(gh, i))
      ensures (sh.IndexOfIsIndex(Unit(b, h, i)); WantGrad(sh, q, k, v, g, DV)[sh.IndexOf(Unit(b, h, i))] == hd.DVRow(gh, i))
    {
      sh.IndexOfIsIndex(Unit(b, h, i));
      assert UnitAt(sh, sh.IndexOf(Unit(b, h, i))) == Unit(b, h, i);
    }
    HeadHolds(sh, dq, WantGrad(sh, q, k, v, g, DQ), b, h, DQRows(hd, gh));
    HeadHolds(sh, dk, WantGrad(sh, q, k, v, g, DK), b, h, DKRows(hd, gh));
    HeadHolds(sh, dv, WantGrad(sh, q, k, v, g, DV), b, h, DVRows(hd, gh));
  }
}
