// Causal attention, forward and backward, in two families: the cached one keeps
// the probability matrix and its gradients, the tiled one keeps four floats a row
// and recomputes them (runtime/executor/attention.cc).
module Attention {
  import opened Scalar

  type Row = seq<F>
  type Rows = seq<seq<F>>

  /** The one identity the tiled family relies on: a product of two masked zeros adds nothing to a rowsum. */
  function Accumulate(acc: D, x: D): D {
    if x == DMul(Widen(ZERO), Widen(ZERO)) then acc else DAdd(acc, x)
  }

  ghost predicate AllWide(rows: Rows, d: nat) { forall r :: 0 <= r < |rows| ==> |rows[r]| == d }

  // ------------------------------------------------------- sums in kernel order

  /** The double-accumulated dot product of the first n elements. */
  function DotTo(x: Row, y: Row, n: nat): D
    requires n <= |x| && n <= |y|
  {
    if n == 0 then DZero else DAdd(DotTo(x, y, n - 1), DMul(Widen(x[n - 1]), Widen(y[n - 1])))
  }

  function Dot(x: Row, y: Row): F
    requires |x| == |y|
  {
    Narrow(DotTo(x, y, |x|))
  }

  /** Element c of the sum of coef[i] * rows[i] over i in lo..n, in order, from zero. */
  function Weighted(coef: Row, rows: Rows, c: nat, lo: nat, n: nat): F
    requires lo <= n <= |coef| && n <= |rows| && forall i :: lo <= i < n ==> c < |rows[i]|
  {
    if n == lo then ZERO else Add(Weighted(coef, rows, c, lo, n - 1), Mul(coef[n - 1], rows[n - 1][c]))
  }

  function WeightedRow(coef: Row, rows: Rows, d: nat, lo: nat, n: nat): (r: Row)
    requires lo <= n <= |coef| && n <= |rows| && AllWide(rows, d)
    ensures |r| == d && forall c :: 0 <= c < d ==> r[c] == Weighted(coef, rows, c, lo, n)
  {
    seq(d, c requires 0 <= c < d => Weighted(coef, rows, c, lo, n))
  }

  lemma {:induction false} WeightedDepends(coef: Row, coef': Row, rows: Rows, c: nat, lo: nat, n: nat)
    requires lo <= n <= |coef| && n <= |coef'| && n <= |rows| && forall i :: lo <= i < n ==> c < |rows[i]|
    requires forall i :: lo <= i < n ==> coef[i] == coef'[i]
    ensures Weighted(coef, rows, c, lo, n) == Weighted(coef', rows, c, lo, n)
  {
    if n > lo {
      WeightedDepends(coef, coef', rows, c, lo, n - 1);
    }
  }

  /** Only the coefficients in lo..n matter. */
  lemma SameWeightedRow(coef: Row, coef': Row, rows: Rows, d: nat, lo: nat, n: nat)
    requires lo <= n <= |coef| && n <= |coef'| && n <= |rows| && AllWide(rows, d)
    requires forall i :: lo <= i < n ==> coef[i] == coef'[i]
    ensures WeightedRow(coef, rows, d, lo, n) == WeightedRow(coef', rows, d, lo, n)
  {
    var r, r' := WeightedRow(coef, rows, d, lo, n), WeightedRow(coef', rows, d, lo, n);
    forall c | 0 <= c < d ensures r[c] == r'[c] {
      WeightedDepends(coef, coef', rows, c, lo, n);
    }
  }

  /** The softmax-backward rowsum over the first n entries. */
  function RowSumTo(dp: Row, p: Row, n: nat): D
    requires n <= |dp| && n <= |p|
  {
    if n == 0 then DZero else Accumulate(RowSumTo(dp, p, n - 1), DMul(Widen(dp[n - 1]), Widen(p[n - 1])))
  }

  /** The gradient of probability (i, j), zero above the diagonal. */
  function DProb(g: Rows, v: Rows, i: nat, j: nat): F
    requires |g| == |v| && i < |g| && j < |v| && |g[i]| == |v[j]|
  {
    if j <= i then Dot(g[i], v[j]) else ZERO
  }

  function DProbRow(g: Rows, v: Rows, d: nat, i: nat): (r: Row)
    requires |g| == |v| && i < |g| && AllWide(g, d) && AllWide(v, d)
    ensures |r| == |v| && forall j :: 0 <= j < |v| ==> r[j] == DProb(g, v, i, j)
  {
    seq(|v|, j requires 0 <= j < |v| => DProb(g, v, i, j))
  }

  /** SoftmaxRowsBwd on one row. */
  function SoftmaxBwdRow(p: Row, dp: Row): (r: Row)
    requires |p| == |dp|
    ensures |r| == |p| && forall c :: 0 <= c < |p| ==> r[c] == Mul(p[c], Sub(dp[c], Narrow(RowSumTo(dp, p, |p|))))
  {
    seq(|p|, c requires 0 <= c < |p| => Mul(p[c], Sub(dp[c], Narrow(RowSumTo(dp, p, |p|)))))
  }

  function Scaled(r: Row, s: F): (r': Row)
    ensures |r'| == |r| && forall j :: 0 <= j < |r| ==> r'[j] == Mul(r[j], s)
  {
    seq(|r|, j requires 0 <= j < |r| => Mul(r[j], s))
  }

  /** Column j of a matrix of rows. */
  function Column(rows: Rows, j: nat): (r: Row)
    requires forall i :: 0 <= i < |rows| ==> j < |rows[i]|
    ensures |r| == |rows| && forall i :: 0 <= i < |rows| ==> r[i] == rows[i][j]
  {
    seq(|rows|, i requires 0 <= i < |rows| => rows[i][j])
  }

  function ScaleOf(d: nat): F { Div(ONE, Sqrt(OfNat(d))) }

  // -------------------------------------------------------------- one head, as mathematics

  /** The S query, key and value rows of one head. */
  datatype Head = Head(q: Rows, k: Rows, v: Rows, d: nat) {
    ghost predicate Valid() { |q| == |k| == |v| && AllWide(q, d) && AllWide(k, d) && AllWide(v, d) }

    function Score(i: nat, j: nat): F
      requires Valid() && i < |q| && j < |q|
    {
      Mul(Dot(q[i], k[j]), ScaleOf(d))
    }

    /** The running maximum of the first n scores of row i. */
    function MaxTo(i: nat, n: nat): F
      requires Valid() && i < |q| && n <= |q|
    {
      if n == 0 then NegInf else MaxOf(Score(i, n - 1), MaxTo(i, n - 1))
    }

    function RowMax(i: nat): F
      requires Valid() && i < |q|
    {
      MaxTo(i, i + 1)
    }

    function ExpScore(i: nat, j: nat): F
      requires Valid() && i < |q| && j < |q|
    {
      Exp(Sub(Score(i, j), RowMax(i)))
    }

    function DenomTo(i: nat, n: nat): D
      requires Valid() && i < |q| && n <= |q|
    {
      if n == 0 then DZero else DAdd(DenomTo(i, n - 1), Widen(ExpScore(i, n - 1)))
    }

    function InvDenom(i: nat): F
      requires Valid() && i < |q|
    {
      Div(ONE, Narrow(DenomTo(i, i + 1)))
    }

    /** The causal softmax probability, zero above the diagonal. */
    function P(i: nat, j: nat): F
      requires Valid() && i < |q| && j < |q|
    {
      if j <= i then Mul(ExpScore(i, j), InvDenom(i)) else ZERO
    }

    function PRow(i: nat): (r: Row)
      requires Valid() && i < |q|
      ensures |r| == |q| && forall j :: 0 <= j < |q| ==> r[j] == P(i, j)
    {
      seq(|q|, j requires 0 <= j < |q| => P(i, j))
    }

    function PRows(): (r: Rows)
      requires Valid()
      ensures |r| == |q| && forall i :: 0 <= i < |q| ==> r[i] == PRow(i)
    {
      seq(|q|, i requires 0 <= i < |q| => PRow(i))
    }

    function DSRows(g: Rows): (r: Rows)
      requires Valid() && |g| == |q| && AllWide(g, d)
      ensures |r| == |q| && forall i :: 0 <= i < |q| ==> r[i] == SoftmaxBwdRow(PRow(i), DProbRow(g, v, d, i))
    {
      seq(|q|, i requires 0 <= i < |q| => SoftmaxBwdRow(PRow(i), DProbRow(g, v, d, i)))
    }

    /** The output row, and the gradients of the query, key and value rows. */
    function ORow(i: nat): Row
      requires Valid() && i < |q|
    {
      WeightedRow(PRow(i), v, d, 0, i + 1)
    }

    function DQRow(g: Rows, i: nat): Row
      requires Valid() && |g| == |q| && AllWide(g, d) && i < |q|
    {
      WeightedRow(Scaled(DSRows(g)[i], ScaleOf(d)), k, d, 0, i + 1)
    }

    function DKRow(g: Rows, j: nat): Row
      requires Valid() && |g| == |q| && AllWide(g, d) && j < |q|
    {
      WeightedRow(Scaled(Column(DSRows(g), j), ScaleOf(d)), q, d, j, |q|)
    }

    function DVRow(g: Rows, j: nat): Row
      requires Valid() && |g| == |q| && AllWide(g, d) && j < |q|
    {
      WeightedRow(Column(PRows(), j), g, d, j, |q|)
    }
  }

  /** The masked tail of a row adds nothing: the rowsum over the causal prefix is the whole rowsum. */
  lemma {:induction false} PrefixRowSum(p: Row, dp: Row, i: nat, n: nat)
    requires |p| == |dp| && i + 1 <= n <= |p|
    requires forall j :: i < j < |p| ==> p[j] == ZERO && dp[j] == ZERO
    ensures RowSumTo(dp, p, n) == RowSumTo(dp, p, i + 1)
  {
    if n > i + 1 {
      PrefixRowSum(p, dp, i, n - 1);
    }
  }

  // ---------------------------------------------------------------- kernel loops

  method DotLoop(x: Row, y: Row) returns (dot: F)
    requires |x| == |y|
    ensures dot == Dot(x, y)
  {
    var acc := DZero;
    for c := 0 to |x|
      invariant acc == DotTo(x, y, c)
    {
      acc := DAdd(acc, DMul(Widen(x[c]), Widen(y[c])));
    }
    dot := Narrow(acc);
  }

  /** dst[c] += a * src[c]. */
  method Axpy(dst: Row, a: F, src: Row) returns (r: Row)
    requires |dst| == |src|
    ensures |r| == |dst| && forall c :: 0 <= c < |dst| ==> r[c] == Add(dst[c], Mul(a, src[c]))
  {
    r := dst;
    for c := 0 to |dst|
      invariant |r| == |dst|
      invariant forall c' {:trigger r[c']} :: 0 <= c' < |dst| ==>
        r[c'] == if c' < c then Add(dst[c'], Mul(a, src[c'])) else dst[c']
    {
      r := r[c := Add(r[c], Mul(a, src[c]))];
    }
  }

  method ZeroRow(d: nat) returns (r: Row)
    ensures |r| == d && forall c :: 0 <= c < d ==> r[c] == ZERO
  {
    r := seq(d, _ => ZERO);
  }

  /** One more term of a weighted row. */
  method WeightedStep(row: Row, s: F, ghost coef: Row, rows: Rows, d: nat, lo: nat, i: nat, ghost next: nat) returns (r: Row)
    requires lo <= i < next == i + 1 <= |coef| && next <= |rows| && AllWide(rows, d) && s == coef[i]
    requires row == WeightedRow(coef, rows, d, lo, i)
    ensures r == WeightedRow(coef, rows, d, lo, next)
  {
    r := Axpy(row, s, rows[i]);
  }

  /** No terms yet. */
  method WeightedNone(ghost coef: Row, rows: Rows, d: nat, lo: nat) returns (r: Row)
    requires lo <= |coef| && lo <= |rows| && AllWide(rows, d)
    ensures r == WeightedRow(coef, rows, d, lo, lo)
  {
    r := ZeroRow(d);
  }

  /** One accumulated row, rows in order lo..hi. */
  method WeightedLoop(coef: Row, rows: Rows, d: nat, lo: nat, hi: nat) returns (r: Row)
    requires lo <= hi <= |coef| && hi <= |rows| && AllWide(rows, d)
    ensures r == WeightedRow(coef, rows, d, lo, hi)
  {
    r := WeightedNone(coef, rows, d, lo);
    for i := lo to hi
      invariant r == WeightedRow(coef, rows, d, lo, i)
    {
      r := WeightedStep(r, coef[i], coef, rows, d, lo, i, i + 1);
    }
  }

  /** The scores of the causal prefix of row i, and their maximum. */
  method ScoreRow(hd: Head, i: nat) returns (prow: Row, m: F)
    requires hd.Valid() && i < |hd.q|
    ensures |prow| == i + 1 && (forall j :: 0 <= j <= i ==> prow[j] == hd.Score(i, j)) && m == hd.RowMax(i)
  {
    prow, m := [], NegInf;
    for j := 0 to i + 1
      invariant |prow| == j && (forall j' :: 0 <= j' < j ==> prow[j'] == hd.Score(i, j')) && m == hd.MaxTo(i, j)
    {
      var dot := DotLoop(hd.q[i], hd.k[j]);
      var s := Mul(dot, ScaleOf(hd.d));
      prow := prow + [s];
      m := MaxOf(s, m);
    }
  }

  /** The forward pass of one query row: probabilities of the causal prefix, the row's max and inverse denominator. */
  method SoftmaxRow(hd: Head, i: nat) returns (prow: Row, m: F, inv: F)
    requires hd.Valid() && i < |hd.q|
    ensures |prow| == i + 1 && forall j :: 0 <= j <= i ==> prow[j] == hd.P(i, j)
    ensures m == hd.RowMax(i) && inv == hd.InvDenom(i)
  {
    prow, m := ScoreRow(hd, i);
    var denom := DZero;
    for j := 0 to i + 1
      invariant |prow| == i + 1 && denom == hd.DenomTo(i, j)
      invariant forall j' {:trigger prow[j']} :: 0 <= j' <= i ==> prow[j'] == if j' < j then hd.ExpScore(i, j') else hd.Score(i, j')
    {
      var e := Exp(Sub(prow[j], m));
      prow := prow[j := e];
      denom := DAdd(denom, Widen(e));
    }
    inv := Div(ONE, Narrow(denom));
    for j := 0 to i + 1
      invariant |prow| == i + 1
      invariant forall j' {:trigger prow[j']} :: 0 <= j' <= i ==> prow[j'] == if j' < j then hd.P(i, j') else hd.ExpScore(i, j')
    {
      prow := prow[j := Mul(prow[j], inv)];
    }
  }

  // ---------------------------------------------------- one unit of each kernel

  /** A query row of the cached forward: the whole probability row, mask included, and the output row. */
  method ForwardUnit(hd: Head, i: nat) returns (prow: Row, oi: Row)
    requires hd.Valid() && i < |hd.q|
    ensures prow == hd.PRow(i) && oi == hd.ORow(i)
  {
    var p, m, inv := SoftmaxRow(hd, i);
    oi := WeightedLoop(p, hd.v, hd.d, 0, i + 1);
    SameWeightedRow(p, hd.PRow(i), hd.v, hd.d, 0, i + 1);
    prow := p + seq(|hd.q| - i - 1, _ => ZERO);
  }

  /** A row of dP; the masked positions are zeroed, so that the rowsum over them is finite. */
  method DProbUnit(g: Rows, v: Rows, d: nat, i: nat) returns (row: Row)
    requires |g| == |v| && i < |g| && AllWide(g, d) && AllWide(v, d)
    ensures row == DProbRow(g, v, d, i)
  {
    row := [];
    for j := 0 to i + 1
      invariant |row| == j && forall j' :: 0 <= j' < j ==> row[j'] == DProb(g, v, i, j')
    {
      var dot := DotLoop(g[i], v[j]);
      row := row + [dot];
    }
    row := row + seq(|v| - i - 1, _ => ZERO);
  }

  method RowSumLoop(dp: Row, p: Row, n: nat) returns (dot: D)
    requires n <= |dp| && n <= |p|
    ensures dot == RowSumTo(dp, p, n)
  {
    dot := DZero;
    for c := 0 to n
      invariant dot == RowSumTo(dp, p, c)
    {
      dot := Accumulate(dot, DMul(Widen(dp[c]), Widen(p[c])));
    }
  }

  method SoftmaxBwdUnit(p: Row, dp: Row) returns (row: Row)
    requires |p| == |dp|
    ensures row == SoftmaxBwdRow(p, dp)
  {
    var dot := RowSumLoop(dp, p, |dp|);
    var sum := Narrow(dot);
    row := [];
    for c := 0 to |dp|
      invariant |row| == c && forall c' :: 0 <= c' < c ==> row[c'] == SoftmaxBwdRow(p, dp)[c']
    {
      row := row + [Mul(p[c], Sub(dp[c], sum))];
    }
  }

  // -------------------------------------------------------- the tiled recomputation

  /** The four floats kept for a query row. */
  datatype Stats = Stats(max: F, invDenom: F, delta: F, pad: F)

  /** One probability, recomputed from the row's stats. */
  method Prob(qi: Row, kj: Row, d: nat, st: Stats) returns (p: F)
    requires |qi| == |kj|
    ensures p == Mul(Exp(Sub(Mul(Dot(qi, kj), ScaleOf(d)), st.max)), st.invDenom)
  {
    var dot := DotLoop(qi, kj);
    var s := Mul(dot, ScaleOf(d));
    p := Mul(Exp(Sub(s, st.max)), st.invDenom);
  }

  /** The stats the forward pass stores for row i. */
  ghost predicate HasForward(hd: Head, i: nat, st: Stats)
    requires hd.Valid() && i < |hd.q|
  {
    st.max == hd.RowMax(i) && st.invDenom == hd.InvDenom(i)
  }

  method ForwardTiledUnit(hd: Head, i: nat) returns (oi: Row, st: Stats)
    requires hd.Valid() && i < |hd.q|
    ensures oi == hd.ORow(i) && st == Stats(hd.RowMax(i), hd.InvDenom(i), ZERO, ZERO)
  {
    var p, m, inv := SoftmaxRow(hd, i);
    oi := WeightedLoop(p, hd.v, hd.d, 0, i + 1);
    SameWeightedRow(p, hd.PRow(i), hd.v, hd.d, 0, i + 1);
    st := Stats(m, inv, ZERO, ZERO);
  }

  /** The rowsum the cached family computes for row i. */
  function Delta(hd: Head, g: Rows, i: nat): F
    requires hd.Valid() && |g| == |hd.q| && AllWide(g, hd.d) && i < |hd.q|
  {
    Narrow(RowSumTo(DProbRow(g, hd.v, hd.d, i), hd.PRow(i), |hd.q|))
  }

  lemma {:induction false} SameRowSum(dp: Row, p: Row, dp': Row, p': Row, n: nat)
    requires n <= |dp| && n <= |p| && n <= |dp'| && n <= |p'|
    requires forall j :: 0 <= j < n ==> dp[j] == dp'[j] && p[j] == p'[j]
    ensures RowSumTo(dp, p, n) == RowSumTo(dp', p', n)
  {
    if n > 0 {
      SameRowSum(dp, p, dp', p', n - 1);
    }
  }

  /** The dQ pass: p and dP of the causal prefix recomputed, delta over that prefix alone. */
  method DQTiledUnit(hd: Head, g: Rows, i: nat, st: Stats) returns (dqi: Row, st': Stats)
    requires hd.Valid() && |g| == |hd.q| && AllWide(g, hd.d) && i < |hd.q| && HasForward(hd, i, st)
    ensures dqi == hd.DQRow(g, i) && st' == st.(delta := Delta(hd, g, i))
  {
    var prow, dprow := [], [];
    for j := 0 to i + 1
      invariant |prow| == |dprow| == j
      invariant forall j' :: 0 <= j' < j ==> prow[j'] == hd.P(i, j') && dprow[j'] == DProb(g, hd.v, i, j')
    {
      var p := Prob(hd.q[i], hd.k[j], hd.d, st);
      var dp := DotLoop(g[i], hd.v[j]);
      prow, dprow := prow + [p], dprow + [dp];
    }
    var dot := RowSumLoop(dprow, prow, i + 1);
    SameRowSum(dprow, prow, DProbRow(g, hd.v, hd.d, i), hd.PRow(i), i + 1);
    PrefixRowSum(hd.PRow(i), DProbRow(g, hd.v, hd.d, i), i, |hd.q|);
    st' := st.(delta := Narrow(dot));
    dqi := DQFromRows(hd, g, i, prow, dprow, st'.delta);
  }

  /** dS(i, j) / sqrt(d) for a rowsum delta. */
  function DScoreScaled(hd: Head, g: Rows, i: nat, j: nat, delta: F): F
    requires hd.Valid() && |g| == |hd.q| && AllWide(g, hd.d) && i < |hd.q| && j < |hd.q|
  {
    Mul(Mul(hd.P(i, j), Sub(DProb(g, hd.v, i, j), delta)), ScaleOf(hd.d))
  }

  method DQFromRows(hd: Head, g: Rows, i: nat, prow: Row, dprow: Row, delta: F) returns (dqi: Row)
    requires hd.Valid() && |g| == |hd.q| && AllWide(g, hd.d) && i < |hd.q| && |prow| == |dprow| == i + 1
    requires forall j :: 0 <= j <= i ==> prow[j] == hd.P(i, j) && dprow[j] == DProb(g, hd.v, i, j)
    requires delta == Delta(hd, g, i)
    ensures dqi == hd.DQRow(g, i)
  {
    var coef := ScaledScores(hd, g, i, prow, dprow, delta);
    dqi := WeightedLoop(coef, hd.k, hd.d, 0, i + 1);
    DSRowIs(hd, g, i);
    SameWeightedRow(coef, Scaled(hd.DSRows(g)[i], ScaleOf(hd.d)), hd.k, hd.d, 0, i + 1);
  }

  method ScaledScores(hd: Head, g: Rows, i: nat, prow: Row, dprow: Row, delta: F) returns (coef: Row)
    requires hd.Valid() && |g| == |hd.q| && AllWide(g, hd.d) && i < |hd.q| && |prow| == |dprow| == i + 1
    requires forall j :: 0 <= j <= i ==> prow[j] == hd.P(i, j) && dprow[j] == DProb(g, hd.v, i, j)
    ensures |coef| == i + 1 && forall j :: 0 <= j <= i ==> coef[j] == DScoreScaled(hd, g, i, j, delta)
  {
    coef := [];
    for j := 0 to i + 1
      invariant |coef| == j && forall j' :: 0 <= j' < j ==> coef[j'] == DScoreScaled(hd, g, i, j', delta)
    {
      coef := coef + [Mul(Mul(prow[j], Sub(dprow[j], delta)), ScaleOf(hd.d))];
    }
  }

  lemma DSRowIs(hd: Head, g: Rows, i: nat)
    requires hd.Valid() && |g| == |hd.q| && AllWide(g, hd.d) && i < |hd.q|
    ensures |hd.DSRows(g)[i]| == |hd.q|
    ensures forall j :: 0 <= j < |hd.q| ==>
      Scaled(hd.DSRows(g)[i], ScaleOf(hd.d))[j] == DScoreScaled(hd, g, i, j, Delta(hd, g, i))
  {
  }

  /** The rowsums of every row of a head. */
  ghost function Deltas(hd: Head, g: Rows): (r: Row)
    requires hd.Valid() && |g| == |hd.q| && AllWide(g, hd.d)
    ensures |r| == |hd.q| && forall i :: 0 <= i < |hd.q| ==> r[i] == Delta(hd, g, i)
  {
    seq(|hd.q|, i requires 0 <= i < |hd.q| => Delta(hd, g, i))
  }

  lemma DSColumnIs(hd: Head, g: Rows, j: nat)
    requires hd.Valid() && |g| == |hd.q| && AllWide(g, hd.d) && j < |hd.q|
    ensures forall i :: 0 <= i < |hd.q| ==> |hd.DSRows(g)[i]| == |hd.q|
    ensures forall i :: 0 <= i < |hd.q| ==>
      Scaled(Column(hd.DSRows(g), j), ScaleOf(hd.d))[i] == DScoreScaled(hd, g, i, j, Deltas(hd, g)[i])
  {
    var col := Scaled(Column(hd.DSRows(g), j), ScaleOf(hd.d));
    forall i | 0 <= i < |hd.q| ensures col[i] == DScoreScaled(hd, g, i, j, Deltas(hd, g)[i]) {
      DSRowIs(hd, g, i);
      assert Scaled(hd.DSRows(g)[i], ScaleOf(hd.d))[j] == col[i];
    }
  }

  /** The stats of a whole head after the dQ pass. */
  ghost predicate HasStats(hd: Head, deltas: Row, stats: seq<Stats>)
    requires hd.Valid()
  {
    && |stats| == |deltas| == |hd.q|
    && forall i :: 0 <= i < |stats| ==> HasForward(hd, i, stats[i]) && stats[i].delta == deltas[i]
  }

  /** dS(i, j) / sqrt(d), recomputed from the stats of row i. */
  method DScore(hd: Head, g: Rows, i: nat, j: nat, st: Stats) returns (s: F)
    requires hd.Valid() && |g| == |hd.q| && AllWide(g, hd.d) && j <= i < |hd.q| && HasForward(hd, i, st)
    ensures s == DScoreScaled(hd, g, i, j, st.delta)
  {
    var p := Prob(hd.q[i], hd.k[j], hd.d, st);
    var dp := DotLoop(g[i], hd.v[j]);
    var ds := Mul(p, Sub(dp, st.delta));
    s := Mul(ds, ScaleOf(hd.d));
  }

  /** The dK pass of key row j, over every query row i >= j. */
  method DKTiledUnit(hd: Head, g: Rows, j: nat, stats: seq<Stats>) returns (dkj: Row)
    requires hd.Valid() && |g| == |hd.q| && AllWide(g, hd.d) && j < |hd.q| && HasStats(hd, Deltas(hd, g), stats)
    ensures dkj == hd.DKRow(g, j)
  {
    DSColumnIs(hd, g, j);
    dkj := DKLoop(hd, g, j, stats, Scaled(Column(hd.DSRows(g), j), ScaleOf(hd.d)));
  }

  method DKLoop(hd: Head, g: Rows, j: nat, stats: seq<Stats>, ghost coef: Row) returns (dkj: Row)
    requires hd.Valid() && |g| == |hd.q| == |coef| == |stats| && AllWide(g, hd.d) && j < |hd.q|
    requires forall i {:trigger HasForward(hd, i, stats[i])} :: j <= i < |coef| ==>
      HasForward(hd, i, stats[i]) && coef[i] == DScoreScaled(hd, g, i, j, stats[i].delta)
    ensures dkj == WeightedRow(coef, hd.q, hd.d, j, |hd.q|)
  {
    dkj := WeightedNone(coef, hd.q, hd.d, j);
    for i := j to |hd.q|
      invariant dkj == WeightedRow(coef, hd.q, hd.d, j, i)
    {
      assert HasForward(hd, i, stats[i]);
      dkj := DKStep(hd, g, j, i, i + 1, stats[i], dkj, coef);
    }
  }

  /** The term of query row i. */
  method DKStep(hd: Head, g: Rows, j: nat, i: nat, ghost next: nat, st: Stats, row: Row, ghost coef: Row) returns (r: Row)
    requires hd.Valid() && |g| == |hd.q| == |coef| && AllWide(g, hd.d) && j <= i < next == i + 1 <= |coef| && HasForward(hd, i, st)
    requires coef[i] == DScoreScaled(hd, g, i, j, st.delta)
    requires row == WeightedRow(coef, hd.q, hd.d, j, i)
    ensures r == WeightedRow(coef, hd.q, hd.d, j, next)
  {
    var s := DScore(hd, g, i, j, st);
    r := WeightedStep(row, s, coef, hd.q, hd.d, j, i, next);
  }

  /** Rows j on have their forward stats. */
  ghost predicate ForwardFrom(hd: Head, stats: seq<Stats>, j: nat)
    requires hd.Valid() && |stats| == |hd.q|
  {
    forall i {:trigger HasForward(hd, i, stats[i])} :: j <= i < |stats| ==> HasForward(hd, i, stats[i])
  }

  lemma StatsForward(hd: Head, deltas: Row, stats: seq<Stats>, j: nat)
    requires hd.Valid() && HasStats(hd, deltas, stats)
    ensures ForwardFrom(hd, stats, j)
  {
  }

  method DVTiledUnit(hd: Head, g: Rows, j: nat, stats: seq<Stats>) returns (dvj: Row)
    requires hd.Valid() && |g| == |hd.q| == |stats| && AllWide(g, hd.d) && j < |hd.q| && ForwardFrom(hd, stats, j)
    ensures dvj == hd.DVRow(g, j)
  {
    dvj := DVLoop(hd, g, j, stats, Column(hd.PRows(), j));
  }

  method DVLoop(hd: Head, g: Rows, j: nat, stats: seq<Stats>, ghost coef: Row) returns (dvj: Row)
    requires hd.Valid() && |g| == |hd.q| == |stats| == |coef| && AllWide(g, hd.d) && j < |hd.q| && ForwardFrom(hd, stats, j)
    requires forall i :: j <= i < |coef| ==> coef[i] == hd.P(i, j)
    ensures dvj == WeightedRow(coef, g, hd.d, j, |g|)
  {
    dvj := WeightedNone(coef, g, hd.d, j);
    for i := j to |g|
      invariant dvj == WeightedRow(coef, g, hd.d, j, i)
    {
      assert HasForward(hd, i, stats[i]);
      var p := Prob(hd.q[i], hd.k[j], hd.d, stats[i]);
      dvj := WeightedStep(dvj, p, coef, g, hd.d, j, i, i + 1);
    }
  }
}
