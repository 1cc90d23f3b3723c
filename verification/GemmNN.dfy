// The packed, register-blocked NN/TN core (runtime/executor/gemm.cc).
module GemmNN {
  import opened Parallel
  import opened Scalar
  import opened Indexing
  import opened KernelPolicy
  import opened Cells

  /** The A scalars one pass over the panel multiplies by: a k-quad, or one term of the K % 4 tail. */
  datatype Scalars = Quad(x0: F, x1: F, x2: F, x3: F) | Tail(x0: F) {
    function Depth(): nat { if Quad? then 4 else 1 }
  }

  /** What one pass adds to a C element whose column sits at panel index x; panel rows are w apart. */
  function Gain(a: Scalars, panel: seq<F>, x: nat, w: nat): F
    requires x + (a.Depth() - 1) * w < |panel|
  {
    match a
    case Quad(x0, x1, x2, x3) =>
      Add(Add(Add(Mul(x0, panel[x]), Mul(x1, panel[x + w])), Mul(x2, panel[x + 2 * w])), Mul(x3, panel[x + 3 * w]))
    case Tail(x0) => Mul(x0, panel[x])
  }

  /** The read-only operands of one call, as rows, and the serial reduction the core must reproduce. */
  datatype Operands = Operands(
    a: seq<seq<F>>,
    transposed: bool,
    alpha: F,
    b: seq<seq<W>>,
    colScale: Option<seq<F>>,
    M: nat,
    N: nat,
    K: nat)
  {
    ghost predicate Valid() {
      && |a| == (if transposed then K else M)
      && (forall r :: 0 <= r < |a| ==> |a[r]| == if transposed then M else K)
      && |b| == K && (forall k :: 0 <= k < K ==> |b[k]| == N)
      && (colScale.Some? ==> |colScale.value| == N)
    }

    /** alpha times the element of A that row m reads at depth k. */
    function A(k: nat, m: nat): F
      requires Valid() && k < K && m < M
    {
      Mul(alpha, if transposed then a[k][m] else a[m][k])
    }

    /** The widened (and, with column scales, scaled) element of B. */
    function B(k: nat, n: nat): F
      requires Valid() && k < K && n < N
    {
      var v := OfStored(b[k][n]);
      if colScale.Some? then Mul(v, colScale.value[n]) else v
    }

    function ScalarsAt(k: nat, m: nat, d: nat): Scalars
      requires Valid() && k + d <= K && m < M && (d == 4 || d == 1)
    {
      if d == 4 then Quad(A(k, m), A(k + 1, m), A(k + 2, m), A(k + 3, m)) else Tail(A(k, m))
    }

    function Term(m: nat, n: nat, k: nat): F
      requires Valid() && m < M && n < N && k < K
    {
      Mul(A(k, m), B(k, n))
    }

    /** The sum a0*b0 + a1*b1 + a2*b2 + a3*b3 of the quad at k, or the single term at k. */
    function Step(m: nat, n: nat, k: nat, d: nat): F
      requires Valid() && m < M && n < N && k + d <= K && (d == 4 || d == 1)
    {
      if d == 4 then Add(Add(Add(Term(m, n, k), Term(m, n, k + 1)), Term(m, n, k + 2)), Term(m, n, k + 3))
      else Term(m, n, k)
    }

    /** c after the terms 0..k of element (m, n): whole quads aligned at 0, then single terms. */
    function Fold(m: nat, n: nat, c: F, k: nat): F
      requires Valid() && m < M && n < N && k <= K
    {
      if k == 0 then c
      else if k % 4 == 0 then Add(Fold(m, n, c, k - 4), Step(m, n, k - 4, 4))
      else Add(Fold(m, n, c, k - 1), Step(m, n, k - 1, 1))
    }
  }

  // ---------------------------------------------------------------- the panel

  /** panel[base..base+w] holds row k of B from column n0 on. */
  ghost predicate PanelRow(p: Operands, panel: seq<F>, base: nat, k: nat, n0: nat, w: nat)
    requires p.Valid() && k < p.K && n0 + w <= p.N && base + w <= |panel|
  {
    forall j :: base <= j < base + w ==> panel[j] == p.B(k, n0 + (j - base))
  }

  function Base(k: nat, k0: nat, w: nat): nat
    requires k0 <= k
  {
    (k - k0) * w
  }

  /** Rows k0..k1 of B, packed one after another with unit stride. */
  ghost predicate Packed(p: Operands, panel: seq<F>, k0: nat, k1: nat, n0: nat, w: nat)
    requires p.Valid() && k1 <= p.K && n0 + w <= p.N
  {
    forall k: nat {:trigger Base(k, k0, w)} :: k0 <= k < k1 ==>
      Base(k, k0, w) + w <= |panel| && PanelRow(p, panel, Base(k, k0, w), k, n0, w)
  }

  method PackRow(p: Operands, panel: array<F>, base: nat, k: nat, n0: nat, w: nat)
    requires p.Valid() && k < p.K && n0 + w <= p.N && base + w <= panel.Length
    modifies panel
    ensures PanelRow(p, panel[..], base, k, n0, w)
    ensures forall j :: 0 <= j < panel.Length && !(base <= j < base + w) ==> panel[j] == old(panel[j])
  {
    for n := 0 to w
      invariant forall j :: base <= j < base + n ==> panel[j] == p.B(k, n0 + (j - base))
      invariant forall j :: 0 <= j < panel.Length && !(base <= j < base + n) ==> panel[j] == old(panel[j])
    {
      panel[base + n] := p.B(k, n0 + n);
    }
  }

  lemma BaseStep(k: nat, k0: nat, w: nat)
    requires k0 <= k
    ensures Base(k + 1, k0, w) == Base(k, k0, w) + w
  {
    var r := k - k0;
    assert (r + 1) * w == r * w + w;
  }

  lemma BaseIncreases(k: nat, k': nat, k0: nat, w: nat)
    requires k0 <= k < k'
    ensures Base(k, k0, w) + w <= Base(k', k0, w)
  {
    RowFits(k - k0, k' - k0, w);
  }

  /** Copies (and widens) B[k0..k1, n0..n0+w] into the panel. */
  method PackPanel(p: Operands, panel: array<F>, k0: nat, k1: nat, n0: nat, w: nat)
    requires p.Valid() && k0 <= k1 <= p.K && n0 + w <= p.N && (k1 - k0) * w <= panel.Length
    modifies panel
    ensures Packed(p, panel[..], k0, k1, n0, w)
  {
    for k := k0 to k1
      invariant Packed(p, panel[..], k0, k, n0, w)
    {
      RowFits(k - k0, k1 - k0, w);
      forall k': nat | k0 <= k' < k ensures Base(k', k0, w) + w <= Base(k, k0, w) {
        BaseIncreases(k', k, k0, w);
      }
      PackRow(p, panel, Base(k, k0, w), k, n0, w);
    }
  }

  // ------------------------------------------------- one pass over the panel

  /** What index j holds once n columns are swept across the four rows base, base+N, base+2N, base+3N of c. */
  function Swept4(a: seq<Scalars>, panel: seq<F>, pb: nat, w: nat, c: seq<F>, base: nat, N: nat, n: nat, j: nat): F
    requires |a| == 4 && (forall i :: 0 <= i < 4 ==> pb + a[i].Depth() * w <= |panel|) && n <= w && j < |c|
  {
    if base <= j < base + n then Add(c[j], Gain(a[0], panel, pb + (j - base), w))
    else if base + N <= j < base + N + n then Add(c[j], Gain(a[1], panel, pb + (j - base - N), w))
    else if base + 2 * N <= j < base + 2 * N + n then Add(c[j], Gain(a[2], panel, pb + (j - base - 2 * N), w))
    else if base + 3 * N <= j < base + 3 * N + n then Add(c[j], Gain(a[3], panel, pb + (j - base - 3 * N), w))
    else c[j]
  }

  method Sweep4(a: seq<Scalars>, panel: seq<F>, pb: nat, w: nat, C: array<F>, base: nat, N: nat)
    requires |a| == 4 && (forall i :: 0 <= i < 4 ==> pb + a[i].Depth() * w <= |panel|)
    requires w <= N && base + 3 * N + w <= C.Length
    modifies C
    ensures forall j :: 0 <= j < C.Length ==> C[j] == Swept4(a, panel, pb, w, old(C[..]), base, N, w, j)
  {
    for n := 0 to w
      invariant forall j :: 0 <= j < C.Length ==> C[j] == Swept4(a, panel, pb, w, old(C[..]), base, N, n, j)
    {
      C[base + n] := Add(C[base + n], Gain(a[0], panel, pb + n, w));
      C[base + N + n] := Add(C[base + N + n], Gain(a[1], panel, pb + n, w));
      C[base + 2 * N + n] := Add(C[base + 2 * N + n], Gain(a[2], panel, pb + n, w));
      C[base + 3 * N + n] := Add(C[base + 3 * N + n], Gain(a[3], panel, pb + n, w));
    }
  }

  function Swept1(a: Scalars, panel: seq<F>, pb: nat, w: nat, c: seq<F>, base: nat, n: nat, j: nat): F
    requires pb + a.Depth() * w <= |panel| && n <= w && j < |c|
  {
    if base <= j < base + n then Add(c[j], Gain(a, panel, pb + (j - base), w)) else c[j]
  }

  method Sweep1(a: Scalars, panel: seq<F>, pb: nat, w: nat, C: array<F>, base: nat)
    requires pb + a.Depth() * w <= |panel| && base + w <= C.Length
    modifies C
    ensures forall j :: 0 <= j < C.Length ==> C[j] == Swept1(a, panel, pb, w, old(C[..]), base, w, j)
  {
    for n := 0 to w
      invariant forall j :: 0 <= j < C.Length ==> C[j] == Swept1(a, panel, pb, w, old(C[..]), base, n, j)
    {
      C[base + n] := Add(C[base + n], Gain(a, panel, pb + n, w));
    }
  }

  // --------------------------------------------------- rows of C, by k depth

  /** Columns n0..n1 of row m hold their fold up to depth k, started from c0. */
  ghost predicate RowAt(p: Operands, c: seq<F>, c0: seq<F>, m: nat, n0: nat, n1: nat, k: nat)
    requires p.Valid() && m < p.M && n1 <= p.N && k <= p.K && |c| == |c0| == p.M * p.N
  {
    RowFits(m, p.M, p.N);
    var base := m * p.N;
    forall j :: base + n0 <= j < base + n1 ==> c[j] == p.Fold(m, j - base, c0[j], k)
  }

  ghost predicate RowsAt(p: Operands, c: seq<F>, c0: seq<F>, m0: nat, m1: nat, n0: nat, n1: nat, k: nat)
    requires p.Valid() && m1 <= p.M && n1 <= p.N && k <= p.K && |c| == |c0| == p.M * p.N
  {
    forall r: nat :: m0 <= r < m1 ==> RowAt(p, c, c0, r, n0, n1, k)
  }

  /** The panel rows of the step at k start at pb, w apart, with column n0 first. */
  ghost predicate StepPacked(p: Operands, panel: seq<F>, pb: nat, k: nat, d: nat, n0: nat, w: nat)
    requires p.Valid() && k + d <= p.K && (d == 4 || d == 1) && n0 + w <= p.N && pb + d * w <= |panel|
  {
    forall x: nat, m: nat {:trigger Gain(p.ScalarsAt(k, m, d), panel, x, w)} :: pb <= x < pb + w && m < p.M ==>
      Gain(p.ScalarsAt(k, m, d), panel, x, w) == p.Step(m, n0 + (x - pb), k, d)
  }

  lemma StepOfRows(p: Operands, panel: seq<F>, pb: nat, k: nat, d: nat, n0: nat, w: nat)
    requires p.Valid() && k + d <= p.K && (d == 4 || d == 1) && n0 + w <= p.N && pb + d * w <= |panel|
    requires PanelRow(p, panel, pb, k, n0, w)
    requires d == 4 ==> PanelRow(p, panel, pb + w, k + 1, n0, w) && PanelRow(p, panel, pb + 2 * w, k + 2, n0, w)
    requires d == 4 ==> PanelRow(p, panel, pb + 3 * w, k + 3, n0, w)
    ensures StepPacked(p, panel, pb, k, d, n0, w)
  {
    forall x: nat, m: nat | pb <= x < pb + w && m < p.M
      ensures Gain(p.ScalarsAt(k, m, d), panel, x, w) == p.Step(m, n0 + (x - pb), k, d)
    {
      assert panel[x] == p.B(k, n0 + (x - pb));
      if d == 4 {
        assert panel[x + w] == p.B(k + 1, n0 + (x - pb));
        assert panel[x + 2 * w] == p.B(k + 2, n0 + (x - pb));
        assert panel[x + 3 * w] == p.B(k + 3, n0 + (x - pb));
      }
    }
  }

  lemma StepOfPanel(p: Operands, panel: seq<F>, k0: nat, k1: nat, k: nat, d: nat, n0: nat, w: nat)
    requires p.Valid() && k0 <= k && k + d <= k1 <= p.K && (d == 4 || d == 1) && n0 + w <= p.N
    requires Packed(p, panel, k0, k1, n0, w)
    ensures Base(k, k0, w) + d * w <= |panel| && StepPacked(p, panel, Base(k, k0, w), k, d, n0, w)
  {
    var pb := Base(k, k0, w);
    if d == 4 {
      BaseStep(k, k0, w);
      BaseStep(k + 1, k0, w);
      BaseStep(k + 2, k0, w);
      assert PanelRow(p, panel, pb + w, k + 1, n0, w);
      assert PanelRow(p, panel, pb + 2 * w, k + 2, n0, w);
      assert PanelRow(p, panel, pb + 3 * w, k + 3, n0, w);
    }
    StepOfRows(p, panel, pb, k, d, n0, w);
  }

  /** k may advance by d: quads stay aligned at 0 and single terms belong to the K % 4 tail. */
  predicate Aligned(K: nat, k: nat, d: nat) {
    k + d <= K && ((d == 4 && k % 4 == 0) || (d == 1 && k / 4 == K / 4))
  }

  /** Row m of c' is row m of c plus one step's products, in columns n0..n0+w. */
  ghost predicate RowGained(p: Operands, panel: seq<F>, c: seq<F>, c': seq<F>, m: nat, pb: nat, k: nat, d: nat, n0: nat, w: nat)
    requires p.Valid() && m < p.M && k + d <= p.K && (d == 4 || d == 1) && n0 + w <= p.N && pb + d * w <= |panel|
    requires |c| == |c'| == p.M * p.N
  {
    RowFits(m, p.M, p.N);
    var base := m * p.N + n0;
    forall j :: base <= j < base + w ==> c'[j] == Add(c[j], Gain(p.ScalarsAt(k, m, d), panel, pb + (j - base), w))
  }

  lemma FoldStep(p: Operands, m: nat, n: nat, c: F, k: nat, d: nat)
    requires p.Valid() && m < p.M && n < p.N && Aligned(p.K, k, d)
    ensures p.Fold(m, n, c, k + d) == Add(p.Fold(m, n, c, k), p.Step(m, n, k, d))
  {
  }

  lemma RowStep(p: Operands, panel: seq<F>, c: seq<F>, c': seq<F>, c0: seq<F>, m: nat, pb: nat, k: nat, d: nat, n0: nat, w: nat)
    requires p.Valid() && m < p.M && Aligned(p.K, k, d) && n0 + w <= p.N
    requires |c| == |c'| == |c0| == p.M * p.N
    requires pb + d * w <= |panel| && StepPacked(p, panel, pb, k, d, n0, w)
    requires RowAt(p, c, c0, m, n0, n0 + w, k)
    requires RowGained(p, panel, c, c', m, pb, k, d, n0, w)
    ensures RowAt(p, c', c0, m, n0, n0 + w, k + d)
  {
    RowFits(m, p.M, p.N);
    var base := m * p.N;
    forall j | base + n0 <= j < base + n0 + w
      ensures c'[j] == p.Fold(m, j - base, c0[j], k + d)
    {
      StepAt(p, panel, c, c', c0, m, pb, k, d, n0, w, base, j, j - base, k + d);
    }
  }

  lemma StepAt(p: Operands, panel: seq<F>, c: seq<F>, c': seq<F>, c0: seq<F>, m: nat, pb: nat, k: nat, d: nat, n0: nat, w: nat,
               base: nat, j: nat, n: nat, next: nat)
    requires p.Valid() && m < p.M && Aligned(p.K, k, d) && n0 + w <= p.N && next == k + d
    requires |c| == |c'| == |c0| == p.M * p.N && base == m * p.N && n == j - base && n0 <= n < n0 + w && base + n0 + w <= |c|
    requires pb + d * w <= |panel| && StepPacked(p, panel, pb, k, d, n0, w)
    requires RowAt(p, c, c0, m, n0, n0 + w, k)
    requires RowGained(p, panel, c, c', m, pb, k, d, n0, w)
    ensures c'[j] == p.Fold(m, n, c0[j], next)
  {
    var x := pb + (n - n0);
    assert Gain(p.ScalarsAt(k, m, d), panel, x, w) == p.Step(m, n, k, d);
    FoldStep(p, m, n, c0[j], k, d);
  }

  /** Row i of a four-row sweep is a one-row sweep. */
  lemma RowOfSweep4(a: seq<Scalars>, panel: seq<F>, pb: nat, w: nat, c: seq<F>, c': seq<F>, base: nat, N: nat, i: nat, base': nat)
    requires |a| == 4 && (forall i :: 0 <= i < 4 ==> pb + a[i].Depth() * w <= |panel|) && w <= N
    requires i < 4 && base' + w <= |c| == |c'|
    requires i == 0 ==> base' == base
    requires i == 1 ==> base' == base + N
    requires i == 2 ==> base' == base + 2 * N
    requires i == 3 ==> base' == base + 3 * N
    requires forall j :: 0 <= j < |c| ==> c'[j] == Swept4(a, panel, pb, w, c, base, N, w, j)
    ensures forall j :: base' <= j < base' + w ==> c'[j] == Add(c[j], Gain(a[i], panel, pb + (j - base'), w))
  {
  }

  lemma GainedBySweep4(p: Operands, a: seq<Scalars>, panel: seq<F>, c: seq<F>, c': seq<F>, m: nat, r: nat, pb: nat, k: nat,
                       d: nat, n0: nat, w: nat, base: nat)
    requires p.Valid() && |c| == |c'| == p.M * p.N && m <= r < m + 4 <= p.M && base == m * p.N + n0
    requires k + d <= p.K && (d == 4 || d == 1) && n0 + w <= p.N && pb + d * w <= |panel|
    requires |a| == 4 && (forall i :: 0 <= i < 4 ==> a[i].Depth() == d) && a[r - m] == p.ScalarsAt(k, r, d)
    requires forall j :: 0 <= j < |c| ==> c'[j] == Swept4(a, panel, pb, w, c, base, p.N, w, j)
    ensures RowGained(p, panel, c, c', r, pb, k, d, n0, w)
  {
    RowPosition(m, r, 4, p.N);
    RowFits(r, p.M, p.N);
    RowOfSweep4(a, panel, pb, w, c, c', base, p.N, r - m, r * p.N + n0);
  }

  /** One pass over the panel for a block of four rows, or for a leftover row. */
  method PassRows(p: Operands, panel: seq<F>, C: array<F>, m: nat, rows: nat, pb: nat, k: nat, d: nat, n0: nat, w: nat)
    requires p.Valid() && C.Length == p.M * p.N && (rows == 4 || rows == 1) && m + rows <= p.M
    requires k + d <= p.K && (d == 4 || d == 1) && n0 + w <= p.N && pb + d * w <= |panel|
    modifies C
    ensures forall r: nat :: m <= r < m + rows ==> RowGained(p, panel, old(C[..]), C[..], r, pb, k, d, n0, w)
    ensures KeptOutside(old(C[..]), C[..], m * p.N, p.N, rows, n0, w)
  {
    RowBase(m, rows - 1, p.N);
    RowFits(m + rows - 1, p.M, p.N);
    var base := m * p.N + n0;
    ghost var before := C[..];
    if rows == 4 {
      var a := [p.ScalarsAt(k, m, d), p.ScalarsAt(k, m + 1, d), p.ScalarsAt(k, m + 2, d), p.ScalarsAt(k, m + 3, d)];
      Sweep4(a, panel, pb, w, C, base, p.N);
      forall r: nat | m <= r < m + 4 ensures RowGained(p, panel, before, C[..], r, pb, k, d, n0, w) {
        GainedBySweep4(p, a, panel, before, C[..], m, r, pb, k, d, n0, w, base);
      }
    } else {
      Sweep1(p.ScalarsAt(k, m, d), panel, pb, w, C, base);
    }
  }

  method StepRows(p: Operands, panel: seq<F>, C: array<F>, m: nat, rows: nat, pb: nat, k: nat, d: nat, n0: nat, w: nat,
                  ghost c0: seq<F>)
    requires p.Valid() && C.Length == |c0| == p.M * p.N && (rows == 4 || rows == 1) && m + rows <= p.M
    requires Aligned(p.K, k, d) && n0 + w <= p.N && pb + d * w <= |panel| && StepPacked(p, panel, pb, k, d, n0, w)
    requires RowsAt(p, C[..], c0, m, m + rows, n0, n0 + w, k)
    modifies C
    ensures RowsAt(p, C[..], c0, m, m + rows, n0, n0 + w, k + d)
    ensures KeptOutside(old(C[..]), C[..], m * p.N, p.N, rows, n0, w)
  {
    PassRows(p, panel, C, m, rows, pb, k, d, n0, w);
    ghost var n1, k' := n0 + w, k + d;
    forall r: nat | m <= r < m + rows ensures RowAt(p, C[..], c0, r, n0, n1, k') {
      RowStep(p, panel, old(C[..]), C[..], c0, r, pb, k, d, n0, w);
    }
  }

  /** A row block walks the packed depths k0..k1: whole quads, then the K % 4 tail. */
  method RowBlock(p: Operands, panel: seq<F>, C: array<F>, m: nat, rows: nat, k0: nat, k1: nat, n0: nat, w: nat,
                  ghost c0: seq<F>)
    requires p.Valid() && C.Length == |c0| == p.M * p.N && (rows == 4 || rows == 1) && m + rows <= p.M
    requires k0 <= k1 <= p.K && k0 % 4 == 0 && (k1 % 4 == 0 || k1 == p.K) && n0 + w <= p.N
    requires Packed(p, panel, k0, k1, n0, w)
    requires RowsAt(p, C[..], c0, m, m + rows, n0, n0 + w, k0)
    modifies C
    ensures RowsAt(p, C[..], c0, m, m + rows, n0, n0 + w, k1)
    ensures KeptOutside(old(C[..]), C[..], m * p.N, p.N, rows, n0, w)
  {
    var k := k0;
    while k + 4 <= k1
      invariant k0 <= k <= k1 && k % 4 == 0
      invariant RowsAt(p, C[..], c0, m, m + rows, n0, n0 + w, k)
      invariant KeptOutside(old(C[..]), C[..], m * p.N, p.N, rows, n0, w)
    {
      StepOfPanel(p, panel, k0, k1, k, 4, n0, w);
      StepRows(p, panel, C, m, rows, Base(k, k0, w), k, 4, n0, w, c0);
      k := k + 4;
    }
    while k < k1
      invariant k0 <= k <= k1 && (k < k1 ==> k / 4 == p.K / 4)
      invariant RowsAt(p, C[..], c0, m, m + rows, n0, n0 + w, k)
      invariant KeptOutside(old(C[..]), C[..], m * p.N, p.N, rows, n0, w)
    {
      StepOfPanel(p, panel, k0, k1, k, 1, n0, w);
      StepRows(p, panel, C, m, rows, Base(k, k0, w), k, 1, n0, w, c0);
      k := k + 1;
    }
  }

  // ------------------------------------------------------- tiles of one cell

  /** A fold survives a change elsewhere. */
  lemma RowsSurvive(p: Operands, c: seq<F>, c': seq<F>, c0: seq<F>, r0: nat, r1: nat, lo: nat, hi: nat, k: nat,
                    m0: nat, m1: nat, n0: nat, n1: nat)
    requires p.Valid() && r1 <= p.M && hi <= p.N && k <= p.K && |c0| == p.M * p.N
    requires OnlyCell(p.M, p.N, c, c', m0, m1, n0, n1) && RowsAt(p, c, c0, r0, r1, lo, hi, k)
    requires r1 <= m0 || m1 <= r0 || hi <= n0 || n1 <= lo
    ensures RowsAt(p, c', c0, r0, r1, lo, hi, k)
  {
    forall r: nat | r0 <= r < r1 ensures RowAt(p, c', c0, r, lo, hi, k) {
      RowFits(r, p.M, p.N);
      assert RowAt(p, c, c0, r, lo, hi, k) && RowKept(p.N, c, c', r, m0, m1, n0, n1);
    }
  }

  /** Sweeps the packed tile, columns n0..n1 at depths k0..k1, over rows m0..m1. */
  method TilePass(p: Operands, panel: seq<F>, C: array<F>, m0: nat, m1: nat, k0: nat, k1: nat, n0: nat, n1: nat,
                  ghost c0: seq<F>)
    requires p.Valid() && C.Length == |c0| == p.M * p.N && m0 <= m1 <= p.M && n0 <= n1 <= p.N
    requires k0 <= k1 <= p.K && k0 % 4 == 0 && (k1 % 4 == 0 || k1 == p.K)
    requires Packed(p, panel, k0, k1, n0, n1 - n0)
    requires RowsAt(p, C[..], c0, m0, m1, n0, n1, k0)
    modifies C
    ensures RowsAt(p, C[..], c0, m0, m1, n0, n1, k1)
    ensures OnlyCell(p.M, p.N, old(C[..]), C[..], m0, m1, n0, n1)
  {
    var m := m0;
    while m < m1
      invariant m0 <= m <= m1
      invariant RowsAt(p, C[..], c0, m0, m, n0, n1, k1) && RowsAt(p, C[..], c0, m, m1, n0, n1, k0)
      invariant OnlyCell(p.M, p.N, old(C[..]), C[..], m0, m, n0, n1)
    {
      var rows := if m + 4 <= m1 then 4 else 1;  // four-row blocks, then the leftover rows one at a time
      ghost var c := C[..];
      RowBlock(p, panel, C, m, rows, k0, k1, n0, n1 - n0, c0);
      RowBlockOnly(p.M, p.N, c, C[..], m, rows, m + rows, n0, n1);
      RowsSurvive(p, c, C[..], c0, m0, m, n0, n1, k1, m, m + rows, n0, n1);
      RowsSurvive(p, c, C[..], c0, m + rows, m1, n0, n1, k0, m, m + rows, n0, n1);
      OnlyCellGrows(p.M, p.N, old(C[..]), c, C[..], m0, m, m + rows, n0, n1);
      m := m + rows;
    }
  }

  lemma RowsJoin(p: Operands, c: seq<F>, c0: seq<F>, m0: nat, m1: nat, n0: nat, n1: nat, n2: nat, k: nat)
    requires p.Valid() && m1 <= p.M && n0 <= n1 <= n2 <= p.N && k <= p.K && |c| == |c0| == p.M * p.N
    requires RowsAt(p, c, c0, m0, m1, n0, n1, k) && RowsAt(p, c, c0, m0, m1, n1, n2, k)
    ensures RowsAt(p, c, c0, m0, m1, n0, n2, k)
  {
    forall r: nat | m0 <= r < m1 ensures RowAt(p, c, c0, r, n0, n2, k) {
      assert RowAt(p, c, c0, r, n0, n1, k) && RowAt(p, c, c0, r, n1, n2, k);
    }
  }

  lemma RowsSplit(p: Operands, c: seq<F>, c0: seq<F>, m0: nat, m1: nat, n0: nat, n1: nat, n2: nat, k: nat)
    requires p.Valid() && m1 <= p.M && n0 <= n1 <= n2 <= p.N && k <= p.K && |c| == |c0| == p.M * p.N
    requires RowsAt(p, c, c0, m0, m1, n0, n2, k)
    ensures RowsAt(p, c, c0, m0, m1, n0, n1, k) && RowsAt(p, c, c0, m0, m1, n1, n2, k)
  {
    forall r: nat | m0 <= r < m1 ensures RowAt(p, c, c0, r, n0, n1, k) && RowAt(p, c, c0, r, n1, n2, k) {
      assert RowAt(p, c, c0, r, n0, n2, k);
    }
  }

  /** One K tile: every N tile of the cell is packed and swept from depth k0 to k1. */
  method KPass(p: Operands, panel: array<F>, C: array<F>, m0: nat, m1: nat, n0: nat, n1: nat, k0: nat, k1: nat, fit: GemmTiles,
               ghost c0: seq<F>)
    requires p.Valid() && panel != C && fit.Valid() && fit.k * fit.n <= panel.Length
    requires C.Length == |c0| == p.M * p.N && m0 <= m1 <= p.M && n0 <= n1 <= p.N
    requires k0 <= k1 <= p.K && k1 - k0 <= fit.k && k0 % 4 == 0 && (k1 % 4 == 0 || k1 == p.K)
    requires RowsAt(p, C[..], c0, m0, m1, n0, n1, k0) && OnlyCell(p.M, p.N, c0, C[..], m0, m1, n0, n1)
    modifies panel, C
    ensures RowsAt(p, C[..], c0, m0, m1, n0, n1, k1) && OnlyCell(p.M, p.N, c0, C[..], m0, m1, n0, n1)
  {
    var n := n0;
    while n < n1
      invariant n0 <= n <= n1
      invariant RowsAt(p, C[..], c0, m0, m1, n0, n, k1) && RowsAt(p, C[..], c0, m0, m1, n, n1, k0)
      invariant OnlyCell(p.M, p.N, c0, C[..], m0, m1, n0, n1)
    {
      var e := Min(n + fit.n, n1);
      PanelFits(k1 - k0, e - n, fit, panel.Length);
      PackPanel(p, panel, k0, k1, n, e - n);
      ghost var c := C[..];
      RowsSplit(p, c, c0, m0, m1, n, e, n1, k0);
      TilePass(p, panel[..], C, m0, m1, k0, k1, n, e, c0);
      RowsSurvive(p, c, C[..], c0, m0, m1, n0, n, k1, m0, m1, n, e);
      RowsSurvive(p, c, C[..], c0, m0, m1, e, n1, k0, m0, m1, n, e);
      RowsJoin(p, C[..], c0, m0, m1, n0, n, e, k1);
      OnlyCellWithin(p.M, p.N, c0, c, C[..], m0, m1, n0, n1, n, e);
      n := e;
    }
  }

  lemma PanelFits(rows: nat, w: nat, fit: GemmTiles, capacity: nat)
    requires rows <= fit.k && w <= fit.n && fit.k * fit.n <= capacity
    ensures rows * w <= capacity
  {
    assert rows * w <= fit.k * w <= fit.k * fit.n;
  }

  /** The core on the cell rows m0..m1, columns n0..n1: for any valid tiles and any panel of at
      least 4 floats, each element of the cell gains its serial fold over the whole of K. */
  method BlockedNN(p: Operands, C: array<F>, m0: nat, m1: nat, n0: nat, n1: nat, tiles: GemmTiles, panelFloats: nat)
    requires p.Valid() && C.Length == p.M * p.N && m0 <= m1 <= p.M && n0 <= n1 <= p.N
    requires tiles.Valid() && panelFloats >= 4
    modifies C
    ensures RowsAt(p, C[..], old(C[..]), m0, m1, n0, n1, p.K)
    ensures OnlyCell(p.M, p.N, old(C[..]), C[..], m0, m1, n0, n1)
  {
    var fit := FitToPanel(tiles, panelFloats);
    var panel := new F[panelFloats];
    ghost var c0 := C[..];
    var k := 0;
    while k < p.K
      invariant k <= p.K && (k % 4 == 0 || k == p.K)
      invariant RowsAt(p, C[..], c0, m0, m1, n0, n1, k) && OnlyCell(p.M, p.N, c0, C[..], m0, m1, n0, n1)
    {
      var k1 := Min(k + fit.k, p.K);
      KPass(p, panel, C, m0, m1, n0, n1, k, k1, fit, c0);
      k := k1;
    }
  }
}
