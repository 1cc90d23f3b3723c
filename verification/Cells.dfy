// Cells of a row-major matrix C: which indices a kernel may change, and the
// passes that run over the rows of one finished cell (runtime/executor/gemm.cc).
module Cells {
  import opened Scalar
  import opened Indexing

  /** j lies in columns n0..n0+w of one of `rows` (1, 2 or 4) rows that start N apart at base. */
  predicate InRows(j: int, base: nat, N: nat, rows: nat, n0: nat, w: nat) {
    || base + n0 <= j < base + n0 + w
    || (rows >= 2 && base + N + n0 <= j < base + N + n0 + w)
    || (rows == 4 && (|| base + 2 * N + n0 <= j < base + 2 * N + n0 + w
                      || base + 3 * N + n0 <= j < base + 3 * N + n0 + w))
  }

  ghost predicate KeptOutside(c: seq<F>, c': seq<F>, base: nat, N: nat, rows: nat, n0: nat, w: nat) {
    |c| == |c'| && forall j :: 0 <= j < |c| && !InRows(j, base, N, rows, n0, w) ==> c'[j] == c[j]
  }

  /** Where row r lies relative to a block of rows starting at m. */
  lemma RowPosition(m: nat, r: nat, rows: nat, N: nat)
    requires rows == 4 || rows == 2 || rows == 1
    ensures r < m ==> r * N + N <= m * N
    ensures r == m ==> r * N == m * N
    ensures rows >= 2 && r == m + 1 ==> r * N == m * N + N
    ensures rows == 4 && r == m + 2 ==> r * N == m * N + 2 * N
    ensures rows == 4 && r == m + 3 ==> r * N == m * N + 3 * N
    ensures r >= m + rows ==> r * N >= m * N + rows * N
  {
    if r < m {
      RowFits(r, m, N);
    } else {
      RowBase(m, r - m, N);
      if r >= m + rows {
        RowBase(rows, r - m - rows, N);
      }
    }
  }

  /** Row r of c' is row r of c, but for columns n0..n1 when r is one of m0..m1. */
  ghost predicate RowKept(N: nat, c: seq<F>, c': seq<F>, r: nat, m0: nat, m1: nat, n0: nat, n1: nat)
    requires |c| == |c'| && r * N + N <= |c|
  {
    forall j :: r * N <= j < r * N + N && !(m0 <= r < m1 && r * N + n0 <= j < r * N + n1) ==> c'[j] == c[j]
  }

  /** c' differs from c at most in rows m0..m1, columns n0..n1. */
  ghost predicate OnlyCell(M: nat, N: nat, c: seq<F>, c': seq<F>, m0: nat, m1: nat, n0: nat, n1: nat) {
    && |c| == |c'| == M * N
    && forall r: nat :: r < M ==> (RowFits(r, M, N); RowKept(N, c, c', r, m0, m1, n0, n1))
  }

  lemma RowBlockKeeps(M: nat, N: nat, c: seq<F>, c': seq<F>, m: nat, rows: nat, m1: nat, n0: nat, n1: nat, r: nat)
    requires |c| == |c'| == M * N && (rows == 4 || rows == 2 || rows == 1) && m + rows == m1 <= M && n0 <= n1 <= N && r < M
    requires KeptOutside(c, c', m * N, N, rows, n0, n1 - n0)
    ensures r * N + N <= |c| && RowKept(N, c, c', r, m, m1, n0, n1)
  {
    RowFits(r, M, N);
    RowPosition(m, r, rows, N);
    KeepsLinear(c, c', m * N, r * N, N, m, r, rows, n0, n1 - n0);
  }

  lemma RowBlockOnly(M: nat, N: nat, c: seq<F>, c': seq<F>, m: nat, rows: nat, m1: nat, n0: nat, n1: nat)
    requires |c| == |c'| == M * N && (rows == 4 || rows == 2 || rows == 1) && m + rows == m1 <= M && n0 <= n1 <= N
    requires KeptOutside(c, c', m * N, N, rows, n0, n1 - n0)
    ensures OnlyCell(M, N, c, c', m, m1, n0, n1)
  {
    forall r: nat | r < M ensures (RowFits(r, M, N); RowKept(N, c, c', r, m, m1, n0, n1)) {
      RowBlockKeeps(M, N, c, c', m, rows, m1, n0, n1, r);
    }
  }

  /** RowBlockKeeps with the row starts as plain numbers. */
  lemma KeepsLinear(c: seq<F>, c': seq<F>, base: nat, base': nat, N: nat, m: nat, r: nat, rows: nat, n0: nat, w: nat)
    requires |c| == |c'| && (rows == 4 || rows == 2 || rows == 1) && n0 + w <= N && base' + N <= |c|
    requires KeptOutside(c, c', base, N, rows, n0, w)
    requires r < m ==> base' + N <= base
    requires r == m ==> base' == base
    requires rows >= 2 && r == m + 1 ==> base' == base + N
    requires rows == 4 && r == m + 2 ==> base' == base + 2 * N
    requires rows == 4 && r == m + 3 ==> base' == base + 3 * N
    requires r >= m + rows ==> base' >= base + rows * N
    ensures forall j :: base' <= j < base' + N && !(m <= r < m + rows && base' + n0 <= j < base' + n0 + w) ==> c'[j] == c[j]
  {
  }

  lemma OnlyCellGrows(M: nat, N: nat, c: seq<F>, c1: seq<F>, c2: seq<F>, m0: nat, m1: nat, m2: nat, n0: nat, n1: nat)
    requires m0 <= m1 <= m2 && OnlyCell(M, N, c, c1, m0, m1, n0, n1) && OnlyCell(M, N, c1, c2, m1, m2, n0, n1)
    ensures OnlyCell(M, N, c, c2, m0, m2, n0, n1)
  {
    forall r: nat | r < M ensures (RowFits(r, M, N); RowKept(N, c, c2, r, m0, m2, n0, n1)) {
      RowFits(r, M, N);
      assert RowKept(N, c, c1, r, m0, m1, n0, n1) && RowKept(N, c1, c2, r, m1, m2, n0, n1);
    }
  }

  lemma OnlyCellWithin(M: nat, N: nat, c: seq<F>, c1: seq<F>, c2: seq<F>, m0: nat, m1: nat, n0: nat, n1: nat, lo: nat, hi: nat)
    requires n0 <= lo && hi <= n1 && OnlyCell(M, N, c, c1, m0, m1, n0, n1) && OnlyCell(M, N, c1, c2, m0, m1, lo, hi)
    ensures OnlyCell(M, N, c, c2, m0, m1, n0, n1)
  {
    forall r: nat | r < M ensures (RowFits(r, M, N); RowKept(N, c, c2, r, m0, m1, n0, n1)) {
      RowFits(r, M, N);
      assert RowKept(N, c, c1, r, m0, m1, n0, n1) && RowKept(N, c1, c2, r, m0, m1, lo, hi);
    }
  }

  lemma OnlyCellSame(M: nat, N: nat, c: seq<F>, m0: nat, m1: nat, n0: nat, n1: nat)
    requires |c| == M * N
    ensures OnlyCell(M, N, c, c, m0, m1, n0, n1)
  {
    forall r: nat | r < M ensures (RowFits(r, M, N); RowKept(N, c, c, r, m0, m1, n0, n1)) {
      RowFits(r, M, N);
    }
  }

  /** Columns n0..n1 of the row that starts at base are those of `want`. */
  ghost predicate SegIs(want: seq<F>, c: seq<F>, base: nat, n0: nat, n1: nat)
    requires n1 <= |want| && base + |want| <= |c|
  {
    forall j :: base + n0 <= j < base + n1 ==> c[j] == want[j - base]
  }

  ghost predicate RowIs(want: seq<F>, N: nat, c: seq<F>, r: nat, n0: nat, n1: nat)
    requires |want| == N && n1 <= N && r * N + N <= |c|
  {
    SegIs(want, c, r * N, n0, n1)
  }

  /** `want` is a full M x N content, row by row. */
  ghost predicate IsContent(want: seq<seq<F>>, M: nat, N: nat) {
    |want| == M && forall r :: 0 <= r < M ==> |want[r]| == N
  }

  /** Rows m0..m1, columns n0..n1 of c are those of `want`. */
  ghost predicate RowsAre(want: seq<seq<F>>, M: nat, N: nat, c: seq<F>, m0: nat, m1: nat, n0: nat, n1: nat)
    requires IsContent(want, M, N) && |c| == M * N && m1 <= M && n1 <= N
  {
    forall r: nat :: m0 <= r < m1 ==> (RowFits(r, M, N); RowIs(want[r], N, c, r, n0, n1))
  }

  lemma RowsAreSurvives(want: seq<seq<F>>, M: nat, N: nat, c: seq<F>, c': seq<F>, r0: nat, r1: nat, lo: nat, hi: nat,
                        m0: nat, m1: nat, n0: nat, n1: nat)
    requires IsContent(want, M, N) && |c| == M * N && r1 <= M && hi <= N
    requires RowsAre(want, M, N, c, r0, r1, lo, hi) && OnlyCell(M, N, c, c', m0, m1, n0, n1)
    requires r1 <= m0 || m1 <= r0 || hi <= n0 || n1 <= lo
    ensures RowsAre(want, M, N, c', r0, r1, lo, hi)
  {
    forall r: nat | r0 <= r < r1 ensures (RowFits(r, M, N); RowIs(want[r], N, c', r, lo, hi)) {
      RowFits(r, M, N);
      assert RowIs(want[r], N, c, r, lo, hi) && RowKept(N, c, c', r, m0, m1, n0, n1);
    }
  }

  datatype Act = NoAct | ReluAct | GeluAct | SiluAct {
    function Apply(v: F): F {
      match this
      case NoAct => v
      case ReluAct => Relu(v)
      case GeluAct => Gelu(v)
      case SiluAct => Silu(v)
    }
  }

  /** A pass over the rows of one finished cell. */
  datatype CellPass =
    | ZeroPass
    | AddendPass(d: seq<F>)
    | EpiloguePass(bias: Option<seq<F>>, act: Act)
  {
    predicate Fits(M: nat, N: nat) {
      match this
      case ZeroPass => true
      case AddendPass(d) => |d| == M * N
      case EpiloguePass(bias, _) => bias.Some? ==> |bias.value| == N
    }

    /** The new value of index j, column n, that held v. */
    function Apply(v: F, j: nat, n: nat): F
      requires AddendPass? ==> j < |d|
      requires EpiloguePass? && bias.Some? ==> n < |bias.value|
    {
      match this
      case ZeroPass => ZERO
      case AddendPass(d) => Add(d[j], v)
      case EpiloguePass(bias, act) => act.Apply(if bias.Some? then Add(v, bias.value[n]) else v)
    }
  }

  /** Columns n0..n1 of row r are what the pass makes of them. */
  ghost predicate RowPassed(pass: CellPass, N: nat, c: seq<F>, c': seq<F>, r: nat, n0: nat, n1: nat)
    requires |c| == |c'| && n1 <= N && r * N + N <= |c|
    requires pass.AddendPass? ==> |pass.d| == |c|
    requires pass.EpiloguePass? && pass.bias.Some? ==> |pass.bias.value| == N
  {
    var base := r * N;
    forall j :: base + n0 <= j < base + n1 ==> c'[j] == pass.Apply(c[j], j, j - base)
  }

  ghost predicate CellPassed(pass: CellPass, M: nat, N: nat, c: seq<F>, c': seq<F>, m0: nat, m1: nat, n0: nat, n1: nat)
    requires pass.Fits(M, N) && |c| == |c'| == M * N && m1 <= M && n1 <= N
  {
    forall r: nat :: m0 <= r < m1 ==> (RowFits(r, M, N); RowPassed(pass, N, c, c', r, n0, n1))
  }

  method PassRow(pass: CellPass, C: array<F>, N: nat, base: nat, n0: nat, n1: nat)
    requires n0 <= n1 <= N && base + N <= C.Length
    requires pass.AddendPass? ==> |pass.d| == C.Length
    requires pass.EpiloguePass? && pass.bias.Some? ==> |pass.bias.value| == N
    modifies C
    ensures forall j :: 0 <= j < C.Length ==>
      C[j] == if base + n0 <= j < base + n1 then pass.Apply(old(C[j]), j, j - base) else old(C[j])
  {
    for n := n0 to n1
      invariant forall j :: 0 <= j < C.Length ==>
        C[j] == if base + n0 <= j < base + n then pass.Apply(old(C[j]), j, j - base) else old(C[j])
    {
      C[base + n] := pass.Apply(C[base + n], base + n, n);
    }
  }

  lemma PassedRow(pass: CellPass, M: nat, N: nat, c: seq<F>, mid: seq<F>, c': seq<F>, m0: nat, m: nat, n0: nat, n1: nat)
    requires pass.Fits(M, N) && |c| == |mid| == |c'| == M * N && m0 <= m < M && n0 <= n1 <= N
    requires CellPassed(pass, M, N, c, mid, m0, m, n0, n1) && OnlyCell(M, N, c, mid, m0, m, n0, n1)
    requires OnlyCell(M, N, mid, c', m, m + 1, n0, n1)
    requires (RowFits(m, M, N); RowPassed(pass, N, mid, c', m, n0, n1))
    ensures CellPassed(pass, M, N, c, c', m0, m + 1, n0, n1)
  {
    ghost var m1 := m + 1;
    forall r: nat | m0 <= r < m1 ensures (RowFits(r, M, N); RowPassed(pass, N, c, c', r, n0, n1)) {
      RowFits(r, M, N);
      assert RowKept(N, c, mid, r, m0, m, n0, n1) && RowKept(N, mid, c', r, m, m1, n0, n1);
      if r < m {
        assert RowPassed(pass, N, c, mid, r, n0, n1);
      }
    }
  }

  method RunPass(pass: CellPass, C: array<F>, M: nat, N: nat, m0: nat, m1: nat, n0: nat, n1: nat)
    requires pass.Fits(M, N) && C.Length == M * N && m0 <= m1 <= M && n0 <= n1 <= N
    modifies C
    ensures CellPassed(pass, M, N, old(C[..]), C[..], m0, m1, n0, n1)
    ensures OnlyCell(M, N, old(C[..]), C[..], m0, m1, n0, n1)
  {
    for m := m0 to m1
      invariant CellPassed(pass, M, N, old(C[..]), C[..], m0, m, n0, n1)
      invariant OnlyCell(M, N, old(C[..]), C[..], m0, m, n0, n1)
    {
      ghost var mid := C[..];
      RowFits(m, M, N);
      PassRow(pass, C, N, m * N, n0, n1);
      RowBlockOnly(M, N, mid, C[..], m, 1, m + 1, n0, n1);
      PassedRow(pass, M, N, old(C[..]), mid, C[..], m0, m, n0, n1);
      OnlyCellGrows(M, N, old(C[..]), mid, C[..], m0, m, m + 1, n0, n1);
    }
  }
}
