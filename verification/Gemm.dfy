// The GEMM entry points: a task grid over C, run in any order, with the fused
// addend and epilogue (runtime/executor/gemm.cc).
module Gemm {
  import opened Scalar
  import opened Indexing
  import opened Cells
  import opened Elementwise
  import opened KernelPolicy
  import opened GemmNN
  import opened GemmNT
  import opened GemmGrid
  import opened Parallel

  // ------------------------------------------------- tasks over one content of C

  /** The tasks that own the first n elements of row r. */
  ghost function Owners(g: Grid, r: nat, n: nat): (own: seq<nat>)
    requires g.bandRows > 0 && g.bandCols > 0
    ensures |own| == n && forall i :: 0 <= i < n ==> own[i] == Owner(g, r, i)
  {
    if n == 0 then [] else Owners(g, r, n - 1) + [Owner(g, r, n - 1)]
  }

  /** Row r: as wanted where its owning task is no longer in `remaining`, untouched elsewhere. */
  ghost predicate RowProgress(want: seq<F>, own: seq<nat>, N: nat, c0: seq<F>, c: seq<F>, r: nat, remaining: set<nat>)
    requires |want| == |own| == N && |c0| == |c| && r * N + N <= |c|
  {
    var base := r * N;
    forall j :: base <= j < base + N ==> c[j] == if own[j - base] in remaining then c0[j] else want[j - base]
  }

  ghost predicate Progress(want: seq<seq<F>>, g: Grid, M: nat, N: nat, c0: seq<F>, c: seq<F>, remaining: set<nat>)
    requires IsContent(want, M, N) && g.Covers(M, N) && |c0| == |c| == M * N
  {
    forall r: nat :: r < M ==> (RowFits(r, M, N); RowProgress(want[r], Owners(g, r, N), N, c0, c, r, remaining))
  }

  lemma RowProgressStep(want: seq<F>, own: seq<nat>, N: nat, c0: seq<F>, c: seq<F>, c': seq<F>, r: nat, remaining: set<nat>,
                        t: nat, cell: Cell)
    requires |want| == |own| == N && |c0| == |c| == |c'| && r * N + N <= |c|
    requires t in remaining && RowProgress(want, own, N, c0, c, r, remaining)
    requires forall n :: 0 <= n < N ==> (cell.Has(r, n) <==> own[n] == t)
    requires RowKept(N, c, c', r, cell.m0, cell.m1, cell.n0, cell.n1)
    requires cell.n1 <= N && (cell.m0 <= r < cell.m1 ==> RowIs(want, N, c', r, cell.n0, cell.n1))
    ensures RowProgress(want, own, N, c0, c', r, remaining - {t})
  {
    var base := r * N;
    forall j | base <= j < base + N
      ensures c'[j] == if own[j - base] in remaining - {t} then c0[j] else want[j - base]
    {
      assert cell.Has(r, j - base) <==> own[j - base] == t;
    }
  }

  lemma OwnersOfCell(g: Grid, M: nat, N: nat, r: nat, t: nat)
    requires g.Covers(M, N) && r < M && t < g.Tasks()
    ensures forall n :: 0 <= n < N ==> (g.CellOf(t, M, N).Has(r, n) <==> Owners(g, r, N)[n] == t)
  {
    forall n | 0 <= n < N ensures g.CellOf(t, M, N).Has(r, n) <==> Owners(g, r, N)[n] == t {
      ExactCover(g, M, N, r, n);
    }
  }

  lemma ProgressStart(want: seq<seq<F>>, g: Grid, M: nat, N: nat, c: seq<F>)
    requires IsContent(want, M, N) && g.Covers(M, N) && |c| == M * N
    ensures Progress(want, g, M, N, c, c, TaskSet(g.Tasks()))
  {
    forall r: nat | r < M
      ensures (RowFits(r, M, N); RowProgress(want[r], Owners(g, r, N), N, c, c, r, TaskSet(g.Tasks())))
    {
      RowFits(r, M, N);
      forall n: nat | n < N ensures Owner(g, r, n) < g.Tasks() {
        ExactCover(g, M, N, r, n);
      }
    }
  }

  /** A task that fills its own cell as wanted and touches nothing else advances the whole. */
  lemma ProgressStep(want: seq<seq<F>>, g: Grid, M: nat, N: nat, c0: seq<F>, c: seq<F>, c': seq<F>, remaining: set<nat>, t: nat,
                     cell: Cell)
    requires IsContent(want, M, N) && g.Covers(M, N) && |c0| == M * N && t in remaining && t < g.Tasks()
    requires cell == g.CellOf(t, M, N) && cell.m1 <= M && cell.n1 <= N
    requires OnlyCell(M, N, c, c', cell.m0, cell.m1, cell.n0, cell.n1) && Progress(want, g, M, N, c0, c, remaining)
    requires RowsAre(want, M, N, c', cell.m0, cell.m1, cell.n0, cell.n1)
    ensures Progress(want, g, M, N, c0, c', remaining - {t})
  {
    ghost var rest := remaining - {t};
    forall r: nat | r < M ensures (RowFits(r, M, N); RowProgress(want[r], Owners(g, r, N), N, c0, c', r, rest)) {
      RowFits(r, M, N);
      OwnersOfCell(g, M, N, r, t);
      assert RowKept(N, c, c', r, cell.m0, cell.m1, cell.n0, cell.n1);
      RowProgressStep(want[r], Owners(g, r, N), N, c0, c, c', r, remaining, t, cell);
    }
  }

  lemma ProgressEnd(want: seq<seq<F>>, g: Grid, M: nat, N: nat, c0: seq<F>, c: seq<F>)
    requires IsContent(want, M, N) && g.Covers(M, N) && |c0| == |c| == M * N && Progress(want, g, M, N, c0, c, {})
    ensures RowsAre(want, M, N, c, 0, M, 0, N)
  {
    forall r: nat | r < M ensures (RowFits(r, M, N); RowIs(want[r], N, c, r, 0, N)) {
      RowFits(r, M, N);
      assert RowProgress(want[r], Owners(g, r, N), N, c0, c, r, {});
    }
  }

  /** The elements of a row that a task has still to write hold what they held at the start. */
  lemma PendingSegment(want: seq<F>, own: seq<nat>, N: nat, c0: seq<F>, c: seq<F>, r: nat, remaining: set<nat>, t: nat, cell: Cell,
                       base: nat)
    requires |want| == |own| == N && |c0| == |c| && base == r * N && base + N <= |c|
    requires t in remaining && RowProgress(want, own, N, c0, c, r, remaining)
    requires forall n :: 0 <= n < N ==> (cell.Has(r, n) <==> own[n] == t)
    requires cell.n1 <= N && cell.m0 <= r < cell.m1
    ensures forall j :: base + cell.n0 <= j < base + cell.n1 ==> c[j] == c0[j]
  {
    forall j | base + cell.n0 <= j < base + cell.n1 ensures c[j] == c0[j] {
      assert cell.Has(r, j - base);
    }
  }

  // ----------------------------------------------------------- NN, TN and AccNN

  /** The points in which the entry points differ: what C starts from and what is fused after it. */
  datatype Form = Form(fromZero: bool, addend: Option<seq<F>>, bias: Option<seq<F>>, act: Act) {
    predicate Fits(M: nat, N: nat) {
      (addend.Some? ==> |addend.value| == M * N) && (bias.Some? ==> |bias.value| == N)
    }

    /** The value the separate kernels leave at index j: the GEMM, then the addend, the bias and the activation. */
    function Result(p: Operands, m: nat, n: nat, c: F, j: nat): F
      requires p.Valid() && m < p.M && n < p.N && Fits(p.M, p.N) && j < p.M * p.N
    {
      var s := p.Fold(m, n, if fromZero then ZERO else c, p.K);
      var t := if addend.Some? then Add(addend.value[j], s) else s;
      act.Apply(if bias.Some? then Add(t, bias.value[n]) else t)
    }

    function Row(p: Operands, c0: seq<F>, m: nat): (want: seq<F>)
      requires p.Valid() && m < p.M && Fits(p.M, p.N) && |c0| == p.M * p.N && m * p.N + p.N <= |c0|
      ensures |want| == p.N && forall n :: 0 <= n < p.N ==> want[n] == Result(p, m, n, c0[m * p.N + n], m * p.N + n)
    {
      var base := m * p.N;
      seq(p.N, n requires 0 <= n < p.N => Result(p, m, n, c0[base + n], base + n))
    }

    /** All of C, from its initial content c0. */
    ghost function Content(p: Operands, c0: seq<F>): (want: seq<seq<F>>)
      requires p.Valid() && Fits(p.M, p.N) && |c0| == p.M * p.N
      ensures IsContent(want, p.M, p.N)
      ensures forall m: nat :: m < p.M ==> (RowFits(m, p.M, p.N); want[m] == Row(p, c0, m))
    {
      seq(p.M, m requires 0 <= m < p.M => (RowFits(m, p.M, p.N); Row(p, c0, m)))
    }
  }

  lemma TaskRow(p: Operands, f: Form, c: seq<F>, c1: seq<F>, c2: seq<F>, c3: seq<F>, c4: seq<F>, m: nat, n0: nat, n1: nat)
    requires p.Valid() && f.Fits(p.M, p.N) && m < p.M && n0 <= n1 <= p.N && m * p.N + p.N <= p.M * p.N
    requires |c| == |c1| == |c2| == |c3| == |c4| == p.M * p.N
    requires if f.fromZero then RowPassed(ZeroPass, p.N, c, c1, m, n0, n1) else c1 == c
    requires RowAt(p, c2, c1, m, n0, n1, p.K)
    requires if f.addend.Some? then RowPassed(AddendPass(f.addend.value), p.N, c2, c3, m, n0, n1) else c3 == c2
    requires RowPassed(EpiloguePass(f.bias, f.act), p.N, c3, c4, m, n0, n1)
    ensures RowIs(f.Row(p, c, m), p.N, c4, m, n0, n1)
  {
  }

  method RunTask(p: Operands, f: Form, C: array<F>, m0: nat, m1: nat, n0: nat, n1: nat, tiles: GemmTiles, panelFloats: nat)
    requires p.Valid() && f.Fits(p.M, p.N) && C.Length == p.M * p.N && m0 <= m1 <= p.M && n0 <= n1 <= p.N
    requires tiles.Valid() && panelFloats >= 4
    modifies C
    ensures RowsAre(f.Content(p, old(C[..])), p.M, p.N, C[..], m0, m1, n0, n1)
    ensures OnlyCell(p.M, p.N, old(C[..]), C[..], m0, m1, n0, n1)
  {
    ghost var c := C[..];
    if f.fromZero {
      RunPass(ZeroPass, C, p.M, p.N, m0, m1, n0, n1);
    } else {
      OnlyCellSame(p.M, p.N, C[..], m0, m1, n0, n1);
    }
    ghost var c1 := C[..];
    BlockedNN(p, C, m0, m1, n0, n1, tiles, panelFloats);
    ghost var c2 := C[..];
    OnlyCellWithin(p.M, p.N, c, c1, c2, m0, m1, n0, n1, n0, n1);
    if f.addend.Some? {
      RunPass(AddendPass(f.addend.value), C, p.M, p.N, m0, m1, n0, n1);
      OnlyCellWithin(p.M, p.N, c, c2, C[..], m0, m1, n0, n1, n0, n1);
    }
    ghost var c3 := C[..];
    RunPass(EpiloguePass(f.bias, f.act), C, p.M, p.N, m0, m1, n0, n1);
    OnlyCellWithin(p.M, p.N, c, c3, C[..], m0, m1, n0, n1, n0, n1);
    forall r: nat | m0 <= r < m1 ensures (RowFits(r, p.M, p.N); RowIs(f.Content(p, c)[r], p.N, C[..], r, n0, n1)) {
      RowFits(r, p.M, p.N);
      TaskRow(p, f, c, c1, c2, c3, C[..], r, n0, n1);
    }
  }

  /** What a task makes of a C that is still as it was at the start is what was wanted at the start. */
  lemma SameContentRow(p: Operands, f: Form, c0: seq<F>, c: seq<F>, c': seq<F>, r: nat, base: nat, n0: nat, n1: nat)
    requires p.Valid() && f.Fits(p.M, p.N) && |c0| == |c| == |c'| == p.M * p.N && r < p.M && n1 <= p.N
    requires base == r * p.N && base + p.N <= |c|
    requires forall j :: base + n0 <= j < base + n1 ==> c[j] == c0[j]
    requires SegIs(f.Row(p, c, r), c', base, n0, n1)
    ensures SegIs(f.Row(p, c0, r), c', base, n0, n1)
  {
    var now, start := f.Row(p, c, r), f.Row(p, c0, r);
    forall n: nat | n0 <= n < n1 ensures now[n] == start[n] {
      assert c[base + n] == c0[base + n];
    }
  }

  lemma TaskContent(p: Operands, f: Form, g: Grid, c0: seq<F>, c: seq<F>, c': seq<F>, remaining: set<nat>, t: nat, cell: Cell)
    requires p.Valid() && f.Fits(p.M, p.N) && g.Covers(p.M, p.N) && |c0| == |c| == |c'| == p.M * p.N
    requires t in remaining && t < g.Tasks() && cell == g.CellOf(t, p.M, p.N) && cell.m1 <= p.M && cell.n1 <= p.N
    requires Progress(f.Content(p, c0), g, p.M, p.N, c0, c, remaining)
    requires RowsAre(f.Content(p, c), p.M, p.N, c', cell.m0, cell.m1, cell.n0, cell.n1)
    ensures RowsAre(f.Content(p, c0), p.M, p.N, c', cell.m0, cell.m1, cell.n0, cell.n1)
  {
    var want := f.Content(p, c0);
    forall r: nat | cell.m0 <= r < cell.m1 ensures (RowFits(r, p.M, p.N); RowIs(want[r], p.N, c', r, cell.n0, cell.n1)) {
      RowFits(r, p.M, p.N);
      OwnersOfCell(g, p.M, p.N, r, t);
      assert RowProgress(want[r], Owners(g, r, p.N), p.N, c0, c, r, remaining);
      PendingSegment(want[r], Owners(g, r, p.N), p.N, c0, c, r, remaining, t, cell, r * p.N);
      assert RowIs(f.Content(p, c)[r], p.N, c', r, cell.n0, cell.n1);
      SameContentRow(p, f, c0, c, c', r, r * p.N, cell.n0, cell.n1);
    }
  }

  /** GemmNN, GemmTN, GemmAccNN and their int8 and bf16 forms, by operands and form. Any task order,
      any valid tiles and any panel of at least 4 floats leave the same C. */
  method RunGemm(p: Operands, f: Form, C: array<F>, tiles: GemmTiles, panelFloats: nat)
    requires p.Valid() && f.Fits(p.M, p.N) && C.Length == p.M * p.N && tiles.Valid() && panelFloats >= 4
    modifies C
    ensures RowsAre(f.Content(p, old(C[..])), p.M, p.N, C[..], 0, p.M, 0, p.N)
  {
    ghost var c0 := C[..];
    ghost var want := f.Content(p, c0);
    if p.M == 0 || p.N == 0 {
      return;
    }
    var g := PlanGemmGrid(p.M, p.N, p.K, tiles, panelFloats);
    var remaining := TaskSet(g.Tasks());
    ProgressStart(want, g, p.M, p.N, c0);
    while remaining != {}
      invariant forall t :: t in remaining ==> t < g.Tasks()
      invariant Progress(want, g, p.M, p.N, c0, C[..], remaining)
      decreases remaining
    {
      var t :| t in remaining;
      ghost var c := C[..];
      var cell := g.CellOf(t, p.M, p.N);
      CellInside(g, p.M, p.N, t);
      RunTask(p, f, C, cell.m0, cell.m1, cell.n0, cell.n1, tiles, panelFloats);
      TaskContent(p, f, g, c0, c, C[..], remaining, t, cell);
      ProgressStep(want, g, p.M, p.N, c0, c, C[..], remaining, t, cell);
      remaining := remaining - {t};
    }
    ProgressEnd(want, g, p.M, p.N, c0, C[..]);
  }

  // ------------------------------------------------ the same C by other routes

  /** Every index of C belongs to a row. */
  lemma RowOfIndex(j: nat, M: nat, N: nat) returns (r: nat)
    requires j < M * N
    ensures r < M && r * N <= j < r * N + N
  {
    assert N > 0;
    DivisionBounds(j, N);
    TimesLess(j / N, M, N);
    r := j / N;
  }

  lemma SameRow(want: seq<F>, N: nat, c: seq<F>, c': seq<F>, r: nat, base: nat)
    requires |want| == N && |c| == |c'| && base == r * N && base + N <= |c|
    requires RowIs(want, N, c, r, 0, N) && RowIs(want, N, c', r, 0, N)
    ensures forall j :: base <= j < base + N ==> c[j] == c'[j]
  {
    assert SegIs(want, c, base, 0, N) && SegIs(want, c', base, 0, N);
  }

  lemma ContentIsUnique(want: seq<seq<F>>, M: nat, N: nat, c: seq<F>, c': seq<F>)
    requires IsContent(want, M, N) && |c| == |c'| == M * N
    requires RowsAre(want, M, N, c, 0, M, 0, N) && RowsAre(want, M, N, c', 0, M, 0, N)
    ensures c == c'
  {
    forall j | 0 <= j < |c| ensures c[j] == c'[j] {
      var r := RowOfIndex(j, M, N);
      RowFits(r, M, N);
      SameRow(want[r], N, c, c', r, r * N);
    }
  }

  /** A bias as long as C: one copy a row. */
  function Broadcast(bias: seq<F>, M: nat, N: nat): (y: seq<F>)
    requires |bias| == N
    ensures |y| == M * N
    ensures forall j :: 0 <= j < |y| ==> N > 0 && y[j] == bias[j % N]
  {
    assert N == 0 ==> M * N == 0;
    seq(M * N, j requires 0 <= j < M * N => bias[j % N])
  }

  /** The standalone kernel of an activation. */
  function ActKernel(act: Act): seq<Stage> {
    match act
    case NoAct => []
    case ReluAct => [ReluStage]
    case GeluAct => [GeluStage]
    case SiluAct => [SiluStage]
  }

  function AddendKernel(addend: Option<seq<F>>): seq<Stage> {
    if addend.Some? then [AddStage(addend.value, true)] else []
  }

  function BiasKernel(bias: Option<seq<F>>, M: nat, N: nat): seq<Stage>
    requires bias.Some? ==> |bias.value| == N
  {
    if bias.Some? then [AddStage(Broadcast(bias.value, M, N), false)] else []
  }

  /** The instructions that follow the plain GEMM in an unfused program: addend, bias, activation. */
  function Kernels(f: Form, M: nat, N: nat): (prog: seq<Stage>)
    requires f.Fits(M, N)
    ensures AllFit(prog, M * N)
  {
    AddendKernel(f.addend) + BiasKernel(f.bias, M, N) + ActKernel(f.act)
  }

  /** One more instruction, or none. */
  lemma ChainMore(prog: seq<Stage>, more: seq<Stage>, v: F, i: nat, n: nat)
    requires AllFit(prog, n) && AllFit(more, n) && |more| <= 1 && i < n
    ensures AllFit(prog + more, n)
    ensures Chain(prog + more, v, i, n) ==
      if more == [] then Chain(prog, v, i, n) else more[0].Expr(Chain(prog, v, i, n), i)
  {
    if more == [] {
      assert prog + more == prog;
    } else {
      assert prog + more == prog + [more[0]];
      assert (prog + more)[..|prog|] == prog;
    }
  }

  lemma AddendKernelVal(addend: Option<seq<F>>, v: F, j: nat)
    requires addend.Some? ==> j < |addend.value|
    ensures (if AddendKernel(addend) == [] then v else AddendKernel(addend)[0].Expr(v, j)) ==
      if addend.Some? then Add(addend.value[j], v) else v
  {
  }

  lemma BiasKernelVal(bias: Option<seq<F>>, M: nat, N: nat, v: F, j: nat, n: nat)
    requires (bias.Some? ==> |bias.value| == N) && n < N && j < M * N && n == j % N
    ensures (if BiasKernel(bias, M, N) == [] then v else BiasKernel(bias, M, N)[0].Expr(v, j)) ==
      if bias.Some? then Add(v, bias.value[n]) else v
  {
  }

  lemma ActKernelVal(act: Act, v: F, j: nat)
    ensures (if ActKernel(act) == [] then v else ActKernel(act)[0].Expr(v, j)) == act.Apply(v)
  {
  }

  /** What the instructions make of a value at index j, in column n. */
  lemma KernelsVal(f: Form, M: nat, N: nat, v: F, j: nat, n: nat)
    requires f.Fits(M, N) && n < N && j < M * N && n == j % N
    ensures Chain(Kernels(f, M, N), v, j, M * N) ==
      (var t := if f.addend.Some? then Add(f.addend.value[j], v) else v;
       f.act.Apply(if f.bias.Some? then Add(t, f.bias.value[n]) else t))
  {
    var size := M * N;
    var first, second := AddendKernel(f.addend), BiasKernel(f.bias, M, N);
    var t := if f.addend.Some? then Add(f.addend.value[j], v) else v;
    assert [] + first == first && AllFit(first, size) && AllFit(second, size);
    ChainMore([], first, v, j, size);
    AddendKernelVal(f.addend, v, j);
    ChainMore(first, second, v, j, size);
    BiasKernelVal(f.bias, M, N, t, j, n);
    ChainMore(first + second, ActKernel(f.act), v, j, size);
    ActKernelVal(f.act, if f.bias.Some? then Add(t, f.bias.value[n]) else t, j);
  }

  /** Fused or not: the value at an element is the one those instructions make of the plain product. */
  lemma FormIsKernels(p: Operands, f: Form, m: nat, n: nat, c: F, j: nat)
    requires p.Valid() && m < p.M && n < p.N && f.Fits(p.M, p.N) && j == m * p.N + n < p.M * p.N
    ensures f.Result(p, m, n, c, j) ==
      Chain(Kernels(f, p.M, p.N), p.Fold(m, n, if f.fromZero then ZERO else c, p.K), j, p.M * p.N)
  {
    QuotientUnique(j, p.N, m);
    hide Operands.Fold, Kernels, Chain, Act.Apply, Operands.Valid;
    KernelsVal(f, p.M, p.N, p.Fold(m, n, if f.fromZero then ZERO else c, p.K), j, n);
  }

  /** The unfused instruction sequence: the plain GEMM, then the standalone kernels one after another. */
  method RunUnfused(p: Operands, f: Form, C: array<F>, tiles: GemmTiles, panelFloats: nat) returns (ghost plain: seq<F>)
    requires p.Valid() && f.Fits(p.M, p.N) && C.Length == p.M * p.N && tiles.Valid() && panelFloats >= 4
    modifies C
    ensures |plain| == C.Length
    ensures RowsAre(Form(f.fromZero, None, None, NoAct).Content(p, old(C[..])), p.M, p.N, plain, 0, p.M, 0, p.N)
    ensures forall j :: 0 <= j < C.Length ==> C[j] == Chain(Kernels(f, p.M, p.N), plain[j], j, C.Length)
    ensures RowsAre(f.Content(p, old(C[..])), p.M, p.N, C[..], 0, p.M, 0, p.N)
  {
    ghost var c0 := C[..];
    RunGemm(p, Form(f.fromZero, None, None, NoAct), C, tiles, panelFloats);
    plain := C[..];
    UnfusedChain(Kernels(f, p.M, p.N), C[..], C);
    forall r: nat | r < p.M ensures (RowFits(r, p.M, p.N); RowIs(f.Content(p, c0)[r], p.N, C[..], r, 0, p.N)) {
      RowFits(r, p.M, p.N);
      assert RowIs(Form(f.fromZero, None, None, NoAct).Content(p, c0)[r], p.N, plain, r, 0, p.N);
      UnfusedRow(p, f, c0, plain, C[..], r);
    }
  }

  lemma UnfusedRow(p: Operands, f: Form, c0: seq<F>, plain: seq<F>, c: seq<F>, m: nat)
    requires p.Valid() && f.Fits(p.M, p.N) && m < p.M && m * p.N + p.N <= p.M * p.N
    requires |c0| == |plain| == |c| == p.M * p.N
    requires RowIs(Form(f.fromZero, None, None, NoAct).Row(p, c0, m), p.N, plain, m, 0, p.N)
    requires forall j :: 0 <= j < |c| ==> c[j] == Chain(Kernels(f, p.M, p.N), plain[j], j, |c|)
    ensures RowIs(f.Row(p, c0, m), p.N, c, m, 0, p.N)
  {
    hide *;
    var want, base := f.Row(p, c0, m), m * p.N;
    forall j {:trigger c[j]} | base <= j < base + p.N ensures |want| == p.N && c[j] == want[j - base] {
      UnfusedElement(p, f, c0, plain, c, m, base, j - base, j);
    }
    FilledRow(want, p.N, c, m, base);
  }

  lemma FilledRow(want: seq<F>, N: nat, c: seq<F>, m: nat, base: nat)
    requires base == m * N && base + N <= |c| && |want| == N && forall j {:trigger c[j]} :: base <= j < base + N ==> c[j] == want[j - base]
    ensures RowIs(want, N, c, m, 0, N)
  {
  }

  lemma UnfusedElement(p: Operands, f: Form, c0: seq<F>, plain: seq<F>, c: seq<F>, m: nat, base: nat, n: nat, j: nat)
    requires p.Valid() && f.Fits(p.M, p.N) && m < p.M && n < p.N && base == m * p.N && base + p.N <= p.M * p.N && j == base + n
    requires |c0| == |plain| == |c| == p.M * p.N
    requires RowIs(Form(f.fromZero, None, None, NoAct).Row(p, c0, m), p.N, plain, m, 0, p.N)
    requires c[j] == Chain(Kernels(f, p.M, p.N), plain[j], j, |c|)
    ensures c[j] == f.Row(p, c0, m)[n] && |f.Row(p, c0, m)| == p.N
  {
    RowElement(p, f, c0, m, n, j);
    hide *;
    PlainElement(p, f.fromZero, c0, plain, m, base, n, j);
    FormIsKernels(p, f, m, n, c0[j], j);
  }

  lemma RowElement(p: Operands, f: Form, c0: seq<F>, m: nat, n: nat, j: nat)
    requires p.Valid() && f.Fits(p.M, p.N) && m < p.M && n < p.N && j == m * p.N + n && m * p.N + p.N <= |c0| == p.M * p.N
    ensures f.Row(p, c0, m)[n] == f.Result(p, m, n, c0[j], j)
  {
  }

  lemma PlainElement(p: Operands, fromZero: bool, c0: seq<F>, plain: seq<F>, m: nat, base: nat, n: nat, j: nat)
    requires p.Valid() && m < p.M && n < p.N && base == m * p.N && base + p.N <= |c0| == |plain| == p.M * p.N && j == base + n
    requires RowIs(Form(fromZero, None, None, NoAct).Row(p, c0, m), p.N, plain, m, 0, p.N)
    ensures plain[j] == p.Fold(m, n, if fromZero then ZERO else c0[j], p.K)
  {
  }

  /** Neither the tiles, the panel, the task order nor the fusion shows in C. */
  method SameC(p: Operands, f: Form, C1: array<F>, C2: array<F>, C3: array<F>, tiles1: GemmTiles, panel1: nat, tiles2: GemmTiles,
               panel2: nat)
    returns (ghost plain: seq<F>)
    requires p.Valid() && f.Fits(p.M, p.N) && C1.Length == p.M * p.N && C1[..] == C2[..] == C3[..]
    requires C1 != C2 && C2 != C3 && C1 != C3
    requires tiles1.Valid() && tiles2.Valid() && panel1 >= 4 && panel2 >= 4
    modifies C1, C2, C3
    ensures C1[..] == C2[..] == C3[..]
    ensures |plain| == C1.Length
    ensures RowsAre(Form(f.fromZero, None, None, NoAct).Content(p, old(C1[..])), p.M, p.N, plain, 0, p.M, 0, p.N)
    ensures forall j :: 0 <= j < C1.Length ==> C1[j] == Chain(Kernels(f, p.M, p.N), plain[j], j, C1.Length)
  {
    ghost var want := f.Content(p, C1[..]);
    RunGemm(p, f, C1, tiles1, panel1);
    RunGemm(p, f, C2, tiles2, panel2);
    plain := RunUnfused(p, f, C3, tiles1, panel2);
    ContentIsUnique(want, p.M, p.N, C1[..], C2[..]);
    ContentIsUnique(want, p.M, p.N, C1[..], C3[..]);
    assert forall j :: 0 <= j < C1.Length ==> C1[j] == C1[..][j] == C3[..][j] == C3[j];
  }

  // ----------------------------------------------------------------------- NT

  /** C[m, n] = addend + alpha * dot, or the dot alone. */
  function NtRowWant(p: NtOperands, addend: Option<seq<F>>, m: nat): (want: seq<F>)
    requires p.Valid() && m < |p.a| && (addend.Some? ==> m * |p.b| + |p.b| <= |addend.value|)
    ensures |want| == |p.b|
    ensures forall n :: 0 <= n < |p.b| ==>
      want[n] == if addend.Some? then Add(addend.value[m * |p.b| + n], p.Row(m)[n]) else p.Row(m)[n]
  {
    var base := m * |p.b|;
    seq(|p.b|, n requires 0 <= n < |p.b| => if addend.Some? then Add(addend.value[base + n], p.Row(m)[n]) else p.Row(m)[n])
  }

  ghost function NtContent(p: NtOperands, addend: Option<seq<F>>): (want: seq<seq<F>>)
    requires p.Valid() && (addend.Some? ==> |addend.value| == |p.a| * |p.b|)
    ensures IsContent(want, |p.a|, |p.b|)
    ensures forall m: nat :: m < |p.a| ==> (RowFits(m, |p.a|, |p.b|); want[m] == NtRowWant(p, addend, m))
  {
    seq(|p.a|, m requires 0 <= m < |p.a| => (RowFits(m, |p.a|, |p.b|); NtRowWant(p, addend, m)))
  }

  lemma NtAddendRow(p: NtOperands, addend: seq<F>, c: seq<F>, c': seq<F>, m: nat, n0: nat, n1: nat)
    requires p.Valid() && m < |p.a| && n1 <= |p.b| && |addend| == |c| == |c'| == |p.a| * |p.b|
    requires m * |p.b| + |p.b| <= |c|
    requires RowIs(NtRowWant(p, None, m), |p.b|, c, m, n0, n1)
    requires RowPassed(AddendPass(addend), |p.b|, c, c', m, n0, n1)
    ensures RowIs(NtRowWant(p, Some(addend), m), |p.b|, c', m, n0, n1)
  {
    var base := m * |p.b|;
    forall j | base + n0 <= j < base + n1 ensures c'[j] == NtRowWant(p, Some(addend), m)[j - base] {
      assert c[j] == p.Row(m)[j - base];
    }
  }

  /** What a task runs: the core on the A rows as they are, or, for per-column int8 scales (which sit on
      the reduction axis), on row chunks scaled into a bounded buffer. */
  datatype NtSource = Plain(p: NtOperands) | Scaled(p: NtOperands, kScale: seq<F>) {
    ghost predicate Valid() { p.Valid() && (Scaled? ==> |kScale| == p.K && p.alpha == ONE) }

    /** The operands whose product is wanted: all of A scaled at once. */
    function Whole(): (q: NtOperands)
      requires Valid()
      ensures q.Valid() && |q.a| == |p.a| && q.b == p.b && q.alpha == p.alpha && q.K == p.K
    {
      if Plain? then p
      else
        var a' := seq(|p.a|, m requires 0 <= m < |p.a| => ScaledRow(p.a[m], kScale));
        NtOperands(a', p.b, p.alpha, p.K)
    }
  }

  function ScaledRow(row: seq<F>, kScale: seq<F>): (r: seq<F>)
    requires |row| == |kScale|
    ensures |r| == |row| && forall k :: 0 <= k < |r| ==> r[k] == Mul(row[k], kScale[k])
  {
    seq(|row|, k requires 0 <= k < |row| => Mul(row[k], kScale[k]))
  }

  const SCALED_FLOATS_MAX := 0x4_0000

  /** Rows a chunk may scale: as many as fit the buffer, rounded down to an even number, at least two. */
  function ChunkRows(K: nat): (rows: nat)
    ensures rows >= 2 && rows % 2 == 0
  {
    var fit := SCALED_FLOATS_MAX / (if K < 1 then 1 else K) / 2 * 2;
    if fit < 2 then 2 else fit
  }

  lemma ChunkFits(K: nat)
    ensures ChunkRows(K) * K <= SCALED_FLOATS_MAX || ChunkRows(K) * K == 2 * K
  {
    if K > 0 && ChunkRows(K) != 2 {
      DivisionBounds(SCALED_FLOATS_MAX, K);
      TimesLeft(ChunkRows(K), SCALED_FLOATS_MAX / K, K);
    }
  }

  /** Scales A rows r0..r0+rows into the buffer. */
  method ScaleRows(p: NtOperands, kScale: seq<F>, r0: nat, rows: nat) returns (buf: seq<seq<F>>)
    requires p.Valid() && |kScale| == p.K && r0 + rows <= |p.a|
    ensures |buf| == rows && forall r :: 0 <= r < rows ==> buf[r] == ScaledRow(p.a[r0 + r], kScale)
  {
    buf := [];
    for r := 0 to rows
      invariant |buf| == r && forall r' {:trigger buf[r']} :: 0 <= r' < r ==> buf[r'] == ScaledRow(p.a[r0 + r'], kScale)
    {
      var row := [];
      for k := 0 to p.K
        invariant |row| == k && forall k' :: 0 <= k' < k ==> row[k'] == Mul(p.a[r0 + r][k'], kScale[k'])
      {
        row := row + [Mul(p.a[r0 + r][k], kScale[k])];
      }
      buf := buf + [row];
    }
  }

  lemma ChunkProduct(src: NtSource, buf: seq<seq<F>>, r0: nat)
    requires src.Valid() && src.Scaled? && r0 + |buf| <= |src.p.a|
    requires forall r :: 0 <= r < |buf| ==> buf[r] == ScaledRow(src.p.a[r0 + r], src.kScale)
    ensures HasProduct(NtOperands(buf, src.p.b, src.p.alpha, src.p.K), NtContent(src.Whole(), None), |src.p.a|, r0)
  {
    var q, whole := NtOperands(buf, src.p.b, src.p.alpha, src.p.K), src.Whole();
    forall m: nat | m < |buf| ensures q.Row(m) == NtContent(whole, None)[r0 + m] {
      assert NtContent(whole, None)[r0 + m] == whole.Row(r0 + m);
    }
  }

  lemma PlainProduct(p: NtOperands)
    requires p.Valid()
    ensures HasProduct(p, NtContent(p, None), |p.a|, 0)
  {
    forall m: nat | m < |p.a| ensures p.Row(m) == NtContent(p, None)[0 + m] {
      assert NtContent(p, None)[m] == p.Row(m);
    }
  }

  method NtTask(src: NtSource, C: array<F>, m0: nat, m1: nat, n0: nat, n1: nat, tileN: nat)
    requires src.Valid() && m0 <= m1 <= |src.p.a| && n0 <= n1 <= |src.p.b| && C.Length == |src.p.a| * |src.p.b| && tileN > 0
    modifies C
    ensures RowsAre(NtContent(src.Whole(), None), |src.p.a|, |src.p.b|, C[..], m0, m1, n0, n1)
    ensures OnlyCell(|src.p.a|, |src.p.b|, old(C[..]), C[..], m0, m1, n0, n1)
  {
    var p, M, N := src.p, |src.p.a|, |src.p.b|;
    ghost var want := NtContent(src.Whole(), None);
    if src.Plain? {
      PlainProduct(p);
      BlockedNT(p, C, M, 0, m0, m1, n0, n1, tileN, want);
      return;
    }
    var chunk := ChunkRows(p.K);
    var r0 := m0;
    while r0 < m1
      invariant m0 <= r0 <= m1
      invariant RowsAre(want, M, N, C[..], m0, r0, n0, n1) && OnlyCell(M, N, old(C[..]), C[..], m0, r0, n0, n1)
    {
      ghost var c := C[..];
      var rows := Min(chunk, m1 - r0);
      var buf := ScaleRows(p, src.kScale, r0, rows);
      ChunkFits(p.K);
      TimesLeft(rows, chunk, p.K);
      assert |buf| * p.K <= SCALED_FLOATS_MAX || |buf| * p.K <= 2 * p.K;
      ChunkProduct(src, buf, r0);
      BlockedNT(NtOperands(buf, p.b, p.alpha, p.K), C, M, r0, 0, rows, n0, n1, tileN, want);
      RowsAreSurvives(want, M, N, c, C[..], m0, r0, n0, n1, r0, r0 + rows, n0, n1);
      OnlyCellGrows(M, N, old(C[..]), c, C[..], m0, r0, r0 + rows, n0, n1);
      r0 := r0 + rows;
    }
  }

  method NtTaskWithAddend(src: NtSource, addend: Option<seq<F>>, C: array<F>, m0: nat, m1: nat, n0: nat, n1: nat, tileN: nat)
    requires src.Valid() && m0 <= m1 <= |src.p.a| && n0 <= n1 <= |src.p.b| && C.Length == |src.p.a| * |src.p.b| && tileN > 0
    requires addend.Some? ==> |addend.value| == |src.p.a| * |src.p.b|
    modifies C
    ensures RowsAre(NtContent(src.Whole(), addend), |src.p.a|, |src.p.b|, C[..], m0, m1, n0, n1)
    ensures OnlyCell(|src.p.a|, |src.p.b|, old(C[..]), C[..], m0, m1, n0, n1)
  {
    var M, N := |src.p.a|, |src.p.b|;
    NtTask(src, C, m0, m1, n0, n1, tileN);
    if addend.Some? {
      ghost var c := C[..];
      RunPass(AddendPass(addend.value), C, M, N, m0, m1, n0, n1);
      OnlyCellWithin(M, N, old(C[..]), c, C[..], m0, m1, n0, n1, n0, n1);
      forall r: nat | m0 <= r < m1
        ensures (RowFits(r, M, N); RowIs(NtContent(src.Whole(), addend)[r], N, C[..], r, n0, n1))
      {
        RowFits(r, M, N);
        assert RowIs(NtContent(src.Whole(), None)[r], N, c, r, n0, n1);
        NtAddendRow(src.Whole(), addend.value, c, C[..], r, n0, n1);
      }
    }
  }

  /** GemmNT, GemmNTBF16 and GemmNTQ8: any task order and any N tile leave in every element of C the
      lane-order dot product (of the fully scaled A, for per-column scales), plus the addend. */
  method RunGemmNT(src: NtSource, addend: Option<seq<F>>, C: array<F>, tiles: GemmTiles, panelFloats: nat)
    requires src.Valid() && C.Length == |src.p.a| * |src.p.b| && tiles.Valid() && panelFloats >= 4
    requires addend.Some? ==> |addend.value| == C.Length
    modifies C
    ensures RowsAre(NtContent(src.Whole(), addend), |src.p.a|, |src.p.b|, C[..], 0, |src.p.a|, 0, |src.p.b|)
  {
    var M, N := |src.p.a|, |src.p.b|;
    ghost var c0 := C[..];
    ghost var want := NtContent(src.Whole(), addend);
    if M == 0 || N == 0 {
      return;
    }
    var g := PlanGemmGrid(M, N, src.p.K, tiles, panelFloats);
    var remaining := TaskSet(g.Tasks());
    ProgressStart(want, g, M, N, c0);
    while remaining != {}
      invariant forall t :: t in remaining ==> t < g.Tasks()
      invariant Progress(want, g, M, N, c0, C[..], remaining)
      decreases remaining
    {
      var t :| t in remaining;
      ghost var c := C[..];
      var cell := g.CellOf(t, M, N);
      CellInside(g, M, N, t);
      NtTaskWithAddend(src, addend, C, cell.m0, cell.m1, cell.n0, cell.n1, tiles.n);
      ProgressStep(want, g, M, N, c0, c, C[..], remaining, t, cell);
      remaining := remaining - {t};
    }
    ProgressEnd(want, g, M, N, c0, C[..]);
  }
}
