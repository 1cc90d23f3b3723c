// The partition of C into tasks (runtime/executor/gemm.cc, PlanGemmGrid and ForEachGemmTask).
module GemmGrid {
  import opened KernelPolicy
  import opened Indexing
  import opened Parallel

  const ROW_BLOCK := 4
  const BAND_ROWS := 64
  const TASK_WORK := 0x10_0000
  const WANT_TASKS := 64
  const WORD := 0x1_0000_0000_0000_0000  // size_t arithmetic is modulo 2^64

  datatype Grid = Grid(bandRows: nat, bandsM: nat, bandCols: nat, bandsN: nat) {
    function Tasks(): nat { bandsM * bandsN }

    /** Bands are non-empty and the last one of each axis reaches the edge of C. */
    predicate Covers(M: nat, N: nat) {
      && bandRows > 0 && bandCols > 0 && bandsM > 0 && bandsN > 0
      && (bandsM - 1) * bandRows < M <= bandsM * bandRows
      && (bandsN - 1) * bandCols < N <= bandsN * bandCols
    }

    /** The cell of C that task t computes. */
    function CellOf(t: nat, M: nat, N: nat): Cell
      requires bandsN > 0
    {
      var m0, n0 := t / bandsN * bandRows, t % bandsN * bandCols;
      Cell(m0, Min(m0 + bandRows, M), n0, Min(n0 + bandCols, N))
    }
  }

  datatype Cell = Cell(m0: nat, m1: nat, n0: nat, n1: nat) {
    predicate Has(m: nat, n: nat) { m0 <= m < m1 && n0 <= n < n1 }
  }

  /** x rounded up to whole multiples of d. */
  function RoundUp(x: nat, d: nat): (r: nat)
    requires d > 0
    ensures x <= r && r % d == 0
    ensures x > 0 ==> r > 0
  {
    CeilDivLeast(x, d);
    var q := CeilDiv(x, d);
    QuotientUnique(q * d, d, q);
    q * d
  }

  /** How many tasks the work is worth. */
  function WantedTasks(M: nat, N: nat, K: nat): (want: nat)
    ensures want <= WANT_TASKS
  {
    var perRow := N * K % WORD;
    var work := if perRow != 0 && M > (WORD - 1) / perRow then WORD - 1 else M * perRow;
    Min(WANT_TASKS, work / TASK_WORK)
  }

  lemma BandsWithin(x: nat, d: nat, bands: nat, limit: nat)
    requires x > 0 && bands > 0 && d >= CeilDiv(x, bands) && bands <= limit
    ensures d > 0 && CeilDiv(x, d) <= bands <= limit
  {
    CeilDivLeast(x, bands);
    TimesMonotone(bands, CeilDiv(x, bands), d);
    CeilDivAtMost(x, d, bands);
  }

  lemma TasksWithin(a: nat, b: nat, limit: nat)
    requires a > 0 && b <= limit / a
    ensures a * b <= limit
  {
    DivisionBounds(limit, a);
    TimesMonotone(a, b, limit / a);
  }

  /** What every stage of the plan keeps. */
  predicate Planned(g: Grid, M: nat, N: nat, tileN: nat) {
    && g.Covers(M, N) && g.Tasks() <= MAX_CHUNKS
    && g.bandRows % ROW_BLOCK == 0
    && (g.bandsN > 1 ==> tileN > 0 && g.bandCols % tileN == 0)
  }

  method PlanRows(M: nat, N: nat, tileN: nat) returns (g: Grid)
    requires M > 0 && N > 0
    ensures Planned(g, M, N, tileN)
  {
    var bandRows := BAND_ROWS;
    var minRows := CeilDiv(M, MAX_CHUNKS);
    if bandRows < minRows {
      bandRows := RoundUp(minRows, ROW_BLOCK);
    }
    BandsWithin(M, bandRows, MAX_CHUNKS, MAX_CHUNKS);
    CeilDivLeast(M, bandRows);
    g := Grid(bandRows, CeilDiv(M, bandRows), N, 1);
  }

  /** Column bands of whole N tiles, where the row bands alone are too few. */
  method PlanColumns(g: Grid, M: nat, N: nat, tileN: nat, want: nat) returns (r: Grid)
    requires Planned(g, M, N, tileN) && M > 0 && N > 0 && tileN > 0 && g.bandsM < want
    ensures Planned(r, M, N, tileN)
  {
    r := g;
    var bands := Min(Min(CeilDiv(N, tileN), CeilDiv(want, g.bandsM)), MAX_CHUNKS / g.bandsM);
    if bands > 1 {
      var cols := RoundUp(CeilDiv(N, bands), tileN);
      BandsWithin(N, cols, bands, bands);
      CeilDivLeast(N, cols);
      TasksWithin(g.bandsM, CeilDiv(N, cols), MAX_CHUNKS);
      r := g.(bandCols := cols, bandsN := CeilDiv(N, cols));
    }
  }

  /** Thinner row bands, down to one row block, where the tasks are still too few. */
  method PlanThinRows(g: Grid, M: nat, N: nat, tileN: nat, want: nat) returns (r: Grid)
    requires Planned(g, M, N, tileN) && M > 0 && g.Tasks() < want <= WANT_TASKS
    ensures Planned(r, M, N, tileN)
  {
    r := g;
    CeilDivLeast(want, g.bandsN);
    CeilDivLeast(M, ROW_BLOCK);
    var bands := Min(CeilDiv(want, g.bandsN), CeilDiv(M, ROW_BLOCK));
    var rows := RoundUp(CeilDiv(M, bands), ROW_BLOCK);
    if rows < g.bandRows {
      ThinPlanned(g, M, N, tileN, want, bands, rows);
      r := g.(bandRows := rows, bandsM := CeilDiv(M, rows));
    }
  }

  lemma ThinPlanned(g: Grid, M: nat, N: nat, tileN: nat, want: nat, bands: nat, rows: nat)
    requires Planned(g, M, N, tileN) && M > 0 && g.Tasks() < want <= WANT_TASKS
    requires 0 < bands <= CeilDiv(want, g.bandsN) && rows == RoundUp(CeilDiv(M, bands), ROW_BLOCK) > 0
    ensures Planned(g.(bandRows := rows, bandsM := CeilDiv(M, rows)), M, N, tileN)
  {
    BandsWithin(M, rows, bands, bands);
    CeilDivLeast(M, rows);
    ThinTasks(CeilDiv(M, rows), g.bandsM, g.bandsN, bands, want);
  }

  method PlanGemmGrid(M: nat, N: nat, K: nat, tiles: GemmTiles, panelFloats: nat) returns (g: Grid)
    requires M > 0 && N > 0 && tiles.Valid() && panelFloats >= 4
    ensures g.Covers(M, N)
    ensures g.Tasks() <= MAX_CHUNKS
    ensures g.bandRows % ROW_BLOCK == 0
    ensures g.bandsN > 1 ==> g.bandCols % FitToPanel(tiles, panelFloats).n == 0
  {
    var want := WantedTasks(M, N, K);
    var tileN := FitToPanel(tiles, panelFloats).n;
    g := PlanRows(M, N, tileN);
    if g.bandsM < want && N > tileN {
      g := PlanColumns(g, M, N, tileN, want);
    }
    if g.Tasks() < want && M > ROW_BLOCK {
      g := PlanThinRows(g, M, N, tileN, want);
    }
  }

  /** Thinner row bands stay within one extra column of tasks past the wanted number. */
  lemma ThinTasks(bandsM': nat, bandsM: nat, bandsN: nat, bands: nat, want: nat)
    requires bandsM > 0 && bandsN > 0 && bandsM * bandsN < want <= WANT_TASKS
    requires bandsM' <= bands <= CeilDiv(want, bandsN)
    ensures bandsM' * bandsN <= MAX_CHUNKS
  {
    CeilDivLeast(want, bandsN);
    var q := CeilDiv(want, bandsN);
    TimesMonotone(bandsN, bandsM', q);
    RowBase(q - 1, 1, bandsN);
    TimesMonotone(bandsN, 1, bandsM);
  }

  /** The band of width d that holds x. */
  lemma BandOf(x: nat, d: nat, bands: nat, size: nat)
    requires d > 0 && x < size && size <= bands * d
    ensures x / d < bands && x / d * d <= x < Min(x / d * d + d, size)
  {
    DivisionBounds(x, d);
    TimesLess(x / d, bands, d);
  }

  lemma CellInside(g: Grid, M: nat, N: nat, t: nat)
    requires g.Covers(M, N) && t < g.Tasks()
    ensures g.CellOf(t, M, N).m0 < g.CellOf(t, M, N).m1 <= M
    ensures g.CellOf(t, M, N).n0 < g.CellOf(t, M, N).n1 <= N
  {
    DivisionBounds(t, g.bandsN);
    TimesLess(t / g.bandsN, g.bandsM, g.bandsN);
    TimesLeft(t / g.bandsN, g.bandsM - 1, g.bandRows);
    TimesLeft(t % g.bandsN, g.bandsN - 1, g.bandCols);
  }

  function Owner(g: Grid, m: nat, n: nat): nat
    requires g.bandRows > 0 && g.bandCols > 0
  {
    m / g.bandRows * g.bandsN + n / g.bandCols
  }

  lemma OwnerCoords(g: Grid, M: nat, N: nat, m: nat, n: nat)
    requires g.Covers(M, N) && m < M && n < N
    ensures Owner(g, m, n) < g.Tasks()
    ensures Owner(g, m, n) / g.bandsN == m / g.bandRows && Owner(g, m, n) % g.bandsN == n / g.bandCols
  {
    BandOf(m, g.bandRows, g.bandsM, M);
    BandOf(n, g.bandCols, g.bandsN, N);
    RowFits(m / g.bandRows, g.bandsM, g.bandsN);
    QuotientUnique(Owner(g, m, n), g.bandsN, m / g.bandRows);
  }

  /** Every element of C lies in the cell of exactly one task. */
  lemma ExactCover(g: Grid, M: nat, N: nat, m: nat, n: nat)
    requires g.Covers(M, N) && m < M && n < N
    ensures Owner(g, m, n) < g.Tasks()
    ensures forall t: nat :: t < g.Tasks() ==> (g.CellOf(t, M, N).Has(m, n) <==> t == Owner(g, m, n))
  {
    OwnerCoords(g, M, N, m, n);
    forall t: nat | t < g.Tasks() ensures g.CellOf(t, M, N).Has(m, n) <==> t == Owner(g, m, n) {
      if t == Owner(g, m, n) {
        BandOf(m, g.bandRows, g.bandsM, M);
        BandOf(n, g.bandCols, g.bandsN, N);
      } else if g.CellOf(t, M, N).Has(m, n) {
        OwnerIsUnique(g, M, N, m, n, t);
      }
    }
  }

  lemma OwnerIsUnique(g: Grid, M: nat, N: nat, m: nat, n: nat, t: nat)
    requires g.Covers(M, N) && t < g.Tasks() && g.CellOf(t, M, N).Has(m, n)
    ensures t == Owner(g, m, n)
  {
    DivisionBounds(t, g.bandsN);
    QuotientUnique(m, g.bandRows, t / g.bandsN);
    QuotientUnique(n, g.bandCols, t % g.bandsN);
  }
}
