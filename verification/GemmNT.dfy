// The dot-product NT core with its eight lanes (runtime/executor/gemm.cc).
module GemmNT {
  import opened Parallel
  import opened Scalar
  import opened Indexing
  import opened Cells

  const LANES := 8
  const PAIR_MIN_K := 64

  // -------------------------------------------------------------- the lane sums

  /** The eight accumulators after terms 0..k: term i goes to lane i % 8. */
  function LanesAt(a: seq<F>, b: seq<W>, k: nat): (acc: seq<F>)
    requires k <= |a| && k <= |b|
    ensures |acc| == LANES
  {
    if k == 0 then seq(LANES, _ => ZERO)
    else
      var acc := LanesAt(a, b, k - 1);
      var l := (k - 1) % LANES;
      acc[l := Add(acc[l], Mul(a[k - 1], OfStored(b[k - 1])))]
  }

  /** The accumulators, combined in lane order. */
  function Combine(acc: seq<F>, n: nat): F
    requires 1 <= n <= |acc|
  {
    if n == 1 then acc[0] else Add(Combine(acc, n - 1), acc[n - 1])
  }

  function Dot(a: seq<F>, b: seq<W>): F
    requires |a| == |b|
  {
    Combine(LanesAt(a, b, |a|), LANES)
  }

  /** Lane l on its own: the terms with i % 8 == l, in order. */
  function LaneFold(a: seq<F>, b: seq<W>, l: nat, k: nat): F
    requires k <= |a| && k <= |b|
  {
    if k == 0 then ZERO
    else if (k - 1) % LANES == l then Add(LaneFold(a, b, l, k - 1), Mul(a[k - 1], OfStored(b[k - 1])))
    else LaneFold(a, b, l, k - 1)
  }

  lemma {:induction false} LanesAreFolds(a: seq<F>, b: seq<W>, k: nat)
    requires k <= |a| && k <= |b|
    ensures forall l: nat :: l < LANES ==> LanesAt(a, b, k)[l] == LaneFold(a, b, l, k)
  {
    if k > 0 {
      LanesAreFolds(a, b, k - 1);
    }
  }

  // ---------------------------------------------------------------- micro-kernels

  /** Sums the lanes in their fixed order. */
  method CombineLanes(acc: seq<F>) returns (s: F)
    requires |acc| == LANES
    ensures s == Combine(acc, LANES)
  {
    s := acc[0];
    for l := 1 to LANES
      invariant s == Combine(acc, l)
    {
      s := Add(s, acc[l]);
    }
  }

  /** The accumulators of a group of B rows after terms 0..k. */
  function GroupLanes(a: seq<F>, b: seq<seq<W>>, k: nat): (acc: seq<seq<F>>)
    requires k <= |a| && forall i :: 0 <= i < |b| ==> |b[i]| == |a|
    ensures |acc| == |b| && forall i :: 0 <= i < |b| ==> acc[i] == LanesAt(a, b[i], k)
  {
    seq(|b|, i requires 0 <= i < |b| => LanesAt(a, b[i], k))
  }

  /** Lane l of each accumulator of a group gains x times its own B element at k. */
  function FoldTerm(acc: seq<seq<F>>, l: nat, x: F, b: seq<seq<W>>, k: nat): (acc': seq<seq<F>>)
    requires |acc| == |b| && forall i :: 0 <= i < |b| ==> l < |acc[i]| && k < |b[i]|
    ensures |acc'| == |acc|
    ensures forall i :: 0 <= i < |b| ==> acc'[i] == acc[i][l := Add(acc[i][l], Mul(x, OfStored(b[i][k])))]
  {
    seq(|b|, i requires 0 <= i < |b| => acc[i][l := Add(acc[i][l], Mul(x, OfStored(b[i][k])))])
  }

  lemma GroupStep(a: seq<F>, b: seq<seq<W>>, k: nat, l: nat)
    requires k < |a| && l == k % LANES && forall i :: 0 <= i < |b| ==> |b[i]| == |a|
    ensures FoldTerm(GroupLanes(a, b, k), l, a[k], b, k) == GroupLanes(a, b, k + 1)
  {
  }

  lemma LaneOfBlock(k: nat, l: nat)
    requires k % LANES == 0 && l < LANES
    ensures (k + l) % LANES == l
  {
  }

  /** One row of A against a group of B rows (four, or one). */
  method Dots(a: seq<F>, b: seq<seq<W>>) returns (s: seq<F>)
    requires forall i :: 0 <= i < |b| ==> |b[i]| == |a|
    ensures |s| == |b| && forall i :: 0 <= i < |b| ==> s[i] == Dot(a, b[i])
  {
    var K := |a|;
    var acc := seq(|b|, _ => seq(LANES, _ => ZERO));
    assert acc == GroupLanes(a, b, 0);
    var k := 0;
    while k + LANES <= K
      invariant k <= K && k % LANES == 0 && acc == GroupLanes(a, b, k)
    {
      for l := 0 to LANES
        invariant acc == GroupLanes(a, b, k + l)
      {
        LaneOfBlock(k, l);
        GroupStep(a, b, k + l, l);
        acc := FoldTerm(acc, l, a[k + l], b, k + l);
      }
      k := k + LANES;
    }
    while k < K
      invariant k <= K && acc == GroupLanes(a, b, k)
    {
      GroupStep(a, b, k, k % LANES);
      acc := FoldTerm(acc, k % LANES, a[k], b, k);
      k := k + 1;
    }
    s := CombineGroup(acc);
  }

  method CombineGroup(acc: seq<seq<F>>) returns (s: seq<F>)
    requires forall i :: 0 <= i < |acc| ==> |acc[i]| == LANES
    ensures |s| == |acc| && forall i :: 0 <= i < |acc| ==> s[i] == Combine(acc[i], LANES)
  {
    s := [];
    for i := 0 to |acc|
      invariant |s| == i && forall i' :: 0 <= i' < i ==> s[i'] == Combine(acc[i'], LANES)
    {
      var t := CombineLanes(acc[i]);
      s := s + [t];
    }
  }

  /** The eight lanes of one block, for two rows of A at once. */
  method PairBlock(p: seq<seq<F>>, q: seq<seq<F>>, a0: seq<F>, a1: seq<F>, b: seq<seq<W>>, k: nat)
    returns (p': seq<seq<F>>, q': seq<seq<F>>)
    requires |a0| == |a1| && (forall i :: 0 <= i < |b| ==> |b[i]| == |a0|) && k % LANES == 0 && k + LANES <= |a0|
    requires p == GroupLanes(a0, b, k) && q == GroupLanes(a1, b, k)
    ensures p' == GroupLanes(a0, b, k + LANES) && q' == GroupLanes(a1, b, k + LANES)
  {
    p', q' := p, q;
    for l := 0 to LANES
      invariant p' == GroupLanes(a0, b, k + l) && q' == GroupLanes(a1, b, k + l)
    {
      LaneOfBlock(k, l);
      GroupStep(a0, b, k + l, l);
      GroupStep(a1, b, k + l, l);
      p', q' := FoldTerm(p', l, a0[k + l], b, k + l), FoldTerm(q', l, a1[k + l], b, k + l);
    }
  }

  /** Two rows of A riding each pass over a group of B rows. */
  method PairDots(a0: seq<F>, a1: seq<F>, b: seq<seq<W>>) returns (s: seq<F>, t: seq<F>)
    requires |a0| == |a1| && forall i :: 0 <= i < |b| ==> |b[i]| == |a0|
    ensures |s| == |t| == |b|
    ensures forall i :: 0 <= i < |b| ==> s[i] == Dot(a0, b[i]) && t[i] == Dot(a1, b[i])
  {
    var K := |a0|;
    var p, q := seq(|b|, _ => seq(LANES, _ => ZERO)), seq(|b|, _ => seq(LANES, _ => ZERO));
    assert p == GroupLanes(a0, b, 0) && q == GroupLanes(a1, b, 0);
    var k := 0;
    while k + LANES <= K
      invariant k <= K && k % LANES == 0 && p == GroupLanes(a0, b, k) && q == GroupLanes(a1, b, k)
    {
      p, q := PairBlock(p, q, a0, a1, b, k);
      k := k + LANES;
    }
    while k < K
      invariant k <= K && p == GroupLanes(a0, b, k) && q == GroupLanes(a1, b, k)
    {
      GroupStep(a0, b, k, k % LANES);
      GroupStep(a1, b, k, k % LANES);
      p, q := FoldTerm(p, k % LANES, a0[k], b, k), FoldTerm(q, k % LANES, a1[k], b, k);
      k := k + 1;
    }
    s := CombineGroup(p);
    t := CombineGroup(q);
  }

  // -------------------------------------------------------------------- the core

  /** A is M rows and B is N rows of length K; C is M x N. */
  datatype NtOperands = NtOperands(a: seq<seq<F>>, b: seq<seq<W>>, alpha: F, K: nat) {
    ghost predicate Valid() {
      && (forall m :: 0 <= m < |a| ==> |a[m]| == K)
      && (forall n :: 0 <= n < |b| ==> |b[n]| == K)
    }

    /** Row m of alpha * A * B^T. */
    function Row(m: nat): (want: seq<F>)
      requires Valid() && m < |a|
      ensures |want| == |b| && forall n :: 0 <= n < |b| ==> want[n] == Mul(alpha, Dot(a[m], b[n]))
    {
      seq(|b|, n requires 0 <= n < |b| => Mul(alpha, Dot(a[m], b[n])))
    }
  }

  /** C[at..] becomes the alpha-scaled sums of one group. */
  method StoreGroup(C: array<F>, at: nat, s: seq<F>, alpha: F)
    requires at + |s| <= C.Length
    modifies C
    ensures forall j :: 0 <= j < C.Length ==> C[j] == if at <= j < at + |s| then Mul(alpha, s[j - at]) else old(C[j])
  {
    for i := 0 to |s|
      invariant forall j :: 0 <= j < C.Length ==> C[j] == if at <= j < at + i then Mul(alpha, s[j - at]) else old(C[j])
    {
      C[at + i] := Mul(alpha, s[i]);
    }
  }

  /** Columns n0..n1 of one C row that starts at base: groups of four B rows, then single ones. */
  method NtRow(p: NtOperands, C: array<F>, m: nat, base: nat, n0: nat, n1: nat)
    requires p.Valid() && m < |p.a| && n0 <= n1 <= |p.b| && base + |p.b| <= C.Length
    modifies C
    ensures forall j :: 0 <= j < C.Length ==>
      C[j] == if base + n0 <= j < base + n1 then p.Row(m)[j - base] else old(C[j])
  {
    var n := n0;
    while n < n1
      invariant n0 <= n <= n1
      invariant forall j :: 0 <= j < C.Length ==>
        C[j] == if base + n0 <= j < base + n then p.Row(m)[j - base] else old(C[j])
    {
      var group := if n + 4 <= n1 then 4 else 1;
      var s := Dots(p.a[m], p.b[n..n + group]);
      StoreGroup(C, base + n, s, p.alpha);
      n := n + group;
    }
  }

  /** Four columns of two C rows. */
  method PairGroup(p: NtOperands, C: array<F>, m: nat, base: nat, n: nat, next: nat)
    requires p.Valid() && m + 1 < |p.a| && next == n + 4 <= |p.b| && base + 2 * |p.b| <= C.Length
    modifies C
    ensures forall j :: 0 <= j < C.Length ==>
      C[j] == if base + n <= j < base + next then p.Row(m)[j - base]
              else if base + |p.b| + n <= j < base + |p.b| + next then p.Row(m + 1)[j - base - |p.b|]
              else old(C[j])
  {
    var s, t := PairDots(p.a[m], p.a[m + 1], p.b[n..next]);
    StoreGroup(C, base + n, s, p.alpha);
    StoreGroup(C, base + |p.b| + n, t, p.alpha);
  }

  /** Two C rows, N apart, over columns n0..n1: groups of four B rows for both, then row by row. */
  method NtPair(p: NtOperands, C: array<F>, m: nat, base: nat, n0: nat, n1: nat)
    requires p.Valid() && m + 1 < |p.a| && n0 <= n1 <= |p.b| && base + 2 * |p.b| <= C.Length
    modifies C
    ensures forall j :: 0 <= j < C.Length ==>
      C[j] == if base + n0 <= j < base + n1 then p.Row(m)[j - base]
              else if base + |p.b| + n0 <= j < base + |p.b| + n1 then p.Row(m + 1)[j - base - |p.b|]
              else old(C[j])
  {
    var N := |p.b|;
    var n := n0;
    while n + 4 <= n1
      invariant n0 <= n <= n1
      invariant forall j :: 0 <= j < C.Length ==>
        C[j] == if base + n0 <= j < base + n then p.Row(m)[j - base]
                else if base + N + n0 <= j < base + N + n then p.Row(m + 1)[j - base - N]
                else old(C[j])
    {
      PairGroup(p, C, m, base, n, n + 4);
      n := n + 4;
    }
    NtRow(p, C, m, base, n, n1);
    NtRow(p, C, m + 1, base + N, n, n1);
  }

  /** `want` holds the product of p from row r0 on. */
  ghost predicate HasProduct(p: NtOperands, want: seq<seq<F>>, M: nat, r0: nat) {
    p.Valid() && IsContent(want, M, |p.b|) && r0 + |p.a| <= M && forall m: nat :: m < |p.a| ==> p.Row(m) == want[r0 + m]
  }

  /** A row pair, or a single row, over columns n0..n1 of the C rows that start at base. */
  method NtBlock(p: NtOperands, C: array<F>, m: nat, rows: nat, base: nat, n0: nat, n1: nat)
    requires p.Valid() && (rows == 2 || rows == 1) && m + rows <= |p.a| && n0 <= n1 <= |p.b|
    requires base + rows * |p.b| <= C.Length
    modifies C
    ensures SegIs(p.Row(m), C[..], base, n0, n1)
    ensures rows == 2 ==> SegIs(p.Row(m + 1), C[..], base + |p.b|, n0, n1)
    ensures KeptOutside(old(C[..]), C[..], base, |p.b|, rows, n0, n1 - n0)
  {
    if rows == 2 {
      NtPair(p, C, m, base, n0, n1);
    } else {
      NtRow(p, C, m, base, n0, n1);
    }
  }

  method NtRows(p: NtOperands, C: array<F>, M: nat, r0: nat, m: nat, rows: nat, n0: nat, n1: nat, ghost want: seq<seq<F>>)
    requires HasProduct(p, want, M, r0) && (rows == 2 || rows == 1) && m + rows <= |p.a| && n0 <= n1 <= |p.b|
    requires C.Length == M * |p.b|
    modifies C
    ensures RowsAre(want, M, |p.b|, C[..], r0 + m, r0 + m + rows, n0, n1)
    ensures OnlyCell(M, |p.b|, old(C[..]), C[..], r0 + m, r0 + m + rows, n0, n1)
  {
    var N, r := |p.b|, r0 + m;
    BlockFits(r, rows, M, N);
    NtBlock(p, C, m, rows, r * N, n0, n1);
    assert p.Row(m) == want[r] && (rows == 2 ==> p.Row(m + 1) == want[r + 1]);
    BlockIs(want, M, N, C[..], r, rows, n0, n1);
    RowBlockOnly(M, N, old(C[..]), C[..], r, rows, r + rows, n0, n1);
  }

  lemma BlockFits(r: nat, rows: nat, M: nat, N: nat)
    requires r + rows <= M && (rows == 2 || rows == 1)
    ensures r * N + rows * N <= M * N
    ensures rows == 2 ==> (r + 1) * N == r * N + N
  {
    RowBase(r, rows, N);
    RowBase(r + rows, M - r - rows, N);
    RowBase(r, 1, N);
  }

  lemma BlockIs(want: seq<seq<F>>, M: nat, N: nat, c: seq<F>, r: nat, rows: nat, n0: nat, n1: nat)
    requires IsContent(want, M, N) && |c| == M * N && (rows == 2 || rows == 1) && r + rows <= M && n1 <= N
    requires r * N + rows * N <= M * N && (rows == 2 ==> (r + 1) * N == r * N + N)
    requires SegIs(want[r], c, r * N, n0, n1)
    requires rows == 2 ==> SegIs(want[r + 1], c, r * N + N, n0, n1)
    ensures RowsAre(want, M, N, c, r, r + rows, n0, n1)
  {
    forall s: nat | r <= s < r + rows ensures (RowFits(s, M, N); RowIs(want[s], N, c, s, n0, n1)) {
      RowFits(s, M, N);
      assert s == r || s == r + 1;
    }
  }

  /** One N tile: row pairs where K is long enough to pay for them, then rows one at a time. */
  method NtTile(p: NtOperands, C: array<F>, M: nat, r0: nat, m0: nat, m1: nat, n0: nat, n1: nat, ghost want: seq<seq<F>>)
    requires HasProduct(p, want, M, r0) && m0 <= m1 <= |p.a| && n0 <= n1 <= |p.b| && C.Length == M * |p.b|
    modifies C
    ensures RowsAre(want, M, |p.b|, C[..], r0 + m0, r0 + m1, n0, n1)
    ensures OnlyCell(M, |p.b|, old(C[..]), C[..], r0 + m0, r0 + m1, n0, n1)
  {
    var N := |p.b|;
    var pair := p.K >= PAIR_MIN_K;
    var m := m0;
    while m < m1
      invariant m0 <= m <= m1
      invariant RowsAre(want, M, N, C[..], r0 + m0, r0 + m, n0, n1)
      invariant OnlyCell(M, N, old(C[..]), C[..], r0 + m0, r0 + m, n0, n1)
    {
      ghost var c := C[..];
      var rows := if pair && m + 2 <= m1 then 2 else 1;
      NtRows(p, C, M, r0, m, rows, n0, n1, want);
      RowsAreSurvives(want, M, N, c, C[..], r0 + m0, r0 + m, n0, n1, r0 + m, r0 + m + rows, n0, n1);
      OnlyCellGrows(M, N, old(C[..]), c, C[..], r0 + m0, r0 + m, r0 + m + rows, n0, n1);
      m := m + rows;
    }
  }

  /** The core on rows m0..m1 of A, columns n0..n1: C rows r0 + m0 .. r0 + m1 become those of the product. */
  method BlockedNT(p: NtOperands, C: array<F>, M: nat, r0: nat, m0: nat, m1: nat, n0: nat, n1: nat, tileN: nat,
                   ghost want: seq<seq<F>>)
    requires HasProduct(p, want, M, r0) && m0 <= m1 <= |p.a| && n0 <= n1 <= |p.b| && C.Length == M * |p.b| && tileN > 0
    modifies C
    ensures RowsAre(want, M, |p.b|, C[..], r0 + m0, r0 + m1, n0, n1)
    ensures OnlyCell(M, |p.b|, old(C[..]), C[..], r0 + m0, r0 + m1, n0, n1)
  {
    var N := |p.b|;
    var n := n0;
    OnlyCellSame(M, N, C[..], r0 + m0, r0 + m1, n0, n1);
    while n < n1
      invariant n0 <= n <= n1
      invariant RowsAre(want, M, N, C[..], r0 + m0, r0 + m1, n0, n)
      invariant OnlyCell(M, N, old(C[..]), C[..], r0 + m0, r0 + m1, n0, n1)
    {
      ghost var c := C[..];
      var e := Min(n + tileN, n1);
      NtTile(p, C, M, r0, m0, m1, n, e, want);
      RowsAreSurvives(want, M, N, c, C[..], r0 + m0, r0 + m1, n0, n, r0 + m0, r0 + m1, n, e);
      OnlyCellWithin(M, N, old(C[..]), c, C[..], r0 + m0, r0 + m1, n0, n1, n, e);
      n := e;
    }
  }
}
