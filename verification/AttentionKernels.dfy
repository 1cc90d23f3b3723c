// The attention kernels over whole activations: one unit per (b, h, row), units in
// any order (runtime/executor/attention.cc). An activation is its array of head
// segments, a probability-like matrix its array of rows.
module AttentionKernels {
  import opened Scalar
  import opened Parallel
  import opened AttentionShape
  import opened Attention

  /** An activation of the shape: one segment of d floats per slot. */
  ghost predicate Operand(sh: Shape, x: Rows) { |x| == sh.Slots() && AllWide(x, sh.d) }

  /** A [B*H*S, S] matrix. */
  ghost predicate Matrix(sh: Shape, m: Rows) { |m| == sh.Units() && AllWide(m, sh.S) }

  /** Row x.i of head x.h of batch entry x.b in an activation, and in a matrix. */
  function HeadRow(sh: Shape, x: Rows, t: Unit): (r: Row)
    requires Operand(sh, x) && sh.Has(t)
    ensures |r| == sh.d
  {
    sh.SlotBound(t);
    x[sh.Slot(t)]
  }

  function UnitRow(sh: Shape, m: Rows, t: Unit): (r: Row)
    requires Matrix(sh, m) && sh.Has(t)
    ensures |r| == sh.S
  {
    sh.IndexOfIsIndex(t);
    m[sh.IndexOf(t)]
  }

  function HeadRows(sh: Shape, x: Rows, b: nat, h: nat): (r: Rows)
    requires Operand(sh, x) && b < sh.B && h < sh.H
    ensures |r| == sh.S && AllWide(r, sh.d)
  {
    seq(sh.S, i requires 0 <= i < sh.S => HeadRow(sh, x, Unit(b, h, i)))
  }

  function UnitRows(sh: Shape, m: Rows, b: nat, h: nat): (r: Rows)
    requires Matrix(sh, m) && b < sh.B && h < sh.H
    ensures |r| == sh.S && AllWide(r, sh.S)
    ensures forall i: nat :: i < sh.S ==> r[i] == UnitRow(sh, m, Unit(b, h, i))
  {
    seq(sh.S, i requires 0 <= i < sh.S => UnitRow(sh, m, Unit(b, h, i)))
  }

  function HeadOf(sh: Shape, q: Rows, k: Rows, v: Rows, b: nat, h: nat): (hd: Head)
    requires Operand(sh, q) && Operand(sh, k) && Operand(sh, v) && b < sh.B && h < sh.H
    ensures hd.Valid() && |hd.q| == sh.S
  {
    Head(HeadRows(sh, q, b, h), HeadRows(sh, k, b, h), HeadRows(sh, v, b, h), sh.d)
  }

  /** The unit numbered u of the shape. */
  function UnitAt(sh: Shape, u: nat): (x: Unit)
    requires u < sh.Units()
    ensures sh.Has(x) && sh.IndexOf(x) == u
  {
    sh.UnitOfIsUnit(u);
    sh.UnitOf(u)
  }

  /** The slot each unit owns. */
  function SlotAt(sh: Shape, u: nat): (s: nat)
    requires u < sh.Units()
    ensures s < sh.Slots()
  {
    sh.SlotBound(UnitAt(sh, u));
    sh.Slot(UnitAt(sh, u))
  }

  function SlotTable(sh: Shape): (slots: seq<nat>)
    ensures |slots| == sh.Units()
    ensures forall u: nat :: u < |slots| ==> slots[u] == SlotAt(sh, u) && slots[u] < sh.Slots()
  {
    seq(sh.Units(), u requires 0 <= u < sh.Units() => SlotAt(sh, u))
  }

  lemma SlotsDiffer(sh: Shape, u: nat, u': nat)
    requires u < sh.Units() && u' < sh.Units()
    ensures SlotTable(sh)[u] == SlotTable(sh)[u'] ==> u == u'
  {
    sh.SlotInjective(UnitAt(sh, u), UnitAt(sh, u'));
  }

  lemma SlotInTable(sh: Shape, s: nat)
    requires s < sh.Slots()
    ensures s in SlotTable(sh)
  {
    var x := sh.SlotCovered(s);
    sh.IndexOfIsIndex(x);
    assert UnitAt(sh, sh.IndexOf(x)) == x;
    assert SlotTable(sh)[sh.IndexOf(x)] == s;
  }

  /** The finished units have left their wanted row in the slot they own. */
  ghost predicate BySlot(slots: seq<nat>, o: Rows, want: Rows, remaining: set<nat>) {
    && |want| == |slots|
    && forall u: nat :: u < |slots| && u !in remaining ==> slots[u] < |o| && o[slots[u]] == want[u]
  }

  /** A unit that writes its own slot disturbs no other unit's. */
  lemma BySlotStep(sh: Shape, o: Rows, o': Rows, want: Rows, remaining: set<nat>, u: nat)
    requires |o| == sh.Slots() && BySlot(SlotTable(sh), o, want, remaining) && u < sh.Units()
    requires o' == o[SlotTable(sh)[u] := want[u]]
    ensures BySlot(SlotTable(sh), o', want, remaining - {u})
  {
    var slots := SlotTable(sh);
    forall u': nat | u' < |slots| && u' !in remaining - {u} ensures slots[u'] < |o'| && o'[slots[u']] == want[u'] {
      SlotsDiffer(sh, u, u');
    }
  }

  /** Every slot is owned, so two activations with the same wanted rows are the same. */
  lemma BySlotUnique(sh: Shape, o: Rows, o': Rows, want: Rows)
    requires BySlot(SlotTable(sh), o, want, {}) && BySlot(SlotTable(sh), o', want, {}) && |o| == |o'| == sh.Slots()
    ensures o == o'
  {
    var slots := SlotTable(sh);
    forall s: nat | s < |o| ensures o[s] == o'[s] {
      SlotInTable(sh, s);
      var u :| 0 <= u < |slots| && slots[u] == s;
    }
  }

  // -------------------------------------------------------- the wanted tensors

  function HeadAt(sh: Shape, q: Rows, k: Rows, v: Rows, u: nat): (hd: Head)
    requires Operand(sh, q) && Operand(sh, k) && Operand(sh, v) && u < sh.Units()
    ensures hd.Valid() && |hd.q| == sh.S && hd.d == sh.d
  {
    HeadOf(sh, q, k, v, UnitAt(sh, u).b, UnitAt(sh, u).h)
  }

  function WantO(sh: Shape, q: Rows, k: Rows, v: Rows): (w: Rows)
    requires Operand(sh, q) && Operand(sh, k) && Operand(sh, v)
    ensures |w| == sh.Units()
    ensures forall u: nat :: u < |w| ==> w[u] == HeadAt(sh, q, k, v, u).ORow(UnitAt(sh, u).i)
  {
    seq(sh.Units(), u requires 0 <= u < sh.Units() => HeadAt(sh, q, k, v, u).ORow(UnitAt(sh, u).i))
  }

  function WantP(sh: Shape, q: Rows, k: Rows, v: Rows): (w: Rows)
    requires Operand(sh, q) && Operand(sh, k) && Operand(sh, v)
    ensures |w| == sh.Units() && Matrix(sh, w)
    ensures forall u: nat :: u < |w| ==> w[u] == HeadAt(sh, q, k, v, u).PRow(UnitAt(sh, u).i)
  {
    seq(sh.Units(), u requires 0 <= u < sh.Units() => HeadAt(sh, q, k, v, u).PRow(UnitAt(sh, u).i))
  }

  function WantDP(sh: Shape, g: Rows, v: Rows): (w: Rows)
    requires Operand(sh, g) && Operand(sh, v)
    ensures |w| == sh.Units() && Matrix(sh, w)
    ensures forall u: nat :: u < |w| ==> w[u] == DPRowAt(sh, g, v, u)
  {
    seq(sh.Units(), u requires 0 <= u < sh.Units() => DPRowAt(sh, g, v, u))
  }

  function DPRowAt(sh: Shape, g: Rows, v: Rows, u: nat): (r: Row)
    requires Operand(sh, g) && Operand(sh, v) && u < sh.Units()
    ensures |r| == sh.S
  {
    var x := UnitAt(sh, u);
    DProbRow(HeadRows(sh, g, x.b, x.h), HeadRows(sh, v, x.b, x.h), sh.d, x.i)
  }

  /** dQ, dK and dV as sums over given score gradients and probabilities. */
  function DQFrom(sh: Shape, ds: Rows, k: Rows, u: nat): Row
    requires Matrix(sh, ds) && Operand(sh, k) && u < sh.Units()
  {
    var x := UnitAt(sh, u);
    WeightedRow(Scaled(ds[u], ScaleOf(sh.d)), HeadRows(sh, k, x.b, x.h), sh.d, 0, x.i + 1)
  }

  function DKFrom(sh: Shape, ds: Rows, q: Rows, u: nat): Row
    requires Matrix(sh, ds) && Operand(sh, q) && u < sh.Units()
  {
    var x := UnitAt(sh, u);
    WeightedRow(Scaled(Column(UnitRows(sh, ds, x.b, x.h), x.i), ScaleOf(sh.d)), HeadRows(sh, q, x.b, x.h), sh.d, x.i, sh.S)
  }

  function DVFrom(sh: Shape, probs: Rows, g: Rows, u: nat): Row
    requires Matrix(sh, probs) && Operand(sh, g) && u < sh.Units()
  {
    var x := UnitAt(sh, u);
    WeightedRow(Column(UnitRows(sh, probs, x.b, x.h), x.i), HeadRows(sh, g, x.b, x.h), sh.d, x.i, sh.S)
  }

  function WantDQ(sh: Shape, ds: Rows, k: Rows): (w: Rows)
    requires Matrix(sh, ds) && Operand(sh, k)
    ensures |w| == sh.Units() && forall u: nat :: u < |w| ==> w[u] == DQFrom(sh, ds, k, u)
  {
    seq(sh.Units(), u requires 0 <= u < sh.Units() => DQFrom(sh, ds, k, u))
  }

  function WantDK(sh: Shape, ds: Rows, q: Rows): (w: Rows)
    requires Matrix(sh, ds) && Operand(sh, q)
    ensures |w| == sh.Units() && forall u: nat :: u < |w| ==> w[u] == DKFrom(sh, ds, q, u)
  {
    seq(sh.Units(), u requires 0 <= u < sh.Units() => DKFrom(sh, ds, q, u))
  }

  function WantDV(sh: Shape, probs: Rows, g: Rows): (w: Rows)
    requires Matrix(sh, probs) && Operand(sh, g)
    ensures |w| == sh.Units() && forall u: nat :: u < |w| ==> w[u] == DVFrom(sh, probs, g, u)
  {
    seq(sh.Units(), u requires 0 <= u < sh.Units() => DVFrom(sh, probs, g, u))
  }

  /** The finished units have left their row at their own number. */
  ghost predicate ByUnit(m: Rows, want: Rows, remaining: set<nat>) {
    |m| == |want| && forall u: nat :: u < |m| && u !in remaining ==> m[u] == want[u]
  }

  // ----------------------------------------------------------- the cached family

  method AttnFwd(sh: Shape, q: Rows, k: Rows, v: Rows, o: array<Row>, probs: array<Row>)
    requires Operand(sh, q) && Operand(sh, k) && Operand(sh, v)
    requires o.Length == sh.Slots() && probs.Length == sh.Units() && o != probs
    modifies o, probs
    ensures BySlot(SlotTable(sh), o[..], WantO(sh, q, k, v), {})
    ensures probs[..] == WantP(sh, q, k, v)
  {
    var slots, remaining := SlotTable(sh), TaskSet(sh.Units());
    ghost var wantO, wantP := WantO(sh, q, k, v), WantP(sh, q, k, v);
    while remaining != {}
      invariant forall u :: u in remaining ==> u < |slots|
      invariant BySlot(slots, o[..], wantO, remaining) && ByUnit(probs[..], wantP, remaining)
      decreases remaining
    {
      var u :| u in remaining;
      var prow, oi := ForwardUnit(HeadAt(sh, q, k, v, u), UnitAt(sh, u).i);
      assert prow == wantP[u] && oi == wantO[u];
      ghost var before := o[..];
      o[slots[u]], probs[u] := oi, prow;
      BySlotStep(sh, before, o[..], wantO, remaining, u);
      remaining := remaining - {u};
    }
  }

  method AttnDP(sh: Shape, g: Rows, v: Rows, dp: array<Row>)
    requires Operand(sh, g) && Operand(sh, v) && dp.Length == sh.Units()
    modifies dp
    ensures dp[..] == WantDP(sh, g, v)
  {
    var remaining := TaskSet(sh.Units());
    ghost var want := WantDP(sh, g, v);
    while remaining != {}
      invariant forall u :: u in remaining ==> u < sh.Units()
      invariant ByUnit(dp[..], want, remaining)
      decreases remaining
    {
      var u :| u in remaining;
      var x := UnitAt(sh, u);
      var row := DProbUnit(HeadRows(sh, g, x.b, x.h), HeadRows(sh, v, x.b, x.h), sh.d, x.i);
      assert row == want[u];
      dp[u] := row;
      remaining := remaining - {u};
    }
  }

  method SoftmaxRowsBwd(probs: Rows, dp: Rows, ds: array<Row>)
    requires |probs| == |dp| == ds.Length && forall r :: 0 <= r < |probs| ==> |probs[r]| == |dp[r]|
    modifies ds
    ensures forall r :: 0 <= r < |probs| ==> ds[r] == SoftmaxBwdRow(probs[r], dp[r])
  {
    var remaining := TaskSet(|probs|);
    while remaining != {}
      invariant forall r :: r in remaining ==> r < |probs|
      invariant forall r: nat :: r < |probs| && r !in remaining ==> ds[r] == SoftmaxBwdRow(probs[r], dp[r])
      decreases remaining
    {
      var r :| r in remaining;
      var row := SoftmaxBwdUnit(probs[r], dp[r]);
      ds[r] := row;
      remaining := remaining - {r};
    }
  }

  /** dQ, dK and dV from the stored matrices. */
  method AttnDQ(sh: Shape, ds: Rows, k: Rows, dq: array<Row>)
    requires Matrix(sh, ds) && Operand(sh, k) && dq.Length == sh.Slots()
    modifies dq
    ensures BySlot(SlotTable(sh), dq[..], WantDQ(sh, ds, k), {})
  {
    var slots, remaining := SlotTable(sh), TaskSet(sh.Units());
    ghost var want := WantDQ(sh, ds, k);
    while remaining != {}
      invariant forall u :: u in remaining ==> u < |slots|
      invariant BySlot(slots, dq[..], want, remaining)
      decreases remaining
    {
      var u :| u in remaining;
      var x := UnitAt(sh, u);
      var row := WeightedLoop(Scaled(ds[u], ScaleOf(sh.d)), HeadRows(sh, k, x.b, x.h), sh.d, 0, x.i + 1);
      assert row == want[u];
      ghost var before := dq[..];
      dq[slots[u]] := row;
      BySlotStep(sh, before, dq[..], want, remaining, u);
      remaining := remaining - {u};
    }
  }

  method AttnDK(sh: Shape, ds: Rows, q: Rows, dk: array<Row>)
    requires Matrix(sh, ds) && Operand(sh, q) && dk.Length == sh.Slots()
    modifies dk
    ensures BySlot(SlotTable(sh), dk[..], WantDK(sh, ds, q), {})
  {
    var slots, remaining := SlotTable(sh), TaskSet(sh.Units());
    ghost var want := WantDK(sh, ds, q);
    while remaining != {}
      invariant forall u :: u in remaining ==> u < |slots|
      invariant BySlot(slots, dk[..], want, remaining)
      decreases remaining
    {
      var u :| u in remaining;
      var x := UnitAt(sh, u);
      var coef := Scaled(Column(UnitRows(sh, ds, x.b, x.h), x.i), ScaleOf(sh.d));
      var row := WeightedLoop(coef, HeadRows(sh, q, x.b, x.h), sh.d, x.i, sh.S);
      assert row == want[u];
      ghost var before := dk[..];
      dk[slots[u]] := row;
      BySlotStep(sh, before, dk[..], want, remaining, u);
      remaining := remaining - {u};
    }
  }

  method AttnDV(sh: Shape, probs: Rows, g: Rows, dv: array<Row>)
    requires Matrix(sh, probs) && Operand(sh, g) && dv.Length == sh.Slots()
    modifies dv
    ensures BySlot(SlotTable(sh), dv[..], WantDV(sh, probs, g), {})
  {
    var slots, remaining := SlotTable(sh), TaskSet(sh.Units());
    ghost var want := WantDV(sh, probs, g);
    while remaining != {}
      invariant forall u :: u in remaining ==> u < |slots|
      invariant BySlot(slots, dv[..], want, remaining)
      decreases remaining
    {
      var u :| u in remaining;
      var x := UnitAt(sh, u);
      var row := WeightedLoop(Column(UnitRows(sh, probs, x.b, x.h), x.i), HeadRows(sh, g, x.b, x.h), sh.d, x.i, sh.S);
      assert row == want[u];
      ghost var before := dv[..];
      dv[slots[u]] := row;
      BySlotStep(sh, before, dv[..], want, remaining, u);
      remaining := remaining - {u};
    }
  }

  // ------------------------------------------------------------ the tiled family

  /** The stats of the rows of one head. */
  function HeadStats(sh: Shape, stats: seq<Stats>, b: nat, h: nat): (r: seq<Stats>)
    requires |stats| == sh.Units() && b < sh.B && h < sh.H
    ensures |r| == sh.S
    ensures forall i: nat :: i < sh.S ==> (sh.IndexOfIsIndex(Unit(b, h, i)); r[i] == stats[sh.IndexOf(Unit(b, h, i))])
  {
    seq(sh.S, i requires 0 <= i < sh.S => (sh.IndexOfIsIndex(Unit(b, h, i)); stats[sh.IndexOf(Unit(b, h, i))]))
  }

  /** The stats of unit u after the forward pass, and after the dQ pass. */
  function StatsAt(sh: Shape, q: Rows, k: Rows, v: Rows, u: nat): Stats
    requires Operand(sh, q) && Operand(sh, k) && Operand(sh, v) && u < sh.Units()
  {
    var hd, i := HeadAt(sh, q, k, v, u), UnitAt(sh, u).i;
    Stats(hd.RowMax(i), hd.InvDenom(i), ZERO, ZERO)
  }

  function StatsAfterDQ(sh: Shape, q: Rows, k: Rows, v: Rows, g: Rows, u: nat): Stats
    requires Operand(sh, q) && Operand(sh, k) && Operand(sh, v) && Operand(sh, g) && u < sh.Units()
  {
    var x := UnitAt(sh, u);
    StatsAt(sh, q, k, v, u).(delta := Delta(HeadAt(sh, q, k, v, u), HeadRows(sh, g, x.b, x.h), x.i))
  }

  function WantStats(sh: Shape, q: Rows, k: Rows, v: Rows): (w: seq<Stats>)
    requires Operand(sh, q) && Operand(sh, k) && Operand(sh, v)
    ensures |w| == sh.Units() && forall u: nat :: u < |w| ==> w[u] == StatsAt(sh, q, k, v, u)
  {
    seq(sh.Units(), u requires 0 <= u < sh.Units() => StatsAt(sh, q, k, v, u))
  }

  function WantStatsAfterDQ(sh: Shape, q: Rows, k: Rows, v: Rows, g: Rows): (w: seq<Stats>)
    requires Operand(sh, q) && Operand(sh, k) && Operand(sh, v) && Operand(sh, g)
    ensures |w| == sh.Units() && forall u: nat :: u < |w| ==> w[u] == StatsAfterDQ(sh, q, k, v, g, u)
  {
    seq(sh.Units(), u requires 0 <= u < sh.Units() => StatsAfterDQ(sh, q, k, v, g, u))
  }

  method AttnFwdTiled(sh: Shape, q: Rows, k: Rows, v: Rows, o: array<Row>, stats: array<Stats>)
    requires Operand(sh, q) && Operand(sh, k) && Operand(sh, v) && o.Length == sh.Slots() && stats.Length == sh.Units()
    modifies o, stats
    ensures BySlot(SlotTable(sh), o[..], WantO(sh, q, k, v), {})
    ensures stats[..] == WantStats(sh, q, k, v)
  {
    var slots, remaining := SlotTable(sh), TaskSet(sh.Units());
    ghost var want, wantS := WantO(sh, q, k, v), WantStats(sh, q, k, v);
    while remaining != {}
      invariant forall u :: u in remaining ==> u < |slots|
      invariant BySlot(slots, o[..], want, remaining)
      invariant forall u: nat :: u < stats.Length && u !in remaining ==> stats[u] == wantS[u]
      decreases remaining
    {
      var u :| u in remaining;
      var oi, st := ForwardTiledUnit(HeadAt(sh, q, k, v, u), UnitAt(sh, u).i);
      assert oi == want[u] && st == wantS[u];
      ghost var before := o[..];
      o[slots[u]], stats[u] := oi, st;
      BySlotStep(sh, before, o[..], want, remaining, u);
      remaining := remaining - {u};
    }
  }

  /** The gradient rows of unit u, as the mathematics of its head states them. */
  function GradRow(sh: Shape, q: Rows, k: Rows, v: Rows, g: Rows, u: nat, which: Grad): Row
    requires Operand(sh, q) && Operand(sh, k) && Operand(sh, v) && Operand(sh, g) && u < sh.Units()
  {
    var x := UnitAt(sh, u);
    var hd, gh := HeadAt(sh, q, k, v, u), HeadRows(sh, g, x.b, x.h);
    match which
    case DQ => hd.DQRow(gh, x.i)
    case DK => hd.DKRow(gh, x.i)
    case DV => hd.DVRow(gh, x.i)
  }

  datatype Grad = DQ | DK | DV

  function WantGrad(sh: Shape, q: Rows, k: Rows, v: Rows, g: Rows, which: Grad): (w: Rows)
    requires Operand(sh, q) && Operand(sh, k) && Operand(sh, v) && Operand(sh, g)
    ensures |w| == sh.Units() && forall u: nat :: u < |w| ==> w[u] == GradRow(sh, q, k, v, g, u, which)
  {
    seq(sh.Units(), u requires 0 <= u < sh.Units() => GradRow(sh, q, k, v, g, u, which))
  }

  method AttnDQTiled(sh: Shape, q: Rows, k: Rows, v: Rows, g: Rows, stats: array<Stats>, dq: array<Row>)
    requires Operand(sh, q) && Operand(sh, k) && Operand(sh, v) && Operand(sh, g)
    requires stats[..] == WantStats(sh, q, k, v) && dq.Length == sh.Slots()
    modifies stats, dq
    ensures BySlot(SlotTable(sh), dq[..], WantGrad(sh, q, k, v, g, DQ), {})
    ensures stats[..] == WantStatsAfterDQ(sh, q, k, v, g)
  {
    var slots, remaining := SlotTable(sh), TaskSet(sh.Units());
    ghost var want, s0, s1 := WantGrad(sh, q, k, v, g, DQ), stats[..], WantStatsAfterDQ(sh, q, k, v, g);
    while remaining != {}
      invariant forall u :: u in remaining ==> u < |slots|
      invariant BySlot(slots, dq[..], want, remaining)
      invariant StatsMoved(stats[..], s0, s1, remaining)
      decreases remaining
    {
      var u :| u in remaining;
      var st := stats[u];
      var row, st' := DQTiledAt(sh, q, k, v, g, u, st);
      StoreRow(sh, dq, slots, row, u, want, remaining);
      StatsStep(stats[..], s0, s1, remaining, u);
      stats[u] := st';
      remaining := remaining - {u};
    }
    StatsDone(stats[..], s0, s1);
  }

  /** The stats rows done are the new ones, the others still the old. */
  ghost predicate StatsMoved(stats: seq<Stats>, s0: seq<Stats>, s1: seq<Stats>, remaining: set<nat>) {
    |stats| == |s0| == |s1| && forall u: nat :: u < |stats| ==> stats[u] == if u in remaining then s0[u] else s1[u]
  }

  lemma StatsStep(stats: seq<Stats>, s0: seq<Stats>, s1: seq<Stats>, remaining: set<nat>, u: nat)
    requires StatsMoved(stats, s0, s1, remaining) && u < |stats| && u in remaining
    ensures stats[u] == s0[u] && StatsMoved(stats[u := s1[u]], s0, s1, remaining - {u})
  {
  }

  lemma StatsDone(stats: seq<Stats>, s0: seq<Stats>, s1: seq<Stats>)
    requires StatsMoved(stats, s0, s1, {})
    ensures stats == s1
  {
  }

  /** Store the row of one task. */
  method StoreRow(sh: Shape, out: array<Row>, slots: seq<nat>, row: Row, u: nat, ghost want: Rows, ghost remaining: set<nat>)
    requires slots == SlotTable(sh) && out.Length == sh.Slots() && u < sh.Units()
    requires BySlot(slots, out[..], want, remaining) && row == want[u]
    modifies out
    ensures BySlot(slots, out[..], want, remaining - {u})
  {
    ghost var before := out[..];
    out[slots[u]] := row;
    BySlotStep(sh, before, out[..], want, remaining, u);
  }

  method DQTiledAt(sh: Shape, q: Rows, k: Rows, v: Rows, g: Rows, u: nat, st: Stats) returns (row: Row, st': Stats)
    requires Operand(sh, q) && Operand(sh, k) && Operand(sh, v) && Operand(sh, g) && u < sh.Units()
    requires st == WantStats(sh, q, k, v)[u]
    ensures row == WantGrad(sh, q, k, v, g, DQ)[u] && st' == WantStatsAfterDQ(sh, q, k, v, g)[u]
  {
    var x := UnitAt(sh, u);
    row, st' := DQTiledUnit(HeadAt(sh, q, k, v, u), HeadRows(sh, g, x.b, x.h), x.i, st);
  }

  lemma HeadStatsAre(sh: Shape, q: Rows, k: Rows, v: Rows, g: Rows, u: nat)
    requires Operand(sh, q) && Operand(sh, k) && Operand(sh, v) && Operand(sh, g) && u < sh.Units()
    ensures (var hd, gh := HeadAt(sh, q, k, v, u), HeadRows(sh, g, UnitAt(sh, u).b, UnitAt(sh, u).h);
      HasStats(hd, Deltas(hd, gh), HeadStats(sh, WantStatsAfterDQ(sh, q, k, v, g), UnitAt(sh, u).b, UnitAt(sh, u).h)))
  {
    var b, h := UnitAt(sh, u).b, UnitAt(sh, u).h;
    var hd, gh := HeadAt(sh, q, k, v, u), HeadRows(sh, g, b, h);
    var st := HeadStats(sh, WantStatsAfterDQ(sh, q, k, v, g), b, h);
    forall i: nat | i < sh.S ensures HasForward(hd, i, st[i]) && st[i].delta == Deltas(hd, gh)[i] {
      var y := Unit(b, h, i);
      sh.IndexOfIsIndex(y);
      assert UnitAt(sh, sh.IndexOf(y)) == y;
    }
  }

  method DKTiledAt(sh: Shape, q: Rows, k: Rows, v: Rows, g: Rows, stats: seq<Stats>, u: nat) returns (row: Row)
    requires Operand(sh, q) && Operand(sh, k) && Operand(sh, v) && Operand(sh, g) && u < sh.Units()
    requires stats == WantStatsAfterDQ(sh, q, k, v, g)
    ensures row == WantGrad(sh, q, k, v, g, DK)[u]
  {
    var x := UnitAt(sh, u);
    HeadStatsAre(sh, q, k, v, g, u);
    row := DKTiledUnit(HeadAt(sh, q, k, v, u), HeadRows(sh, g, x.b, x.h), x.i, HeadStats(sh, stats, x.b, x.h));
  }

  lemma HeadForward(sh: Shape, q: Rows, k: Rows, v: Rows, g: Rows, u: nat)
    requires Operand(sh, q) && Operand(sh, k) && Operand(sh, v) && Operand(sh, g) && u < sh.Units()
    ensures ForwardFrom(HeadAt(sh, q, k, v, u),
      HeadStats(sh, WantStatsAfterDQ(sh, q, k, v, g), UnitAt(sh, u).b, UnitAt(sh, u).h), UnitAt(sh, u).i)
  {
    var hd, gh := HeadAt(sh, q, k, v, u), HeadRows(sh, g, UnitAt(sh, u).b, UnitAt(sh, u).h);
    HeadStatsAre(sh, q, k, v, g, u);
    StatsForward(hd, Deltas(hd, gh), HeadStats(sh, WantStatsAfterDQ(sh, q, k, v, g), UnitAt(sh, u).b, UnitAt(sh, u).h), UnitAt(sh, u).i);
  }

  method DVTiledAt(sh: Shape, q: Rows, k: Rows, v: Rows, g: Rows, stats: seq<Stats>, u: nat) returns (row: Row)
    requires Operand(sh, q) && Operand(sh, k) && Operand(sh, v) && Operand(sh, g) && u < sh.Units()
    requires stats == WantStatsAfterDQ(sh, q, k, v, g)
    ensures row == WantGrad(sh, q, k, v, g, DV)[u]
  {
    var x := UnitAt(sh, u);
    HeadForward(sh, q, k, v, g, u);
    row := DVTiledUnit(HeadAt(sh, q, k, v, u), HeadRows(sh, g, x.b, x.h), x.i, HeadStats(sh, stats, x.b, x.h));
  }

  /** The dK pass, and the dV pass, run after dQ has left the rowsums in the stats. */
  method AttnDKTiled(sh: Shape, q: Rows, k: Rows, v: Rows, g: Rows, stats: seq<Stats>, dk: array<Row>)
    requires Operand(sh, q) && Operand(sh, k) && Operand(sh, v) && Operand(sh, g)
    requires stats == WantStatsAfterDQ(sh, q, k, v, g) && dk.Length == sh.Slots()
    modifies dk
    ensures BySlot(SlotTable(sh), dk[..], WantGrad(sh, q, k, v, g, DK), {})
  {
    var slots, remaining := SlotTable(sh), TaskSet(sh.Units());
    ghost var want := WantGrad(sh, q, k, v, g, DK);
    while remaining != {}
      invariant forall u :: u in remaining ==> u < |slots|
      invariant BySlot(slots, dk[..], want, remaining)
      decreases remaining
    {
      var u :| u in remaining;
      var row := DKTiledAt(sh, q, k, v, g, stats, u);
      ghost var before := dk[..];
      dk[slots[u]] := row;
      BySlotStep(sh, before, dk[..], want, remaining, u);
      remaining := remaining - {u};
    }
  }

  method AttnDVTiled(sh: Shape, q: Rows, k: Rows, v: Rows, g: Rows, stats: seq<Stats>, dv: array<Row>)
    requires Operand(sh, q) && Operand(sh, k) && Operand(sh, v) && Operand(sh, g)
    requires stats == WantStatsAfterDQ(sh, q, k, v, g) && dv.Length == sh.Slots()
    modifies dv
    ensures BySlot(SlotTable(sh), dv[..], WantGrad(sh, q, k, v, g, DV), {})
  {
    var slots, remaining := SlotTable(sh), TaskSet(sh.Units());
    ghost var want := WantGrad(sh, q, k, v, g, DV);
    while remaining != {}
      invariant forall u :: u in remaining ==> u < |slots|
      invariant BySlot(slots, dv[..], want, remaining)
      decreases remaining
    {
      var u :| u in remaining;
      var row := DVTiledAt(sh, q, k, v, g, stats, u);
      ghost var before := dv[..];
      dv[slots[u]] := row;
      BySlotStep(sh, before, dv[..], want, remaining, u);
      remaining := remaining - {u};
    }
  }

  // ------------------------------------------------------------ the two pipelines

  lemma CachedRows(sh: Shape, q: Rows, k: Rows, v: Rows, g: Rows, ds: Rows, u: nat)
    requires Operand(sh, q) && Operand(sh, k) && Operand(sh, v) && Operand(sh, g) && u < sh.Units() && Matrix(sh, ds)
    requires forall r: nat :: r < |ds| ==> ds[r] == SoftmaxBwdRow(WantP(sh, q, k, v)[r], WantDP(sh, g, v)[r])
    ensures var hd, gh := HeadAt(sh, q, k, v, u), HeadRows(sh, g, UnitAt(sh, u).b, UnitAt(sh, u).h);
      && UnitRows(sh, ds, UnitAt(sh, u).b, UnitAt(sh, u).h) == hd.DSRows(gh)
      && UnitRows(sh, WantP(sh, q, k, v), UnitAt(sh, u).b, UnitAt(sh, u).h) == hd.PRows()
      && ds[u] == hd.DSRows(gh)[UnitAt(sh, u).i]
  {
    var b, h := UnitAt(sh, u).b, UnitAt(sh, u).h;
    var hd, gh := HeadAt(sh, q, k, v, u), HeadRows(sh, g, b, h);
    forall i: nat | i < sh.S
      ensures UnitRow(sh, ds, Unit(b, h, i)) == hd.DSRows(gh)[i]
      ensures UnitRow(sh, WantP(sh, q, k, v), Unit(b, h, i)) == hd.PRows()[i]
    {
      var y := Unit(b, h, i);
      sh.IndexOfIsIndex(y);
      assert UnitAt(sh, sh.IndexOf(y)) == y;
    }
  }

  lemma CachedIsTiled(sh: Shape, q: Rows, k: Rows, v: Rows, g: Rows, ds: Rows)
    requires Operand(sh, q) && Operand(sh, k) && Operand(sh, v) && Operand(sh, g) && Matrix(sh, ds)
    requires forall r: nat :: r < |ds| ==> ds[r] == SoftmaxBwdRow(WantP(sh, q, k, v)[r], WantDP(sh, g, v)[r])
    ensures WantDQ(sh, ds, k) == WantGrad(sh, q, k, v, g, DQ)
    ensures WantDK(sh, ds, q) == WantGrad(sh, q, k, v, g, DK)
    ensures WantDV(sh, WantP(sh, q, k, v), g) == WantGrad(sh, q, k, v, g, DV)
  {
    forall u: nat | u < sh.Units()
      ensures DQFrom(sh, ds, k, u) == GradRow(sh, q, k, v, g, u, DQ)
      ensures DKFrom(sh, ds, q, u) == GradRow(sh, q, k, v, g, u, DK)
      ensures DVFrom(sh, WantP(sh, q, k, v), g, u) == GradRow(sh, q, k, v, g, u, DV)
    {
      CachedRows(sh, q, k, v, g, ds, u);
    }
  }

  method CachedBackward(sh: Shape, q: Rows, k: Rows, v: Rows, g: Rows, probs: Rows, dq: array<Row>, dk: array<Row>, dv: array<Row>)
    requires Operand(sh, q) && Operand(sh, k) && Operand(sh, v) && Operand(sh, g) && probs == WantP(sh, q, k, v)
    requires dq.Length == dk.Length == dv.Length == sh.Slots() && dq != dk && dk != dv && dq != dv
    modifies dq, dk, dv
    ensures BySlot(SlotTable(sh), dq[..], WantGrad(sh, q, k, v, g, DQ), {})
    ensures BySlot(SlotTable(sh), dk[..], WantGrad(sh, q, k, v, g, DK), {})
    ensures BySlot(SlotTable(sh), dv[..], WantGrad(sh, q, k, v, g, DV), {})
  {
    var dp, ds := new Row[sh.Units()], new Row[sh.Units()];
    AttnDP(sh, g, v, dp);
    SoftmaxRowsBwd(probs, dp[..], ds);
    var s := ds[..];
    CachedIsTiled(sh, q, k, v, g, s);
    AttnDQ(sh, s, k, dq);
    AttnDK(sh, s, q, dk);
    AttnDV(sh, probs, g, dv);
  }

  /** Forward and backward through the stored matrices P, dP and dS. */
  method RunCached(sh: Shape, q: Rows, k: Rows, v: Rows, g: Rows) returns (o: array<Row>, dq: array<Row>, dk: array<Row>, dv: array<Row>)
    requires Operand(sh, q) && Operand(sh, k) && Operand(sh, v) && Operand(sh, g)
    ensures BySlot(SlotTable(sh), o[..], WantO(sh, q, k, v), {})
    ensures BySlot(SlotTable(sh), dq[..], WantGrad(sh, q, k, v, g, DQ), {})
    ensures BySlot(SlotTable(sh), dk[..], WantGrad(sh, q, k, v, g, DK), {})
    ensures BySlot(SlotTable(sh), dv[..], WantGrad(sh, q, k, v, g, DV), {})
    ensures o.Length == dq.Length == dk.Length == dv.Length == sh.Slots()
  {
    o, dq := new Row[sh.Slots()], new Row[sh.Slots()];
    dk, dv := new Row[sh.Slots()], new Row[sh.Slots()];
    var probs := new Row[sh.Units()];
    AttnFwd(sh, q, k, v, o, probs);
    CachedBackward(sh, q, k, v, g, probs[..], dq, dk, dv);
  }

  method TiledBackward(sh: Shape, q: Rows, k: Rows, v: Rows, g: Rows, stats: array<Stats>, dq: array<Row>, dk: array<Row>, dv: array<Row>)
    requires Operand(sh, q) && Operand(sh, k) && Operand(sh, v) && Operand(sh, g) && stats[..] == WantStats(sh, q, k, v)
    requires dq.Length == dk.Length == dv.Length == sh.Slots() && dq != dk && dk != dv && dq != dv
    modifies stats, dq, dk, dv
    ensures BySlot(SlotTable(sh), dq[..], WantGrad(sh, q, k, v, g, DQ), {})
    ensures BySlot(SlotTable(sh), dk[..], WantGrad(sh, q, k, v, g, DK), {})
    ensures BySlot(SlotTable(sh), dv[..], WantGrad(sh, q, k, v, g, DV), {})
  {
    AttnDQTiled(sh, q, k, v, g, stats, dq);
    var after := stats[..];
    AttnDKTiled(sh, q, k, v, g, after, dk);
    AttnDVTiled(sh, q, k, v, g, after, dv);
  }

  /** The same through four floats a row. */
  method RunTiled(sh: Shape, q: Rows, k: Rows, v: Rows, g: Rows) returns (o: array<Row>, dq: array<Row>, dk: array<Row>, dv: array<Row>)
    requires Operand(sh, q) && Operand(sh, k) && Operand(sh, v) && Operand(sh, g)
    ensures BySlot(SlotTable(sh), o[..], WantO(sh, q, k, v), {})
    ensures BySlot(SlotTable(sh), dq[..], WantGrad(sh, q, k, v, g, DQ), {})
    ensures BySlot(SlotTable(sh), dk[..], WantGrad(sh, q, k, v, g, DK), {})
    ensures BySlot(SlotTable(sh), dv[..], WantGrad(sh, q, k, v, g, DV), {})
    ensures o.Length == dq.Length == dk.Length == dv.Length == sh.Slots()
  {
    o, dq := new Row[sh.Slots()], new Row[sh.Slots()];
    dk, dv := new Row[sh.Slots()], new Row[sh.Slots()];
    var stats := new Stats[sh.Units()](_ => Stats(ZERO, ZERO, ZERO, ZERO));
    AttnFwdTiled(sh, q, k, v, o, stats);
    TiledBackward(sh, q, k, v, g, stats, dq, dk, dv);
  }

  /** For every shape and all operands the two families leave the same O, dQ, dK and dV. */
  method SameAttention(sh: Shape, q: Rows, k: Rows, v: Rows, g: Rows)
    returns (cached: (seq<Row>, seq<Row>, seq<Row>, seq<Row>), tiled: (seq<Row>, seq<Row>, seq<Row>, seq<Row>))
    requires Operand(sh, q) && Operand(sh, k) && Operand(sh, v) && Operand(sh, g)
    ensures cached == tiled
    ensures |tiled.0| == |tiled.1| == |tiled.2| == |tiled.3| == sh.Slots()
    ensures BySlot(SlotTable(sh), tiled.0, WantO(sh, q, k, v), {}) && BySlot(SlotTable(sh), tiled.1, WantGrad(sh, q, k, v, g, DQ), {})
    ensures BySlot(SlotTable(sh), tiled.2, WantGrad(sh, q, k, v, g, DK), {}) && BySlot(SlotTable(sh), tiled.3, WantGrad(sh, q, k, v, g, DV), {})
  {
    var o, dq, dk, dv := RunCached(sh, q, k, v, g);
    cached := (o[..], dq[..], dk[..], dv[..]);
    var o', dq', dk', dv' := RunTiled(sh, q, k, v, g);
    tiled := (o'[..], dq'[..], dk'[..], dv'[..]);
    BySlotUnique(sh, cached.0, tiled.0, WantO(sh, q, k, v));
    BySlotUnique(sh, cached.1, tiled.1, WantGrad(sh, q, k, v, g, DQ));
    BySlotUnique(sh, cached.2, tiled.2, WantGrad(sh, q, k, v, g, DK));
    BySlotUnique(sh, cached.3, tiled.3, WantGrad(sh, q, k, v, g, DV));
  }
}
