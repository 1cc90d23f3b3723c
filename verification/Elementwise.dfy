// The elementwise kernels, one by one and as a fused chain (runtime/executor/elementwise.cc).
module Elementwise {
  import opened Scalar
  import opened Parallel
  import opened KernelPolicy

  const BLOCK := 1024
  const MAX_STAGES := 4

  /** One elementwise operation on a running value. */
  datatype Stage =
    | AddStage(y: seq<F>, runIsRight: bool)
    | MulStage(y: seq<F>, runIsRight: bool)
    | ScaleStage(alpha: F)
    | ReluStage
    | GeluStage
    | SiluStage
  {
    predicate Fits(n: nat) { AddStage? || MulStage? ==> |y| == n }

    predicate Transcendental() { GeluStage? || SiluStage? }

    /** The expression the standalone kernel evaluates at element i. */
    function Expr(v: F, i: nat): F
      requires AddStage? || MulStage? ==> i < |y|
    {
      match this
      case AddStage(y, right) => if right then Add(y[i], v) else Add(v, y[i])
      case MulStage(y, right) => if right then Mul(y[i], v) else Mul(v, y[i])
      case ScaleStage(alpha) => Mul(alpha, v)
      case ReluStage => Relu(v)
      case GeluStage => Gelu(v)
      case SiluStage => Silu(v)
    }
  }

  predicate AllFit(prog: seq<Stage>, n: nat) { forall s :: 0 <= s < |prog| ==> prog[s].Fits(n) }

  /** The running value at element i after every stage of prog. */
  function Chain(prog: seq<Stage>, v: F, i: nat, n: nat): F
    requires AllFit(prog, n) && i < n
  {
    if prog == [] then v else prog[|prog| - 1].Expr(Chain(prog[..|prog| - 1], v, i, n), i)
  }

  /** out[i] is the chain of x[i] where i is in a finished chunk, and untouched elsewhere. */
  ghost predicate Mapped(prog: seq<Stage>, x: seq<F>, before: seq<F>, out: seq<F>, grain: nat, remaining: set<nat>) {
    && |x| == |before| == |out| && AllFit(prog, |x|)
    && forall i: nat {:trigger out[i]} :: i < |x| ==>
         out[i] == if ChunkOf(|x|, grain, i) in remaining then before[i] else Chain(prog, x[i], i, |x|)
  }

  lemma MappedAll(prog: seq<Stage>, x: seq<F>, before: seq<F>, out: seq<F>, grain: nat)
    requires Mapped(prog, x, before, out, grain, {})
    ensures forall i: nat :: i < |x| ==> out[i] == Chain(prog, x[i], i, |x|)
  {
  }

  lemma MappedChunk(prog: seq<Stage>, x: seq<F>, before: seq<F>, out: seq<F>, out': seq<F>, grain: nat, remaining: set<nat>, c: nat)
    requires Mapped(prog, x, before, out, grain, remaining) && c < ChunkCount(|x|, grain) && |out'| == |out|
    requires forall i: nat {:trigger out'[i]} :: i < |x| ==>
      out'[i] == if ChunkBegin(|x|, grain, c) <= i < ChunkEnd(|x|, grain, c) then Chain(prog, x[i], i, |x|) else out[i]
    ensures Mapped(prog, x, before, out', grain, remaining - {c})
  {
    forall i: nat | i < |x|
      ensures out'[i] == if ChunkOf(|x|, grain, i) in remaining - {c} then before[i] else Chain(prog, x[i], i, |x|)
    {
      ChunkOwner(|x|, grain, i);
    }
  }

  /** A standalone elementwise kernel: its chunks run in any order. */
  method MapKernel(st: Stage, x: seq<F>, out: array<F>)
    requires st.Fits(|x|) && out.Length == |x|
    modifies out
    ensures forall i: nat :: i < |x| ==> out[i] == st.Expr(x[i], i)
  {
    var grain := if st.Transcendental() then GRAIN_MATH else GRAIN_CHEAP;
    ghost var before := out[..];
    var remaining := TaskSet(ChunkCount(|x|, grain));
    ChunksAll(|x|, grain);
    while remaining != {}
      invariant forall c :: c in remaining ==> c < ChunkCount(|x|, grain)
      invariant Mapped([st], x, before, out[..], grain, remaining)
      decreases remaining
    {
      var c :| c in remaining;
      ChunkInside(|x|, grain, c);
      ghost var mid := out[..];
      var begin, end := ChunkBegin(|x|, grain, c), ChunkEnd(|x|, grain, c);
      for i := begin to end
        invariant forall j: nat {:trigger out[j]} :: j < |x| ==> out[j] == if begin <= j < i then st.Expr(x[j], j) else mid[j]
      {
        out[i] := st.Expr(x[i], i);
      }
      ChainOfOne(st, x);
      MappedChunk([st], x, before, mid, out[..], grain, remaining, c);
      remaining := remaining - {c};
    }
    MappedAll([st], x, before, out[..], grain);
    ChainOfOne(st, x);
  }

  lemma ChainOfOne(st: Stage, x: seq<F>)
    requires st.Fits(|x|)
    ensures forall i: nat {:trigger Chain([st], x[i], i, |x|)} :: i < |x| ==> Chain([st], x[i], i, |x|) == st.Expr(x[i], i)
  {
    assert [st][..0] == [];
  }

  // ------------------------------------------------------------- the fused chain

  datatype StageKind = End | AddK | MulK | ScaleK | ReluK | GeluK | SiluK | Unknown

  function KindOf(byte: nat): StageKind {
    match byte % 16
    case 0 => End
    case 1 => AddK
    case 2 => MulK
    case 3 => ScaleK
    case 4 => ReluK
    case 5 => GeluK
    case 6 => SiluK
    case _ => Unknown
  }

  function ArgOf(byte: nat): nat { byte / 16 % 4 }

  predicate RunIsRight(byte: nat) { byte / 128 % 2 == 1 }

  /** The stage byte at position s of the packed program word. */
  function StageByte(word: nat, s: nat): nat
    decreases s
  {
    if s == 0 then word % 256 else StageByte(word / 256, s - 1)
  }

  /** The number of stages before the end marker, at most MAX_STAGES. */
  function StageCount(word: nat, from: nat): (count: nat)
    requires from <= MAX_STAGES
    ensures from <= count <= MAX_STAGES
    ensures forall s: nat :: from <= s < count ==> KindOf(StageByte(word, s)) != End
    decreases MAX_STAGES - from
  {
    if from == MAX_STAGES || KindOf(StageByte(word, from)) == End then from else StageCount(word, from + 1)
  }

  /** What the plan validator proves of a fused instruction: known kinds, operands that exist and fit. */
  predicate StageValid(byte: nat, others: seq<seq<F>>, imm: seq<F>, n: nat) {
    match KindOf(byte)
    case AddK => ArgOf(byte) < |others| && |others[ArgOf(byte)]| == n
    case MulK => ArgOf(byte) < |others| && |others[ArgOf(byte)]| == n
    case ScaleK => ArgOf(byte) < |imm|
    case Unknown => false
    case _ => true
  }

  function DecodeStage(byte: nat, others: seq<seq<F>>, imm: seq<F>, n: nat): (st: Stage)
    requires StageValid(byte, others, imm, n) && KindOf(byte) != End
    ensures st.Fits(n)
  {
    match KindOf(byte)
    case AddK => AddStage(others[ArgOf(byte)], RunIsRight(byte))
    case MulK => MulStage(others[ArgOf(byte)], RunIsRight(byte))
    case ScaleK => ScaleStage(imm[ArgOf(byte)])
    case ReluK => ReluStage
    case GeluK => GeluStage
    case SiluK => SiluStage
  }

  /** The program a fused instruction stands for. */
  function Decode(word: nat, count: nat, others: seq<seq<F>>, imm: seq<F>, n: nat): (prog: seq<Stage>)
    requires forall s: nat :: s < count ==> StageValid(StageByte(word, s), others, imm, n) && KindOf(StageByte(word, s)) != End
    ensures |prog| == count && AllFit(prog, n)
  {
    if count == 0 then []
    else Decode(word, count - 1, others, imm, n) + [DecodeStage(StageByte(word, count - 1), others, imm, n)]
  }

  // What a stage byte stands for, and words packed from such bytes.
  datatype Code = Code(kind: StageKind, arg: nat, runIsRight: bool) {
    predicate Valid() { kind != End && kind != Unknown && arg < 4 }

    /** The stage this code names, with its operand picked from the instruction's. */
    function Meaning(others: seq<seq<F>>, imm: seq<F>): Stage
      requires kind == AddK || kind == MulK ==> arg < |others|
      requires kind == ScaleK ==> arg < |imm|
    {
      match kind
      case AddK => AddStage(others[arg], runIsRight)
      case MulK => MulStage(others[arg], runIsRight)
      case ScaleK => ScaleStage(imm[arg])
      case GeluK => GeluStage
      case SiluK => SiluStage
      case _ => ReluStage
    }

    /** MakeFusedStage. */
    function Byte(): (b: nat)
      requires Valid()
      ensures b < 256
    {
      KindCode(kind) + 16 * arg + (if runIsRight then 128 else 0)
    }
  }

  function KindCode(kind: StageKind): (k: nat)
    ensures k < 16
  {
    match kind
    case End => 0
    case AddK => 1
    case MulK => 2
    case ScaleK => 3
    case ReluK => 4
    case GeluK => 5
    case SiluK => 6
    case Unknown => 7
  }

  lemma ByteRoundTrip(c: Code)
    requires c.Valid()
    ensures KindOf(c.Byte()) == c.kind && ArgOf(c.Byte()) == c.arg && RunIsRight(c.Byte()) == c.runIsRight
  {
  }

  /** One byte a stage, first stage in the low byte, zero after the last. */
  function Packed(codes: seq<Code>): nat
    requires forall s :: 0 <= s < |codes| ==> codes[s].Valid()
  {
    if codes == [] then 0 else codes[0].Byte() + 256 * Packed(codes[1..])
  }

  lemma {:induction false} ZeroBytes(s: nat)
    ensures StageByte(0, s) == 0
  {
    if s > 0 {
      ZeroBytes(s - 1);
    }
  }

  lemma {:induction false} PackedByte(codes: seq<Code>, s: nat)
    requires forall k :: 0 <= k < |codes| ==> codes[k].Valid()
    ensures StageByte(Packed(codes), s) == if s < |codes| then codes[s].Byte() else 0
    decreases s
  {
    if codes == [] {
      ZeroBytes(s);
    } else if s > 0 {
      PackedByte(codes[1..], s - 1);
    }
  }

  lemma {:induction false} PackedCount(codes: seq<Code>, from: nat)
    requires |codes| <= MAX_STAGES && from <= |codes| && forall k :: 0 <= k < |codes| ==> codes[k].Valid()
    ensures StageCount(Packed(codes), from) == |codes|
    decreases |codes| - from
  {
    PackedByte(codes, from);
    if from < |codes| {
      ByteRoundTrip(codes[from]);
      PackedCount(codes, from + 1);
    }
  }

  /** The code's operand exists and has the instruction's size. */
  predicate OperandOk(c: Code, others: seq<seq<F>>, imm: seq<F>, n: nat) {
    && (c.kind == AddK || c.kind == MulK ==> c.arg < |others| && |others[c.arg]| == n)
    && (c.kind == ScaleK ==> c.arg < |imm|)
  }

  lemma ByteMeans(c: Code, others: seq<seq<F>>, imm: seq<F>, n: nat)
    requires c.Valid() && OperandOk(c, others, imm, n)
    ensures StageValid(c.Byte(), others, imm, n) && KindOf(c.Byte()) != End
    ensures DecodeStage(c.Byte(), others, imm, n) == c.Meaning(others, imm)
  {
    ByteRoundTrip(c);
  }

  ghost predicate Codes(codes: seq<Code>, others: seq<seq<F>>, imm: seq<F>, n: nat) {
    |codes| <= MAX_STAGES && forall k :: 0 <= k < |codes| ==> codes[k].Valid() && OperandOk(codes[k], others, imm, n)
  }

  lemma PackedValid(codes: seq<Code>, others: seq<seq<F>>, imm: seq<F>, n: nat)
    requires Codes(codes, others, imm, n)
    ensures forall s: nat :: s < |codes| ==>
      StageValid(StageByte(Packed(codes), s), others, imm, n) && KindOf(StageByte(Packed(codes), s)) != End
  {
    forall s: nat | s < |codes|
      ensures StageValid(StageByte(Packed(codes), s), others, imm, n) && KindOf(StageByte(Packed(codes), s)) != End
    {
      PackedByte(codes, s);
      ByteMeans(codes[s], others, imm, n);
    }
  }

  lemma {:induction false} DecodedFirst(codes: seq<Code>, count: nat, others: seq<seq<F>>, imm: seq<F>, n: nat, s: nat)
    requires Codes(codes, others, imm, n) && s < count <= |codes|
    requires forall k: nat :: k < count ==>
      StageValid(StageByte(Packed(codes), k), others, imm, n) && KindOf(StageByte(Packed(codes), k)) != End
    ensures Decode(Packed(codes), count, others, imm, n)[s] == codes[s].Meaning(others, imm)
    decreases count
  {
    if s < count - 1 {
      DecodedFirst(codes, count - 1, others, imm, n, s);
    } else {
      PackedByte(codes, s);
      ByteMeans(codes[s], others, imm, n);
    }
  }

  /** A word packed from up to four stage codes decodes to the stages they name, in order. */
  lemma DecodePacked(codes: seq<Code>, others: seq<seq<F>>, imm: seq<F>, n: nat)
    requires Codes(codes, others, imm, n)
    ensures StageCount(Packed(codes), 0) == |codes|
    ensures forall s: nat :: s < |codes| ==>
      StageValid(StageByte(Packed(codes), s), others, imm, n) && KindOf(StageByte(Packed(codes), s)) != End
    ensures forall s :: 0 <= s < |codes| ==> Decode(Packed(codes), |codes|, others, imm, n)[s] == codes[s].Meaning(others, imm)
  {
    PackedCount(codes, 0);
    PackedValid(codes, others, imm, n);
    forall s | 0 <= s < |codes| ensures Decode(Packed(codes), |codes|, others, imm, n)[s] == codes[s].Meaning(others, imm) {
      DecodedFirst(codes, |codes|, others, imm, n, s);
    }
  }

  /** One stage over one block, from src into dst[off..]. */
  method RunStage(st: Stage, src: seq<F>, dst: array<F>, off: nat, b0: nat, n: nat)
    requires st.Fits(n) && b0 + |src| <= n && off + |src| <= dst.Length
    modifies dst
    ensures forall j: nat {:trigger dst[j]} :: j < dst.Length ==>
      dst[j] == if off <= j < off + |src| then st.Expr(src[j - off], b0 + (j - off)) else old(dst[j])
  {
    for i := 0 to |src|
      invariant forall j: nat {:trigger dst[j]} :: j < dst.Length ==>
        dst[j] == if off <= j < off + i then st.Expr(src[j - off], b0 + (j - off)) else old(dst[j])
    {
      dst[off + i] := st.Expr(src[i], b0 + i);
    }
  }

  /** A middle stage, reading and writing the block through one buffer. */
  method RunStageInPlace(st: Stage, block: array<F>, w: nat, b0: nat, n: nat)
    requires st.Fits(n) && b0 + w <= n && w <= block.Length
    modifies block
    ensures forall j: nat {:trigger block[j]} :: j < w ==> block[j] == st.Expr(old(block[j]), b0 + j)
  {
    for i := 0 to w
      invariant forall j: nat {:trigger block[j]} :: j < w ==>
        block[j] == if j < i then st.Expr(old(block[j]), b0 + j) else old(block[j])
    {
      block[i] := st.Expr(block[i], b0 + i);
    }
  }

  /** Runs the chain over out[b0..b0+w] through a cache-sized block. */
  method FusedBlock(prog: seq<Stage>, x: seq<F>, out: array<F>, block: array<F>, b0: nat, w: nat)
    requires 1 <= |prog| && AllFit(prog, |x|) && out.Length == |x| && block != out
    requires w <= block.Length && b0 + w <= |x|
    modifies out, block
    ensures forall j: nat {:trigger out[j]} :: j < |x| ==>
      out[j] == if b0 <= j < b0 + w then Chain(prog, x[j], j, |x|) else old(out[j])
  {
    var count := |prog|;
    assert prog[..count] == prog && prog[..0] == [];
    assert prog[..1][..0] == [];
    if count == 1 {
      RunStage(prog[0], x[b0..b0 + w], out, b0, b0, |x|);
    } else {
      RunStage(prog[0], x[b0..b0 + w], block, 0, b0, |x|);
      for s := 1 to count - 1
        invariant forall j: nat {:trigger block[j]} :: j < w ==> block[j] == Chain(prog[..s], x[b0 + j], b0 + j, |x|)
        invariant forall j: nat {:trigger out[j]} :: j < |x| ==> out[j] == old(out[j])
      {
        RunStageInPlace(prog[s], block, w, b0, |x|);
        assert prog[..s + 1][..s] == prog[..s];
      }
      assert prog[..count][..count - 1] == prog[..count - 1];
      RunStage(prog[count - 1], block[..w], out, b0, b0, |x|);
    }
  }

  /** One chunk of the fused kernel, block by block. */
  method FusedChunk(prog: seq<Stage>, x: seq<F>, out: array<F>, begin: nat, end: nat)
    requires 1 <= |prog| && AllFit(prog, |x|) && out.Length == |x| && begin <= end <= |x|
    modifies out
    ensures forall j: nat {:trigger out[j]} :: j < |x| ==>
      out[j] == if begin <= j < end then Chain(prog, x[j], j, |x|) else old(out[j])
  {
    var block := new F[BLOCK];
    var b0 := begin;
    while b0 < end
      invariant begin <= b0 <= end
      invariant forall j: nat {:trigger out[j]} :: j < |x| ==>
        out[j] == if begin <= j < b0 then Chain(prog, x[j], j, |x|) else old(out[j])
    {
      var w := Min(BLOCK, end - b0);
      FusedBlock(prog, x, out, block, b0, w);
      b0 := b0 + w;
    }
  }

  /** The fused kernel: chunks in any order, each leaving the whole chain in its slice of out. */
  method FusedMap(x: seq<F>, others: seq<seq<F>>, out: array<F>, word: nat, imm: seq<F>)
    requires out.Length == |x|
    requires forall s: nat :: s < StageCount(word, 0) ==> StageValid(StageByte(word, s), others, imm, |x|)
    modifies out
    ensures StageCount(word, 0) == 0 ==> out[..] == old(out[..])
    ensures StageCount(word, 0) > 0 ==>
      var prog := Decode(word, StageCount(word, 0), others, imm, |x|);
      forall i: nat :: i < |x| ==> out[i] == Chain(prog, x[i], i, |x|)
  {
    var count := StageCount(word, 0);
    if count == 0 {
      return;
    }
    var prog := Decode(word, count, others, imm, |x|);
    var grain := if exists s :: 0 <= s < |prog| && prog[s].Transcendental() then GRAIN_MATH else GRAIN_CHEAP;
    ghost var before := out[..];
    var remaining := TaskSet(ChunkCount(|x|, grain));
    ChunksAll(|x|, grain);
    while remaining != {}
      invariant forall c :: c in remaining ==> c < ChunkCount(|x|, grain)
      invariant Mapped(prog, x, before, out[..], grain, remaining)
      decreases remaining
    {
      var c :| c in remaining;
      ChunkInside(|x|, grain, c);
      ghost var mid := out[..];
      FusedChunk(prog, x, out, ChunkBegin(|x|, grain, c), ChunkEnd(|x|, grain, c));
      MappedChunk(prog, x, before, mid, out[..], grain, remaining, c);
      remaining := remaining - {c};
    }
    MappedAll(prog, x, before, out[..], grain);
  }

  /** The instruction sequence a fused map replaces: every stage a whole-tensor kernel of its own. */
  method UnfusedChain(prog: seq<Stage>, x: seq<F>, out: array<F>)
    requires AllFit(prog, |x|) && out.Length == |x|
    modifies out
    ensures forall i: nat :: i < |x| ==> out[i] == Chain(prog, x[i], i, |x|)
  {
    var t := x;
    assert prog[..0] == [];
    for s := 0 to |prog|
      invariant |t| == |x| && forall i: nat {:trigger t[i]} :: i < |x| ==> t[i] == Chain(prog[..s], x[i], i, |x|)
    {
      var next := new F[|x|];
      MapKernel(prog[s], t, next);
      t := next[..];
      assert prog[..s + 1][..s] == prog[..s];
    }
    assert prog[..|prog|] == prog;
    for i := 0 to |x|
      invariant forall j: nat {:trigger out[j]} :: j < i ==> out[j] == t[j]
    {
      out[i] := t[i];
    }
  }

  // ------------------------------------------------------------ the row reduction

  const TILE := 256

  /** The serial sum of column c over the first `rows` rows. */
  function ColumnSum(dy: seq<seq<F>>, c: nat, rows: nat): F
    requires rows <= |dy| && forall r :: 0 <= r < |dy| ==> c < |dy[r]|
  {
    if rows == 0 then ZERO else Add(ColumnSum(dy, c, rows - 1), dy[rows - 1][c])
  }

  /** The sums of columns t0..t0+w, accumulated in a local tile row by row. */
  method TileSums(dy: seq<seq<F>>, cols: nat, t0: nat, w: nat) returns (acc: seq<F>)
    requires (forall r :: 0 <= r < |dy| ==> |dy[r]| == cols) && t0 + w <= cols
    ensures |acc| == w && forall c :: 0 <= c < w ==> acc[c] == ColumnSum(dy, t0 + c, |dy|)
  {
    acc := seq(w, c => ZERO);
    for r := 0 to |dy|
      invariant |acc| == w && forall c :: 0 <= c < w ==> acc[c] == ColumnSum(dy, t0 + c, r)
    {
      for c := 0 to w
        invariant |acc| == w
        invariant forall c' {:trigger acc[c']} :: 0 <= c' < w ==> acc[c'] == ColumnSum(dy, t0 + c', if c' < c then r + 1 else r)
      {
        acc := acc[c := Add(acc[c], dy[r][t0 + c])];
      }
    }
  }

  /** Column sums, partitioned over columns and tiled, equal to the serial sums at any order. */
  method ReduceRows(dy: seq<seq<F>>, cols: nat, db: array<F>)
    requires (forall r :: 0 <= r < |dy| ==> |dy[r]| == cols) && db.Length == cols
    modifies db
    ensures forall c: nat :: c < cols ==> db[c] == ColumnSum(dy, c, |dy|)
  {
    var grain := if |dy| == 0 then GRAIN_CHEAP else if GRAIN_CHEAP / |dy| > 0 then GRAIN_CHEAP / |dy| else 1;
    var remaining := TaskSet(ChunkCount(cols, grain));
    ChunksAll(cols, grain);
    while remaining != {}
      invariant forall c :: c in remaining ==> c < ChunkCount(cols, grain)
      invariant forall i: nat {:trigger db[i]} :: i < cols && ChunkOf(cols, grain, i) !in remaining ==> db[i] == ColumnSum(dy, i, |dy|)
      decreases remaining
    {
      var c :| c in remaining;
      ChunkInside(cols, grain, c);
      ReduceChunk(dy, cols, db, ChunkBegin(cols, grain, c), ChunkEnd(cols, grain, c));
      forall i: nat | i < cols ensures ChunkBegin(cols, grain, c) <= i < ChunkEnd(cols, grain, c) <==> c == ChunkOf(cols, grain, i) {
        ChunkOwner(cols, grain, i);
      }
      remaining := remaining - {c};
    }
  }

  method ReduceChunk(dy: seq<seq<F>>, cols: nat, db: array<F>, c0: nat, c1: nat)
    requires (forall r :: 0 <= r < |dy| ==> |dy[r]| == cols) && db.Length == cols && c0 <= c1 <= cols
    modifies db
    ensures forall i: nat {:trigger db[i]} :: i < cols ==>
      db[i] == if c0 <= i < c1 then ColumnSum(dy, i, |dy|) else old(db[i])
  {
    var t0 := c0;
    while t0 < c1
      invariant c0 <= t0 <= c1
      invariant forall i: nat {:trigger db[i]} :: i < cols ==>
        db[i] == if c0 <= i < t0 then ColumnSum(dy, i, |dy|) else old(db[i])
    {
      var w := Min(TILE, c1 - t0);
      var acc := TileSums(dy, cols, t0, w);
      for c := 0 to w
        invariant forall i: nat {:trigger db[i]} :: i < cols ==>
          db[i] == if c0 <= i < t0 + c then ColumnSum(dy, i, |dy|) else old(db[i])
      {
        db[t0 + c] := acc[c];
      }
      t0 := t0 + w;
    }
  }
}
