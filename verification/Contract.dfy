// The load contracts that bound every data-dependent index (runtime/dispatcher/contract.cc,
// and the class and vocabulary scans of Initialize in update_engine.cc).
module Contract {
  import opened Rows
  import opened Corpus
  import opened Serving
  import opened Feeding

  datatype Op = SoftmaxFwd | SoftmaxBwd | EmbedFwd | Other

  /** The operands the contracts look at: out1 is the class width of a softmax, and holds
      the vocabulary of an embedding in its upper half. */
  datatype Instr = Instr(op: Op, in0: nat, in1: nat, out0: nat, out1: nat, relaxed: bool) {
    predicate Softmax() { op == SoftmaxFwd || op == SoftmaxBwd }

    /** The width the instruction's data-dependent indices must stay below. */
    function Width(): nat { if op == EmbedFwd then out1 / 0x1_0000_0000 else out1 }
  }

  /** An embedding's packed operand: the vocabulary above the width of a row. */
  lemma EmbedWidth(ins: Instr, vocab: nat, width: nat)
    requires ins.op == EmbedFwd && width < 0x1_0000_0000 && ins.out1 == vocab * 0x1_0000_0000 + width
    ensures ins.Width() == vocab
  {
  }

  datatype Header = Header(
    batch: nat, labelKind: nat, inputKind: nat, labelRef: nat, inputRef: nat, seqLen: nat, inputFloats: nat, labelBytes: nat,
    arenaSize: nat)

  /** A delta's bytes in the arena. */
  datatype Emit = Emit(at: nat, size: nat)

  datatype Programs = Programs(train: seq<Instr>, merge: seq<Instr>, eval: seq<Instr>, step: seq<Instr>, emit: seq<Emit>) {
    /** The programs the width scans look through. */
    function Scanned(): seq<Instr> { train + merge + eval }
  }

  datatype Role = Train | Merge | Eval | Step

  /** The instruction validator: operand ranges, opcode and flags, of an instruction that
      may or may not read the source file. */
  type Validator = (Instr, bool) -> bool

  // -------------------------------------------------- the executor contract

  /** A class-indexed kernel reads exactly the staged slot, row for row. */
  predicate FromSlots(ins: Instr, h: Header) {
    && (ins.Softmax() ==> h.labelKind == 1 && ins.in1 == h.labelRef && ins.out0 == h.batch)
    && (ins.op == EmbedFwd ==> h.inputKind == 1 && ins.in0 == h.inputRef && ins.out0 == h.batch)
  }

  /** Valid operands, the source file read by the eval program alone, relaxed arithmetic in
      the train and step programs alone, indices from the staged slots. */
  predicate InstrOk(v: Validator, ins: Instr, role: Role, h: Header) {
    v(ins, role == Eval) && (ins.relaxed ==> role == Train || role == Step) && FromSlots(ins, h)
  }

  predicate ProgramOk(v: Validator, program: seq<Instr>, role: Role, h: Header) {
    forall i :: 0 <= i < |program| ==> InstrOk(v, program[i], role, h)
  }

  predicate EmitOk(e: Emit, arena: nat) { e.at + e.size <= arena && e.at % 4 == 0 && e.size % 4 == 0 }

  predicate ExecutorOk(v: Validator, p: Programs, h: Header) {
    && ProgramOk(v, p.train, Train, h) && ProgramOk(v, p.merge, Merge, h)
    && ProgramOk(v, p.eval, Eval, h) && ProgramOk(v, p.step, Step, h)
    && forall i :: 0 <= i < |p.emit| ==> EmitOk(p.emit[i], h.arenaSize)
  }

  method VerifyProgram(v: Validator, program: seq<Instr>, role: Role, h: Header) returns (ok: bool)
    ensures ok == ProgramOk(v, program, role, h)
  {
    for i := 0 to |program|
      invariant forall k :: 0 <= k < i ==> InstrOk(v, program[k], role, h)
    {
      var ins := program[i];
      if !v(ins, role == Eval) { return false; }
      if ins.relaxed && (role == Eval || role == Merge) { return false; }
      if ins.op == SoftmaxFwd || ins.op == SoftmaxBwd {
        if h.labelKind != 1 { return false; }
        if ins.in1 != h.labelRef { return false; }
        if ins.out0 != h.batch { return false; }
      }
      if ins.op == EmbedFwd {
        if h.inputKind != 1 { return false; }
        if ins.in0 != h.inputRef { return false; }
        if ins.out0 != h.batch { return false; }
      }
    }
    ok := true;
  }

  method VerifyExecutorContract(v: Validator, p: Programs, h: Header) returns (ok: bool)
    ensures ok == ExecutorOk(v, p, h)
  {
    var train := VerifyProgram(v, p.train, Train, h);
    if !train { return false; }
    var merge := VerifyProgram(v, p.merge, Merge, h);
    if !merge { return false; }
    var eval := VerifyProgram(v, p.eval, Eval, h);
    if !eval { return false; }
    var step := VerifyProgram(v, p.step, Step, h);
    if !step { return false; }
    for i := 0 to |p.emit|
      invariant forall k :: 0 <= k < i ==> EmitOk(p.emit[k], h.arenaSize)
    {
      var e := p.emit[i];
      if e.at > h.arenaSize || e.size > h.arenaSize - e.at { return false; }
      if e.at % 4 != 0 || e.size % 4 != 0 { return false; }
    }
    ok := true;
  }

  // --------------------------------------------------------------- the width scans

  /** The narrowest non-zero width of the instructions of one kind; 0 when there is none. */
  ghost predicate Narrowest(program: seq<Instr>, embeds: bool, bound: nat) {
    && (forall i :: 0 <= i < |program| && Indexing(program[i], embeds) ==> 0 < bound <= program[i].Width())
    && (bound > 0 ==> exists i :: 0 <= i < |program| && Indexing(program[i], embeds) && program[i].Width() == bound)
  }

  predicate Indexing(ins: Instr, embeds: bool) {
    (if embeds then ins.op == EmbedFwd else ins.Softmax()) && ins.Width() > 0
  }

  method ScanWidths(program: seq<Instr>, embeds: bool) returns (bound: nat)
    ensures Narrowest(program, embeds, bound)
  {
    bound := 0;
    for i := 0 to |program|
      invariant Narrowest(program[..i], embeds, bound)
    {
      assert program[..i + 1] == program[..i] + [program[i]];
      NarrowestGrows(program[..i], program[i], embeds, bound);
      if Indexing(program[i], embeds) && (bound == 0 || program[i].Width() < bound) {
        bound := program[i].Width();
      }
    }
    assert program[..|program|] == program;
  }

  lemma NarrowestGrows(program: seq<Instr>, ins: Instr, embeds: bool, bound: nat)
    requires Narrowest(program, embeds, bound)
    ensures Narrowest(program + [ins], embeds,
      if Indexing(ins, embeds) && (bound == 0 || ins.Width() < bound) then ins.Width() else bound)
  {
    var grown := program + [ins];
    assert grown[|program|] == ins;
    if bound > 0 && !(Indexing(ins, embeds) && ins.Width() < bound) {
      var i :| 0 <= i < |program| && Indexing(program[i], embeds) && program[i].Width() == bound;
      assert grown[i] == program[i];
    }
  }

  /** The forward softmaxes agree on one width, from the first that has one. */
  ghost predicate ForwardsAgree(program: seq<Instr>) {
    forall i, k :: 0 <= i < k < |program| && Forward(program[i]) && program[k].op == SoftmaxFwd ==> program[k].out1 == program[i].out1
  }

  /** A forward softmax of some width. */
  predicate Forward(ins: Instr) { ins.op == SoftmaxFwd && ins.out1 > 0 }

  ghost predicate HasForward(program: seq<Instr>) { exists i :: 0 <= i < |program| && Forward(program[i]) }

  method ScanForward(program: seq<Instr>) returns (ok: bool, classes: nat)
    ensures ok <==> ForwardsAgree(program)
    ensures ok ==> (classes > 0 <==> HasForward(program))
  {
    classes := 0;
    for i := 0 to |program|
      invariant ForwardsAgree(program[..i])
      invariant classes > 0 <==> HasForward(program[..i])
      invariant forall k :: 0 <= k < i && Forward(program[k]) ==> program[k].out1 == classes
    {
      assert program[..i + 1] == program[..i] + [program[i]];
      if program[i].op == SoftmaxFwd {
        if classes != 0 && classes != program[i].out1 {
          Disagree(program, i);
          return false, classes;
        }
        ForwardJoins(program[..i], program[i], classes);
        classes := program[i].out1;
      } else {
        ForwardSkips(program[..i], program[i]);
      }
    }
    assert program[..|program|] == program;
    ok := true;
  }

  lemma Disagree(program: seq<Instr>, i: nat)
    requires i < |program| && program[i].op == SoftmaxFwd && HasForward(program[..i])
    requires forall k :: 0 <= k < i && Forward(program[k]) ==> program[k].out1 != program[i].out1
    ensures !ForwardsAgree(program)
  {
    var k :| 0 <= k < i && Forward(program[..i][k]);
    assert Forward(program[k]);
  }

  lemma ForwardJoins(program: seq<Instr>, ins: Instr, classes: nat)
    requires ForwardsAgree(program) && ins.op == SoftmaxFwd && (classes != 0 ==> classes == ins.out1)
    requires classes > 0 <==> HasForward(program)
    requires forall k :: 0 <= k < |program| && Forward(program[k]) ==> program[k].out1 == classes
    ensures ForwardsAgree(program + [ins]) && (ins.out1 > 0 <==> HasForward(program + [ins]))
  {
    var grown := program + [ins];
    assert grown[|program|] == ins;
    if ins.out1 > 0 {
      assert Forward(grown[|program|]);
    } else {
      assert !HasForward(program);
    }
  }

  lemma ForwardSkips(program: seq<Instr>, ins: Instr)
    requires ForwardsAgree(program) && ins.op != SoftmaxFwd
    ensures ForwardsAgree(program + [ins]) && (HasForward(program) <==> HasForward(program + [ins]))
  {
    if HasForward(program) {
      var i :| 0 <= i < |program| && Forward(program[i]);
      assert Forward((program + [ins])[i]);
    }
  }

  /** What Initialize keeps for the feeder. */
  datatype Bounds = Bounds(classes: nat, vocab: nat)

  /** The bounds are the narrowest widths of the scanned programs. */
  ghost predicate BoundsOf(p: Programs, b: Bounds) {
    Narrowest(p.Scanned(), false, b.classes) && Narrowest(p.Scanned(), true, b.vocab)
  }

  ghost predicate HasEmbedding(program: seq<Instr>) { exists i :: 0 <= i < |program| && Indexing(program[i], true) }

  /** Everything Initialize asks of the decoded programs. */
  ghost predicate Acceptable(v: Validator, p: Programs, h: Header) {
    && ExecutorOk(v, p, h) && ForwardsAgree(p.train + p.eval)
    && (h.labelKind == 1 ==> HasForward(p.train + p.eval))
    && h.inputKind <= 1
    && (h.inputKind == 1 ==> HasEmbedding(p.Scanned()) && h.seqLen > 0 && h.batch % h.seqLen == 0)
  }

  /** What an accepted plan's bounds promise. */
  ghost predicate Admitted(p: Programs, h: Header, b: Bounds) {
    && AllFromSlots(p.Scanned(), h) && AllFromSlots(p.step, h) && BoundsOf(p, b)
    && (h.labelKind == 1 ==> b.classes > 0)
    && h.inputKind <= 1
    && (h.inputKind == 1 ==> b.vocab > 0 && h.seqLen > 0 && h.batch % h.seqLen == 0)
  }

  predicate AllFromSlots(program: seq<Instr>, h: Header) {
    forall i :: 0 <= i < |program| ==> FromSlots(program[i], h)
  }

  /** Accepted exactly when the programs are acceptable; the bounds are then the narrowest
      widths, and there is one for every index the labels and tokens feed. */
  method Initialize(v: Validator, p: Programs, h: Header) returns (r: Result<Bounds>)
    ensures r.Ok? <==> Acceptable(v, p, h)
    ensures r.Ok? ==> BoundsOf(p, r.value) && Admitted(p, h, r.value)
  {
    var ok := VerifyExecutorContract(v, p, h);
    if !ok { return Err("executor contract"); }
    var agree, forward := ScanForward(p.train + p.eval);
    if !agree { return Err("plan softmax class widths disagree across programs"); }
    if h.labelKind == 1 && forward == 0 { return Err("class-label plan carries no softmax cross-entropy"); }
    var classes := ScanWidths(p.Scanned(), false);
    var vocab := ScanWidths(p.Scanned(), true);
    EmbeddingFound(p.Scanned(), vocab);
    if h.inputKind > 1 { return Err("unknown plan input kind"); }
    if h.inputKind == 1 {
      if vocab == 0 { return Err("token plan carries no embedding"); }
      if h.seqLen == 0 || h.batch % h.seqLen != 0 { return Err("token plan sequence length"); }
    }
    AcceptedAdmitted(v, p, h, Bounds(classes, vocab));
    r := Ok(Bounds(classes, vocab));
  }

  lemma EmbeddingFound(program: seq<Instr>, vocab: nat)
    requires Narrowest(program, true, vocab)
    ensures vocab > 0 <==> HasEmbedding(program)
  {
  }

  lemma AcceptedAdmitted(v: Validator, p: Programs, h: Header, b: Bounds)
    requires Acceptable(v, p, h) && BoundsOf(p, b)
    ensures Admitted(p, h, b)
  {
    forall i | 0 <= i < |p.Scanned()| ensures FromSlots(p.Scanned()[i], h) {
      var (program, role, k) := ScannedAt(p, i);
      assert InstrOk(v, program[k], role, h);
    }
    forall i | 0 <= i < |p.step| ensures FromSlots(p.step[i], h) {
      assert InstrOk(v, p.step[i], Step, h);
    }
    EmbeddingFound(p.Scanned(), b.vocab);
    if HasForward(p.train + p.eval) {
      ForwardIsScanned(p, b.classes);
    }
  }

  /** Which instruction of which program is the i-th scanned. */
  function ScannedAt(p: Programs, i: nat): (r: (seq<Instr>, Role, nat))
    requires i < |p.Scanned()|
    ensures r.0 == (match r.1 case Train => p.train case Merge => p.merge case Eval => p.eval case Step => p.step)
    ensures r.1 != Step && r.2 < |r.0| && p.Scanned()[i] == r.0[r.2]
  {
    if i < |p.train| then (p.train, Train, i)
    else if i < |p.train| + |p.merge| then (p.merge, Merge, i - |p.train|)
    else (p.eval, Eval, i - |p.train| - |p.merge|)
  }

  lemma ForwardIsScanned(p: Programs, classes: nat)
    requires Narrowest(p.Scanned(), false, classes) && HasForward(p.train + p.eval)
    ensures classes > 0
  {
    var i :| 0 <= i < |p.train + p.eval| && Forward((p.train + p.eval)[i]);
    var k := if i < |p.train| then i else i + |p.merge|;
    assert p.Scanned()[k] == (p.train + p.eval)[i];
    assert Indexing(p.Scanned()[k], false);
  }

  // --------------------------------------------------------------- the feeder contract

  /** Geometry and id range of the corpus, as the compiled plan needs them. */
  ghost predicate Feedable(h: Header, c: Corpus, b: Bounds)
    requires c.Valid()
  {
    if h.inputKind == 1 then
      && c.Tokens? && c.inputDim == h.seqLen && h.inputFloats == h.batch
      && (h.labelKind == 1 ==> 4 * h.batch == h.labelBytes) && h.labelKind <= 1
      && (b.vocab > 0 ==> AllBelow(c.ClassIds(), b.vocab))
      && (b.classes > 0 ==> AllBelow(c.ClassIds(), b.classes))
    else
      && c.Samples? && Area(h.batch, c.inputDim) == h.inputFloats
      && (h.labelKind != 0 ==> c.labelKind == h.labelKind && Area(h.batch, 4 * c.LabelWords()) == h.labelBytes)
      && (h.labelKind == 1 && b.classes > 0 ==> AllBelow(c.ClassIds(), b.classes))
  }

  method VerifyFeederContract(h: Header, data: Dataset, b: Bounds) returns (ok: bool)
    requires data.Valid()
    modifies data`labelsScanned, data`minLabel, data`maxLabel
    ensures data.Valid() && ok == Feedable(h, data.corpus, b)
  {
    var c := data.corpus;
    if h.inputKind == 1 {
      if !c.Tokens? || c.inputDim != h.seqLen || h.inputFloats != h.batch { return false; }
      if h.labelKind == 1 {
        if 4 * h.batch != h.labelBytes { return false; }
      } else if h.labelKind != 0 {
        return false;
      }
      var bound := b.vocab;
      if b.classes != 0 && (bound == 0 || b.classes < bound) { bound := b.classes; }
      var offender := data.ValidateClassLabels(bound);
      NarrowBound(c.ClassIds(), b.vocab, b.classes, bound);
      return offender.None?;
    }
    var floats := Offset(h.batch, c.inputDim);
    if !c.Samples? || floats != h.inputFloats { return false; }
    if h.labelKind != 0 {
      var bytes := Offset(h.batch, 4 * c.LabelWords());
      if c.labelKind != h.labelKind || bytes != h.labelBytes { return false; }
    }
    if h.labelKind == 1 {
      var offender := data.ValidateClassLabels(b.classes);
      return offender.None?;
    }
    ok := true;
  }

  lemma NarrowBound(ids: seq<Word>, vocab: nat, classes: nat, bound: nat)
    requires bound == if classes != 0 && (vocab == 0 || classes < vocab) then classes else vocab
    ensures (bound > 0 ==> AllBelow(ids, bound)) <==>
      (vocab > 0 ==> AllBelow(ids, vocab)) && (classes > 0 ==> AllBelow(ids, classes))
  {
    if bound > 0 && AllBelow(ids, bound) {
      forall i | 0 <= i < |ids| ensures 0 <= ids[i] && (vocab > 0 ==> ids[i] < vocab) && (classes > 0 ==> ids[i] < classes) {
      }
    }
  }

  // ----------------------------------------------------- every data-dependent index

  lemma {:induction false} GatherBelow(rows: seq<seq<Word>>, order: seq<nat>, bound: nat)
    requires forall k :: 0 <= k < |order| ==> order[k] < |rows|
    requires forall i :: 0 <= i < |rows| ==> AllBelow(rows[i], bound)
    ensures AllBelow(Gather(rows, order), bound)
  {
    if order != [] {
      GatherBelow(rows, order[..|order| - 1], bound);
      assert AllBelow(rows[order[|order| - 1]], bound);
    }
  }

  lemma RowsBelow(c: Corpus, bound: nat)
    requires c.Valid() && c.LabelKind() == 1 && AllBelow(c.ClassIds(), bound)
    ensures forall i :: 0 <= i < c.n ==> AllBelow(c.LabelOf(i), bound)
    ensures c.Tokens? ==> forall i :: 0 <= i < c.n ==> AllBelow(c.InputOf(i), bound)
  {
    forall i | 0 <= i < c.n ensures AllBelow(c.LabelOf(i), bound) && (c.Tokens? ==> AllBelow(c.InputOf(i), bound)) {
      RecordBelow(c, i, bound);
    }
  }

  lemma RecordBelow(c: Corpus, i: nat, bound: nat)
    requires c.Valid() && c.LabelKind() == 1 && AllBelow(c.ClassIds(), bound) && i < c.n
    ensures AllBelow(c.LabelOf(i), bound)
    ensures c.Tokens? ==> AllBelow(c.InputOf(i), bound)
  {
    match c
    case Tokens(n, d, tokens) => RowBelow(tokens, n, d + 1, i, bound);
    case Samples(n, _, _, _, _, labels) => RowBelow(labels, n, 1, i, bound);
  }

  lemma RowBelow(store: seq<Word>, n: nat, width: nat, i: nat, bound: nat)
    requires |store| == Area(n, width) && i < n && AllBelow(store, bound)
    ensures AllBelow(Row(store, n, width, i), bound)
  {
    AreaFits(i + 1, 0, n, width);
    AreaNext(i, width);
  }

  /** Whatever is served at any position, every class id served is below a bound all of
      the corpus's ids are below. */
  lemma ServedBelow(f: Feed, p: ServingPos, r: nat, bound: nat)
    requires f.Valid() && f.Has(p) && f.corpus.LabelKind() == 1 && AllBelow(f.corpus.ClassIds(), bound)
    ensures AllBelow(f.Labels(p, r), bound)
    ensures f.corpus.Tokens? ==> AllBelow(f.Inputs(p, r), bound)
  {
    RowsBelow(f.corpus, bound);
    GatherBelow(f.corpus.LabelRows(), f.Indices(p, r), bound);
    if f.corpus.Tokens? {
      GatherBelow(f.corpus.InputRows(), f.Indices(p, r), bound);
    }
  }

  /** Every index a class-indexed kernel takes from the slots lies inside its own width. */
  predicate Inside(ins: Instr, inputs: seq<Word>, labels: seq<Word>) {
    && (ins.Softmax() && ins.Width() > 0 ==> ins.out0 <= |labels| && AllBelow(labels[..ins.out0], ins.Width()))
    && (ins.op == EmbedFwd && ins.Width() > 0 ==> ins.out0 <= |inputs| && AllBelow(inputs[..ins.out0], ins.Width()))
  }

  /** The bound every class id of a feedable corpus is below. */
  function IdBound(h: Header, b: Bounds): nat {
    if h.inputKind == 1 && b.vocab != 0 && (b.classes == 0 || b.vocab < b.classes) then b.vocab else b.classes
  }

  /** A class id is a 32-bit word. */
  const ID_LIMIT: nat := 0x8000_0000

  /** The instruction's width leaves no id out. */
  predicate WideEnough(ins: Instr, h: Header, b: Bounds) {
    (ins.Softmax() || ins.op == EmbedFwd) && ins.Width() > 0 ==> ins.Width() >= IdBound(h, b) || ins.Width() >= ID_LIMIT
  }

  /** A scanned instruction is never too narrow. */
  lemma ScannedWide(p: Programs, h: Header, b: Bounds, i: nat)
    requires Admitted(p, h, b) && i < |p.Scanned()|
    ensures WideEnough(p.Scanned()[i], h, b)
  {
    var ins := p.Scanned()[i];
    assert FromSlots(ins, h);
    if ins.Softmax() && ins.Width() > 0 {
      assert Indexing(ins, false);
    }
    if ins.op == EmbedFwd && ins.Width() > 0 {
      assert Indexing(ins, true);
    }
  }

  lemma BelowWide(ids: seq<Word>, n: nat, bound: nat, width: nat)
    requires n <= |ids| && AllBelow(ids, bound) && (width >= bound || width >= ID_LIMIT)
    ensures AllBelow(ids[..n], width)
  {
  }

  lemma WideCovers(ins: Instr, h: Header, b: Bounds, inputs: seq<Word>, labels: seq<Word>)
    requires FromSlots(ins, h) && WideEnough(ins, h, b)
    requires h.labelKind == 1 ==> |labels| >= h.batch && AllBelow(labels, IdBound(h, b))
    requires h.inputKind == 1 ==> |inputs| >= h.batch && AllBelow(inputs, IdBound(h, b))
    ensures Inside(ins, inputs, labels)
  {
    if ins.Softmax() && ins.Width() > 0 {
      BelowWide(labels, ins.out0, IdBound(h, b), ins.Width());
    }
    if ins.op == EmbedFwd && ins.Width() > 0 {
      BelowWide(inputs, ins.out0, IdBound(h, b), ins.Width());
    }
  }

  lemma {:induction false} AreaFour(n: nat, w: nat)
    ensures Area(n, 4 * w) == 4 * Area(n, w)
  {
    if n > 0 {
      AreaFour(n - 1, w);
    }
  }

  lemma {:induction false} AreaOne(n: nat)
    ensures Area(n, 1) == n
  {
    if n > 0 {
      AreaOne(n - 1);
    }
  }

  lemma WholeSequences(batch: nat, s: nat)
    requires s > 0 && batch % s == 0
    ensures Area(batch / s, s) == batch
  {
    AreaIs(batch / s, s);
  }

  /** Slots of the plan's sizes hold exactly the words of a batch. */
  lemma SlotSizes(h: Header, c: Corpus, b: Bounds, records: nat)
    requires c.Valid() && Feedable(h, c, b) && records == Records(c, h.batch)
    requires h.inputKind == 1 ==> h.seqLen > 0 && h.batch % h.seqLen == 0
    ensures Area(records, c.inputDim) == h.inputFloats
    ensures h.labelKind != 0 ==> 4 * Area(records, c.LabelWords()) == h.labelBytes
    ensures h.labelKind == 1 ==> Area(records, c.LabelWords()) == h.batch
    ensures h.inputKind == 1 ==> h.inputFloats == h.batch
  {
    if c.Tokens? {
      WholeSequences(h.batch, h.seqLen);
    } else {
      AreaFour(h.batch, c.LabelWords());
      AreaOne(h.batch);
    }
  }

  /** After any batch is staged for an admitted plan and a validated corpus, every label or
      token a softmax or embedding reads is inside that instruction's own width: in the
      train, merge and eval programs always, in the step program where it is wide enough. */
  method StageBatch(p: Programs, h: Header, b: Bounds, data: Dataset, inputSlot: array<Word>, labelSlot: array?<Word>)
    requires Admitted(p, h, b) && data.Valid() && Feedable(h, data.corpus, b) && inputSlot != labelSlot
    requires inputSlot.Length == h.inputFloats
    requires if h.labelKind == 0 then labelSlot == null else labelSlot != null && 4 * labelSlot.Length == h.labelBytes
    modifies data`cursor, data`epoch, data`order, data`shuffleState, inputSlot, labelSlot
    ensures data.Valid()
    ensures forall i :: 0 <= i < |p.Scanned()| ==>
      Inside(p.Scanned()[i], inputSlot[..], if labelSlot == null then [] else labelSlot[..])
    ensures forall i :: 0 <= i < |p.step| && WideEnough(p.step[i], h, b) ==>
      Inside(p.step[i], inputSlot[..], if labelSlot == null then [] else labelSlot[..])
  {
    ghost var f, pos, records := data.TheFeed(), data.Pos(), Records(data.corpus, h.batch);
    SlotSizes(h, data.corpus, b, records);
    FillSlots(h.batch, data, inputSlot, labelSlot, records);
    AllInside(p, h, b, f, pos, records, inputSlot[..], if labelSlot == null then [] else labelSlot[..]);
  }

  /** Slots exactly the size of a batch hold exactly that batch. */
  method FillSlots(batch: nat, data: Dataset, inputSlot: array<Word>, labelSlot: array?<Word>, ghost records: nat)
    requires data.Valid() && inputSlot != labelSlot && records == Records(data.corpus, batch)
    requires inputSlot.Length == Area(records, data.corpus.inputDim)
    requires labelSlot != null ==> labelSlot.Length == Area(records, data.corpus.LabelWords())
    modifies data`cursor, data`epoch, data`order, data`shuffleState, inputSlot, labelSlot
    ensures data.Valid() && inputSlot[..] == old(data.TheFeed().Inputs(data.Pos(), records))
    ensures labelSlot != null ==> labelSlot[..] == old(data.TheFeed().Labels(data.Pos(), records))
  {
    ghost var inputs, labels := data.TheFeed().Inputs(data.Pos(), records), data.TheFeed().Labels(data.Pos(), records);
    ghost var before, labelBefore := inputSlot[..], if labelSlot == null then [] else labelSlot[..];
    data.TheFeed().ServedLength(data.Pos(), records);
    data.FillBatch(batch, inputSlot, labelSlot);
    SplicedFront(before, inputs);
    if labelSlot != null {
      SplicedFront(labelBefore, labels);
    }
  }

  lemma AllInside(p: Programs, h: Header, b: Bounds, f: Feed, pos: ServingPos, records: nat, inputs: seq<Word>, labels: seq<Word>)
    requires Admitted(p, h, b) && f.Valid() && f.Has(pos) && Feedable(h, f.corpus, b) && records == Records(f.corpus, h.batch)
    requires inputs == f.Inputs(pos, records) && (h.labelKind != 0 ==> labels == f.Labels(pos, records))
    ensures forall i :: 0 <= i < |p.Scanned()| ==> Inside(p.Scanned()[i], inputs, labels)
    ensures forall i :: 0 <= i < |p.step| && WideEnough(p.step[i], h, b) ==> Inside(p.step[i], inputs, labels)
  {
    StagedBelow(h, f, b, pos, records);
    forall i | 0 <= i < |p.Scanned()| ensures Inside(p.Scanned()[i], inputs, labels) {
      ScannedWide(p, h, b, i);
      WideCovers(p.Scanned()[i], h, b, inputs, labels);
    }
    forall i | 0 <= i < |p.step| && WideEnough(p.step[i], h, b) ensures Inside(p.step[i], inputs, labels) {
      WideCovers(p.step[i], h, b, inputs, labels);
    }
  }

  predicate Bounded(h: Header, b: Bounds) {
    && h.inputKind <= 1 && (h.labelKind == 1 ==> b.classes > 0)
    && (h.inputKind == 1 ==> b.vocab > 0 && h.seqLen > 0 && h.batch % h.seqLen == 0)
  }

  /** What a staged batch holds: enough words, all below the bound. */
  lemma StagedBelow(h: Header, f: Feed, b: Bounds, pos: ServingPos, records: nat)
    requires Bounded(h, b) && f.Valid() && f.Has(pos) && Feedable(h, f.corpus, b) && records == Records(f.corpus, h.batch)
    ensures h.labelKind == 1 ==> |f.Labels(pos, records)| == h.batch && AllBelow(f.Labels(pos, records), IdBound(h, b))
    ensures h.inputKind == 1 ==> |f.Inputs(pos, records)| == h.batch && AllBelow(f.Inputs(pos, records), IdBound(h, b))
  {
    SlotSizes(h, f.corpus, b, records);
    f.ServedLength(pos, records);
    if h.labelKind == 1 || h.inputKind == 1 {
      ServedBelow(f, pos, records, IdBound(h, b));
    }
  }

  // ------------------------------------------------------------ the step program

  /** Whatever feedable corpus is served, from wherever: the indices stay inside. */
  ghost predicate AlwaysInside(ins: Instr, h: Header, b: Bounds) {
    forall f: Feed, pos: ServingPos :: f.Valid() && f.Has(pos) && Feedable(h, f.corpus, b) ==> StagedInside(ins, h, f, pos)
  }

  ghost predicate StagedInside(ins: Instr, h: Header, f: Feed, pos: ServingPos)
    requires f.Valid() && f.Has(pos)
  {
    var records := Records(f.corpus, h.batch);
    Inside(ins, f.Inputs(pos, records), if h.labelKind != 0 then f.Labels(pos, records) else [])
  }

  /** The corpus with every class id replaced by one. */
  function Relabelled(c: Corpus, id: Word): (r: Corpus)
    requires c.Valid() && id >= 0
    ensures r.Valid()
  {
    match c
    case Tokens(n, d, tokens) => Tokens(n, d, seq(|tokens|, _ => id))
    case Samples(n, d, kind, dim, inputs, labels) => Samples(n, d, kind, dim, inputs, seq(|labels|, _ => id))
  }

  lemma RelabelledFeeds(h: Header, c: Corpus, b: Bounds, id: Word)
    requires c.Valid() && Feedable(h, c, b) && Bounded(h, b) && 0 <= id < IdBound(h, b)
    ensures Feedable(h, Relabelled(c, id), b)
  {
  }

  ghost predicate AllAre(ids: seq<Word>, id: Word) { forall i :: 0 <= i < |ids| ==> ids[i] == id }

  lemma {:induction false} GatherAre(rows: seq<seq<Word>>, order: seq<nat>, id: Word)
    requires forall k :: 0 <= k < |order| ==> order[k] < |rows|
    requires forall i :: 0 <= i < |rows| ==> AllAre(rows[i], id)
    ensures AllAre(Gather(rows, order), id)
  {
    if order != [] {
      GatherAre(rows, order[..|order| - 1], id);
    }
  }

  lemma RelabelledServes(c: Corpus, id: Word, r: nat)
    requires c.Valid() && id >= 0
    ensures var f := Feed(Relabelled(c, id), false, 0);
      AllAre(f.Labels(ServingPos(0, 0), r), id) && (c.Tokens? ==> AllAre(f.Inputs(ServingPos(0, 0), r), id))
  {
    var f := Feed(Relabelled(c, id), false, 0);
    var order := f.Indices(ServingPos(0, 0), r);
    forall i | 0 <= i < c.n ensures AllAre(f.corpus.LabelOf(i), id) && (c.Tokens? ==> AllAre(f.corpus.InputOf(i), id)) {
      RelabelledRecord(c, id, i);
    }
    GatherAre(f.corpus.LabelRows(), order, id);
    if c.Tokens? {
      GatherAre(f.corpus.InputRows(), order, id);
    }
  }

  lemma RelabelledRecord(c: Corpus, id: Word, i: nat)
    requires c.Valid() && id >= 0 && i < c.n
    ensures AllAre(Relabelled(c, id).LabelOf(i), id) && (c.Tokens? ==> AllAre(Relabelled(c, id).InputOf(i), id))
  {
    var r := Relabelled(c, id);
    match r
    case Tokens(n, d, tokens) => RowIs(tokens, n, d + 1, i, id);
    case Samples(n, _, _, _, _, labels) => RowIs(labels, n, r.LabelWords(), i, id);
  }

  lemma RowIs(store: seq<Word>, n: nat, width: nat, i: nat, id: Word)
    requires |store| == Area(n, width) && i < n && AllAre(store, id)
    ensures AllAre(Row(store, n, width, i), id)
  {
    AreaFits(i + 1, 0, n, width);
    AreaNext(i, width);
  }

  /** An instruction narrower than the ids reads one outside its width. */
  lemma NarrowReadsOutside(ins: Instr, h: Header, b: Bounds, c: Corpus)
    requires Bounded(h, b) && FromSlots(ins, h) && h.batch > 0 && c.Valid() && Feedable(h, c, b) && !WideEnough(ins, h, b)
    ensures Feedable(h, Relabelled(c, ins.Width()), b)
    ensures !StagedInside(ins, h, Feed(Relabelled(c, ins.Width()), false, 0), ServingPos(0, 0))
  {
    var id: Word := ins.Width();
    var f, start, records := Feed(Relabelled(c, id), false, 0), ServingPos(0, 0), Records(c, h.batch);
    RelabelledFeeds(h, c, b, id);
    RelabelledServes(c, id, records);
    StagedBelow(h, f, b, start, records);
    if ins.Softmax() {
      assert f.Labels(start, records)[..ins.out0][0] == id;
    } else {
      assert f.Inputs(start, records)[..ins.out0][0] == id;
    }
  }

  /** Exactly when a class-indexed instruction of any program is safe for every corpus the
      feeder contract lets in (given that it lets one in): when it is wide enough. */
  lemma InsideExactly(ins: Instr, h: Header, b: Bounds, c: Corpus)
    requires Bounded(h, b) && FromSlots(ins, h) && h.batch > 0 && c.Valid() && Feedable(h, c, b)
    ensures AlwaysInside(ins, h, b) <==> WideEnough(ins, h, b)
  {
    if WideEnough(ins, h, b) {
      forall f: Feed, pos: ServingPos | f.Valid() && f.Has(pos) && Feedable(h, f.corpus, b) ensures StagedInside(ins, h, f, pos) {
        StagedBelow(h, f, b, pos, Records(f.corpus, h.batch));
        WideCovers(ins, h, b, f.Inputs(pos, Records(f.corpus, h.batch)),
          if h.labelKind != 0 then f.Labels(pos, Records(f.corpus, h.batch)) else []);
      }
    } else {
      NarrowReadsOutside(ins, h, b, c);
    }
  }

  /** All four programs: an admitted plan is safe exactly when its step program's
      class-indexed instructions are wide enough. */
  lemma PlanInsideExactly(p: Programs, h: Header, b: Bounds, c: Corpus)
    requires Admitted(p, h, b) && h.batch > 0 && c.Valid() && Feedable(h, c, b)
    ensures (forall i :: 0 <= i < |p.Scanned()| ==> AlwaysInside(p.Scanned()[i], h, b))
    ensures (forall i :: 0 <= i < |p.step| ==> AlwaysInside(p.step[i], h, b)) <==>
      (forall i :: 0 <= i < |p.step| ==> WideEnough(p.step[i], h, b))
  {
    forall i | 0 <= i < |p.Scanned()| ensures AlwaysInside(p.Scanned()[i], h, b) {
      ScannedWide(p, h, b, i);
      InsideExactly(p.Scanned()[i], h, b, c);
    }
    forall i | 0 <= i < |p.step| ensures AlwaysInside(p.step[i], h, b) <==> WideEnough(p.step[i], h, b) {
      InsideExactly(p.step[i], h, b, c);
    }
  }

  /** An accepted plan whose step program holds a softmax two classes wide under a bound of
      ten, and a corpus of one sample of class 5 it reads. */
  lemma NarrowStepProgram() returns (p: Programs, h: Header, c: Corpus)
    ensures Acceptable((ins, source) => true, p, h) && BoundsOf(p, Bounds(10, 0)) && h.batch == 1
    ensures c.Valid() && Feedable(h, c, Bounds(10, 0)) && p.step == [Instr(SoftmaxFwd, 0, 64, 1, 2, false)]
    ensures !StagedInside(p.step[0], h, Feed(c, false, 0), ServingPos(0, 0))
  {
    var wide, narrow := Instr(SoftmaxFwd, 0, 64, 1, 10, false), Instr(SoftmaxFwd, 0, 64, 1, 2, false);
    p, h := Programs([wide], [], [], [narrow], []), Header(1, 1, 0, 64, 0, 0, 1, 4, 128);
    assert p.Scanned() == [wide] && p.train + p.eval == [wide];
    assert Indexing(p.Scanned()[0], false) && Forward((p.train + p.eval)[0]);
    AreaOne(1);
    var sample := Samples(1, 1, 1, 0, [0], [5]);
    assert Area(1, 4) == 4 && Area(1, 1) == 1;
    c := Relabelled(sample, 5);
    RelabelledServes(sample, 5, 1);
    StagedBelow(h, Feed(c, false, 0), Bounds(10, 0), ServingPos(0, 0), 1);
    assert Feed(c, false, 0).Labels(ServingPos(0, 0), 1)[..1][0] == 5;
  }
}
