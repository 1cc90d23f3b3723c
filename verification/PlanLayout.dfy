// Plan assembly (compiler/driver/update_compiler.cc) and the load that undoes it
// (runtime/dispatcher/contract.cc, update_engine.cc).
module PlanLayout {
  import opened Rows
  import opened Corpus
  import opened Bytes

  const HEADER_SIZE: nat := 280
  const HASH_AT: nat := 216
  const INSTRUCTION: nat := 64
  const EMIT: nat := 24
  const PAGE: nat := 16384

  function AlignUp(x: nat): (r: nat)
    ensures x <= r < x + 64 && r % 64 == 0
  {
    (x + 63) / 64 * 64
  }

  function AlignPage(x: nat): (r: nat)
    ensures x <= r < x + PAGE && r % PAGE == 0
  {
    (x + 16383) / 16384 * 16384
  }

  // ----------------------------------------------------------------- assembly

  /** A section, or part of one: appended, or packed in place after padding. */
  datatype Piece = Piece(at: nat, bytes: seq<Byte>, inPlace: bool)

  function End(p: Piece): nat { p.at + |p.bytes| }

  /** In increasing order, none over another, all inside the blob. */
  predicate Ordered(pieces: seq<Piece>, total: nat) {
    && (forall i, j :: 0 <= i < j < |pieces| ==> End(pieces[i]) <= pieces[j].at)
    && (forall i :: 0 <= i < |pieces| ==> End(pieces[i]) <= total)
  }

  predicate Covers(p: Piece, k: nat) { p.at <= k < End(p) }

  /** Every piece stands at its place and every other byte is zero. */
  ghost predicate Laid(blob: seq<Byte>, pieces: seq<Piece>, total: nat) {
    && |blob| == total
    && (forall i :: 0 <= i < |pieces| ==> Stands(blob, pieces[i].at, pieces[i].bytes))
    && (forall k :: 0 <= k < total && (forall i :: 0 <= i < |pieces| ==> !Covers(pieces[i], k)) ==> blob[k] == 0)
  }

  ghost predicate Stands(blob: seq<Byte>, at: nat, bytes: seq<Byte>) {
    at + |bytes| <= |blob| && blob[at..at + |bytes|] == bytes
  }

  /** vector::resize: zeros after the end, or a cut when the end is further on. */
  method PadTo(blob: seq<Byte>, at: nat) returns (r: seq<Byte>)
    ensures |r| == at
    ensures |blob| <= at ==> r[..|blob|] == blob && forall k :: |blob| <= k < at ==> r[k] == 0
    ensures at < |blob| ==> r == blob[..at]
  {
    r := if at < |blob| then blob[..at] else blob;
    while |r| < at
      invariant at < |blob| ==> r == blob[..at]
      invariant |blob| <= at ==> |blob| <= |r| <= at && r[..|blob|] == blob && forall k :: |blob| <= k < |r| ==> r[k] == 0
    {
      r := r + [0];
    }
  }

  method Overwrite(blob: seq<Byte>, at: nat, bytes: seq<Byte>) returns (r: seq<Byte>)
    requires at + |bytes| <= |blob|
    ensures r == blob[..at] + bytes + blob[at + |bytes|..]
  {
    r := blob[..at] + bytes + blob[at + |bytes|..];
  }

  /** One piece onto a blob that ends before it: padding never cuts. */
  method Place(blob: seq<Byte>, p: Piece) returns (r: seq<Byte>)
    requires |blob| <= p.at
    ensures |r| == End(p) && r[..|blob|] == blob && r[p.at..] == p.bytes
    ensures forall k :: |blob| <= k < p.at ==> r[k] == 0
  {
    if p.inPlace {
      r := PadTo(blob, End(p));
      r := Overwrite(r, p.at, p.bytes);
    } else {
      r := PadTo(blob, p.at);
      r := r + p.bytes;
    }
  }

  lemma PlaceLaid(before: seq<Byte>, after: seq<Byte>, pieces: seq<Piece>, n: nat)
    requires n < |pieces| && Ordered(pieces, |after|) && |before| <= pieces[n].at
    requires Laid(before, pieces[..n], |before|)
    requires |after| == End(pieces[n]) && after[..|before|] == before && after[pieces[n].at..] == pieces[n].bytes
    requires forall k :: |before| <= k < pieces[n].at ==> after[k] == 0
    ensures Laid(after, pieces[..n + 1], |after|)
  {
    var grown := pieces[..n + 1];
    forall i | 0 <= i < |grown| ensures Stands(after, grown[i].at, grown[i].bytes) {
      if i < n {
        assert pieces[..n][i] == grown[i];
        StandsStill(before, after, grown[i].at, grown[i].bytes);
      }
    }
    forall k | 0 <= k < |after| && (forall i :: 0 <= i < |grown| ==> !Covers(grown[i], k)) ensures after[k] == 0 {
      assert !Covers(grown[n], k);
      if k < |before| {
        forall i | 0 <= i < n ensures !Covers(pieces[..n][i], k) {
          assert !Covers(grown[i], k);
        }
        assert after[k] == after[..|before|][k];
      }
    }
  }

  lemma StandsStill(before: seq<Byte>, after: seq<Byte>, at: nat, bytes: seq<Byte>)
    requires Stands(before, at, bytes) && |before| <= |after| && after[..|before|] == before
    ensures Stands(after, at, bytes)
  {
    SliceOfSlice(after, 0, |before|, at, at + |bytes|, at, at + |bytes|);
    assert after[0..|before|] == before;
  }

  /** Sections in increasing order, each written exactly once, gaps zero. */
  method Assemble(pieces: seq<Piece>, total: nat) returns (blob: seq<Byte>)
    requires Ordered(pieces, total)
    ensures Laid(blob, pieces, total)
  {
    blob := [];
    var n := 0;
    while n < |pieces|
      invariant n <= |pieces| && Laid(blob, pieces[..n], |blob|) && |blob| <= total
      invariant n < |pieces| ==> |blob| <= pieces[n].at
    {
      var next := n + 1;
      var grown := Place(blob, pieces[n]);
      PieceJoins(blob, grown, pieces, n, next, total);
      blob := grown;
      n := next;
    }
    assert pieces[..n] == pieces;
    var padded := PadTo(blob, total);
    PadLaid(blob, padded, pieces, total);
    blob := padded;
  }

  lemma PieceJoins(before: seq<Byte>, after: seq<Byte>, pieces: seq<Piece>, n: nat, next: nat, total: nat)
    requires next == n + 1 <= |pieces| && Ordered(pieces, total) && |before| <= pieces[n].at
    requires Laid(before, pieces[..n], |before|)
    requires |after| == End(pieces[n]) && after[..|before|] == before && after[pieces[n].at..] == pieces[n].bytes
    requires forall k :: |before| <= k < pieces[n].at ==> after[k] == 0
    ensures Laid(after, pieces[..next], |after|) && |after| <= total
    ensures next < |pieces| ==> |after| <= pieces[next].at
  {
    OrderedPrefix(pieces, n, total);
    var shown := pieces[..next];
    assert shown[..n] == pieces[..n] && shown[..n + 1] == shown;
    PlaceLaid(before, after, shown, n);
  }

  lemma OrderedPrefix(pieces: seq<Piece>, n: nat, total: nat)
    requires Ordered(pieces, total) && n < |pieces|
    ensures Ordered(pieces[..n + 1], End(pieces[n]))
  {
  }

  lemma PadLaid(before: seq<Byte>, after: seq<Byte>, pieces: seq<Piece>, total: nat)
    requires Laid(before, pieces, |before|) && |before| <= |after| == total && after[..|before|] == before
    requires forall k :: |before| <= k < total ==> after[k] == 0
    ensures Laid(after, pieces, total)
  {
    forall i | 0 <= i < |pieces| ensures Stands(after, pieces[i].at, pieces[i].bytes) {
      StandsStill(before, after, pieces[i].at, pieces[i].bytes);
    }
    forall k | 0 <= k < total && (forall i :: 0 <= i < |pieces| ==> !Covers(pieces[i], k)) ensures after[k] == 0 {
      if k < |before| {
        assert after[k] == after[..|before|][k];
      }
    }
  }

  // ------------------------------------------------------------------- layout

  /** The section fields of the header, and the blob's size. */
  datatype Layout = Layout(
    train: nat, trainCount: nat, merge: nat, mergeCount: nat, rodata: nat, rodataSize: nat,
    persist: nat, persistSize: nat, emit: nat, emitCount: nat, eval: nat, evalCount: nat, step: nat, stepCount: nat)

  /** The sections in file order, disjoint and aligned. */
  predicate WellLaid(l: Layout, total: nat) {
    && HEADER_SIZE <= l.train && l.train % 64 == 0
    && l.train + INSTRUCTION * l.trainCount == l.merge
    && l.merge + INSTRUCTION * l.mergeCount == l.eval
    && l.eval + INSTRUCTION * l.evalCount == l.step
    && l.step + INSTRUCTION * l.stepCount <= l.rodata && l.rodata % PAGE == 0
    && l.rodata + l.rodataSize <= l.persist && l.persist % 64 == 0
    && l.persist + l.persistSize <= l.emit && l.emit % 64 == 0
    && l.emit + EMIT * l.emitCount <= total && total % PAGE == 0
  }

  /** The padding is bounded: three sections to 64 bytes, two to a page. */
  predicate Tight(l: Layout, total: nat) {
    && l.train < HEADER_SIZE + 64 && l.rodata < l.step + INSTRUCTION * l.stepCount + PAGE
    && l.persist < l.rodata + l.rodataSize + 64 && l.emit < l.persist + l.persistSize + 64
    && total < l.emit + EMIT * l.emitCount + PAGE
  }

  method LayOut(trainCount: nat, mergeCount: nat, evalCount: nat, stepCount: nat, rodataSize: nat, persistSize: nat, emitCount: nat)
    returns (l: Layout, total: nat)
    ensures WellLaid(l, total) && Tight(l, total)
    ensures (l.trainCount, l.mergeCount, l.evalCount, l.stepCount) == (trainCount, mergeCount, evalCount, stepCount)
    ensures (l.rodataSize, l.persistSize, l.emitCount) == (rodataSize, persistSize, emitCount)
  {
    var off := AlignUp(HEADER_SIZE);
    var train := off;
    off := off + trainCount * INSTRUCTION;
    var merge := off;
    off := off + mergeCount * INSTRUCTION;
    var eval := off;
    off := off + evalCount * INSTRUCTION;
    var step := off;
    off := off + stepCount * INSTRUCTION;
    off := AlignPage(off);
    var rodata := off;
    off := AlignUp(off + rodataSize);
    var persist := off;
    off := AlignUp(off + persistSize);
    var emit := off;
    off := off + emitCount * EMIT;
    total := AlignPage(off);
    l := Layout(train, trainCount, merge, mergeCount, rodata, rodataSize, persist, persistSize, emit, emitCount, eval, evalCount, step, stepCount);
  }

  predicate RangeOk(off: nat, bytes: nat, size: nat) { off <= size && bytes <= size - off }

  /** VerifyPlanContract's section checks; the products are overflow-checked. */
  predicate SectionsOk(l: Layout, size: nat) {
    && INSTRUCTION * l.trainCount < U64_LIMIT && INSTRUCTION * l.mergeCount < U64_LIMIT
    && INSTRUCTION * l.evalCount < U64_LIMIT && INSTRUCTION * l.stepCount < U64_LIMIT && EMIT * l.emitCount < U64_LIMIT
    && RangeOk(l.train, INSTRUCTION * l.trainCount, size) && RangeOk(l.merge, INSTRUCTION * l.mergeCount, size)
    && RangeOk(l.eval, INSTRUCTION * l.evalCount, size) && RangeOk(l.step, INSTRUCTION * l.stepCount, size)
    && RangeOk(l.rodata, l.rodataSize, size) && RangeOk(l.persist, l.persistSize, size)
    && RangeOk(l.emit, EMIT * l.emitCount, size)
  }

  /** A well-laid plan that fits 64 bits passes the section checks. */
  lemma WellLaidAccepted(l: Layout, total: nat)
    requires WellLaid(l, total) && total < U64_LIMIT
    ensures SectionsOk(l, total)
  {
  }

  // ------------------------------------------------------------------- header

  /** The header words that do not describe sections; the plan hash is apart. */
  datatype Fixed = Fixed(prefix: seq<Word>, middle: seq<Word>, source: seq<Word>, suffix: seq<Word>) {
    predicate Valid() { |prefix| == 18 && |middle| == 10 && |source| == 2 && |suffix| == 10 }
  }

  predicate InRange(l: Layout) {
    && l.train < U64_LIMIT && l.trainCount < U64_LIMIT && l.merge < U64_LIMIT && l.mergeCount < U64_LIMIT
    && l.rodata < U64_LIMIT && l.rodataSize < U64_LIMIT && l.persist < U64_LIMIT && l.persistSize < U64_LIMIT
    && l.emit < U64_LIMIT && l.emitCount < U64_LIMIT && l.eval < U64_LIMIT && l.evalCount < U64_LIMIT
    && l.step < U64_LIMIT && l.stepCount < U64_LIMIT
  }

  function Pair(u: nat): (w: seq<Word>)
    requires u < U64_LIMIT
    ensures |w| == 2
  {
    [LowWord(u), HighWord(u)]
  }

  function BeforeHash(l: Layout, f: Fixed): (w: seq<Word>)
    requires InRange(l) && f.Valid()
    ensures |w| == 54
  {
    f.prefix + Sections(l) + f.middle + (Pair(l.eval) + Pair(l.evalCount)) + f.source
  }

  function Sections(l: Layout): (w: seq<Word>)
    requires InRange(l)
    ensures |w| == 20
  {
    Pair(l.train) + Pair(l.trainCount) + Pair(l.merge) + Pair(l.mergeCount) + Pair(l.rodata) + Pair(l.rodataSize)
    + Pair(l.persist) + Pair(l.persistSize) + Pair(l.emit) + Pair(l.emitCount)
  }

  function AfterHash(l: Layout, f: Fixed): (w: seq<Word>)
    requires InRange(l) && f.Valid()
    ensures |w| == 14
  {
    f.suffix + (Pair(l.step) + Pair(l.stepCount))
  }

  function HeaderWords(l: Layout, f: Fixed, hash: nat): (w: seq<Word>)
    requires InRange(l) && f.Valid() && hash < U64_LIMIT
    ensures |w| == 70
  {
    BeforeHash(l, f) + Pair(hash) + AfterHash(l, f)
  }

  function FieldAt(w: seq<Word>, i: nat): nat
    requires i + 2 <= |w|
  {
    U64(w[i], w[i + 1])
  }

  function LayoutIn(w: seq<Word>): Layout
    requires |w| == 70
  {
    Layout(FieldAt(w, 18), FieldAt(w, 20), FieldAt(w, 22), FieldAt(w, 24), FieldAt(w, 26), FieldAt(w, 28),
           FieldAt(w, 30), FieldAt(w, 32), FieldAt(w, 34), FieldAt(w, 36), FieldAt(w, 48), FieldAt(w, 50),
           FieldAt(w, 66), FieldAt(w, 68))
  }

  lemma FieldIs(w: seq<Word>, i: nat, u: nat)
    requires u < U64_LIMIT && i + 2 <= |w| && w[i..i + 2] == Pair(u)
    ensures FieldAt(w, i) == u
  {
    assert w[i] == w[i..i + 2][0] && w[i + 1] == w[i..i + 2][1];
    U64RoundTrip(u);
  }

  lemma FieldInPart(w: seq<Word>, before: seq<Word>, part: seq<Word>, after: seq<Word>, at: nat, u: nat)
    requires u < U64_LIMIT && w == before + part + after && at + 2 <= |part| && part[at..at + 2] == Pair(u)
    ensures FieldAt(w, |before| + at) == u
  {
    var i := |before| + at;
    assert w[i..i + 2] == part[at..at + 2];
    FieldIs(w, i, u);
  }

  /** The header fields are read back as they were written. */
  lemma HeaderRoundTrip(l: Layout, f: Fixed, hash: nat)
    requires InRange(l) && f.Valid() && hash < U64_LIMIT
    ensures LayoutIn(HeaderWords(l, f, hash)) == l
    ensures FieldAt(HeaderWords(l, f, hash), 54) == hash
  {
    var w := HeaderWords(l, f, hash);
    var evals := Pair(l.eval) + Pair(l.evalCount);
    var steps := Pair(l.step) + Pair(l.stepCount);
    var rest := f.middle + evals + f.source + Pair(hash) + AfterHash(l, f);
    assert w == f.prefix + Sections(l) + rest;
    SectionFields(l, w, f.prefix, rest);
    var before, after := f.prefix + Sections(l) + f.middle, f.source + Pair(hash) + AfterHash(l, f);
    assert w == before + evals + after;
    FieldInPart(w, before, evals, after, 0, l.eval);
    FieldInPart(w, before, evals, after, 2, l.evalCount);
    FieldInPart(w, BeforeHash(l, f), Pair(hash), AfterHash(l, f), 0, hash);
    var front := BeforeHash(l, f) + Pair(hash) + f.suffix;
    assert w == front + steps + [];
    FieldInPart(w, front, steps, [], 0, l.step);
    FieldInPart(w, front, steps, [], 2, l.stepCount);
  }

  lemma SectionFields(l: Layout, w: seq<Word>, before: seq<Word>, after: seq<Word>)
    requires InRange(l) && |before| == 18 && w == before + Sections(l) + after
    ensures FieldAt(w, 18) == l.train && FieldAt(w, 20) == l.trainCount
    ensures FieldAt(w, 22) == l.merge && FieldAt(w, 24) == l.mergeCount
    ensures FieldAt(w, 26) == l.rodata && FieldAt(w, 28) == l.rodataSize
    ensures FieldAt(w, 30) == l.persist && FieldAt(w, 32) == l.persistSize
    ensures FieldAt(w, 34) == l.emit && FieldAt(w, 36) == l.emitCount
  {
    FieldInPart(w, before, Sections(l), after, 0, l.train);
    FieldInPart(w, before, Sections(l), after, 2, l.trainCount);
    FieldInPart(w, before, Sections(l), after, 4, l.merge);
    FieldInPart(w, before, Sections(l), after, 6, l.mergeCount);
    FieldInPart(w, before, Sections(l), after, 8, l.rodata);
    FieldInPart(w, before, Sections(l), after, 10, l.rodataSize);
    FieldInPart(w, before, Sections(l), after, 12, l.persist);
    FieldInPart(w, before, Sections(l), after, 14, l.persistSize);
    FieldInPart(w, before, Sections(l), after, 16, l.emit);
    FieldInPart(w, before, Sections(l), after, 18, l.emitCount);
  }

  // --------------------------------------------------------------------- seal

  /** The canonical plan hash: any hash of the blob with the hash field zeroed. */
  datatype Hash = Hash(of: seq<Byte> -> nat) {
    function Self(plan: seq<Byte>): (h: nat)
      requires |plan| >= HEADER_SIZE
      ensures h < U64_LIMIT
    {
      of(Patched(plan, [0, 0, 0, 0, 0, 0, 0, 0])) % U64_LIMIT
    }
  }

  function Patched(plan: seq<Byte>, field: seq<Byte>): (r: seq<Byte>)
    requires |plan| >= HEADER_SIZE && |field| == 8
    ensures |r| == |plan|
  {
    plan[..HASH_AT] + field + plan[HASH_AT + 8..]
  }

  method Seal(hash: Hash, blob: seq<Byte>) returns (plan: seq<Byte>)
    requires |blob| >= HEADER_SIZE
    ensures plan == Patched(blob, Encode(Pair(hash.Self(blob))))
    ensures hash.Self(plan) == hash.Self(blob)
  {
    var h := hash.Self(blob);
    plan := Patched(blob, Encode(Pair(h)));
    assert Patched(plan, [0, 0, 0, 0, 0, 0, 0, 0]) == Patched(blob, [0, 0, 0, 0, 0, 0, 0, 0]);
  }

  /** Sealing changes the hash field of the header and nothing else. */
  lemma SealedHeader(l: Layout, f: Fixed, hash: nat, blob: seq<Byte>)
    requires InRange(l) && f.Valid() && hash < U64_LIMIT && |blob| >= HEADER_SIZE
    requires blob[..HEADER_SIZE] == Encode(HeaderWords(l, f, 0))
    ensures Patched(blob, Encode(Pair(hash)))[..HEADER_SIZE] == Encode(HeaderWords(l, f, hash))
  {
    var a, b := BeforeHash(l, f), AfterHash(l, f);
    EncodeAppend(a + Pair(0), b);
    EncodeAppend(a, Pair(0));
    EncodeAppend(a + Pair(hash), b);
    EncodeAppend(a, Pair(hash));
    PatchMiddle(blob, Encode(a), Encode(Pair(0)), Encode(b), Encode(Pair(hash)));
  }

  lemma PatchMiddle(blob: seq<Byte>, a: seq<Byte>, old_: seq<Byte>, b: seq<Byte>, new_: seq<Byte>)
    requires |blob| >= HEADER_SIZE && |a| == HASH_AT && |old_| == |new_| == 8 && |b| == 56
    requires blob[..HEADER_SIZE] == a + old_ + b
    ensures Patched(blob, new_)[..HEADER_SIZE] == a + new_ + b
  {
    var head := blob[..HEADER_SIZE];
    assert blob[..HASH_AT] == head[..HASH_AT] == a;
    assert blob[HASH_AT + 8..HEADER_SIZE] == head[HASH_AT + 8..] == b;
  }

  lemma SealedStands(blob: seq<Byte>, field: seq<Byte>, at: nat, bytes: seq<Byte>)
    requires |blob| >= HEADER_SIZE && |field| == 8 && at >= HEADER_SIZE && Stands(blob, at, bytes)
    ensures Stands(Patched(blob, field), at, bytes)
  {
    var plan := Patched(blob, field);
    forall k | 0 <= k < |bytes| ensures plan[at..at + |bytes|][k] == bytes[k] {
      assert blob[at..at + |bytes|][k] == bytes[k];
    }
  }

  // ------------------------------------------------------- compile, then load

  /** The programs, the frozen-weight packs (at offsets in their section), the initial
      image and the emit table; records are the source's packed structs. */
  datatype Content = Content(
    train: seq<seq<Byte>>, merge: seq<seq<Byte>>, eval: seq<seq<Byte>>, step: seq<seq<Byte>>,
    packs: seq<Piece>, rodataSize: nat, persist: seq<Byte>, emit: seq<seq<Byte>>)
  {
    ghost predicate Valid() {
      && Uniform(train, INSTRUCTION) && Uniform(merge, INSTRUCTION) && Uniform(eval, INSTRUCTION)
      && Uniform(step, INSTRUCTION) && Uniform(emit, EMIT) && Ordered(packs, rodataSize)
    }

    predicate Sized(l: Layout) {
      && l.trainCount == |train| && l.mergeCount == |merge| && l.evalCount == |eval| && l.stepCount == |step|
      && l.rodataSize == rodataSize && l.persistSize == |persist| && l.emitCount == |emit|
    }
  }

  function Shifted(packs: seq<Piece>, shift: nat): (r: seq<Piece>)
    ensures |r| == |packs|
    ensures forall i :: 0 <= i < |packs| ==> r[i] == Piece(shift + packs[i].at, packs[i].bytes, packs[i].inPlace)
  {
    seq(|packs|, i requires 0 <= i < |packs| => Piece(shift + packs[i].at, packs[i].bytes, packs[i].inPlace))
  }

  function Front(c: Content, l: Layout, header: seq<Byte>): seq<Piece> {
    [Piece(0, header, false), Piece(l.train, Concat(c.train), false), Piece(l.merge, Concat(c.merge), false),
     Piece(l.eval, Concat(c.eval), false), Piece(l.step, Concat(c.step), false)]
  }

  function Back(c: Content, l: Layout): seq<Piece> {
    [Piece(l.persist, c.persist, false), Piece(l.emit, Concat(c.emit), false)]
  }

  function Pieces(c: Content, l: Layout, header: seq<Byte>): seq<Piece> {
    Front(c, l, header) + Shifted(c.packs, l.rodata) + Back(c, l)
  }

  lemma StreamSize(records: seq<seq<Byte>>, size: nat)
    requires Uniform(records, size)
    ensures |Concat(records)| == size * |records|
  {
    ConcatLength(records, size);
    AreaIs(|records|, size);
  }

  lemma Sizes(c: Content)
    requires c.Valid()
    ensures |Concat(c.train)| == INSTRUCTION * |c.train| && |Concat(c.merge)| == INSTRUCTION * |c.merge|
    ensures |Concat(c.eval)| == INSTRUCTION * |c.eval| && |Concat(c.step)| == INSTRUCTION * |c.step|
    ensures |Concat(c.emit)| == EMIT * |c.emit|
  {
    StreamSize(c.train, INSTRUCTION);
    StreamSize(c.merge, INSTRUCTION);
    StreamSize(c.eval, INSTRUCTION);
    StreamSize(c.step, INSTRUCTION);
    StreamSize(c.emit, EMIT);
  }

  lemma OrderedJoins(a: seq<Piece>, b: seq<Piece>, middle: nat, total: nat)
    requires Ordered(a, middle) && Ordered(b, total) && middle <= total && forall i :: 0 <= i < |b| ==> middle <= b[i].at
    ensures Ordered(a + b, total)
  {
  }

  lemma FrontOrdered(c: Content, l: Layout, total: nat, header: seq<Byte>)
    requires c.Valid() && c.Sized(l) && WellLaid(l, total) && |header| == HEADER_SIZE
    ensures Ordered(Front(c, l, header), l.rodata)
  {
    Sizes(c);
  }

  /** The sections of a layout never run into each other: nothing is ever cut. */
  lemma PiecesOrdered(c: Content, l: Layout, total: nat, header: seq<Byte>)
    requires c.Valid() && c.Sized(l) && WellLaid(l, total) && |header| == HEADER_SIZE
    ensures Ordered(Pieces(c, l, header), total)
  {
    Sizes(c);
    var front, packs, back := Front(c, l, header), Shifted(c.packs, l.rodata), Back(c, l);
    FrontOrdered(c, l, total, header);
    assert Ordered(packs, l.persist);
    assert Ordered(back, total);
    OrderedJoins(front, packs, l.rodata, l.persist);
    OrderedJoins(front + packs, back, l.persist, total);
  }

  method Compile(c: Content, f: Fixed, hash: Hash) returns (plan: seq<Byte>, l: Layout)
    requires c.Valid() && f.Valid() && FitsU64(c)
    ensures WellLaid(l, |plan|) && c.Sized(l) && |plan| < U64_LIMIT
    ensures Holds(plan, c, l, f, hash)
    ensures GapsZero(plan, Pieces(c, l, Encode(HeaderWords(l, f, 0))))
  {
    var total;
    l, total := LayOut(|c.train|, |c.merge|, |c.eval|, |c.step|, c.rodataSize, |c.persist|, |c.emit|);
    BelowU64(c, l, total);
    var header := Encode(HeaderWords(l, f, 0));
    PiecesOrdered(c, l, total, header);
    var blob := Assemble(Pieces(c, l, header), total);
    LaidParts(blob, c, l, total, header);
    plan := Seal(hash, blob);
    SealedParts(blob, plan, c, l, f, hash);
    SealedGaps(blob, Encode(Pair(hash.Self(blob))), Pieces(c, l, header));
  }

  ghost predicate GapsZero(plan: seq<Byte>, pieces: seq<Piece>) {
    forall k :: 0 <= k < |plan| && (forall i :: 0 <= i < |pieces| ==> !Covers(pieces[i], k)) ==> plan[k] == 0
  }

  lemma SealedGaps(blob: seq<Byte>, field: seq<Byte>, pieces: seq<Piece>)
    requires |blob| >= HEADER_SIZE && |field| == 8 && GapsZero(blob, pieces)
    requires pieces != [] && pieces[0].at == 0 && |pieces[0].bytes| == HEADER_SIZE
    ensures GapsZero(Patched(blob, field), pieces)
  {
    forall k | 0 <= k < |blob| && (forall i :: 0 <= i < |pieces| ==> !Covers(pieces[i], k))
      ensures Patched(blob, field)[k] == 0
    {
      assert !Covers(pieces[0], k);
    }
  }

  /** The sizes add up to less than 2^64 - 2^16, so no offset wraps. */
  predicate FitsU64(c: Content) {
    INSTRUCTION * (|c.train| + |c.merge| + |c.eval| + |c.step|) + c.rodataSize + |c.persist| + EMIT * |c.emit| < U64_LIMIT - 0x1_0000
  }

  lemma BelowU64(c: Content, l: Layout, total: nat)
    requires FitsU64(c) && c.Sized(l) && WellLaid(l, total) && Tight(l, total)
    ensures total < U64_LIMIT && InRange(l)
  {
  }

  /** What a plan holds, and where. */
  ghost predicate Holds(plan: seq<Byte>, c: Content, l: Layout, f: Fixed, hash: Hash)
    requires f.Valid()
  {
    && |plan| >= HEADER_SIZE && InRange(l)
    && plan[..HEADER_SIZE] == Encode(HeaderWords(l, f, hash.Self(plan)))
    && Stands(plan, l.train, Concat(c.train)) && Stands(plan, l.merge, Concat(c.merge))
    && Stands(plan, l.eval, Concat(c.eval)) && Stands(plan, l.step, Concat(c.step))
    && Stands(plan, l.persist, c.persist) && Stands(plan, l.emit, Concat(c.emit))
    && (forall i :: 0 <= i < |c.packs| ==> Stands(plan, l.rodata + c.packs[i].at, c.packs[i].bytes))
  }

  /** The laid pieces, one by one. */
  ghost predicate Parts(blob: seq<Byte>, c: Content, l: Layout, header: seq<Byte>) {
    && Stands(blob, 0, header)
    && Stands(blob, l.train, Concat(c.train)) && Stands(blob, l.merge, Concat(c.merge))
    && Stands(blob, l.eval, Concat(c.eval)) && Stands(blob, l.step, Concat(c.step))
    && Stands(blob, l.persist, c.persist) && Stands(blob, l.emit, Concat(c.emit))
    && (forall i :: 0 <= i < |c.packs| ==> Stands(blob, l.rodata + c.packs[i].at, c.packs[i].bytes))
  }

  lemma LaidParts(blob: seq<Byte>, c: Content, l: Layout, total: nat, header: seq<Byte>)
    requires Laid(blob, Pieces(c, l, header), total)
    ensures Parts(blob, c, l, header)
  {
    var pieces := Pieces(c, l, header);
    var n := |c.packs|;
    assert pieces[0] == Front(c, l, header)[0] && pieces[1] == Front(c, l, header)[1] && pieces[2] == Front(c, l, header)[2];
    assert pieces[3] == Front(c, l, header)[3] && pieces[4] == Front(c, l, header)[4];
    assert pieces[n + 5] == Back(c, l)[0] && pieces[n + 6] == Back(c, l)[1];
    forall i | 0 <= i < n ensures Stands(blob, l.rodata + c.packs[i].at, c.packs[i].bytes) {
      assert pieces[i + 5] == Shifted(c.packs, l.rodata)[i];
    }
  }

  lemma SealedParts(blob: seq<Byte>, plan: seq<Byte>, c: Content, l: Layout, f: Fixed, hash: Hash)
    requires f.Valid() && InRange(l) && WellLaid(l, |blob|) && Parts(blob, c, l, Encode(HeaderWords(l, f, 0)))
    requires plan == Patched(blob, Encode(Pair(hash.Self(blob)))) && hash.Self(plan) == hash.Self(blob)
    ensures Holds(plan, c, l, f, hash)
  {
    var h := hash.Self(blob);
    assert blob[..HEADER_SIZE] == blob[0..0 + HEADER_SIZE];
    SealedHeader(l, f, h, blob);
    var field := Encode(Pair(h));
    SealedStands(blob, field, l.train, Concat(c.train));
    SealedStands(blob, field, l.merge, Concat(c.merge));
    SealedStands(blob, field, l.eval, Concat(c.eval));
    SealedStands(blob, field, l.step, Concat(c.step));
    SealedStands(blob, field, l.persist, c.persist);
    SealedStands(blob, field, l.emit, Concat(c.emit));
    forall i | 0 <= i < |c.packs| ensures Stands(plan, l.rodata + c.packs[i].at, c.packs[i].bytes) {
      SealedStands(blob, field, l.rodata + c.packs[i].at, c.packs[i].bytes);
    }
  }

  const MAGIC: Word := 0x55454553

  datatype Loaded = Loaded(train: seq<seq<Byte>>, merge: seq<seq<Byte>>, eval: seq<seq<Byte>>, step: seq<seq<Byte>>, emit: seq<seq<Byte>>)

  /** Decode one stream of packed structs. */
  method DecodeStream(plan: seq<Byte>, at: nat, count: nat, size: nat) returns (records: seq<seq<Byte>>)
    requires RangeOk(at, Area(count, size), |plan|)
    ensures records == RowsOf(plan[at..at + Area(count, size)], count, size)
  {
    var bytes := plan[at..at + Area(count, size)];
    records := [];
    for i := 0 to count
      invariant records == RowsOf(bytes, count, size)[..i]
    {
      records := records + [Row(bytes, count, size, i)];
    }
  }

  /** A stream that stands in the plan is the stream decoded. */
  lemma StreamBack(plan: seq<Byte>, at: nat, records: seq<seq<Byte>>, size: nat)
    requires Uniform(records, size) && Stands(plan, at, Concat(records))
    ensures RangeOk(at, Area(|records|, size), |plan|)
    ensures RowsOf(plan[at..at + Area(|records|, size)], |records|, size) == records
  {
    ConcatLength(records, size);
    var bytes := plan[at..at + Area(|records|, size)];
    forall i | 0 <= i < |records| ensures RowsOf(bytes, |records|, size)[i] == records[i] {
      RowOfConcat(records, size, i);
    }
  }

  const MAX_VERSION: nat := 18
  const OLDEST_READABLE: nat := 4
  const TILES_VERSION: nat := 11
  const ACCUM_VERSION: nat := 9

  /** The header fields the plan contract reads beside the sections. */
  datatype Facts = Facts(
    version: nat, arena: nat, persistent: nat, inputRef: nat, inputFloats: nat, labelRef: nat, labelBytes: nat,
    labelKind: nat, lossRef: nat, tileK: nat, tileN: nat, batch: nat, accum: nat)

  function FactsIn(w: seq<Word>): Facts
    requires |w| == 70
  {
    Facts(Bits(w[1]), FieldAt(w, 2), FieldAt(w, 4), FieldAt(w, 6), FieldAt(w, 8), FieldAt(w, 10), FieldAt(w, 12),
          Bits(w[14]), FieldAt(w, 16), Bits(w[43]), Bits(w[57]), FieldAt(w, 44), Bits(w[63]))
  }

  /** The two top bits of a ref name its address space. */
  predicate IsRodataRef(ref: nat) { ref >= 0x8000_0000_0000_0000 }

  function RefOffset(ref: nat): nat { ref % 0x4000_0000_0000_0000 }

  /** A ref is its address space (0 and 1: the arena with and without the source bit, 2 and 3: rodata) and its offset. */
  lemma RefParts(space: nat, offset: nat, ref: nat)
    requires space < 4 && offset < 0x4000_0000_0000_0000 && ref == space * 0x4000_0000_0000_0000 + offset
    ensures RefOffset(ref) == offset && (IsRodataRef(ref) <==> space >= 2)
  {
  }

  /** A slot the engine reads or writes through a float pointer: aligned, in the arena. */
  predicate SlotOk(ref: nat, bytes: nat, arena: nat) {
    !IsRodataRef(ref) && RefOffset(ref) % 4 == 0 && RangeOk(RefOffset(ref), bytes, arena)
  }

  /** Everything VerifyPlanContract asks beside the section ranges. */
  predicate FactsOk(f: Facts, steps: nat, persistInit: nat) {
    && (f.version < TILES_VERSION ==> f.tileK == 0 && f.tileN == 0) && f.tileK % 4 == 0
    && (f.accum > 1 <==> steps > 0) && (f.version < ACCUM_VERSION ==> f.accum <= 1 && steps == 0)
    && f.batch != 0 && f.inputFloats != 0
    && f.arena <= U64_LIMIT - 64 && persistInit <= f.arena && f.persistent <= f.arena
    && 4 * f.inputFloats < U64_LIMIT && SlotOk(f.inputRef, 4 * f.inputFloats, f.arena)
    && (f.labelKind != 0 ==> SlotOk(f.labelRef, f.labelBytes, f.arena))
    && SlotOk(f.lossRef, 4, f.arena)
  }

  predicate PlanOk(w: seq<Word>, size: nat)
    requires |w| == 70
  {
    SectionsOk(LayoutIn(w), size) && FactsOk(FactsIn(w), LayoutIn(w).stepCount, LayoutIn(w).persistSize)
  }

  /** Magic, version, seal and plan contract, on the decoded header of a plan. */
  predicate Accepts(w: seq<Word>, self: nat, size: nat)
    requires |w| == 70
  {
    w[0] == MAGIC && OLDEST_READABLE <= Bits(w[1]) <= MAX_VERSION && FieldAt(w, 54) == self && PlanOk(w, size)
  }

  /** Every section inside the plan; a product that overflows is refused. */
  method CheckSections(l: Layout, size: nat) returns (ok: bool)
    requires InRange(l)
    ensures ok == SectionsOk(l, size)
  {
    var train, merge := MulU64(l.trainCount, INSTRUCTION), MulU64(l.mergeCount, INSTRUCTION);
    var eval, step := MulU64(l.evalCount, INSTRUCTION), MulU64(l.stepCount, INSTRUCTION);
    var emit := MulU64(l.emitCount, EMIT);
    if train.Err? || merge.Err? || eval.Err? || step.Err? || emit.Err? { return false; }
    if !RangeOk(l.train, train.value, size) || !RangeOk(l.merge, merge.value, size) { return false; }
    if !RangeOk(l.eval, eval.value, size) || !RangeOk(l.step, step.value, size) { return false; }
    if !RangeOk(l.rodata, l.rodataSize, size) || !RangeOk(l.persist, l.persistSize, size) { return false; }
    ok := RangeOk(l.emit, emit.value, size);
  }

  method VerifyPlanContract(w: seq<Word>, size: nat) returns (ok: bool)
    requires |w| == 70
    ensures ok == PlanOk(w, size)
  {
    var l, f := LayoutIn(w), FactsIn(w);
    var sectionsOk := CheckSections(l, size);
    if !sectionsOk { return false; }
    if f.version < TILES_VERSION && (f.tileK != 0 || f.tileN != 0) { return false; }
    if f.tileK % 4 != 0 { return false; }
    if (f.accum > 1) != (l.stepCount > 0) { return false; }
    if f.version < ACCUM_VERSION && (f.accum > 1 || l.stepCount > 0) { return false; }
    if f.batch == 0 || f.inputFloats == 0 { return false; }
    if f.arena > U64_LIMIT - 1 - 63 { return false; }
    if l.persistSize > f.arena || f.persistent > f.arena { return false; }
    var inputOk := CheckSlot(f.inputRef, f.inputFloats, 4, f.arena);
    if !inputOk { return false; }
    if f.labelKind != 0 {
      var labelOk := CheckSlot(f.labelRef, f.labelBytes, 1, f.arena);
      if !labelOk { return false; }
    }
    ok := CheckSlot(f.lossRef, 1, 4, f.arena);
  }

  /** A slot of `count` elements of `size` bytes; the product is overflow-checked. */
  method CheckSlot(ref: nat, count: nat, size: nat, arena: nat) returns (ok: bool)
    requires count < U64_LIMIT && 0 < size <= 4
    ensures ok <==> size * count < U64_LIMIT && SlotOk(ref, size * count, arena)
  {
    if IsRodataRef(ref) { return false; }
    if RefOffset(ref) % 4 != 0 { return false; }
    var bytes := MulU64(count, size);
    if bytes.Err? { return false; }
    ok := RangeOk(RefOffset(ref), bytes.value, arena);
  }

  function HeaderOf(plan: seq<Byte>): (w: seq<Word>)
    requires |plan| >= HEADER_SIZE
    ensures |w| == 70
  {
    Decode(plan[..HEADER_SIZE])
  }

  /** Initialize up to the decoded streams: accepted exactly when magic, version, seal and
      the whole plan contract hold. */
  method LoadPlan(plan: seq<Byte>, hash: Hash) returns (r: Result<Loaded>)
    ensures r.Ok? <==> |plan| >= HEADER_SIZE && Accepts(HeaderOf(plan), hash.Self(plan), |plan|)
    ensures r.Ok? ==> StreamsOf(plan, LayoutIn(HeaderOf(plan)), r.value)
  {
    if |plan| < HEADER_SIZE { return Err("plan smaller than its header"); }
    var w := HeaderOf(plan);
    if w[0] != MAGIC { return Err("bad plan magic"); }
    if Bits(w[1]) < OLDEST_READABLE || Bits(w[1]) > MAX_VERSION { return Err("unsupported plan version"); }
    if hash.Self(plan) != FieldAt(w, 54) { return Err("plan hash mismatch"); }
    var ok := VerifyPlanContract(w, |plan|);
    if !ok { return Err("plan contract"); }
    var loaded := DecodeStreams(plan, LayoutIn(w));
    r := Ok(loaded);
  }

  ghost predicate StreamsOf(plan: seq<Byte>, l: Layout, loaded: Loaded) {
    && IsStream(plan, l.train, l.trainCount, INSTRUCTION, loaded.train)
    && IsStream(plan, l.merge, l.mergeCount, INSTRUCTION, loaded.merge)
    && IsStream(plan, l.eval, l.evalCount, INSTRUCTION, loaded.eval)
    && IsStream(plan, l.step, l.stepCount, INSTRUCTION, loaded.step)
    && IsStream(plan, l.emit, l.emitCount, EMIT, loaded.emit)
  }

  ghost predicate IsStream(plan: seq<Byte>, at: nat, count: nat, size: nat, records: seq<seq<Byte>>) {
    RangeOk(at, Area(count, size), |plan|) && records == RowsOf(plan[at..at + Area(count, size)], count, size)
  }

  method DecodeStreams(plan: seq<Byte>, l: Layout) returns (loaded: Loaded)
    requires SectionsOk(l, |plan|)
    ensures StreamsOf(plan, l, loaded)
  {
    AreaIs(l.trainCount, INSTRUCTION);
    AreaIs(l.mergeCount, INSTRUCTION);
    AreaIs(l.evalCount, INSTRUCTION);
    AreaIs(l.stepCount, INSTRUCTION);
    AreaIs(l.emitCount, EMIT);
    var train := DecodeStream(plan, l.train, l.trainCount, INSTRUCTION);
    var merge := DecodeStream(plan, l.merge, l.mergeCount, INSTRUCTION);
    var eval := DecodeStream(plan, l.eval, l.evalCount, INSTRUCTION);
    var step := DecodeStream(plan, l.step, l.stepCount, INSTRUCTION);
    var emit := DecodeStream(plan, l.emit, l.emitCount, EMIT);
    loaded := Loaded(train, merge, eval, step, emit);
  }

  /** The header fields the compiler fills in beside the sections. */
  function FactsOf(f: Fixed): Facts
    requires f.Valid()
  {
    Facts(Bits(f.prefix[1]), FieldAt(f.prefix, 2), FieldAt(f.prefix, 4), FieldAt(f.prefix, 6), FieldAt(f.prefix, 8),
          FieldAt(f.prefix, 10), FieldAt(f.prefix, 12), Bits(f.prefix[14]), FieldAt(f.prefix, 16), Bits(f.middle[5]),
          Bits(f.suffix[1]), FieldAt(f.middle, 6), Bits(f.suffix[7]))
  }

  lemma FactsBack(l: Layout, f: Fixed, hash: nat)
    requires InRange(l) && f.Valid() && hash < U64_LIMIT
    ensures FactsIn(HeaderWords(l, f, hash)) == FactsOf(f)
  {
    var w := HeaderWords(l, f, hash);
    assert w[..18] == f.prefix;
    assert w[38..48] == f.middle;
    assert w[56..66] == f.suffix;
    assert w[1] == w[..18][1] && w[14] == w[..18][14] && w[43] == w[38..48][5] && w[57] == w[56..66][1] && w[63] == w[56..66][7];
    FieldOfSlice(w, 0, 18, 2);
    FieldOfSlice(w, 0, 18, 4);
    FieldOfSlice(w, 0, 18, 6);
    FieldOfSlice(w, 0, 18, 8);
    FieldOfSlice(w, 0, 18, 10);
    FieldOfSlice(w, 0, 18, 12);
    FieldOfSlice(w, 0, 18, 16);
    FieldOfSlice(w, 38, 48, 6);
  }

  lemma FieldOfSlice(w: seq<Word>, from: nat, to: nat, i: nat)
    requires from <= to <= |w| && i + 2 <= to - from
    ensures FieldAt(w[from..to], i) == FieldAt(w, from + i)
  {
  }

  /** A header the compiler writes: this format's magic and version, and fields the plan
      contract accepts for these programs and this initial image. */
  predicate Written(f: Fixed, c: Content)
    requires f.Valid()
  {
    f.prefix[0] == MAGIC && FactsOf(f).version == MAX_VERSION && FactsOk(FactsOf(f), |c.step|, |c.persist|)
  }

  /** Assembly and load undo each other, for every content that fits 64 bits. */
  method CompileThenLoad(c: Content, f: Fixed, hash: Hash) returns (r: Result<Loaded>)
    requires c.Valid() && f.Valid() && FitsU64(c) && Written(f, c)
    ensures r == Ok(Loaded(c.train, c.merge, c.eval, c.step, c.emit))
  {
    var plan, l := Compile(c, f, hash);
    HeaderBack(plan, c, l, f, hash);
    WellLaidAccepted(l, |plan|);
    HeaderAccepted(l, c, f, hash.Self(plan), |plan|);
    r := LoadPlan(plan, hash);
    StreamsBack(plan, c, l, f, hash, r.value);
  }

  lemma HeaderBack(plan: seq<Byte>, c: Content, l: Layout, f: Fixed, hash: Hash)
    requires f.Valid() && Holds(plan, c, l, f, hash)
    ensures HeaderOf(plan) == HeaderWords(l, f, hash.Self(plan))
  {
    DecodeEncode(HeaderWords(l, f, hash.Self(plan)));
  }

  lemma HeaderAccepted(l: Layout, c: Content, f: Fixed, hash: nat, size: nat)
    requires InRange(l) && f.Valid() && hash < U64_LIMIT && SectionsOk(l, size) && c.Sized(l) && Written(f, c)
    ensures Accepts(HeaderWords(l, f, hash), hash, size) && LayoutIn(HeaderWords(l, f, hash)) == l
  {
    HeaderRoundTrip(l, f, hash);
    FactsBack(l, f, hash);
    assert HeaderWords(l, f, hash)[..18] == f.prefix;
    assert HeaderWords(l, f, hash)[0] == HeaderWords(l, f, hash)[..18][0];
  }

  lemma StreamsBack(plan: seq<Byte>, c: Content, l: Layout, f: Fixed, hash: Hash, loaded: Loaded)
    requires c.Valid() && f.Valid() && c.Sized(l) && Holds(plan, c, l, f, hash) && StreamsOf(plan, l, loaded)
    ensures loaded == Loaded(c.train, c.merge, c.eval, c.step, c.emit)
  {
    StreamBack(plan, l.train, c.train, INSTRUCTION);
    StreamBack(plan, l.merge, c.merge, INSTRUCTION);
    StreamBack(plan, l.eval, c.eval, INSTRUCTION);
    StreamBack(plan, l.step, c.step, INSTRUCTION);
    StreamBack(plan, l.emit, c.emit, EMIT);
  }

  // ---------------------------------------------------------- the step program

  const SGD_STEP: nat := 17
  const ADAMW_STEP: nat := 18
  const CLIP_NORM: nat := 28

  /** The opcode is an instruction's first two bytes. */
  function OpcodeOf(ins: seq<Byte>): nat
    requires |ins| == INSTRUCTION
  {
    (ins[0] as int) + 256 * (ins[1] as int)
  }

  /** What belongs to the step program: the clip and the two optimizers. */
  predicate IsStep(ins: seq<Byte>) {
    |ins| == INSTRUCTION && (OpcodeOf(ins) == CLIP_NORM || OpcodeOf(ins) == SGD_STEP || OpcodeOf(ins) == ADAMW_STEP)
  }

  /** The lowered stream as two programs. Without accumulation it is one; with it, the cut is
      before the first step instruction, and a stream that has none is refused. The header
      then records more than one micro-step exactly when there is a step program. */
  method SplitStep(stream: seq<seq<Byte>>, accum: nat, optimizer: bool)
    returns (r: Result<(seq<seq<Byte>>, seq<seq<Byte>>)>, recorded: nat)
    requires Uniform(stream, INSTRUCTION) && accum >= 1
    ensures r.Err? <==> accum > 1 && optimizer && forall i :: 0 <= i < |stream| ==> !IsStep(stream[i])
    ensures r.Ok? ==> r.value.0 + r.value.1 == stream && (recorded > 1 <==> r.value.1 != [])
    ensures r.Ok? && recorded > 1 ==> recorded == accum && IsStep(r.value.1[0]) && forall i :: 0 <= i < |r.value.0| ==> !IsStep(r.value.0[i])
    ensures r.Ok? && recorded <= 1 ==> r.value.0 == stream && (accum == 1 || !optimizer)
  {
    recorded := if optimizer then accum else 1;
    if accum == 1 || !optimizer { return Ok((stream, [])), recorded; }
    var i := 0;
    while i < |stream|
      invariant i <= |stream| && forall k :: 0 <= k < i ==> !IsStep(stream[k])
    {
      var op := (stream[i][0] as int) + 256 * (stream[i][1] as int);
      if op == CLIP_NORM || op == SGD_STEP || op == ADAMW_STEP { break; }
      i := i + 1;
    }
    if i == |stream| { return Err("the stream carries no optimizer step"), recorded; }
    r := Ok((stream[..i], stream[i..]));
    assert stream[i..][0] == stream[i];
  }
}
