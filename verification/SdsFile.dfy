// The .sds file format: writing and reading a dataset (runtime/pipeline/dataset.h,
// dataset.cc).
module SdsFile {
  import opened Scalar
  import opened Parallel
  import opened Rows
  import opened Corpus
  import opened Bytes
  import opened Feeding

  const MAGIC: Word := 0x31534453
  const HEADER_WORDS := 10
  const HEADER_BYTES := 40
  const CHUNK_BUDGET := 256 * 1024

  /** A buffer that holds the first k rows and gets the next one. */
  lemma RowLands(before: seq<Word>, after: seq<Word>, rows: seq<seq<Word>>, k: nat, next: nat, at: nat)
    requires k < |rows| && next == k + 1 && at + |rows[k]| <= |before|
    requires before[..at] == Concat(rows[..k]) && after == Spliced(before, at, rows[k])
    ensures after[..at + |rows[k]|] == Concat(rows[..next])
  {
    assert rows[..next] == rows[..k] + [rows[k]];
    ConcatOne(rows[..k], rows[k]);
  }

  // ----- Writing -----

  /** The header fields, in file order. */
  datatype Head = Head(version: nat, n: nat, inputDim: nat, labelKind: nat, inputKind: nat, labelDim: nat) {
    predicate InRange() {
      && version < U32_LIMIT && n < U64_LIMIT && inputDim < U64_LIMIT
      && labelKind < U32_LIMIT && inputKind < U32_LIMIT && labelDim < U64_LIMIT
    }

    function Words(): (w: seq<Word>)
      requires InRange()
      ensures |w| == HEADER_WORDS
    {
      [MAGIC, ToWord(version), LowWord(n), HighWord(n), LowWord(inputDim), HighWord(inputDim),
       ToWord(labelKind), ToWord(inputKind), LowWord(labelDim), HighWord(labelDim)]
    }

    /** What a reader accepts. */
    predicate Good() {
      && 1 <= version <= 2 && n > 0 && inputDim > 0 && labelKind <= 2
      && (labelKind == 2 ==> 0 < labelDim <= (U64_LIMIT - 1) / 4)
      && inputKind <= 1 && (version < 2 ==> inputKind == 0)
      && (inputKind == 1 ==> labelKind == 1 && labelDim == 0)
    }

    function LabelWords(): nat { if labelKind == 1 then 1 else if labelKind == 2 then labelDim else 0 }

    function RecordWords(): nat { if inputKind == 1 then inputDim + 1 else inputDim + LabelWords() }
  }

  function HeadFrom(w: seq<Word>): (h: Head)
    requires |w| >= HEADER_WORDS
    ensures h.InRange()
  {
    Head(Bits(w[1]), U64(w[2], w[3]), U64(w[4], w[5]), Bits(w[6]), Bits(w[7]), U64(w[8], w[9]))
  }

  function HeadOf(c: Corpus): Head {
    match c
    case Tokens(n, d, _) => Head(2, n, d, 1, 1, 0)
    case Samples(n, d, kind, dim, _, _) => Head(1, n, d, kind, 0, dim)
  }

  lemma HeadRoundTrip(h: Head, rest: seq<Word>)
    requires h.InRange()
    ensures HeadFrom(h.Words() + rest) == h
  {
    U64RoundTrip(h.n);
    U64RoundTrip(h.inputDim);
    U64RoundTrip(h.labelDim);
  }

  /** Whole records: the input words, then the label words. */
  function RecordRows(c: Corpus): (rows: seq<seq<Word>>)
    requires c.Valid()
    ensures |rows| == c.n && forall i :: 0 <= i < c.n ==> rows[i] == c.InputOf(i) + c.LabelOf(i)
  {
    seq(c.n, i requires 0 <= i < c.n => c.InputOf(i) + c.LabelOf(i))
  }

  /** The sample section. */
  function Payload(c: Corpus): seq<Word>
    requires c.Valid()
  {
    if c.Tokens? then c.tokens else Concat(RecordRows(c))
  }

  lemma PayloadLength(c: Corpus)
    requires c.Valid()
    ensures |Payload(c)| == Area(c.n, HeadOf(c).RecordWords())
  {
    if c.Samples? {
      ConcatLength(RecordRows(c), c.inputDim + c.LabelWords());
    }
  }

  /** Unlabeled records are the input block itself. */
  lemma UnlabeledPayload(c: Corpus)
    requires c.Valid() && c.Samples? && c.LabelWords() == 0
    ensures Payload(c) == c.inputs
  {
    forall i | 0 <= i < c.n ensures RecordRows(c)[i] == RowsOf(c.inputs, c.n, c.inputDim)[i] {
      assert c.LabelOf(i) == [];
    }
    assert RecordRows(c) == RowsOf(c.inputs, c.n, c.inputDim);
    ConcatRows(c.inputs, c.n, c.inputDim);
  }

  predicate Savable(c: Corpus) {
    && c.Valid() && HeadOf(c).InRange()
    && (c.Samples? && c.labelKind == 2 ==> 4 * c.labelDim < U64_LIMIT)
  }

  function FileOf(c: Corpus): (file: seq<Byte>)
    requires Savable(c)
    ensures |file| == HEADER_BYTES + 4 * |Payload(c)|
  {
    Encode(HeadOf(c).Words() + Payload(c))
  }

  /** Whole records per bounded chunk. */
  function PerChunk(recordBytes: nat): (k: nat)
    requires recordBytes > 0
    ensures k > 0 && (k == 1 || k * recordBytes <= CHUNK_BUDGET)
  {
    if recordBytes >= CHUNK_BUDGET then 1 else
    DivisionBounds(CHUNK_BUDGET, recordBytes);
    CHUNK_BUDGET / recordBytes
  }

  /** One interleaved record after the first s of a chunk. */
  method PutRecord(chunk: array<Word>, at: nat, input: seq<Word>, tag: seq<Word>,
                   ghost rows: seq<seq<Word>>, ghost s: nat, ghost next: nat)
    requires s < |rows| && next == s + 1 && rows[s] == input + tag
    requires at + |input| + |tag| <= chunk.Length && chunk[..at] == Concat(rows[..s])
    modifies chunk
    ensures chunk[..at + |input| + |tag|] == Concat(rows[..next])
  {
    ghost var before := chunk[..];
    CopyWords(chunk, at, input);
    CopyWords(chunk, at + |input|, tag);
    SplicedTwice(before, at, input, tag);
    RowLands(before, chunk[..], rows, s, next, at);
  }

  lemma SplicedTwice(before: seq<Word>, at: nat, a: seq<Word>, b: seq<Word>)
    requires at + |a| + |b| <= |before|
    ensures Spliced(Spliced(before, at, a), at + |a|, b) == Spliced(before, at, a + b)
  {
  }

  /** Interleave the records from i on into the staging chunk. */
  method FillChunk(c: Corpus, i: nat, run: nat, width: nat, chunk: array<Word>, ghost rows: seq<seq<Word>>)
    requires c.Valid() && c.Samples? && i + run <= c.n && width == c.inputDim + c.LabelWords()
    requires Area(run, width) <= chunk.Length && |rows| == run
    requires forall s, k :: 0 <= s < run && k == i + s ==> rows[s] == c.InputOf(k) + c.LabelOf(k)
    modifies chunk
    ensures chunk[..Area(run, width)] == Concat(rows)
  {
    var s, at := 0, 0;
    while s < run
      invariant s <= run && at == Area(s, width) <= chunk.Length && chunk[..at] == Concat(rows[..s])
    {
      AreaFits(s + 1, 0, run, width);
      AreaNext(s, width);
      var k := i + s;
      var next := s + 1;
      PutRecord(chunk, at, c.InputOf(k), c.LabelOf(k), rows, s, next);
      s, at := next, at + width;
    }
    assert rows[..run] == rows;
  }

  /** The file is the header and the sample section, whatever the chunk size. */
  method SaveToFile(c: Corpus) returns (file: seq<Byte>)
    requires Savable(c)
    ensures file == FileOf(c)
  {
    file := Encode(HeadOf(c).Words());
    if c.Tokens? {
      EncodeAppend(HeadOf(c).Words(), c.tokens);
      return file + Encode(c.tokens);
    }
    if c.LabelWords() == 0 {
      UnlabeledPayload(c);
      EncodeAppend(HeadOf(c).Words(), c.inputs);
      return file + Encode(c.inputs);
    }
    file := WriteRecords(c, file);
    EncodeAppend(HeadOf(c).Words(), Payload(c));
  }

  method WriteRecords(c: Corpus, head: seq<Byte>) returns (file: seq<Byte>)
    requires c.Valid() && c.Samples?
    ensures file == head + Encode(Payload(c))
  {
    var width := c.inputDim + c.LabelWords();
    var perChunk := PerChunk(4 * width);
    var chunkWords := Offset(perChunk, width);
    var chunk := new Word[chunkWords];
    ghost var rows := RecordRows(c);
    file := head;
    var i := 0;
    while i < c.n
      invariant i <= c.n && file == head + Encode(Concat(rows[..i]))
    {
      var run := if perChunk <= c.n - i then perChunk else c.n - i;
      var t := i + run;
      AreaFits(run, 0, perChunk, width);
      var bytes := WriteChunk(c, i, run, t, width, chunk);
      StreamGrows(head, rows, i, t);
      file := file + bytes;
      i := t;
    }
    assert rows[..c.n] == rows;
  }

  method WriteChunk(c: Corpus, i: nat, run: nat, t: nat, width: nat, chunk: array<Word>) returns (bytes: seq<Byte>)
    requires c.Valid() && c.Samples? && i + run == t <= c.n && width == c.inputDim + c.LabelWords()
    requires Area(run, width) <= chunk.Length
    modifies chunk
    ensures bytes == Encode(Concat(RecordRows(c)[i..t]))
  {
    FillChunk(c, i, run, width, chunk, RecordRows(c)[i..t]);
    var used := Offset(run, width);
    bytes := Encode(chunk[..used]);
  }

  lemma StreamGrows(head: seq<Byte>, rows: seq<seq<Word>>, i: nat, t: nat)
    requires i <= t <= |rows|
    ensures head + Encode(Concat(rows[..i])) + Encode(Concat(rows[i..t])) == head + Encode(Concat(rows[..t]))
  {
    RowsJoin(rows, i, t);
    EncodeAppend(Concat(rows[..i]), Concat(rows[i..t]));
  }

  lemma RowsJoin(rows: seq<seq<Word>>, i: nat, t: nat)
    requires i <= t <= |rows|
    ensures Concat(rows[..t]) == Concat(rows[..i]) + Concat(rows[i..t])
  {
    assert rows[..t] == rows[..i] + rows[i..t];
    ConcatSplits(rows[..i], rows[i..t]);
  }

  // ----- Reading -----

  ghost predicate HeadNames(h: Head, c: Corpus) {
    && c.n == h.n && c.inputDim == h.inputDim
    && if h.inputKind == 1 then c.Tokens? else c.Samples? && c.labelKind == h.labelKind && c.labelDim == h.labelDim
  }

  /** The words of a file of `size` bytes name this corpus, and the host can hold it. */
  ghost predicate Names(w: seq<Word>, size: nat, c: Corpus, sizeMax: nat)
    requires c.Valid() && |w| >= HEADER_WORDS
  {
    var end := HEADER_WORDS + |Payload(c)|;
    && w[0] == MAGIC && HeadFrom(w).Good() && HeadNames(HeadFrom(w), c)
    && 4 * |Payload(c)| <= size - HEADER_BYTES && 4 * |Payload(c)| <= sizeMax
    && end <= |w| && w[HEADER_WORDS..end] == Payload(c)
  }

  /** The file is a dataset file of this corpus; bytes after the sample section are
      not looked at. */
  ghost predicate Parses(file: seq<Byte>, c: Corpus, sizeMax: nat) {
    c.Valid() && |file| >= HEADER_BYTES && Names(Decode(file), |file|, c, sizeMax)
  }

  /** A saved file parses as the corpus saved. */
  lemma SavedParses(c: Corpus, sizeMax: nat)
    requires Savable(c) && 4 * |Payload(c)| <= sizeMax
    ensures Parses(FileOf(c), c, sizeMax)
  {
    DecodeEncode(HeadOf(c).Words() + Payload(c));
    SavedNames(c, HeadOf(c).Words(), sizeMax);
  }

  lemma SavedNames(c: Corpus, head: seq<Word>, sizeMax: nat)
    requires Savable(c) && 4 * |Payload(c)| <= sizeMax && head == HeadOf(c).Words()
    ensures Names(head + Payload(c), HEADER_BYTES + 4 * |Payload(c)|, c, sizeMax)
  {
    HeadRoundTrip(HeadOf(c), Payload(c));
    SectionAfterHead(head, Payload(c));
  }

  lemma SectionAfterHead(head: seq<Word>, payload: seq<Word>)
    requires |head| == HEADER_WORDS
    ensures (head + payload)[HEADER_WORDS..HEADER_WORDS + |payload|] == payload
    ensures (head + payload)[0] == head[0]
  {
  }

  lemma FourTimes(n: nat, w: nat)
    ensures n * (4 * w) == 4 * Area(n, w)
    ensures n > 0 ==> w <= Area(n, w)
  {
    AreaIs(n, w);
    AreaIs(n, 4 * w);
    if n > 0 {
      AreaFits(1, 0, n, w);
      AreaNext(0, w);
    }
  }

  /** The sample section's words, if it fits the file and the host's address space;
      a product that overflows cannot fit. */
  method CheckSizes(h: Head, fileSize: nat, sizeMax: nat) returns (words: Option<nat>)
    requires h.Good() && h.InRange() && HEADER_BYTES <= fileSize < U64_LIMIT
    ensures words.Some? <==>
      && HEADER_BYTES + 4 * Area(h.n, h.RecordWords()) <= fileSize
      && 4 * Area(h.n, h.RecordWords()) <= sizeMax
    ensures words.Some? ==> words.value == Area(h.n, h.RecordWords())
  {
    FourTimes(h.n, h.RecordWords());
    var record;
    if h.inputKind == 1 {
      if h.inputDim >= U64_LIMIT - 1 { return None; }
      record := MulU64(h.inputDim + 1, 4);
    } else {
      var labelBytes := 4 * h.LabelWords();
      record := MulU64(h.inputDim, 4);
      if record.Ok? && record.value > U64_LIMIT - 1 - labelBytes { return None; }
      if record.Ok? { record := Ok(record.value + labelBytes); }
    }
    if record.Err? { return None; }
    assert record.value == 4 * h.RecordWords();
    var payload := MulU64(h.n, record.value);
    if payload.Err? || payload.value > fileSize - HEADER_BYTES || payload.value > sizeMax { return None; }
    words := Some(payload.value / 4);
  }

  /** The header of an acceptable file. */
  method ReadHead(file: seq<Byte>) returns (r: Result<Head>)
    ensures r.Ok? <==> |file| >= HEADER_BYTES && Decode(file)[0] == MAGIC && HeadFrom(Decode(file)).Good()
    ensures r.Ok? ==> r.value == HeadFrom(Decode(file))
  {
    if |file| < 4 || WordAt(file, 0) != MAGIC { return Err("bad magic"); }
    if |file| < 8 { return Err("unsupported version"); }
    var version := Bits(WordAt(file, 4));
    if version < 1 || version > 2 { return Err("unsupported version"); }
    if |file| < HEADER_BYTES { return Err("truncated header"); }
    var h := HeadFrom(Decode(file));
    if h.n == 0 || h.inputDim == 0 { return Err("empty dataset"); }
    if h.labelKind > 2 { return Err("unknown label kind"); }
    if h.labelKind == 2 && (h.labelDim == 0 || h.labelDim > (U64_LIMIT - 1) / 4) { return Err("label dim out of range"); }
    if h.inputKind > 1 || (version < 2 && h.inputKind != 0) { return Err("unknown input kind"); }
    if h.inputKind == 1 && (h.labelKind != 1 || h.labelDim != 0) { return Err("token corpora derive next-token class labels"); }
    r := Ok(h);
  }

  // The sample section `words` of n records: input and label parts of each record.
  function InputParts(words: seq<Word>, n: nat, d: nat, l: nat): (parts: seq<seq<Word>>)
    requires |words| == Area(n, d + l)
    ensures |parts| == n && forall i :: 0 <= i < n ==> parts[i] == Row(words, n, d + l, i)[..d]
  {
    seq(n, i requires 0 <= i < n => Row(words, n, d + l, i)[..d])
  }

  function LabelParts(words: seq<Word>, n: nat, d: nat, l: nat): (parts: seq<seq<Word>>)
    requires |words| == Area(n, d + l)
    ensures |parts| == n && forall i :: 0 <= i < n ==> parts[i] == Row(words, n, d + l, i)[d..]
  {
    seq(n, i requires 0 <= i < n => Row(words, n, d + l, i)[d..])
  }

  /** Row s of the chunk holding records [i, t) is record i + s of the section. */
  lemma ChunkRow(words: seq<Word>, n: nat, width: nat, a: nat, b: nat, i: nat, t: nat, s: nat, k: nat, at: nat)
    requires |words| == Area(n, width) && i <= t <= n && k == i + s < t && at == Area(s, width)
    requires a == Area(i, width) && b == Area(t, width)
    ensures a <= b <= |words| && at + width <= b - a
    ensures words[a..b][at..at + width] == Row(words, n, width, k)
  {
    var from := Area(k, width);
    AreaSum(i, s, k, width);
    ChunkInside(n, width, i, t, k);
    RowAt(words, n, width, k);
    SliceOfSlice(words, a, b, at, at + width, from, from + width);
  }

  lemma ChunkInside(n: nat, width: nat, i: nat, t: nat, k: nat)
    requires i <= k < t <= n
    ensures Area(i, width) <= Area(t, width) <= Area(n, width) && Area(k, width) + width <= Area(t, width)
  {
    var next := k + 1;
    AreaNext(k, width);
    AreaFits(next, 0, t, width);
    AreaFits(i, 0, t, width);
    AreaFits(t, 0, n, width);
  }

  lemma RowAt(words: seq<Word>, n: nat, width: nat, k: nat)
    requires |words| == Area(n, width) && k < n
    ensures Area(k, width) + width <= |words|
    ensures Row(words, n, width, k) == words[Area(k, width)..Area(k, width) + width]
  {
    ChunkInside(n, width, k, n, k);
    AreaNext(k, width);
  }

  /** Copy one record's part into row k of its store. */
  method PutPart(store: array<Word>, at: nat, part: seq<Word>, ghost parts: seq<seq<Word>>, ghost k: nat, ghost next: nat)
    requires k < |parts| && next == k + 1 && parts[k] == part
    requires at + |part| <= store.Length && store[..at] == Concat(parts[..k])
    modifies store
    ensures store[..at + |part|] == Concat(parts[..next])
  {
    ghost var before := store[..];
    CopyWords(store, at, part);
    RowLands(before, store[..], parts, k, next, at);
  }

  /** Deinterleave one record of a chunk holding records [i, t). */
  method SpreadRecord(chunk: seq<Word>, n: nat, d: nat, l: nat, i: nat, t: nat, k: nat, next: nat,
                      inputs: array<Word>, labels: array<Word>, ghost words: seq<Word>)
    requires |words| == Area(n, d + l) && i <= k < t <= n && next == k + 1 && inputs != labels
    requires Area(i, d + l) <= Area(t, d + l) <= |words| && chunk == words[Area(i, d + l)..Area(t, d + l)]
    requires Landed(inputs, k, d, InputParts(words, n, d, l)) && Landed(labels, k, l, LabelParts(words, n, d, l))
    requires inputs.Length == Area(n, d) && labels.Length == Area(n, l)
    modifies inputs, labels
    ensures Landed(inputs, next, d, InputParts(words, n, d, l)) && Landed(labels, next, l, LabelParts(words, n, d, l))
  {
    var at := Offset(k - i, d + l);
    ChunkRow(words, n, d + l, Area(i, d + l), Area(t, d + l), i, t, k - i, k, at);
    var record := chunk[at..at + (d + l)];
    LandPart(inputs, n, d, record[..d], InputParts(words, n, d, l), k, next);
    LandPart(labels, n, l, record[d..], LabelParts(words, n, d, l), k, next);
  }

  /** One record's part at its row of the store. */
  method LandPart(store: array<Word>, n: nat, width: nat, part: seq<Word>, ghost parts: seq<seq<Word>>, k: nat, ghost next: nat)
    requires store.Length == Area(n, width) && |parts| == n && k < next == k + 1 <= n && |part| == width && parts[k] == part
    requires Landed(store, k, width, parts)
    modifies store
    ensures Landed(store, next, width, parts)
  {
    var at := Offset(k, width);
    ChunkInside(n, width, k, n, k);
    AreaNext(k, width);
    PutPart(store, at, part, parts, k, next);
  }

  /** The first k parts are in place, one after another. */
  ghost predicate Landed(store: array<Word>, k: nat, width: nat, parts: seq<seq<Word>>)
    requires k <= |parts|
    reads store
  {
    Area(k, width) <= store.Length && store[..Area(k, width)] == Concat(parts[..k])
  }

  method SpreadChunk(chunk: seq<Word>, n: nat, d: nat, l: nat, i: nat, t: nat, inputs: array<Word>, labels: array<Word>, ghost words: seq<Word>)
    requires |words| == Area(n, d + l) && i <= t <= n && inputs != labels
    requires Area(i, d + l) <= Area(t, d + l) <= |words| && chunk == words[Area(i, d + l)..Area(t, d + l)]
    requires Landed(inputs, i, d, InputParts(words, n, d, l)) && Landed(labels, i, l, LabelParts(words, n, d, l))
    requires inputs.Length == Area(n, d) && labels.Length == Area(n, l)
    modifies inputs, labels
    ensures Landed(inputs, t, d, InputParts(words, n, d, l)) && Landed(labels, t, l, LabelParts(words, n, d, l))
  {
    var k := i;
    while k < t
      invariant i <= k <= t
      invariant Landed(inputs, k, d, InputParts(words, n, d, l)) && Landed(labels, k, l, LabelParts(words, n, d, l))
    {
      var next := k + 1;
      SpreadRecord(chunk, n, d, l, i, t, k, next, inputs, labels, words);
      k := next;
    }
  }

  /** Bytes allocated while loading: the stores kept, and the staging chunk. */
  datatype Footprint = Footprint(stores: nat, staging: nat)

  /** The chunk labelled records of a width are staged through. */
  function Staging(width: nat): nat
    requires width > 0
  {
    4 * Area(PerChunk(4 * width), width)
  }

  /** The staging chunk fits the budget or one record. */
  lemma StagingBound(width: nat)
    requires width > 0
    ensures Staging(width) <= CHUNK_BUDGET || Staging(width) == 4 * width
  {
    var k := PerChunk(4 * width);
    AreaIs(k, width);
    assert k * (4 * width) == 4 * (k * width);
    AreaNext(0, width);
  }

  /** It exceeds the sample section exactly when the records are fewer than it holds. */
  lemma StagingFits(n: nat, width: nat)
    requires width > 0
    ensures Staging(width) <= 4 * Area(n, width) <==> PerChunk(4 * width) <= n
  {
    var k := PerChunk(4 * width);
    if k <= n {
      AreaFits(k, 0, n, width);
    } else {
      AreaFits(n + 1, 0, k, width);
      AreaNext(n, width);
    }
  }

  /** One labelled sample of one float: eight bytes of samples, 256 KiB of staging. */
  lemma StagingExceeds()
    ensures Staging(2) == CHUNK_BUDGET && 4 * Area(1, 2) == 8
  {
    AreaIs(PerChunk(8), 2);
    AreaNext(0, 2);
  }

  /** Read n records through a bounded chunk and deinterleave them; `words` is the
      sample section of the file. */
  method ReadRecords(file: seq<Byte>, n: nat, d: nat, l: nat, ghost words: seq<Word>)
    returns (inputs: seq<Word>, labels: seq<Word>, mem: Footprint)
    requires d > 0 && |words| == Area(n, d + l) && HEADER_BYTES + 4 * |words| <= |file|
    requires Decode(file)[HEADER_WORDS..HEADER_WORDS + |words|] == words
    ensures inputs == Concat(InputParts(words, n, d, l)) && labels == Concat(LabelParts(words, n, d, l))
    ensures mem == Footprint(4 * |inputs| + 4 * |labels|, Staging(d + l))
  {
    var inputWords := Offset(n, d);
    var labelWords := Offset(n, l);
    var inputStore := new Word[inputWords];
    var labelStore := new Word[labelWords];
    var perChunk := PerChunk(4 * (d + l));
    var chunkWords := Offset(perChunk, d + l);
    var chunk := new Word[chunkWords];
    mem := Footprint(4 * inputStore.Length + 4 * labelStore.Length, 4 * chunk.Length);
    FillStores(file, n, d, l, perChunk, chunk, inputStore, labelStore, words);
    inputs, labels := inputStore[..], labelStore[..];
  }

  /** Chunk after chunk into the stores. */
  method FillStores(file: seq<Byte>, n: nat, d: nat, l: nat, perChunk: nat, chunk: array<Word>,
                    inputs: array<Word>, labels: array<Word>, ghost words: seq<Word>)
    requires perChunk > 0 && chunk.Length == Area(perChunk, d + l) && |words| == Area(n, d + l) && HEADER_BYTES + 4 * |words| <= |file|
    requires Decode(file)[HEADER_WORDS..HEADER_WORDS + |words|] == words
    requires inputs.Length == Area(n, d) && labels.Length == Area(n, l) && inputs != labels && chunk != inputs && chunk != labels
    modifies chunk, inputs, labels
    ensures inputs[..] == Concat(InputParts(words, n, d, l)) && labels[..] == Concat(LabelParts(words, n, d, l))
  {
    var i := 0;
    while i < n
      invariant i <= n
      invariant Landed(inputs, i, d, InputParts(words, n, d, l)) && Landed(labels, i, l, LabelParts(words, n, d, l))
    {
      var t := if perChunk <= n - i then i + perChunk else n;
      var read := ReadChunk(file, n, d + l, i, t, perChunk, chunk, words);
      SpreadChunk(chunk[..read], n, d, l, i, t, inputs, labels, words);
      i := t;
    }
    assert InputParts(words, n, d, l)[..n] == InputParts(words, n, d, l);
    assert LabelParts(words, n, d, l)[..n] == LabelParts(words, n, d, l);
  }

  /** One bulk read of records [i, t) into the chunk. */
  method ReadChunk(file: seq<Byte>, n: nat, width: nat, i: nat, t: nat, perChunk: nat, chunk: array<Word>, ghost words: seq<Word>) returns (read: nat)
    requires i < t <= n && t - i <= perChunk && chunk.Length == Area(perChunk, width)
    requires |words| == Area(n, width) && HEADER_BYTES + 4 * |words| <= |file|
    requires Decode(file)[HEADER_WORDS..HEADER_WORDS + |words|] == words
    modifies chunk
    ensures Area(i, width) <= Area(t, width) <= |words| && read <= chunk.Length
    ensures chunk[..read] == words[Area(i, width)..Area(t, width)]
  {
    ChunkInside(n, width, i, t, i);
    AreaSum(i, t - i, t, width);
    AreaFits(t - i, 0, perChunk, width);
    var first := Offset(i, width);
    var last := Offset(t, width);
    read := last - first;
    ghost var all := Decode(file);
    var section := Section(file, HEADER_WORDS + first, HEADER_WORDS + last);
    SliceOfSlice(all, HEADER_WORDS, HEADER_WORDS + |words|, first, last, HEADER_WORDS + first, HEADER_WORDS + last);
    CopyWords(chunk, 0, section);
  }

  /** The words a read of [first, last) delivers. */
  method Section(file: seq<Byte>, first: nat, last: nat) returns (words: seq<Word>)
    requires first <= last && 4 * last <= |file|
    ensures words == Decode(file)[first..last]
  {
    DecodeSlice(file, first, last);
    words := Decode(file[4 * first..4 * last]);
  }

  lemma AssembledValid(words: seq<Word>, c: Corpus, d: nat, l: nat)
    requires c.Samples? && c.n > 0 && d == c.inputDim > 0 && l == c.LabelWords()
    requires c.labelKind <= 2 && (c.labelKind == 2 ==> c.labelDim > 0)
    requires |words| == Area(c.n, d + l)
    requires c.inputs == Concat(InputParts(words, c.n, d, l)) && c.labels == Concat(LabelParts(words, c.n, d, l))
    ensures c.Valid()
  {
    ConcatLength(InputParts(words, c.n, d, l), d);
    ConcatLength(LabelParts(words, c.n, d, l), l);
  }

  /** Stores assembled from the parts of a section hold exactly its records. */
  lemma AssembledPayload(words: seq<Word>, c: Corpus, d: nat, l: nat, width: nat)
    requires c.Samples? && c.Valid() && d == c.inputDim && l == c.LabelWords() && width == d + l
    requires |words| == Area(c.n, width)
    requires c.inputs == Concat(InputParts(words, c.n, d, l)) && c.labels == Concat(LabelParts(words, c.n, d, l))
    ensures Payload(c) == words
  {
    var rows := RowsOf(words, c.n, width);
    forall i | 0 <= i < c.n ensures RecordRows(c)[i] == rows[i] {
      AssembledRecord(words, c, d, l, i);
    }
    assert RecordRows(c) == rows;
    ConcatRows(words, c.n, width);
  }

  lemma AssembledRecord(words: seq<Word>, c: Corpus, d: nat, l: nat, i: nat)
    requires c.Valid() && c.Samples? && d == c.inputDim && l == c.LabelWords() && i < c.n
    requires |words| == Area(c.n, d + l)
    requires c.inputs == Concat(InputParts(words, c.n, d, l)) && c.labels == Concat(LabelParts(words, c.n, d, l))
    ensures c.InputOf(i) + c.LabelOf(i) == Row(words, c.n, d + l, i)
  {
    RowOfConcat(InputParts(words, c.n, d, l), d, i);
    RowOfConcat(LabelParts(words, c.n, d, l), l, i);
  }

  lemma SameRowsSameStore(x: seq<Word>, y: seq<Word>, n: nat, width: nat)
    requires |x| == |y| == Area(n, width)
    requires forall i :: 0 <= i < n ==> Row(x, n, width, i) == Row(y, n, width, i)
    ensures x == y
  {
    assert RowsOf(x, n, width) == RowsOf(y, n, width);
    ConcatRows(x, n, width);
    ConcatRows(y, n, width);
  }

  /** A section is read back in one way only. */
  lemma PayloadDecides(a: Corpus, b: Corpus)
    requires a.Valid() && b.Valid() && HeadOf(a) == HeadOf(b) && Payload(a) == Payload(b)
    ensures a == b
  {
    if a.Samples? {
      forall i | 0 <= i < a.n ensures Row(a.inputs, a.n, a.inputDim, i) == Row(b.inputs, a.n, a.inputDim, i) {
        SameRecord(a, b, i);
      }
      forall i | 0 <= i < a.n ensures Row(a.labels, a.n, a.LabelWords(), i) == Row(b.labels, a.n, a.LabelWords(), i) {
        SameRecord(a, b, i);
      }
      SameRowsSameStore(a.inputs, b.inputs, a.n, a.inputDim);
      SameRowsSameStore(a.labels, b.labels, a.n, a.LabelWords());
    }
  }

  lemma SameRecord(a: Corpus, b: Corpus, i: nat)
    requires a.Valid() && b.Valid() && a.Samples? && HeadOf(a) == HeadOf(b) && Payload(a) == Payload(b) && i < a.n
    ensures a.InputOf(i) == b.InputOf(i) && a.LabelOf(i) == b.LabelOf(i)
  {
    var width := a.inputDim + a.LabelWords();
    RowOfConcat(RecordRows(a), width, i);
    RowOfConcat(RecordRows(b), width, i);
    assert a.InputOf(i) == (a.InputOf(i) + a.LabelOf(i))[..a.inputDim];
    assert b.InputOf(i) == (b.InputOf(i) + b.LabelOf(i))[..a.inputDim];
    assert a.LabelOf(i) == (a.InputOf(i) + a.LabelOf(i))[a.inputDim..];
    assert b.LabelOf(i) == (b.InputOf(i) + b.LabelOf(i))[a.inputDim..];
  }

  /** What a file parses as has the size its header states. */
  lemma ParsedSize(c: Corpus, h: Head)
    requires c.Valid() && HeadNames(h, c)
    ensures |Payload(c)| == Area(h.n, h.RecordWords())
  {
    PayloadLength(c);
  }

  lemma TooLarge(file: seq<Byte>, c: Corpus, sizeMax: nat, h: Head)
    requires |file| >= HEADER_BYTES && h == HeadFrom(Decode(file))
    ensures Parses(file, c, sizeMax) ==>
      4 * Area(h.n, h.RecordWords()) <= |file| - HEADER_BYTES && 4 * Area(h.n, h.RecordWords()) <= sizeMax
  {
    if Parses(file, c, sizeMax) {
      ParsedSize(c, h);
    }
  }

  lemma ParsedUnique(w: seq<Word>, size: nat, a: Corpus, b: Corpus, sizeMax: nat)
    requires a.Valid() && b.Valid() && |w| >= HEADER_WORDS && Names(w, size, a, sizeMax) && Names(w, size, b, sizeMax)
    ensures a == b
  {
    ParsedSize(a, HeadFrom(w));
    ParsedSize(b, HeadFrom(w));
    PayloadDecides(a, b);
  }

  method ReadTokens(h: Head, tokens: seq<Word>) returns (r: Result<Corpus>)
    requires h.Good() && h.inputKind == 1 && |tokens| == Area(h.n, h.inputDim + 1)
    ensures r.Ok? <==> Tokens(h.n, h.inputDim, tokens).Valid()
    ensures r.Ok? ==> r.value == Tokens(h.n, h.inputDim, tokens)
  {
    for i := 0 to |tokens|
      invariant forall j :: 0 <= j < i ==> tokens[j] >= 0
    {
      if tokens[i] < 0 { return Err("negative token id"); }
    }
    r := Ok(Tokens(h.n, h.inputDim, tokens));
  }

  /** The staging chunk of a header: none for tokens and unlabelled samples. */
  function StagingOf(h: Head): nat
    requires h.Good()
  {
    if h.inputKind == 1 || h.LabelWords() == 0 then 0 else Staging(h.inputDim + h.LabelWords())
  }

  method ReadSamples(file: seq<Byte>, h: Head, ghost words: seq<Word>) returns (c: Corpus, mem: Footprint)
    requires h.Good() && h.inputKind == 0 && |words| == Area(h.n, h.RecordWords())
    requires HEADER_BYTES + 4 * |words| <= |file| && Decode(file)[HEADER_WORDS..HEADER_WORDS + |words|] == words
    ensures c.Valid() && HeadNames(h, c) && Payload(c) == words
    ensures mem == Footprint(4 * |words|, StagingOf(h))
  {
    if h.LabelWords() == 0 {
      c, mem := ReadUnlabeled(file, h, words);
    } else {
      c, mem := ReadLabeled(file, h, h.inputDim, h.LabelWords(), words);
    }
  }

  /** No labels: the section is one contiguous block. */
  method ReadUnlabeled(file: seq<Byte>, h: Head, ghost words: seq<Word>) returns (c: Corpus, mem: Footprint)
    requires h.Good() && h.inputKind == 0 && h.LabelWords() == 0 && |words| == Area(h.n, h.inputDim)
    requires HEADER_BYTES + 4 * |words| <= |file| && Decode(file)[HEADER_WORDS..HEADER_WORDS + |words|] == words
    ensures c.Valid() && HeadNames(h, c) && Payload(c) == words && mem == Footprint(4 * |words|, 0)
  {
    var count := Offset(h.n, h.inputDim);
    var end := HEADER_WORDS + count;
    var inputs := Section(file, HEADER_WORDS, end);
    mem := Footprint(4 * |inputs|, 0);
    c := Samples(h.n, h.inputDim, h.labelKind, h.labelDim, inputs, []);
    NoLabels(h.n);
    UnlabeledPayload(c);
  }

  method ReadLabeled(file: seq<Byte>, h: Head, d: nat, l: nat, ghost words: seq<Word>) returns (c: Corpus, mem: Footprint)
    requires h.Good() && h.inputKind == 0 && d == h.inputDim && l == h.LabelWords() && |words| == Area(h.n, d + l)
    requires HEADER_BYTES + 4 * |words| <= |file| && Decode(file)[HEADER_WORDS..HEADER_WORDS + |words|] == words
    ensures c.Valid() && HeadNames(h, c) && Payload(c) == words && mem == Footprint(4 * |words|, Staging(d + l))
  {
    var inputs, labels;
    inputs, labels, mem := ReadRecords(file, h.n, d, l, words);
    c := Samples(h.n, d, h.labelKind, h.labelDim, inputs, labels);
    AssembledValid(words, c, d, l);
    AreaSplit(h.n, d, l);
    AssembledPayload(words, c, d, l, d + l);
  }

  lemma {:induction false} AreaSplit(n: nat, d: nat, l: nat)
    ensures Area(n, d + l) == Area(n, d) + Area(n, l)
  {
    if n > 0 {
      AreaSplit(n - 1, d, l);
    }
  }

  lemma {:induction false} NoLabels(n: nat)
    ensures Area(n, 0) == 0
  {
    if n > 0 {
      NoLabels(n - 1);
    }
  }

  /** The result of a load: what the file parses as, an error when it parses as nothing. */
  ghost predicate ParsesAs(file: seq<Byte>, sizeMax: nat, r: Result<Corpus>) {
    && (r.Ok? ==> Parses(file, r.value, sizeMax))
    && (forall c {:trigger Parses(file, c, sizeMax)} :: Parses(file, c, sizeMax) ==> r == Ok(c))
  }

  /** The stores of an accepted header whose section fits. */
  method ReadSection(file: seq<Byte>, h: Head, count: nat, sizeMax: nat) returns (r: Result<Corpus>, mem: Footprint)
    requires |file| >= HEADER_BYTES && h == HeadFrom(Decode(file)) && h.Good() && Decode(file)[0] == MAGIC
    requires count == Area(h.n, h.RecordWords()) && HEADER_BYTES + 4 * count <= |file| && 4 * count <= sizeMax
    ensures ParsesAs(file, sizeMax, r) && mem == Footprint(4 * count, StagingOf(h))
  {
    if h.inputKind == 1 {
      r, mem := LoadTokens(file, h, count, sizeMax);
    } else {
      r, mem := LoadSamples(file, h, count, sizeMax);
    }
  }

  method LoadTokens(file: seq<Byte>, h: Head, count: nat, sizeMax: nat) returns (r: Result<Corpus>, mem: Footprint)
    requires |file| >= HEADER_BYTES && h == HeadFrom(Decode(file)) && h.Good() && Decode(file)[0] == MAGIC && h.inputKind == 1
    requires count == Area(h.n, h.RecordWords()) && HEADER_BYTES + 4 * count <= |file| && 4 * count <= sizeMax
    ensures ParsesAs(file, sizeMax, r) && mem == Footprint(4 * count, StagingOf(h))
  {
    var end := HEADER_WORDS + count;
    var tokens := Section(file, HEADER_WORDS, end);
    mem := Footprint(4 * |tokens|, 0);
    r := ReadTokens(h, tokens);
    TokensParse(file, h, tokens, sizeMax, r);
  }

  method LoadSamples(file: seq<Byte>, h: Head, count: nat, sizeMax: nat) returns (r: Result<Corpus>, mem: Footprint)
    requires |file| >= HEADER_BYTES && h == HeadFrom(Decode(file)) && h.Good() && Decode(file)[0] == MAGIC && h.inputKind == 0
    requires count == Area(h.n, h.RecordWords()) && HEADER_BYTES + 4 * count <= |file| && 4 * count <= sizeMax
    ensures ParsesAs(file, sizeMax, r) && mem == Footprint(4 * count, StagingOf(h))
  {
    var end := HEADER_WORDS + count;
    ghost var words := Decode(file)[HEADER_WORDS..end];
    assert |words| == count;
    var c;
    c, mem := ReadSamples(file, h, words);
    SamplesParse(file, h, c, words, sizeMax);
    r := Ok(c);
  }

  /** A token file parses as its section's ids, if at all. */
  lemma TokensParse(file: seq<Byte>, h: Head, tokens: seq<Word>, sizeMax: nat, r: Result<Corpus>)
    requires |file| >= HEADER_BYTES && h == HeadFrom(Decode(file)) && h.Good() && Decode(file)[0] == MAGIC && h.inputKind == 1
    requires |tokens| == Area(h.n, h.RecordWords()) && HEADER_BYTES + 4 * |tokens| <= |file| && 4 * |tokens| <= sizeMax
    requires tokens == Decode(file)[HEADER_WORDS..HEADER_WORDS + |tokens|]
    requires r.Ok? <==> Tokens(h.n, h.inputDim, tokens).Valid()
    requires r.Ok? ==> r.value == Tokens(h.n, h.inputDim, tokens)
    ensures ParsesAs(file, sizeMax, r)
  {
    var w := Decode(file);
    forall c {:trigger Parses(file, c, sizeMax)} | Parses(file, c, sizeMax) ensures r == Ok(c) {
      NamedTokens(w, |file|, c, tokens, sizeMax);
    }
    if r.Ok? {
      SectionNamed(w, |file|, r.value, tokens, sizeMax);
    }
  }

  lemma NamedTokens(w: seq<Word>, size: nat, c: Corpus, tokens: seq<Word>, sizeMax: nat)
    requires |w| >= HEADER_WORDS && HeadFrom(w).inputKind == 1 && c.Valid() && Names(w, size, c, sizeMax)
    requires |tokens| == Area(HeadFrom(w).n, HeadFrom(w).RecordWords()) && HEADER_WORDS + |tokens| <= |w|
    requires tokens == w[HEADER_WORDS..HEADER_WORDS + |tokens|]
    ensures c == Tokens(HeadFrom(w).n, HeadFrom(w).inputDim, tokens)
  {
    ParsedSize(c, HeadFrom(w));
  }

  /** A sample file parses as the corpus its section holds, and as no other. */
  lemma SamplesParse(file: seq<Byte>, h: Head, c: Corpus, words: seq<Word>, sizeMax: nat)
    requires |file| >= HEADER_BYTES && h == HeadFrom(Decode(file)) && h.Good() && Decode(file)[0] == MAGIC
    requires c.Valid() && HeadNames(h, c) && Payload(c) == words
    requires HEADER_BYTES + 4 * |words| <= |file| && 4 * |words| <= sizeMax
    requires words == Decode(file)[HEADER_WORDS..HEADER_WORDS + |words|]
    ensures ParsesAs(file, sizeMax, Ok(c))
  {
    SectionNamed(Decode(file), |file|, c, words, sizeMax);
    OneParse(file, c, sizeMax);
  }

  lemma SectionNamed(w: seq<Word>, size: nat, c: Corpus, words: seq<Word>, sizeMax: nat)
    requires |w| >= HEADER_WORDS && HeadFrom(w).Good() && w[0] == MAGIC
    requires c.Valid() && HeadNames(HeadFrom(w), c) && Payload(c) == words
    requires HEADER_BYTES + 4 * |words| <= size && 4 * |words| <= sizeMax
    requires HEADER_WORDS + |words| <= |w| && words == w[HEADER_WORDS..HEADER_WORDS + |words|]
    ensures Names(w, size, c, sizeMax)
  {
  }

  lemma OneParse(file: seq<Byte>, c: Corpus, sizeMax: nat)
    requires Parses(file, c, sizeMax)
    ensures ParsesAs(file, sizeMax, Ok(c))
  {
    forall other {:trigger Parses(file, other, sizeMax)} | Parses(file, other, sizeMax) ensures other == c {
      ParsedUnique(Decode(file), |file|, other, c, sizeMax);
    }
  }

  /** Accepted exactly when the file parses, as what it parses as. Accepted or not, the
      stores never exceed the payload the file has, and the staging chunk its budget or
      the stores. */
  method LoadFromFile(file: seq<Byte>, sizeMax: nat) returns (r: Result<Corpus>, mem: Footprint)
    requires |file| < U64_LIMIT
    ensures ParsesAs(file, sizeMax, r) && (r.Ok? ==> mem.stores == 4 * |Payload(r.value)|)
    ensures mem.stores > 0 ==> HEADER_BYTES + mem.stores <= |file| && mem.stores <= sizeMax
    ensures mem.staging <= CHUNK_BUDGET || mem.staging <= mem.stores
  {
    var head := ReadHead(file);
    if head.Err? { return Err(head.error), Footprint(0, 0); }
    var h := head.value;
    var sized := CheckSizes(h, |file|, sizeMax);
    if sized.None? {
      forall c: Corpus ensures !Parses(file, c, sizeMax) {
        TooLarge(file, c, sizeMax, h);
      }
      return Err("sample section exceeds file size"), Footprint(0, 0);
    }
    r, mem := ReadSection(file, h, sized.value, sizeMax);
    StagingHolds(h);
    if r.Ok? {
      ParsedSize(r.value, h);
    }
  }

  lemma StagingHolds(h: Head)
    requires h.Good()
    ensures StagingOf(h) <= CHUNK_BUDGET || StagingOf(h) <= 4 * Area(h.n, h.RecordWords())
  {
    if StagingOf(h) > 0 {
      var width := h.inputDim + h.LabelWords();
      StagingBound(width);
      AreaNext(0, width);
      AreaFits(1, h.n - 1, h.n, width);
    }
  }

  /** What was saved is what is loaded, for every corpus the host can hold. */
  method SaveThenLoad(c: Corpus, sizeMax: nat) returns (r: Result<Corpus>)
    requires Savable(c) && 4 * |Payload(c)| <= sizeMax && HEADER_BYTES + 4 * |Payload(c)| < U64_LIMIT
    ensures r == Ok(c)
  {
    var file := SaveToFile(c);
    SavedParses(c, sizeMax);
    var mem;
    r, mem := LoadFromFile(file, sizeMax);
  }
}
