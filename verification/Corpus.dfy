// The immutable part of a dataset: the sample store and how one record is read
// from it (runtime/pipeline/dataset.h, dataset.cc). Floats, class ids and
// token ids all occupy one 4-byte word.
module Corpus {
  import opened Parallel
  import opened Rows

  const U64_LIMIT: int := 0x1_0000_0000_0000_0000

  type Word = x: int | -0x8000_0000 <= x < 0x8000_0000

  datatype Result<T> = Ok(value: T) | Err(error: string)

  /** Feature rows with stored labels, or token records of inputDim + 1 ids
      whose labels are the shifted view. */
  datatype Corpus =
    | Samples(n: nat, inputDim: nat, labelKind: nat, labelDim: nat, inputs: seq<Word>, labels: seq<Word>)
    | Tokens(n: nat, inputDim: nat, tokens: seq<Word>)
  {
    /** Label words per served record. */
    function LabelWords(): nat {
      match this
      case Tokens(_, _, _) => inputDim
      case Samples(_, _, kind, dim, _, _) => if kind == 1 then 1 else if kind == 2 then dim else 0
    }

    predicate Valid() {
      && n > 0 && inputDim > 0
      && match this
         case Tokens(_, _, tokens) =>
           |tokens| == Area(n, inputDim + 1) && forall i :: 0 <= i < |tokens| ==> tokens[i] >= 0
         case Samples(_, _, kind, dim, inputs, labels) =>
           && kind <= 2 && (kind == 2 ==> dim > 0)
           && |inputs| == Area(n, inputDim) && |labels| == Area(n, LabelWords())
    }

    function InputOf(i: nat): (row: seq<Word>)
      requires Valid() && i < n
      ensures |row| == inputDim
    {
      match this
      case Tokens(_, _, tokens) => Row(tokens, n, inputDim + 1, i)[..inputDim]
      case Samples(_, _, _, _, inputs, _) => Row(inputs, n, inputDim, i)
    }

    function LabelOf(i: nat): (row: seq<Word>)
      requires Valid() && i < n
      ensures |row| == LabelWords()
    {
      match this
      case Tokens(_, _, tokens) => Row(tokens, n, inputDim + 1, i)[1..]
      case Samples(_, _, _, _, _, labels) => Row(labels, n, LabelWords(), i)
    }

    function InputRows(): (rows: seq<seq<Word>>)
      requires Valid()
      ensures |rows| == n
      ensures forall i :: 0 <= i < n ==> rows[i] == InputOf(i)
    {
      seq(n, i requires 0 <= i < n => InputOf(i))
    }

    function LabelRows(): (rows: seq<seq<Word>>)
      requires Valid()
      ensures |rows| == n
      ensures forall i :: 0 <= i < n ==> rows[i] == LabelOf(i)
    {
      seq(n, i requires 0 <= i < n => LabelOf(i))
    }

    function LabelKind(): nat { if Tokens? then 1 else labelKind }

    /** The first k records, and the records from k on. */
    function Head(k: nat): (c: Corpus)
      requires Valid() && 0 < k < n
      ensures c.Valid()
    {
      match this
      case Tokens(_, d, tokens) =>
        AreaFits(k, n - k, n, d + 1);
        Tokens(k, d, tokens[..Area(k, d + 1)])
      case Samples(_, d, kind, dim, inputs, labels) =>
        AreaFits(k, n - k, n, d);
        AreaFits(k, n - k, n, LabelWords());
        Samples(k, d, kind, dim, inputs[..Area(k, d)], labels[..Area(k, LabelWords())])
    }

    function Tail(k: nat): (c: Corpus)
      requires Valid() && 0 < k < n
      ensures c.Valid()
    {
      match this
      case Tokens(_, d, tokens) =>
        AreaAdds(k, n - k, d + 1);
        Tokens(n - k, d, tokens[Area(k, d + 1)..])
      case Samples(_, d, kind, dim, inputs, labels) =>
        AreaAdds(k, n - k, d);
        AreaAdds(k, n - k, LabelWords());
        Samples(n - k, d, kind, dim, inputs[Area(k, d)..], labels[Area(k, LabelWords())..])
    }

    lemma HeadRecord(k: nat, i: nat)
      requires Valid() && 0 < k < n && i < k
      ensures Head(k).InputOf(i) == InputOf(i) && Head(k).LabelOf(i) == LabelOf(i)
    {
      match this
      case Tokens(_, d, tokens) => RowOfPrefix(tokens, n, k, d + 1, i);
      case Samples(_, d, _, _, inputs, labels) =>
        RowOfPrefix(inputs, n, k, d, i);
        RowOfPrefix(labels, n, k, LabelWords(), i);
    }

    lemma TailRecord(k: nat, i: nat)
      requires Valid() && 0 < k < n && i < n - k
      ensures Tail(k).InputOf(i) == InputOf(k + i) && Tail(k).LabelOf(i) == LabelOf(k + i)
    {
      match this
      case Tokens(_, d, tokens) => RowOfSuffix(tokens, n, k, d + 1, i, k + i);
      case Samples(_, d, _, _, inputs, labels) =>
        RowOfSuffix(inputs, n, k, d, i, k + i);
        RowOfSuffix(labels, n, k, LabelWords(), i, k + i);
    }

    /** The class ids the kernels may index with: every token, or one per sample. */
    function ClassIds(): seq<Word>
      requires Valid()
    {
      match this
      case Tokens(_, _, tokens) => tokens
      case Samples(_, _, kind, _, _, labels) => if kind == 1 then labels else []
    }
  }

  /** A token record as it is served: the label words are the input words moved on by one, and the
      input words with the last label word after them are the record's own tokens. */
  ghost predicate ServesRecord(tokens: seq<Word>, d: nat, i: nat, input: seq<Word>, labels: seq<Word>) {
    && |input| == |labels| == d > 0 && Area(i, d + 1) + d + 1 <= |tokens|
    && (forall t :: 0 <= t < d - 1 ==> labels[t] == input[t + 1])
    && input + [labels[d - 1]] == tokens[Area(i, d + 1)..Area(i, d + 1) + d + 1]
  }

  lemma RecordIsShifted(c: Corpus, i: nat)
    requires c.Valid() && c.Tokens? && i < c.n
    ensures ServesRecord(c.tokens, c.inputDim, i, c.InputOf(i), c.LabelOf(i))
  {
    var d := c.inputDim;
    AreaNext(i, d + 1);
    AreaFits(i + 1, 0, c.n, d + 1);
    var row := Row(c.tokens, c.n, d + 1, i);
    assert row == c.tokens[Area(i, d + 1)..Area(i, d + 1) + d + 1];
    assert row[..d] + [row[1..][d - 1]] == row;
  }

  /** The overflow-checked product used on sizes read from outside. */
  function MulU64(a: nat, b: nat): (r: Result<nat>)
    requires a < U64_LIMIT && b < U64_LIMIT
    ensures r.Ok? <==> a * b < U64_LIMIT
    ensures r.Ok? ==> r.value == a * b
  {
    QuotientBound(a, b, U64_LIMIT - 1);
    if b != 0 && a > (U64_LIMIT - 1) / b then Err("overflow") else Ok(a * b)
  }

  lemma QuotientBound(a: nat, b: nat, m: nat)
    ensures b > 0 ==> (a <= m / b <==> a * b <= m)
  {
    if b > 0 {
      DivisionBounds(m, b);
      if a <= m / b {
        TimesLeft(a, m / b, b);
      } else {
        TimesLeft(m / b + 1, a, b);
      }
    }
  }

  /** Admission of an in-memory corpus: accepted exactly when it is consistent. */
  method FromMemory(inputs: seq<Word>, labels: seq<Word>, n: nat, inputDim: nat, labelKind: nat, labelDim: nat)
    returns (r: Result<Corpus>)
    requires n < U64_LIMIT && inputDim < U64_LIMIT && labelDim < U64_LIMIT
    requires 4 * |inputs| < U64_LIMIT && 4 * |labels| < U64_LIMIT
    ensures r.Ok? <==> Samples(n, inputDim, labelKind, labelDim, inputs, labels).Valid() && (labelKind == 2 ==> 4 * labelDim < U64_LIMIT)
    ensures r.Ok? ==> r.value == Samples(n, inputDim, labelKind, labelDim, inputs, labels)
  {
    var d := Samples(n, inputDim, labelKind, labelDim, inputs, labels);
    if n == 0 { return Err("zero samples"); }
    if inputDim == 0 { return Err("zero input dim"); }
    if labelKind > 2 { return Err("unknown label kind"); }
    if labelKind == 2 && (labelDim == 0 || labelDim > (U64_LIMIT - 1) / 4) { return Err("label dim out of range"); }
    AreaIs(n, inputDim);
    AreaIs(n, d.LabelWords());
    var wantInputs := MulU64(n, inputDim);
    if wantInputs.Err? || |inputs| != wantInputs.value { return Err("input buffer size mismatch"); }
    var wantLabels := MulU64(n, 4 * d.LabelWords());
    assert n * (4 * d.LabelWords()) == 4 * (n * d.LabelWords());
    if wantLabels.Err? || 4 * |labels| != wantLabels.value { return Err("label buffer size mismatch"); }
    r := Ok(d);
  }

  /** Admission of a token corpus: accepted exactly when it is consistent. */
  method FromTokens(tokens: seq<Word>, records: nat, seqLen: nat) returns (r: Result<Corpus>)
    requires records < U64_LIMIT && seqLen < U64_LIMIT && |tokens| < U64_LIMIT
    ensures r.Ok? <==> Tokens(records, seqLen, tokens).Valid() && seqLen < U64_LIMIT - 1
    ensures r.Ok? ==> r.value == Tokens(records, seqLen, tokens)
  {
    if records == 0 { return Err("zero samples"); }
    if seqLen == 0 { return Err("zero input dim"); }
    if seqLen >= U64_LIMIT - 1 { return Err("token buffer size mismatch"); }
    AreaIs(records, seqLen + 1);
    var want := MulU64(records, seqLen + 1);
    if want.Err? || |tokens| != want.value { return Err("token buffer size mismatch"); }
    for i := 0 to |tokens|
      invariant forall j :: 0 <= j < i ==> tokens[j] >= 0
    {
      if tokens[i] < 0 { return Err("negative token id"); }
    }
    r := Ok(Tokens(records, seqLen, tokens));
  }
}
