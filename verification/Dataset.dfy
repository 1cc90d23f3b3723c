// The data feeder (runtime/pipeline/dataset.cc).
module Feeding {
  import opened Scalar
  import opened Shuffle
  import opened Corpus
  import opened Rows
  import opened Serving

  /** memcpy of whole words. */
  method CopyWords(dst: array<Word>, at: nat, src: seq<Word>)
    requires at + |src| <= dst.Length
    modifies dst
    ensures dst[..] == Spliced(old(dst[..]), at, src)
  {
    for k := 0 to |src|
      invariant dst[..] == old(dst[..at]) + src[..k] + old(dst[at + k..])
    {
      dst[at + k] := src[k];
    }
  }

  /** A buffer with `words` written at an offset. */
  ghost function Spliced(before: seq<Word>, at: nat, words: seq<Word>): (r: seq<Word>)
    requires at + |words| <= |before|
  {
    before[..at] + words + before[at + |words|..]
  }

  /** The slot starts with exactly these words; the rest of it is as before. */
  ghost predicate Filled(slot: array<Word>, before: seq<Word>, words: seq<Word>)
    reads slot
  {
    |words| <= |before| && slot[..] == Spliced(before, 0, words)
  }

  /** What is written at the front is what the buffer starts with. */
  lemma SplicedFront(before: seq<Word>, words: seq<Word>)
    requires |words| <= |before|
    ensures Spliced(before, 0, words)[..|words|] == words && words <= Spliced(before, 0, words)
    ensures |before| == |words| ==> Spliced(before, 0, words) == words
  {
  }

  lemma SplicedGrows(before: seq<Word>, words: seq<Word>, more: seq<Word>)
    requires |words| + |more| <= |before|
    ensures Spliced(Spliced(before, 0, words), |words|, more) == Spliced(before, 0, words + more)
  {
  }

  /** Rows [first, last) of a store, to row b of a slot. */
  method CopyRun(b: nat, first: nat, last: nat, width: nat, store: seq<Word>, slot: array<Word>, ghost before: seq<Word>, ghost words: seq<Word>)
    requires Area(first, width) <= Area(last, width) <= |store| && |words| == Area(b, width)
    requires |words| + (Area(last, width) - Area(first, width)) <= slot.Length
    requires Filled(slot, before, words)
    modifies slot
    ensures Filled(slot, before, words + store[Area(first, width)..Area(last, width)])
  {
    var at := Offset(b, width);
    var from := Offset(first, width);
    var end := Offset(last, width);
    CopyWords(slot, at, store[from..end]);
    SplicedGrows(before, words, store[from..end]);
  }

  /** lo and hi are the least and greatest of ids (0 and -1 when there are none). */
  ghost predicate Extent(ids: seq<Word>, lo: int, hi: int) {
    if ids == [] then lo == 0 && hi == -1
    else lo in ids && hi in ids && forall i :: 0 <= i < |ids| ==> lo <= ids[i] <= hi
  }

  predicate AllBelow(ids: seq<Word>, bound: nat) {
    forall i :: 0 <= i < |ids| ==> 0 <= ids[i] < bound
  }

  ghost predicate FirstOffender(ids: seq<Word>, bound: nat, k: nat) {
    && k < |ids| && !(0 <= ids[k] < bound) && AllBelow(ids[..k], bound)
  }

  /** The cached extent answers every class-count question a full scan would. */
  lemma ExtentDecides(ids: seq<Word>, lo: int, hi: int, bound: nat)
    requires Extent(ids, lo, hi)
    ensures AllBelow(ids, bound) <==> ids == [] || (lo >= 0 && hi < bound)
  {
    if ids != [] && AllBelow(ids, bound) {
      var i :| 0 <= i < |ids| && ids[i] == lo;
      var j :| 0 <= j < |ids| && ids[j] == hi;
    }
  }

  method ScanExtent(ids: seq<Word>) returns (lo: int, hi: int)
    ensures Extent(ids, lo, hi)
  {
    lo, hi := 0, -1;
    for i := 0 to |ids|
      invariant Extent(ids[..i], lo, hi)
    {
      var v := ids[i];
      assert ids[..i + 1] == ids[..i] + [v];
      if i == 0 || v < lo { lo := v; }
      if i == 0 || v > hi { hi := v; }
    }
    assert ids[..|ids|] == ids;
  }

  method FindOffender(ids: seq<Word>, bound: nat) returns (offender: Option<nat>)
    ensures offender.None? <==> AllBelow(ids, bound)
    ensures offender.Some? ==> FirstOffender(ids, bound, offender.value)
  {
    for i := 0 to |ids|
      invariant AllBelow(ids[..i], bound)
    {
      if ids[i] < 0 || ids[i] >= bound { return Some(i); }
      assert ids[..i + 1] == ids[..i] + [ids[i]];
    }
    assert ids[..|ids|] == ids;
    offender := None;
  }

  /** The validation share before it is clipped: the integer part of the product. */
  function TruncatedShare(n: nat, fraction: real): (k: nat)
    requires fraction >= 0.0
  {
    var product := n as real * fraction;
    assert product >= 0.0;
    product.Floor
  }

  /** The records split off: the integer part of n * fraction, at least one and not all. */
  function ValidationShare(n: nat, fraction: real): (k: nat)
    requires n >= 2 && 0.0 < fraction < 1.0
    ensures 0 < k < n
    ensures k > 1 ==> k as real <= n as real * fraction
    ensures k < n - 1 ==> n as real * fraction < k as real + 1.0
  {
    var k := TruncatedShare(n, fraction);
    if k == 0 then 1 else if k >= n then n - 1 else k
  }

  class Dataset {
    var corpus: Corpus
    var cursor: nat
    var epoch: nat
    var order: seq<nat>
    var shuffleState: bv64
    var shuffleOrigin: bv64
    var labelsScanned: bool
    var minLabel: int
    var maxLabel: int

    ghost function TheFeed(): Feed reads this { Feed(corpus, order != [], shuffleOrigin) }

    function Pos(): ServingPos reads this { ServingPos(cursor, epoch) }

    /** Order and generator state are those drawn for (origin, epoch). */
    ghost predicate Drew() reads `corpus, `epoch, `order, `shuffleState, `shuffleOrigin {
      0 < corpus.n && if order == [] then epoch == 0 else IsDrawn(order, shuffleState, shuffleOrigin, corpus.n, epoch)
    }

    /** The position is the one its two numbers name; a cached label extent is the true one. */
    ghost predicate Valid() reads this {
      && corpus.Valid() && cursor < corpus.n && Drew()
      && (labelsScanned ==> Extent(corpus.ClassIds(), minLabel, maxLabel))
    }

    constructor (corpus: Corpus)
      requires corpus.Valid()
      ensures Valid() && this.corpus == corpus && Pos() == ServingPos(0, 0) && order == [] && !labelsScanned
    {
      this.corpus := corpus;
      cursor, epoch, order, shuffleState, shuffleOrigin := 0, 0, [], 0, 0;
      labelsScanned, minLabel, maxLabel := false, 0, -1;
    }

    /** Serving through the permutations of the folded seed, from the first. */
    method EnableShuffle(seed: bv64)
      requires Valid()
      modifies `cursor, `epoch, `order, `shuffleState, `shuffleOrigin
      ensures Valid() && order != [] && shuffleOrigin == Origin(seed) && Pos() == ServingPos(0, 0)
    {
      shuffleOrigin := Origin(seed);
      order := seq(corpus.n, _ => 0);
      Restart();
      cursor := 0;
    }

    method Rewind()
      requires Valid()
      modifies `cursor
      ensures Valid() && cursor == 0
    {
      cursor := 0;
    }

    /** The permutation of the next epoch. */
    method Reshuffle()
      requires Drew() && order != []
      modifies `epoch, `order, `shuffleState
      ensures Drew() && order != [] && epoch == old(epoch) + 1
    {
      DrawnOpen(order, shuffleState, shuffleOrigin, corpus.n, epoch);
      DrawnNext(shuffleOrigin, corpus.n, epoch);
      order, shuffleState := Redraw(order, shuffleState);
      epoch := epoch + 1;
      DrawnOpen(order, shuffleState, shuffleOrigin, corpus.n, epoch);
    }

    /** The first permutation of the origin. */
    method Restart()
      requires |order| == corpus.n > 0
      modifies `epoch, `order, `shuffleState
      ensures Drew() && order != [] && epoch == 0
    {
      shuffleState := shuffleOrigin;
      epoch := 0;
      order, shuffleState := Redraw(order, shuffleState);
      DrawnOpen(order, shuffleState, shuffleOrigin, corpus.n, epoch);
    }

    /** Move past the record just served. */
    method Bump()
      requires Valid()
      modifies `cursor, `epoch, `order, `shuffleState
      ensures Valid() && (order == [] <==> old(order == []))
      ensures Pos() == TheFeed().Next(old(Pos()))
    {
      cursor := cursor + 1;
      if cursor == corpus.n {
        Wrap();
      }
    }

    method Wrap()
      requires corpus.Valid() && Drew() && (labelsScanned ==> Extent(corpus.ClassIds(), minLabel, maxLabel))
      modifies `cursor, `epoch, `order, `shuffleState
      ensures Valid() && cursor == 0 && (order == [] <==> old(order == []))
      ensures epoch == if order == [] then 0 else old(epoch) + 1
    {
      cursor := 0;
      if order != [] {
        Reshuffle();
      }
    }

    /** One record into the slots at the given offsets, then on to the next. */
    method ServeRecord(inputSlot: array<Word>, at: nat, labelSlot: array?<Word>, labelAt: nat)
      requires Valid() && inputSlot != labelSlot && at + corpus.inputDim <= inputSlot.Length
      requires labelSlot != null ==> labelAt + corpus.LabelWords() <= labelSlot.Length
      modifies `cursor, `epoch, `order, `shuffleState, inputSlot, labelSlot
      ensures Valid() && (order == [] <==> old(order == [])) && Pos() == TheFeed().Next(old(Pos()))
      ensures inputSlot[..] == Spliced(old(inputSlot[..]), at, corpus.InputOf(old(TheFeed().IndexAt(Pos()))))
      ensures labelSlot != null ==>
        labelSlot[..] == Spliced(old(labelSlot[..]), labelAt, corpus.LabelOf(old(TheFeed().IndexAt(Pos()))))
    {
      ghost var served := TheFeed().IndexAt(Pos());
      if order != [] {
        DrawnOpen(order, shuffleState, shuffleOrigin, corpus.n, epoch);
      }
      var i := if order == [] then cursor else order[cursor];
      assert i == served;
      CopyWords(inputSlot, at, corpus.InputOf(i));
      if labelSlot != null {
        CopyWords(labelSlot, labelAt, corpus.LabelOf(i));
      }
      Bump();
    }

    /** One more record, after the first b. */
    method FillNext(b: nat, inputSlot: array<Word>, labelSlot: array?<Word>,
                    ghost f: Feed, ghost p: ServingPos, ghost before: seq<Word>, ghost labelBefore: seq<Word>)
      requires Valid() && f.Valid() && f.Has(p) && Served(b, f, p) && inputSlot != labelSlot
      requires Area(b + 1, corpus.inputDim) <= inputSlot.Length
      requires labelSlot != null ==> Area(b + 1, corpus.LabelWords()) <= labelSlot.Length
      requires Filled(inputSlot, before, f.Inputs(p, b))
      requires labelSlot != null ==> Filled(labelSlot, labelBefore, f.Labels(p, b))
      modifies `cursor, `epoch, `order, `shuffleState, inputSlot, labelSlot
      ensures Valid() && Served(b + 1, f, p)
      ensures Filled(inputSlot, before, f.Inputs(p, b + 1))
      ensures labelSlot != null ==> Filled(labelSlot, labelBefore, f.Labels(p, b + 1))
    {
      f.OneMoreServed(p, b);
      f.ServedLength(p, b);
      ghost var i := f.IndexAt(Pos());
      var at := Offset(b, corpus.inputDim);
      var labelAt := Offset(b, corpus.LabelWords());
      ServeRecord(inputSlot, at, labelSlot, labelAt);
      SplicedGrows(before, f.Inputs(p, b), corpus.InputOf(i));
      if labelSlot != null {
        SplicedGrows(labelBefore, f.Labels(p, b), corpus.LabelOf(i));
      }
    }

    /** The next `records` records, one at a time (token and shuffled serving). */
    method FillRecords(records: nat, inputSlot: array<Word>, labelSlot: array?<Word>)
      requires Valid() && inputSlot != labelSlot && Area(records, corpus.inputDim) <= inputSlot.Length
      requires labelSlot != null ==> Area(records, corpus.LabelWords()) <= labelSlot.Length
      modifies `cursor, `epoch, `order, `shuffleState, inputSlot, labelSlot
      ensures Valid() && Served(records, old(TheFeed()), old(Pos()))
      ensures Filled(inputSlot, old(inputSlot[..]), old(TheFeed().Inputs(Pos(), records)))
      ensures labelSlot != null ==> Filled(labelSlot, old(labelSlot[..]), old(TheFeed().Labels(Pos(), records)))
    {
      ghost var f, p, before := TheFeed(), Pos(), inputSlot[..];
      ghost var labelBefore := if labelSlot == null then [] else labelSlot[..];
      var b := 0;
      while b < records
        invariant b <= records && Valid() && Served(b, f, p) && Filled(inputSlot, before, f.Inputs(p, b))
        invariant labelSlot != null ==> Filled(labelSlot, labelBefore, f.Labels(p, b))
      {
        AreaFits(b + 1, 0, records, corpus.inputDim);
        AreaFits(b + 1, 0, records, corpus.LabelWords());
        FillNext(b, inputSlot, labelSlot, f, p, before, labelBefore);
        b := b + 1;
      }
    }

    /** Samples [cursor, last), which do not wrap, copied in one piece after the first b. */
    method FillRun(b: nat, t: nat, last: nat, inputSlot: array<Word>, labelSlot: array?<Word>,
                   ghost f: Feed, ghost p: ServingPos, ghost before: seq<Word>, ghost labelBefore: seq<Word>)
      requires Valid() && f.Valid() && f.Has(p) && Served(b, f, p) && inputSlot != labelSlot
      requires order == [] && corpus.Samples? && cursor < last <= corpus.n && t - b == last - cursor
      requires Area(t, corpus.inputDim) <= inputSlot.Length
      requires labelSlot != null ==> Area(t, corpus.LabelWords()) <= labelSlot.Length
      requires Filled(inputSlot, before, f.Inputs(p, b))
      requires labelSlot != null ==> Filled(labelSlot, labelBefore, f.Labels(p, b))
      modifies `cursor, inputSlot, labelSlot
      ensures Valid() && Served(t, f, p)
      ensures Filled(inputSlot, before, f.Inputs(p, t))
      ensures labelSlot != null ==> Filled(labelSlot, labelBefore, f.Labels(p, t))
    {
      RunJoins(f, p, b, Pos(), t - b, last, t);
      CopyRun(b, cursor, last, corpus.inputDim, corpus.inputs, inputSlot, before, f.Inputs(p, b));
      if labelSlot != null {
        CopyRun(b, cursor, last, corpus.LabelWords(), corpus.labels, labelSlot, labelBefore, f.Labels(p, b));
      }
      cursor := last;
      if cursor == corpus.n { cursor := 0; }
    }

    /** One run, up to the wrap or the end of the batch. */
    method FillNextRun(b: nat, batch: nat, inputSlot: array<Word>, labelSlot: array?<Word>,
                       ghost f: Feed, ghost p: ServingPos, ghost before: seq<Word>, ghost labelBefore: seq<Word>)
      returns (t: nat)
      requires Valid() && f.Valid() && f.Has(p) && Served(b, f, p) && inputSlot != labelSlot
      requires order == [] && corpus.Samples? && b < batch
      requires Area(batch, corpus.inputDim) <= inputSlot.Length
      requires labelSlot != null ==> Area(batch, corpus.LabelWords()) <= labelSlot.Length
      requires Filled(inputSlot, before, f.Inputs(p, b))
      requires labelSlot != null ==> Filled(labelSlot, labelBefore, f.Labels(p, b))
      modifies `cursor, inputSlot, labelSlot
      ensures b < t <= batch && Valid() && Served(t, f, p)
      ensures Filled(inputSlot, before, f.Inputs(p, t))
      ensures labelSlot != null ==> Filled(labelSlot, labelBefore, f.Labels(p, t))
    {
      var run := if batch - b <= corpus.n - cursor then batch - b else corpus.n - cursor;
      t := b + run;
      var last := cursor + run;
      AreaFits(t, 0, batch, corpus.inputDim);
      AreaFits(t, 0, batch, corpus.LabelWords());
      FillRun(b, t, last, inputSlot, labelSlot, f, p, before, labelBefore);
    }

    /** The next `batch` samples in whole runs up to the wrap (sequential serving). */
    method FillRuns(batch: nat, inputSlot: array<Word>, labelSlot: array?<Word>)
      requires Valid() && order == [] && corpus.Samples?
      requires inputSlot != labelSlot && Area(batch, corpus.inputDim) <= inputSlot.Length
      requires labelSlot != null ==> Area(batch, corpus.LabelWords()) <= labelSlot.Length
      modifies `cursor, inputSlot, labelSlot
      ensures Valid() && Served(batch, old(TheFeed()), old(Pos()))
      ensures Filled(inputSlot, old(inputSlot[..]), old(TheFeed().Inputs(Pos(), batch)))
      ensures labelSlot != null ==> Filled(labelSlot, old(labelSlot[..]), old(TheFeed().Labels(Pos(), batch)))
    {
      ghost var f, p, before := TheFeed(), Pos(), inputSlot[..];
      ghost var labelBefore := if labelSlot == null then [] else labelSlot[..];
      var b := 0;
      while b < batch
        invariant b <= batch && Valid() && Served(b, f, p) && Filled(inputSlot, before, f.Inputs(p, b))
        invariant labelSlot != null ==> Filled(labelSlot, labelBefore, f.Labels(p, b))
      {
        b := FillNextRun(b, batch, inputSlot, labelSlot, f, p, before, labelBefore);
      }
    }

    /** Exactly the next Records(batch) records of the feed, in order, and nothing else. */
    method FillBatch(batch: nat, inputSlot: array<Word>, labelSlot: array?<Word>)
      requires Valid() && inputSlot != labelSlot
      requires Area(Records(corpus, batch), corpus.inputDim) <= inputSlot.Length
      requires labelSlot != null ==> Area(Records(corpus, batch), corpus.LabelWords()) <= labelSlot.Length
      modifies `cursor, `epoch, `order, `shuffleState, inputSlot, labelSlot
      ensures Valid() && Served(Records(corpus, batch), old(TheFeed()), old(Pos()))
      ensures Filled(inputSlot, old(inputSlot[..]), old(TheFeed().Inputs(Pos(), Records(corpus, batch))))
      ensures labelSlot != null ==>
        Filled(labelSlot, old(labelSlot[..]), old(TheFeed().Labels(Pos(), Records(corpus, batch))))
      ensures corpus.Tokens? && labelSlot != null ==>
        ServesRecords(corpus.tokens, corpus.inputDim, old(TheFeed().Indices(Pos(), batch / corpus.inputDim)), inputSlot[..], labelSlot[..])
    {
      if corpus.Tokens? {
        ghost var f, p, records := TheFeed(), Pos(), batch / corpus.inputDim;
        FillRecords(batch / corpus.inputDim, inputSlot, labelSlot);
        if labelSlot != null {
          TokensServed(f, p, records, inputSlot[..], labelSlot[..]);
        }
      } else if order == [] {
        FillRuns(batch, inputSlot, labelSlot);
      } else {
        FillRecords(batch, inputSlot, labelSlot);
      }
    }

    /** Refused at the first class id outside [0, numClasses), if there is one. */
    method ValidateClassLabels(numClasses: nat) returns (offender: Option<nat>)
      requires Valid()
      modifies `labelsScanned, `minLabel, `maxLabel
      ensures Valid()
      ensures offender.None? <==> (corpus.LabelKind() == 1 && numClasses > 0 ==> AllBelow(corpus.ClassIds(), numClasses))
      ensures offender.Some? ==> FirstOffender(corpus.ClassIds(), numClasses, offender.value)
    {
      if corpus.LabelKind() != 1 || numClasses == 0 { return None; }
      var ids := corpus.ClassIds();
      if !labelsScanned {
        minLabel, maxLabel := ScanExtent(ids);
        labelsScanned := true;
      }
      ExtentDecides(ids, minLabel, maxLabel, numClasses);
      if ids == [] || (minLabel >= 0 && maxLabel < numClasses) { return None; }
      offender := FindOffender(ids, numClasses);
    }

    /** The last share of the records, split off before shuffling; both sides keep
        at least one record, and the label cache starts over on both. */
    method SplitValidation(fraction: real) returns (r: Result<Dataset>)
      requires Valid()
      modifies `corpus, `cursor, `labelsScanned
      ensures r.Ok? <==> 0.0 < fraction < 1.0 && old(corpus).n >= 2 && old(order) == []
      ensures r.Err? ==> corpus == old(corpus) && cursor == old(cursor) && labelsScanned == old(labelsScanned)
      ensures Valid()
      ensures r.Ok? ==>
        && fresh(r.value) && r.value.Valid() && r.value.Pos() == Pos() == ServingPos(0, 0)
        && corpus.n + r.value.corpus.n == old(corpus).n && r.value.corpus.n == ValidationShare(old(corpus).n, fraction)
        && !labelsScanned && !r.value.labelsScanned
        && (forall i :: 0 <= i < corpus.n ==>
          corpus.InputOf(i) == old(corpus).InputOf(i) && corpus.LabelOf(i) == old(corpus).LabelOf(i))
        && (forall i :: 0 <= i < r.value.corpus.n ==>
          && r.value.corpus.InputOf(i) == old(corpus).InputOf(corpus.n + i)
          && r.value.corpus.LabelOf(i) == old(corpus).LabelOf(corpus.n + i))
    {
      if fraction <= 0.0 || fraction >= 1.0 { return Err("validation fraction must be in (0, 1)"); }
      if corpus.n < 2 { return Err("too few samples to split"); }
      if order != [] { return Err("split before enabling shuffle"); }
      var valN := TruncatedShare(corpus.n, fraction);
      if valN == 0 { valN := 1; }
      if valN >= corpus.n { valN := corpus.n - 1; }
      var val := CutAt(corpus.n - valN);
      r := Ok(val);
    }

    /** The records from trainN on, moved to a dataset of their own. */
    method CutAt(trainN: nat) returns (val: Dataset)
      requires Valid() && 0 < trainN < corpus.n && order == []
      modifies `corpus, `cursor, `labelsScanned
      ensures Valid() && fresh(val) && val.Valid() && val.Pos() == Pos() == ServingPos(0, 0)
      ensures corpus.n == trainN && val.corpus.n == old(corpus).n - trainN && !labelsScanned && !val.labelsScanned
      ensures forall i :: 0 <= i < trainN ==>
        corpus.InputOf(i) == old(corpus).InputOf(i) && corpus.LabelOf(i) == old(corpus).LabelOf(i)
      ensures forall i :: 0 <= i < val.corpus.n ==>
        && val.corpus.InputOf(i) == old(corpus).InputOf(trainN + i)
        && val.corpus.LabelOf(i) == old(corpus).LabelOf(trainN + i)
    {
      ghost var whole := corpus;
      val := new Dataset(corpus.Tail(trainN));
      corpus := corpus.Head(trainN);
      cursor := 0;
      labelsScanned := false;
      SplitRecords(whole, trainN);
    }

    /** Exactly r records of the feed have been served since p. */
    ghost predicate Served(r: nat, f: Feed, p: ServingPos)
      requires f.Valid() && f.Has(p)
      reads this
    {
      TheFeed() == f && Pos() == f.Advance(p, r)
    }

    /** Any position of the feed is reached from its two numbers alone. */
    method RestoreServingPos(pos: ServingPos)
      requires Valid() && pos.cursor < corpus.n
      modifies `cursor, `epoch, `order, `shuffleState
      ensures Valid() && (order == [] <==> old(order == []))
      ensures Pos() == ServingPos(pos.cursor, if order == [] then 0 else pos.epoch)
    {
      GoToEpoch(pos.epoch);
      cursor := pos.cursor;
    }

    /** The permutation of an epoch, drawn again unless it is the current one. */
    method GoToEpoch(target: nat)
      requires Drew()
      modifies `epoch, `order, `shuffleState
      ensures Drew() && (order == [] <==> old(order == []))
      ensures epoch == if order == [] then old(epoch) else target
    {
      if order != [] && epoch != target {
        Replay(target);
      }
    }

    /** Draw the permutations again from the origin. */
    method Replay(target: nat)
      requires Drew() && order != []
      modifies `epoch, `order, `shuffleState
      ensures Drew() && order != [] && epoch == target
    {
      DrawnOpen(order, shuffleState, shuffleOrigin, corpus.n, epoch);
      Restart();
      while epoch < target
        invariant Drew() && order != [] && epoch <= target
      {
        Reshuffle();
      }
    }

    /** The position of a fresh feeder that has served `rows` rows; refused when
        the rows are not whole records. */
    method SkipServed(rows: nat) returns (ok: bool)
      requires Valid()
      modifies `cursor, `epoch, `order, `shuffleState
      ensures Valid() && (order == [] <==> old(order == []))
      ensures ok <==> (corpus.Tokens? ==> rows % corpus.inputDim == 0)
      ensures ok ==> Pos() == TheFeed().Advance(ServingPos(0, 0), Records(corpus, rows))
      ensures !ok ==> Pos() == old(Pos())
    {
      ok := corpus.Samples? || rows % corpus.inputDim == 0;
      if ok {
        var records := Records(corpus, rows);
        TheFeed().FromStart(records);
        RestoreServingPos(ServingPos(records % corpus.n, records / corpus.n));
      }
    }
  }

  /** Each of the listed token records lies at its place in the two slots, labels moved on by one. */
  ghost predicate ServesRecords(tokens: seq<Word>, d: nat, order: seq<nat>, input: seq<Word>, labels: seq<Word>) {
    forall k {:trigger order[k]} :: 0 <= k < |order| ==> ServesAt(tokens, d, order[k], k, input, labels)
  }

  ghost predicate ServesAt(tokens: seq<Word>, d: nat, i: nat, k: nat, input: seq<Word>, labels: seq<Word>) {
    && Area(k, d) + d <= |input| && Area(k, d) + d <= |labels|
    && ServesRecord(tokens, d, i, input[Area(k, d)..Area(k, d) + d], labels[Area(k, d)..Area(k, d) + d])
  }

  lemma TokensServed(f: Feed, p: ServingPos, r: nat, input: seq<Word>, labels: seq<Word>)
    requires f.Valid() && f.Has(p) && f.corpus.Tokens? && f.Inputs(p, r) <= input && f.Labels(p, r) <= labels
    ensures ServesRecords(f.corpus.tokens, f.corpus.inputDim, f.Indices(p, r), input, labels)
  {
    forall k | 0 <= k < r ensures ServesAt(f.corpus.tokens, f.corpus.inputDim, f.Indices(p, r)[k], k, input, labels) {
      TokenServed(f, p, r, k, f.Indices(p, r)[k], f.corpus.inputDim, input, labels);
    }
    hide *;
    AllServed(f.corpus.tokens, f.corpus.inputDim, f.Indices(p, r), input, labels);
  }

  lemma AllServed(tokens: seq<Word>, d: nat, order: seq<nat>, input: seq<Word>, labels: seq<Word>)
    requires forall k {:trigger order[k]} :: 0 <= k < |order| ==> ServesAt(tokens, d, order[k], k, input, labels)
    ensures ServesRecords(tokens, d, order, input, labels)
  {
  }

  lemma TokenServed(f: Feed, p: ServingPos, r: nat, k: nat, i: nat, d: nat, input: seq<Word>, labels: seq<Word>)
    requires f.Valid() && f.Has(p) && f.corpus.Tokens? && f.Inputs(p, r) <= input && f.Labels(p, r) <= labels
    requires k < r && i == f.Indices(p, r)[k] && d == f.corpus.inputDim
    ensures ServesAt(f.corpus.tokens, d, i, k, input, labels)
  {
    hide *;
    TokenFeed(f);
    f.InputServed(p, r, k, i, d);
    f.LabelServed(p, r, k, i, d);
    RecordIsShifted(f.corpus, i);
    SliceOfPrefix(f.Inputs(p, r), input, Area(k, d), Area(k, d) + d);
    SliceOfPrefix(f.Labels(p, r), labels, Area(k, d), Area(k, d) + d);
    ServesAtIs(f.corpus.tokens, d, i, k, input, labels);
  }

  lemma TokenFeed(f: Feed)
    requires f.Valid() && f.corpus.Tokens?
    ensures f.corpus.Valid() && f.corpus.LabelWords() == f.corpus.inputDim
  {
  }

  lemma ServesAtIs(tokens: seq<Word>, d: nat, i: nat, k: nat, input: seq<Word>, labels: seq<Word>)
    requires Area(k, d) + d <= |input| && Area(k, d) + d <= |labels|
    requires ServesRecord(tokens, d, i, input[Area(k, d)..Area(k, d) + d], labels[Area(k, d)..Area(k, d) + d])
    ensures ServesAt(tokens, d, i, k, input, labels)
  {
  }

  lemma SliceOfPrefix(words: seq<Word>, slot: seq<Word>, a: nat, b: nat)
    requires words <= slot && a <= b <= |words|
    ensures slot[a..b] == words[a..b]
  {
  }

  lemma SplitRecords(c: Corpus, k: nat)
    requires c.Valid() && 0 < k < c.n
    ensures c.Head(k).n == k && c.Tail(k).n == c.n - k
    ensures forall i :: 0 <= i < k ==> c.Head(k).InputOf(i) == c.InputOf(i) && c.Head(k).LabelOf(i) == c.LabelOf(i)
    ensures forall i :: 0 <= i < c.n - k ==> c.Tail(k).InputOf(i) == c.InputOf(k + i) && c.Tail(k).LabelOf(i) == c.LabelOf(k + i)
  {
    forall i | 0 <= i < k ensures c.Head(k).InputOf(i) == c.InputOf(i) && c.Head(k).LabelOf(i) == c.LabelOf(i) {
      c.HeadRecord(k, i);
    }
    forall i | 0 <= i < c.n - k ensures c.Tail(k).InputOf(i) == c.InputOf(k + i) && c.Tail(k).LabelOf(i) == c.LabelOf(k + i) {
      c.TailRecord(k, i);
    }
  }

  /** The two numbers decide the whole serving state: two feeders of one feed at one
      position agree on the order and on everything drawn after it. */
  lemma SamePosition(a: Dataset, b: Dataset)
    requires a.Valid() && b.Valid() && a.TheFeed() == b.TheFeed() && a.Pos() == b.Pos()
    ensures a.order == b.order && (a.order != [] ==> a.shuffleState == b.shuffleState)
  {
    if a.order != [] {
      DrawnOpen(a.order, a.shuffleState, a.shuffleOrigin, a.corpus.n, a.epoch);
      DrawnOpen(b.order, b.shuffleState, b.shuffleOrigin, b.corpus.n, b.epoch);
    }
  }

  /** Records in a batch of rows: a token record serves inputDim of them. */
  function Records(corpus: Corpus, batch: nat): nat
    requires corpus.Valid()
  {
    if corpus.Tokens? then batch / corpus.inputDim else batch
  }
}
