// The serving order of a dataset as a function of two numbers, the cursor and
// the epoch (runtime/pipeline/dataset.h, ServingPos).
module Serving {
  import opened Parallel
  import opened Shuffle
  import opened Corpus
  import opened Rows

  datatype ServingPos = ServingPos(cursor: nat, epoch: nat)

  lemma OneMore(r: nat, d: nat)
    requires r > 0
    ensures r * d == (r - 1) * d + d
  {
  }

  /** Counting up by one, modulo n. */
  lemma StepMod(x: nat, n: nat)
    requires n > 0
    ensures x % n + 1 < n ==> (x + 1) % n == x % n + 1 && (x + 1) / n == x / n
    ensures x % n + 1 >= n ==> (x + 1) % n == 0 && (x + 1) / n == x / n + 1
  {
    var q := x / n;
    DivisionBounds(x, n);
    QuotientUnique(x, n, q);
    OneMore(q + 1, n);
    if x + 1 < q * n + n {
      QuotientUnique(x + 1, n, q);
    } else {
      QuotientUnique(x + 1, n, q + 1);
    }
  }

  /** The rows at the listed indices, one after another. */
  function Gather(rows: seq<seq<Word>>, order: seq<nat>): seq<Word>
    requires forall k :: 0 <= k < |order| ==> order[k] < |rows|
  {
    if order == [] then [] else Gather(rows, order[..|order| - 1]) + rows[order[|order| - 1]]
  }

  lemma GatherSnoc(rows: seq<seq<Word>>, order: seq<nat>, i: nat)
    requires i < |rows| && forall k :: 0 <= k < |order| ==> order[k] < |rows|
    ensures Gather(rows, order + [i]) == Gather(rows, order) + rows[i]
  {
    assert (order + [i])[..|order|] == order;
  }

  lemma {:induction false} GatherSplits(rows: seq<seq<Word>>, a: seq<nat>, b: seq<nat>)
    requires forall k :: 0 <= k < |a| ==> a[k] < |rows|
    requires forall k :: 0 <= k < |b| ==> b[k] < |rows|
    ensures Gather(rows, a + b) == Gather(rows, a) + Gather(rows, b)
  {
    if b == [] {
      assert a + b == a;
    } else {
      var b' := b[..|b| - 1];
      assert (a + b)[..|a + b| - 1] == a + b';
      GatherSplits(rows, a, b');
    }
  }

  lemma {:induction false} GatherLength(rows: seq<seq<Word>>, order: seq<nat>, width: nat)
    requires forall k :: 0 <= k < |order| ==> order[k] < |rows|
    requires forall i :: 0 <= i < |rows| ==> |rows[i]| == width
    ensures |Gather(rows, order)| == Area(|order|, width)
  {
    if order != [] {
      GatherLength(rows, order[..|order| - 1], width);
    }
  }

  /** Gathered rows are found again at their places. */
  lemma {:induction false} GatherRow(rows: seq<seq<Word>>, order: seq<nat>, width: nat, k: nat)
    requires forall j :: 0 <= j < |order| ==> order[j] < |rows|
    requires forall i :: 0 <= i < |rows| ==> |rows[i]| == width
    requires k < |order|
    ensures Area(k, width) + width <= |Gather(rows, order)|
    ensures Gather(rows, order)[Area(k, width)..Area(k, width) + width] == rows[order[k]]
    decreases |order|
  {
    var m := |order| - 1;
    GatherLength(rows, order[..m], width);
    if k < m {
      GatherRow(rows, order[..m], width, k);
    }
  }

  /** What never changes while batches are served. */
  datatype Feed = Feed(corpus: Corpus, shuffled: bool, origin: bv64) {
    predicate Valid() { corpus.Valid() }

    predicate Has(p: ServingPos) { p.cursor < corpus.n && (shuffled || p.epoch == 0) }

    /** The record served at a position. */
    function IndexAt(p: ServingPos): (i: nat)
      requires Valid() && Has(p)
      ensures i < corpus.n
    {
      if shuffled then
        DrawnPermutes(origin, corpus.n, p.epoch);
        Drawn(origin, corpus.n, p.epoch).0[p.cursor]
      else p.cursor
    }

    function Next(p: ServingPos): (q: ServingPos)
      requires Valid() && Has(p)
      ensures Has(q)
    {
      if p.cursor + 1 < corpus.n then p.(cursor := p.cursor + 1)
      else ServingPos(0, if shuffled then p.epoch + 1 else 0)
    }

    /** The position after serving r records. */
    function Advance(p: ServingPos, r: nat): (q: ServingPos)
      requires Valid() && Has(p)
      ensures Has(q)
    {
      if r == 0 then p else Next(Advance(p, r - 1))
    }

    /** The records served over r steps, in order. */
    function Indices(p: ServingPos, r: nat): (order: seq<nat>)
      requires Valid() && Has(p)
      ensures |order| == r && forall k {:trigger order[k]} :: 0 <= k < r ==> order[k] == IndexAt(Advance(p, k)) < corpus.n
    {
      seq(r, k requires 0 <= k < r => IndexAt(Advance(p, k)))
    }

    /** The words the input slot receives over r records. */
    function Inputs(p: ServingPos, r: nat): seq<Word>
      requires Valid() && Has(p)
    {
      Gather(corpus.InputRows(), Indices(p, r))
    }

    /** The words the label slot receives over r records. */
    function Labels(p: ServingPos, r: nat): seq<Word>
      requires Valid() && Has(p)
    {
      Gather(corpus.LabelRows(), Indices(p, r))
    }

    /** Serving r records and then s more is serving r + s. */
    lemma {:induction false} AdvanceAdds(p: ServingPos, r: nat, s: nat, t: nat)
      requires Valid() && Has(p) && t == r + s
      ensures Advance(Advance(p, r), s) == Advance(p, t)
      decreases s
    {
      if s > 0 {
        AdvanceAdds(p, r, s - 1, t - 1);
      }
    }

    lemma {:induction false} ServedSplits(p: ServingPos, r: nat, s: nat, t: nat)
      requires Valid() && Has(p) && t == r + s
      ensures Indices(p, t) == Indices(p, r) + Indices(Advance(p, r), s)
      ensures Inputs(p, t) == Inputs(p, r) + Inputs(Advance(p, r), s)
      ensures Labels(p, t) == Labels(p, r) + Labels(Advance(p, r), s)
    {
      IndicesSplit(p, r, s, t);
      GatherSplits(corpus.InputRows(), Indices(p, r), Indices(Advance(p, r), s));
      GatherSplits(corpus.LabelRows(), Indices(p, r), Indices(Advance(p, r), s));
    }

    lemma OneMoreServed(p: ServingPos, r: nat)
      requires Valid() && Has(p)
      ensures Inputs(p, r + 1) == Inputs(p, r) + corpus.InputOf(IndexAt(Advance(p, r)))
      ensures Labels(p, r + 1) == Labels(p, r) + corpus.LabelOf(IndexAt(Advance(p, r)))
    {
      IndicesSnoc(p, r);
      GatherSnoc(corpus.InputRows(), Indices(p, r), IndexAt(Advance(p, r)));
      GatherSnoc(corpus.LabelRows(), Indices(p, r), IndexAt(Advance(p, r)));
    }

    lemma IndicesSnoc(p: ServingPos, r: nat)
      requires Valid() && Has(p)
      ensures Indices(p, r + 1) == Indices(p, r) + [IndexAt(Advance(p, r))]
    {
      IndicesSplit(p, r, 1, r + 1);
      assert Indices(Advance(p, r), 1) == [IndexAt(Advance(Advance(p, r), 0))];
    }

    lemma IndicesSplit(p: ServingPos, r: nat, s: nat, t: nat)
      requires Valid() && Has(p) && t == r + s
      ensures Indices(p, t) == Indices(p, r) + Indices(Advance(p, r), s)
    {
      forall k | r <= k < t ensures Advance(p, k) == Advance(Advance(p, r), k - r) {
        AdvanceAdds(p, r, k - r, k);
      }
    }

    lemma ServedLength(p: ServingPos, r: nat)
      requires Valid() && Has(p)
      ensures |Inputs(p, r)| == Area(r, corpus.inputDim)
      ensures |Labels(p, r)| == Area(r, corpus.LabelWords())
    {
      GatherLength(corpus.InputRows(), Indices(p, r), corpus.inputDim);
      GatherLength(corpus.LabelRows(), Indices(p, r), corpus.LabelWords());
    }

    /** The k-th record served lies at its place among the words. */
    lemma InputServed(p: ServingPos, r: nat, k: nat, i: nat, d: nat)
      requires Valid() && Has(p) && k < r && i == Indices(p, r)[k] && d == corpus.inputDim
      ensures i < corpus.n && Area(k, d) + d <= |Inputs(p, r)|
      ensures Inputs(p, r)[Area(k, d)..Area(k, d) + d] == corpus.InputOf(i)
    {
      GatherRow(corpus.InputRows(), Indices(p, r), d, k);
    }

    lemma LabelServed(p: ServingPos, r: nat, k: nat, i: nat, d: nat)
      requires Valid() && Has(p) && k < r && i == Indices(p, r)[k] && d == corpus.LabelWords()
      ensures i < corpus.n && Area(k, d) + d <= |Labels(p, r)|
      ensures Labels(p, r)[Area(k, d)..Area(k, d) + d] == corpus.LabelOf(i)
    {
      GatherRow(corpus.LabelRows(), Indices(p, r), d, k);
    }

    /** The two numbers in closed form: r records on, counted from the cursor. */
    lemma {:induction false} AdvanceClosed(p: ServingPos, r: nat)
      requires Valid() && Has(p)
      ensures Advance(p, r).cursor == (p.cursor + r) % corpus.n
      ensures Advance(p, r).epoch == if shuffled then p.epoch + (p.cursor + r) / corpus.n else 0
      decreases r
    {
      if r == 0 {
        QuotientUnique(p.cursor, corpus.n, 0);
      } else {
        AdvanceClosed(p, r - 1);
        StepMod(p.cursor + (r - 1), corpus.n);
      }
    }

    /** Replay from the start needs only the number of records served. */
    lemma FromStart(r: nat)
      requires Valid()
      ensures Advance(ServingPos(0, 0), r) == ServingPos(r % corpus.n, if shuffled then r / corpus.n else 0)
    {
      AdvanceClosed(ServingPos(0, 0), r);
    }

    /** The order of one epoch, from its beginning. */
    function EpochOrder(epoch: nat): (order: seq<nat>)
      requires Valid() && (shuffled || epoch == 0)
      ensures |order| == corpus.n && Permutation(order)
    {
      if shuffled then
        DrawnPermutes(origin, corpus.n, epoch);
        Drawn(origin, corpus.n, epoch).0
      else Identity(corpus.n)
    }

    lemma EpochIsOrder(epoch: nat)
      requires Valid() && (shuffled || epoch == 0)
      ensures Indices(ServingPos(0, epoch), corpus.n) == EpochOrder(epoch)
    {
      var order := Indices(ServingPos(0, epoch), corpus.n);
      forall k | 0 <= k < corpus.n ensures order[k] == EpochOrder(epoch)[k] {
        AdvanceInEpoch(ServingPos(0, epoch), k);
      }
    }

    /** An epoch served from its beginning serves every record exactly once. */
    lemma EpochServesEach(epoch: nat)
      requires Valid() && (shuffled || epoch == 0)
      ensures Permutation(Indices(ServingPos(0, epoch), corpus.n))
      ensures forall i :: 0 <= i < corpus.n ==> i in Indices(ServingPos(0, epoch), corpus.n)
    {
      EpochIsOrder(epoch);
      forall i | 0 <= i < corpus.n ensures i in EpochOrder(epoch) {
        PermutationCovers(EpochOrder(epoch), i);
      }
    }

    lemma {:induction false} AdvanceInEpoch(p: ServingPos, r: nat)
      requires Valid() && Has(p) && p.cursor + r < corpus.n
      ensures Advance(p, r) == ServingPos(p.cursor + r, p.epoch)
      decreases r
    {
      if r > 0 {
        AdvanceInEpoch(p, r - 1);
      }
    }

    lemma SequentialRun(p: ServingPos, r: nat)
      requires Valid() && Has(p) && !shuffled && p.cursor + r <= corpus.n
      ensures forall k :: 0 <= k < r ==> Indices(p, r)[k] == p.cursor + k
      ensures r > 0 ==> Advance(p, r) == ServingPos(if p.cursor + r < corpus.n then p.cursor + r else 0, 0)
    {
      forall k | 0 <= k < r ensures IndexAt(Advance(p, k)) == p.cursor + k {
        AdvanceInEpoch(p, k);
      }
      if r > 0 {
        AdvanceInEpoch(p, r - 1);
      }
    }
  }

  /** What a sequential run that does not wrap delivers, read off the stores. */
  lemma RunServed(f: Feed, p: ServingPos, r: nat, last: nat)
    requires f.Valid() && f.Has(p) && !f.shuffled && f.corpus.Samples? && p.cursor + r == last <= f.corpus.n
    ensures Area(p.cursor, f.corpus.inputDim) <= Area(last, f.corpus.inputDim) <= |f.corpus.inputs|
    ensures Area(p.cursor, f.corpus.LabelWords()) <= Area(last, f.corpus.LabelWords()) <= |f.corpus.labels|
    ensures f.Inputs(p, r) == f.corpus.inputs[Area(p.cursor, f.corpus.inputDim)..Area(last, f.corpus.inputDim)]
    ensures f.Labels(p, r) == f.corpus.labels[Area(p.cursor, f.corpus.LabelWords())..Area(last, f.corpus.LabelWords())]
  {
    var c := f.corpus;
    f.SequentialRun(p, r);
    RunIsSlice(c.inputs, c.n, c.inputDim, c.InputRows(), p.cursor, last, f.Indices(p, r));
    RunIsSlice(c.labels, c.n, c.LabelWords(), c.LabelRows(), p.cursor, last, f.Indices(p, r));
  }

  /** The same run, served after the first b records. */
  lemma RunJoins(f: Feed, p: ServingPos, b: nat, here: ServingPos, r: nat, last: nat, t: nat)
    requires f.Valid() && f.Has(p) && !f.shuffled && f.corpus.Samples?
    requires here == f.Advance(p, b) && here.cursor + r == last <= f.corpus.n && r > 0 && t == b + r
    ensures Area(here.cursor, f.corpus.inputDim) <= Area(last, f.corpus.inputDim) <= |f.corpus.inputs|
    ensures Area(here.cursor, f.corpus.LabelWords()) <= Area(last, f.corpus.LabelWords()) <= |f.corpus.labels|
    ensures f.Inputs(p, t) ==
      f.Inputs(p, b) + f.corpus.inputs[Area(here.cursor, f.corpus.inputDim)..Area(last, f.corpus.inputDim)]
    ensures f.Labels(p, t) ==
      f.Labels(p, b) + f.corpus.labels[Area(here.cursor, f.corpus.LabelWords())..Area(last, f.corpus.LabelWords())]
    ensures f.Advance(p, t) == ServingPos(if last < f.corpus.n then last else 0, 0)
    ensures |f.Inputs(p, b)| == Area(b, f.corpus.inputDim) && |f.Inputs(p, t)| == Area(t, f.corpus.inputDim)
    ensures |f.Labels(p, b)| == Area(b, f.corpus.LabelWords()) && |f.Labels(p, t)| == Area(t, f.corpus.LabelWords())
  {
    RunServed(f, here, r, last);
    f.ServedSplits(p, b, r, t);
    f.AdvanceAdds(p, b, r, t);
    f.SequentialRun(here, r);
    f.ServedLength(p, b);
    f.ServedLength(p, t);
  }

  lemma Glue(store: seq<Word>, a: nat, m: nat, e: nat)
    requires a <= m <= e <= |store|
    ensures store[a..m] + store[m..e] == store[a..e]
  {
  }

  /** A run of consecutive rows is one contiguous stretch of the store. */
  lemma {:induction false} RunIsSlice(store: seq<Word>, n: nat, width: nat, rows: seq<seq<Word>>, first: nat, last: nat, order: seq<nat>)
    requires |store| == Area(n, width) && |rows| == n && forall i :: 0 <= i < n ==> rows[i] == Row(store, n, width, i)
    requires first + |order| == last <= n && forall k :: 0 <= k < |order| ==> order[k] == first + k
    ensures Area(first, width) <= Area(last, width) <= |store|
    ensures Gather(rows, order) == store[Area(first, width)..Area(last, width)]
    decreases |order|
  {
    AreaAdds(first, |order|, width);
    AreaFits(last, 0, n, width);
    if order != [] {
      RunIsSlice(store, n, width, rows, first + 1, last, order[1..]);
      AreaNext(first, width);
      FirstThenRest(rows, order);
      Glue(store, Area(first, width), Area(first + 1, width), Area(last, width));
    }
  }

  lemma FirstThenRest(rows: seq<seq<Word>>, order: seq<nat>)
    requires order != [] && forall k :: 0 <= k < |order| ==> order[k] < |rows|
    ensures Gather(rows, order) == rows[order[0]] + Gather(rows, order[1..])
  {
    assert order == [order[0]] + order[1..];
    GatherSplits(rows, [order[0]], order[1..]);
    GatherOne(rows, order[0]);
  }

  lemma GatherOne(rows: seq<seq<Word>>, i: nat)
    requires i < |rows|
    ensures Gather(rows, [i]) == rows[i]
  {
    assert [i][..0] == [];
  }
}
