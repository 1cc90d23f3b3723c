// One evaluation pass (runtime/dispatcher/update_engine.cc, EvaluateMetrics and
// RealRowLoss), over the reals.
module Evaluate {
  import opened Scalar
  import opened Parallel
  import opened Shuffle
  import opened Corpus
  import opened Rows
  import opened Serving
  import opened Feeding
  import opened Loss

  // ------------------------------------------------------------ the eval program

  /** The eval program's loss: a lone cross-entropy, a lone squared error over `width`
      elements a row, or one that keeps no per-row values. */
  datatype Tail = Xent | Mse(width: nat) | Weighted {
    predicate Rows() { !Weighted? }

    /** Loss summands a row. */
    function Summands(): nat {
      match this
      case Xent => 1
      case Mse(width) => width
      case Weighted => 0
    }
  }

  datatype Plan = Plan(batch: nat, rowsPerSample: nat, tail: Tail, accuracy: bool) {
    function Step(): nat
      requires rowsPerSample > 0
    {
      batch / rowsPerSample
    }

    /** Loss summands a sample. */
    function Per(): nat { if tail.Mse? then rowsPerSample * tail.width else if tail.Xent? then rowsPerSample else 0 }

    predicate Valid() {
      && rowsPerSample > 0 && Step() > 0 && batch > 0 && batch == Area(Step(), rowsPerSample)
      && (tail.Rows() ==> tail.Summands() > 0)
    }
  }

  /** What the program computes before its loss: a softmax's logits, or a prediction and its
      target; for any other loss its value; and the probabilities accuracy is judged by. */
  datatype Output = Output(
    logits: seq<seq<real>>, pred: seq<real>, target: seq<real>, loss: real, judged: seq<seq<Value>>)

  /** An evaluation: the plan, the library functions and the program, a function of the
      staged words. None is a failed execution. */
  datatype Task = Task(plan: Plan, m: Math, run: (seq<Word>, seq<Word>) -> Option<Output>, labelled: bool) {
    predicate Valid() { plan.Valid() }
  }

  /** The operand sizes the plan was compiled with, and labels inside the softmax's rows. */
  ghost predicate Shaped(t: Task, out: Output, labels: seq<Word>)
    requires t.Valid()
  {
    && (t.plan.tail.Xent? ==> |out.logits| == t.plan.batch && Indexed(Softmaxes(t.m, out.logits), labels))
    && (t.plan.tail.Mse? ==> |out.pred| == |out.target| == Area(t.plan.Step(), t.plan.Per()) > 0)
    && (t.plan.accuracy ==> JudgedRows(t, out.judged, labels))
  }

  predicate JudgedRows(t: Task, judged: seq<seq<Value>>, labels: seq<Word>) {
    |judged| >= t.plan.batch && |labels| >= t.plan.batch && forall r :: 0 <= r < t.plan.batch ==> judged[r] != []
  }

  /** What executing the eval program on one batch amounts to: its loss, the summands the
      loss is the mean of, and which rows are judged right. */
  datatype Outcome = Failed | Scored(loss: real, terms: seq<real>, hits: seq<bool>)

  ghost function Terms(t: Task, out: Output, labels: seq<Word>): seq<real>
    requires t.Valid() && Shaped(t, out, labels)
  {
    match t.plan.tail
    case Xent => XentTerms(t.m, Softmaxes(t.m, out.logits), labels)
    case Mse(_) => MseTerms(out.pred, out.target)
    case Weighted => []
  }

  ghost function OutcomeOf(t: Task, inputs: seq<Word>, labels: seq<Word>): Outcome
    requires t.Valid() && (t.run(inputs, labels).Some? ==> Shaped(t, t.run(inputs, labels).value, labels))
  {
    var out := t.run(inputs, labels);
    if out.None? then Failed
    else
      var terms := Terms(t, out.value, labels);
      Scored(if t.plan.tail.Rows() then Mean(terms) else out.value.loss, terms,
             if t.plan.accuracy then Hits(out.value.judged, labels, t.plan.batch) else [])
  }

  ghost predicate Fits(plan: Plan, o: Outcome)
    requires plan.Valid()
  {
    o.Scored? ==>
      && (plan.accuracy ==> |o.hits| == plan.batch)
      && (plan.tail.Rows() ==> |o.terms| == Area(plan.Step(), plan.Per()) > 0 && o.loss == Mean(o.terms))
  }

  lemma OutcomeFits(t: Task, inputs: seq<Word>, labels: seq<Word>)
    requires t.Valid() && (t.run(inputs, labels).Some? ==> Shaped(t, t.run(inputs, labels).value, labels))
    ensures Fits(t.plan, OutcomeOf(t, inputs, labels))
  {
  }

  /** The arena after the program has run: the loss, and the operands of it that stay. */
  datatype Ran = Ran(loss: real, probs: seq<seq<Value>>, labels: seq<Word>, pred: seq<real>, target: seq<real>, judged: seq<seq<Value>>)

  ghost predicate Leaves(t: Task, ran: Ran, o: Outcome)
    requires t.Valid()
  {
    && o.Scored? && ran.loss == o.loss
    && (t.plan.tail.Xent? ==>
      |ran.probs| == t.plan.batch && Indexed(ran.probs, ran.labels) && o.terms == XentTerms(t.m, ran.probs, ran.labels))
    && (t.plan.tail.Mse? ==>
      |ran.pred| == |ran.target| == Area(t.plan.Step(), t.plan.Per()) && o.terms == MseTerms(ran.pred, ran.target))
    && (t.plan.accuracy ==> JudgedRows(t, ran.judged, ran.labels) && o.hits == Hits(ran.judged, ran.labels, t.plan.batch))
  }

  /** One execution on the staged words, its loss kernel included. */
  method Execute(t: Task, inputs: seq<Word>, labels: seq<Word>, grain: nat) returns (ran: Option<Ran>)
    requires t.Valid() && (t.run(inputs, labels).Some? ==> Shaped(t, t.run(inputs, labels).value, labels))
    ensures ran.None? <==> OutcomeOf(t, inputs, labels).Failed?
    ensures ran.Some? ==> Leaves(t, ran.value, OutcomeOf(t, inputs, labels))
  {
    var out := t.run(inputs, labels);
    if out.None? { return None; }
    var loss, probs := RunLoss(t, out.value, labels, grain);
    ran := Some(Ran(loss, probs, labels, out.value.pred, out.value.target, out.value.judged));
  }

  /** The program's loss kernel, if the loss is a lone one. */
  method RunLoss(t: Task, out: Output, labels: seq<Word>, grain: nat) returns (loss: real, probs: seq<seq<Value>>)
    requires t.Valid() && Shaped(t, out, labels)
    ensures t.plan.tail.Rows() ==> Terms(t, out, labels) != [] && loss == Mean(Terms(t, out, labels))
    ensures t.plan.tail.Weighted? ==> loss == out.loss
    ensures t.plan.tail.Xent? ==> probs == Softmaxes(t.m, out.logits)
  {
    loss, probs := out.loss, [];
    match t.plan.tail {
      case Xent =>
        var buffer := new seq<Value>[|out.logits|](_ => []);
        loss := SoftmaxXEntFwd(t.m, out.logits, labels, grain, buffer);
        probs := buffer[..];
      case Mse(_) =>
        loss := MseFwd(out.pred, out.target, grain);
      case Weighted =>
    }
  }

  // -------------------------------------------------------------- the real rows

  /** Samples of batch k that are not wrapped duplicates. */
  function Real(n: nat, step: nat, k: nat): nat {
    if Area(k, step) >= n then 0 else Min(step, n - Area(k, step))
  }

  /** The loss summands of the real rows of the first k batches. */
  ghost function RealTerms(plan: Plan, n: nat, o: seq<Outcome>, k: nat): seq<real>
    requires plan.Valid() && k <= |o| && forall b :: 0 <= b < k ==> o[b].Scored? && Fits(plan, o[b])
  {
    if k == 0 then [] else RealTerms(plan, n, o, k - 1) + Kept(o[k - 1].terms, Area(Real(n, plan.Step(), k - 1), plan.Per()))
  }

  /** Whether each real row of the first k batches was judged right. */
  ghost function RealHits(plan: Plan, n: nat, o: seq<Outcome>, k: nat): seq<bool>
    requires plan.Valid() && k <= |o| && forall b :: 0 <= b < k ==> o[b].Scored? && Fits(plan, o[b])
  {
    if k == 0 then [] else RealHits(plan, n, o, k - 1) + Kept(o[k - 1].hits, Area(Real(n, plan.Step(), k - 1), plan.rowsPerSample))
  }

  /** Batch means weighted by real rows, for a composite loss. */
  ghost function WeightedLoss(plan: Plan, n: nat, o: seq<Outcome>, k: nat): real
    requires plan.Valid() && k <= |o| && forall b :: 0 <= b < k ==> o[b].Scored?
  {
    if k == 0 then 0.0
    else WeightedLoss(plan, n, o, k - 1) + Scale(o[k - 1].loss, Area(Real(n, plan.Step(), k - 1), plan.rowsPerSample))
  }

  function Kept<T>(s: seq<T>, k: nat): seq<T> { if k <= |s| then s[..k] else s }

  /** c times x. */
  function Scale(x: real, c: nat): real {
    if c == 0 then 0.0 else Scale(x, c - 1) + x
  }

  lemma {:induction false} ScaleIs(x: real, c: nat)
    ensures Scale(x, c) == x * c as real
  {
    if c > 0 {
      ScaleIs(x, c - 1);
      assert x * c as real == x * (c - 1) as real + x;
    }
  }

  lemma {:induction false} ScaleAdds(x: real, y: real, c: nat)
    ensures Scale(x + y, c) == Scale(x, c) + Scale(y, c)
  {
    if c > 0 {
      ScaleAdds(x, y, c - 1);
    }
  }

  lemma ScaleBack(x: real, c: nat)
    requires c > 0
    ensures Scale(x / c as real, c) == x
  {
    ScaleIs(x / c as real, c);
  }

  // Real samples: every batch but the last is whole, and they add up to the set.
  lemma RealAdds(n: nat, step: nat, k: nat, next: nat)
    requires step > 0 && next == k + 1 && Area(k, step) < n
    ensures Min(n, Area(next, step)) == Area(k, step) + Real(n, step, k)
    ensures Real(n, step, k) <= step
  {
    AreaNext(k, step);
  }

  lemma AreaTwice(n: nat, rows: nat, width: nat)
    ensures Area(n, rows) * width == Area(n, rows * width)
  {
    AreaIs(n, rows);
    AreaIs(n, rows * width);
    assert n * rows * width == n * (rows * width);
  }

  /** RealRowLoss: over the first `rows` rows of a batch, the summands the loss kernel would
      sum; a composite loss counts its mean once a row. */
  method RealRowLoss(t: Task, left: nat, rows: nat, ran: Ran, ghost o: Outcome) returns (loss: real)
    requires t.Valid() && Leaves(t, ran, o) && Fits(t.plan, o) && left <= t.plan.Step() && rows == Area(left, t.plan.rowsPerSample)
    ensures t.plan.tail.Rows() ==> Scale(loss, t.plan.tail.Summands()) == Sum(Kept(o.terms, Area(left, t.plan.Per())))
    ensures t.plan.tail.Weighted? ==> loss == Scale(o.loss, rows)
  {
    AreaFits(left, 0, t.plan.Step(), t.plan.Per());
    AreaFits(left, 0, t.plan.Step(), t.plan.rowsPerSample);
    match t.plan.tail
    case Xent =>
      loss := RealXent(t.m, ran.probs, ran.labels, rows);
      ScaleIs(loss, 1);
    case Mse(width) =>
      AreaTwice(left, t.plan.rowsPerSample, width);
      var total := RealMse(ran.pred, ran.target, rows * width);
      loss := total / width as real;
      ScaleBack(total, width);
    case Weighted =>
      ScaleIs(ran.loss, rows);
      loss := ran.loss * rows as real;
  }

  datatype Tally = Tally(total: real, realLoss: real, realRows: nat, correct: nat, counted: nat)

  predicate Ragged(plan: Plan, n: nat)
    requires plan.Valid()
  {
    n % plan.Step() != 0
  }

  /** What the sums stand for after k batches. */
  ghost predicate Tallied(plan: Plan, n: nat, o: seq<Outcome>, k: nat, t: Tally)
    requires plan.Valid() && k <= |o| && forall b :: 0 <= b < k ==> o[b].Scored? && Fits(plan, o[b])
  {
    LossTallied(plan, n, o, k, t) && HitsTallied(plan, n, o, k, t)
  }

  ghost predicate LossTallied(plan: Plan, n: nat, o: seq<Outcome>, k: nat, t: Tally)
    requires plan.Valid() && k <= |o| && forall b :: 0 <= b < k ==> o[b].Scored? && Fits(plan, o[b])
  {
    if Ragged(plan, n) then
      && t.realRows == Area(Min(n, Area(k, plan.Step())), plan.rowsPerSample)
      && (if plan.tail.Rows() then Scale(t.realLoss, plan.tail.Summands()) == Sum(RealTerms(plan, n, o, k))
          else t.realLoss == WeightedLoss(plan, n, o, k))
    else if plan.tail.Rows() then Scale(t.total, Area(plan.Step(), plan.Per())) == Sum(RealTerms(plan, n, o, k))
    else Scale(t.total, plan.batch) == WeightedLoss(plan, n, o, k)
  }

  ghost predicate HitsTallied(plan: Plan, n: nat, o: seq<Outcome>, k: nat, t: Tally)
    requires plan.Valid() && k <= |o| && forall b :: 0 <= b < k ==> o[b].Scored? && Fits(plan, o[b])
  {
    plan.accuracy ==>
      && t.counted == Area(Min(n, Area(k, plan.Step())), plan.rowsPerSample)
      && t.correct == CountTrue(RealHits(plan, n, o, k))
  }

  /** Without a remainder every batch is whole. */
  lemma WholeBatch(n: nat, step: nat, k: nat)
    requires step > 0 && n % step == 0 && Area(k, step) < n
    ensures Real(n, step, k) == step
  {
    AreaIs(k, step);
    DivisionBounds(n, step);
    QuotientUnique(n, step, n / step);
    TimesLess(k, n / step, step);
    TimesLeft(k + 1, n / step, step);
    assert (k + 1) * step == k * step + step;
  }

  lemma MeanTimes(t: seq<real>)
    requires t != []
    ensures Scale(Mean(t), |t|) == Sum(t)
  {
    ScaleBack(Sum(t), |t|);
  }

  lemma RowsGrow(n: nat, step: nat, k: nat, next: nat, rows: nat)
    requires step > 0 && next == k + 1 && Area(k, step) < n
    ensures Area(Min(n, Area(next, step)), rows) == Area(Min(n, Area(k, step)), rows) + Area(Real(n, step, k), rows)
  {
    RealAdds(n, step, k, next);
    AreaAdds(Area(k, step), Real(n, step, k), rows);
  }

  /** The plain running total over whole batches. */
  lemma TotalGrows(plan: Plan, n: nat, o: seq<Outcome>, k: nat, next: nat, total: real)
    requires plan.Valid() && k < |o| && next == k + 1 && forall b :: 0 <= b < next ==> o[b].Scored? && Fits(plan, o[b])
    requires Area(k, plan.Step()) < n && !Ragged(plan, n)
    requires plan.tail.Rows() ==> Scale(total, Area(plan.Step(), plan.Per())) == Sum(RealTerms(plan, n, o, k))
    requires plan.tail.Weighted? ==> Scale(total, plan.batch) == WeightedLoss(plan, n, o, k)
    ensures plan.tail.Rows() ==>
      Scale(total + o[k].loss, Area(plan.Step(), plan.Per())) == Sum(RealTerms(plan, n, o, next))
    ensures plan.tail.Weighted? ==> Scale(total + o[k].loss, plan.batch) == WeightedLoss(plan, n, o, next)
  {
    WholeBatch(n, plan.Step(), k);
    if plan.tail.Rows() {
      TermsGrow(plan, n, o, k, next);
      ScaleAdds(total, o[k].loss, Area(plan.Step(), plan.Per()));
    } else {
      ScaleAdds(total, o[k].loss, plan.batch);
    }
  }

  /** A whole batch's loss, scaled by its summands, is their sum. */
  lemma TermsGrow(plan: Plan, n: nat, o: seq<Outcome>, k: nat, next: nat)
    requires plan.Valid() && plan.tail.Rows() && k < |o| && next == k + 1
    requires forall b :: 0 <= b < next ==> o[b].Scored? && Fits(plan, o[b])
    requires Real(n, plan.Step(), k) == plan.Step()
    ensures Sum(RealTerms(plan, n, o, next)) ==
      Sum(RealTerms(plan, n, o, k)) + Scale(o[k].loss, Area(plan.Step(), plan.Per()))
  {
    var terms := o[k].terms;
    MeanTimes(terms);
    assert Kept(terms, Area(plan.Step(), plan.Per())) == terms;
    TermsNext(plan, n, o, k, next);
    SumSplits(RealTerms(plan, n, o, k), terms);
  }

  lemma TermsNext(plan: Plan, n: nat, o: seq<Outcome>, k: nat, next: nat)
    requires plan.Valid() && k < |o| && next == k + 1
    requires forall b :: 0 <= b < next ==> o[b].Scored? && Fits(plan, o[b])
    ensures RealTerms(plan, n, o, next) ==
      RealTerms(plan, n, o, k) + Kept(o[k].terms, Area(Real(n, plan.Step(), k), plan.Per()))
  {
  }

  /** One evaluated batch into the sums. */
  method AddBatch(t: Task, n: nat, ghost o: seq<Outcome>, k: nat, next: nat, sums: Tally, ran: Ran, grain: nat) returns (sums': Tally)
    requires t.Valid() && k < |o| && next == k + 1 && forall b :: 0 <= b < next ==> o[b].Scored? && Fits(t.plan, o[b])
    requires Leaves(t, ran, o[k]) && Tallied(t.plan, n, o, k, sums) && Area(k, t.plan.Step()) < n
    ensures Tallied(t.plan, n, o, next, sums')
  {
    RealAdds(n, t.plan.Step(), k, next);
    var served := Offset(k, t.plan.Step());
    var left := if t.plan.Step() < n - served then t.plan.Step() else n - served;
    var rows := Offset(left, t.plan.rowsPerSample);
    sums' := AddLoss(t, n, o, k, next, sums, ran, left, rows);
    sums' := AddHits(t, n, o, k, next, sums', ran, left, rows, grain);
  }

  method AddLoss(t: Task, n: nat, ghost o: seq<Outcome>, ghost k: nat, ghost next: nat, sums: Tally, ran: Ran, left: nat, rows: nat)
    returns (sums': Tally)
    requires t.Valid() && k < |o| && next == k + 1 && forall b :: 0 <= b < next ==> o[b].Scored? && Fits(t.plan, o[b])
    requires Leaves(t, ran, o[k]) && Area(k, t.plan.Step()) < n
    requires left == Real(n, t.plan.Step(), k) <= t.plan.Step() && rows == Area(left, t.plan.rowsPerSample)
    requires LossTallied(t.plan, n, o, k, sums)
    ensures LossTallied(t.plan, n, o, next, sums')
    ensures sums'.correct == sums.correct && sums'.counted == sums.counted
  {
    var plan := t.plan;
    sums' := sums.(total := sums.total + ran.loss);
    if Ragged(plan, n) {
      RowsGrow(n, plan.Step(), k, next, plan.rowsPerSample);
      var loss := RealRowLoss(t, left, rows, ran, o[k]);
      if plan.tail.Rows() {
        RealLossGrows(plan, n, o, k, next, sums.realLoss, loss);
      }
      sums' := sums'.(realLoss := sums.realLoss + loss, realRows := sums.realRows + rows);
    } else {
      TotalGrows(plan, n, o, k, next, sums.total);
    }
  }

  lemma RealLossGrows(plan: Plan, n: nat, o: seq<Outcome>, k: nat, next: nat, sum: real, loss: real)
    requires plan.Valid() && k < |o| && next == k + 1 && forall b :: 0 <= b < next ==> o[b].Scored? && Fits(plan, o[b])
    requires Scale(sum, plan.tail.Summands()) == Sum(RealTerms(plan, n, o, k))
    requires Scale(loss, plan.tail.Summands()) == Sum(Kept(o[k].terms, Area(Real(n, plan.Step(), k), plan.Per())))
    ensures Scale(sum + loss, plan.tail.Summands()) == Sum(RealTerms(plan, n, o, next))
  {
    ScaleAdds(sum, loss, plan.tail.Summands());
    TermsNext(plan, n, o, k, next);
    SumSplits(RealTerms(plan, n, o, k), Kept(o[k].terms, Area(Real(n, plan.Step(), k), plan.Per())));
  }

  method AddHits(t: Task, n: nat, ghost o: seq<Outcome>, ghost k: nat, ghost next: nat, sums: Tally, ran: Ran, left: nat, rows: nat, grain: nat)
    returns (sums': Tally)
    requires t.Valid() && k < |o| && next == k + 1 && forall b :: 0 <= b < next ==> o[b].Scored? && Fits(t.plan, o[b])
    requires Leaves(t, ran, o[k]) && Area(k, t.plan.Step()) < n
    requires left == Real(n, t.plan.Step(), k) <= t.plan.Step() && rows == Area(left, t.plan.rowsPerSample)
    requires HitsTallied(t.plan, n, o, k, sums) && LossTallied(t.plan, n, o, next, sums)
    ensures Tallied(t.plan, n, o, next, sums')
  {
    sums' := sums;
    if t.plan.accuracy {
      RowsGrow(n, t.plan.Step(), k, next, t.plan.rowsPerSample);
      AreaFits(left, 0, t.plan.Step(), t.plan.rowsPerSample);
      var hits := CountHits(ran.judged, ran.labels, rows, grain);
      assert Hits(ran.judged, ran.labels, rows) == Kept(o[k].hits, rows);
      CountSplits(RealHits(t.plan, n, o, k), Kept(o[k].hits, rows));
      sums' := sums.(correct := sums.correct + hits, counted := sums.counted + rows);
    }
  }

  function Batches(n: nat, step: nat): (k: nat)
    requires step > 0
    ensures k > 0
  {
    if CeilDiv(n, step) > 1 then CeilDiv(n, step) else 1
  }

  /** The batches cover the set, and no batch is without a real sample. */
  lemma BatchesCover(n: nat, step: nat, k: nat)
    requires step > 0 && n > 0
    ensures Area(Batches(n, step), step) >= n
    ensures k < Batches(n, step) ==> Area(k, step) < n
  {
    CeilDivLeast(n, step);
    AreaIs(Batches(n, step), step);
    AreaIs(k, step);
    if k < Batches(n, step) {
      TimesLeft(k, Batches(n, step) - 1, step);
    }
  }

  lemma {:induction false} RealLength(plan: Plan, n: nat, o: seq<Outcome>, k: nat)
    requires plan.Valid() && plan.tail.Rows() && n > 0 && k <= Batches(n, plan.Step()) && k <= |o|
    requires forall b :: 0 <= b < k ==> o[b].Scored? && Fits(plan, o[b])
    ensures |RealTerms(plan, n, o, k)| == Area(Min(n, Area(k, plan.Step())), plan.Per())
  {
    if k > 0 {
      var before := k - 1;
      RealLength(plan, n, o, before);
      BatchesCover(n, plan.Step(), before);
      RowsGrow(n, plan.Step(), before, k, plan.Per());
      RealAdds(n, plan.Step(), before, k);
      AreaFits(Real(n, plan.Step(), before), 0, plan.Step(), plan.Per());
    }
  }

  /** A sum divided in two steps is the mean. */
  lemma MeanOf(a: real, c: nat, rows: nat, t: seq<real>)
    requires c > 0 && rows > 0 && Scale(a, c) == Sum(t) && |t| == rows * c
    ensures t != [] && a / rows as real == Mean(t)
  {
    ScaleIs(a, c);
    MeanByParts(a, c, rows, |t|, Sum(t));
  }

  lemma MeanByParts(a: real, c: nat, rows: nat, length: nat, total: real)
    requires c > 0 && rows > 0 && a * c as real == total && length == rows * c
    ensures length > 0 && a / rows as real == total / length as real
  {
    QuotientTwice(a, rows as real, c as real, total);
  }

  lemma QuotientTwice(a: real, r: real, c: real, s: real)
    requires r > 0.0 && c > 0.0 && a * c == s
    ensures r * c > 0.0 && a / r == s / (r * c)
  {
    var q := a / r;
    assert q * r == a;
    assert q * (r * c) == s;
  }

  datatype Metrics = Metrics(loss: real, accuracy: Option<real>)

  /** The loss of a pass: the mean over the real rows' own summands; for a composite
      loss the batch means, weighted by real rows. */
  ghost predicate PassLoss(plan: Plan, n: nat, o: seq<Outcome>, loss: real)
    requires plan.Valid() && n > 0 && Batches(n, plan.Step()) <= |o|
    requires forall b :: 0 <= b < Batches(n, plan.Step()) ==> o[b].Scored? && Fits(plan, o[b])
  {
    var k := Batches(n, plan.Step());
    if plan.tail.Rows() then RealTerms(plan, n, o, k) != [] && loss == Mean(RealTerms(plan, n, o, k))
    else Scale(loss, Area(n, plan.rowsPerSample)) == WeightedLoss(plan, n, o, k)
  }

  /** Dividing the sums at the end of a pass. */
  lemma FinalLoss(plan: Plan, n: nat, o: seq<Outcome>, t: Tally, loss: real)
    requires plan.Valid() && n > 0 && Batches(n, plan.Step()) <= |o|
    requires forall b :: 0 <= b < Batches(n, plan.Step()) ==> o[b].Scored? && Fits(plan, o[b])
    requires Tallied(plan, n, o, Batches(n, plan.Step()), t)
    requires loss == if Ragged(plan, n) then (if t.realRows == 0 then 0.0 else t.realLoss / t.realRows as real) else t.total / Batches(n, plan.Step()) as real
    ensures PassLoss(plan, n, o, loss)
  {
    var k, rows := Batches(n, plan.Step()), Area(n, plan.rowsPerSample);
    BatchesCover(n, plan.Step(), k);
    SampleRows(n, plan.rowsPerSample);
    if !Ragged(plan, n) {
      ExactBatches(n, plan.Step(), k);
    }
    if plan.tail.Rows() {
      RealLength(plan, n, o, k);
      AreaTwice(n, plan.rowsPerSample, plan.tail.Summands());
      if Ragged(plan, n) {
        MeanOf(t.realLoss, plan.tail.Summands(), rows, RealTerms(plan, n, o, k));
      } else {
        AreaOfArea(k, plan.Step(), n, plan.Per());
        MeanOf(t.total, Area(plan.Step(), plan.Per()), k, RealTerms(plan, n, o, k));
      }
    } else if Ragged(plan, n) {
      ScaleBack(t.realLoss, rows);
    } else {
      AreaOfArea(k, plan.Step(), n, plan.rowsPerSample);
      ScaleShared(t.total, k, plan.batch, rows);
    }
  }

  lemma SampleRows(n: nat, rows: nat)
    requires n > 0 && rows > 0
    ensures Area(n, rows) > 0
  {
    AreaNext(n - 1, rows);
  }

  lemma ExactBatches(n: nat, step: nat, k: nat)
    requires step > 0 && n > 0 && n % step == 0 && k == Batches(n, step)
    ensures Area(k, step) == n
  {
    BatchesCover(n, step, k - 1);
    WholeBatch(n, step, k - 1);
    AreaNext(k - 1, step);
    BatchesCover(n, step, k);
  }

  lemma {:induction false} AreaOfArea(k: nat, step: nat, n: nat, w: nat)
    requires n == Area(k, step)
    ensures k * Area(step, w) == Area(n, w)
    decreases k
  {
    AreaIs(k, Area(step, w));
    AreaNested(k, step, w);
  }

  lemma ScaleShared(x: real, k: nat, batch: nat, rows: nat)
    requires k > 0 && k * batch == rows
    ensures Scale(x / k as real, rows) == Scale(x, batch)
  {
    ScaleIs(x / k as real, rows);
    ScaleIs(x, batch);
    assert rows as real == k as real * batch as real;
    assert x / k as real * (k as real * batch as real) == x * batch as real;
  }

  // The real rows of the next batch continue the listing of the set.
  lemma ScoredGrows(f: Feed, start: ServingPos, served: nat, step: nat, left: nat, total: nat)
    requires f.Valid() && f.Has(start) && left <= step && total == served + left
    ensures f.Indices(start, total) == f.Indices(start, served) + f.Indices(f.Advance(start, served), step)[..left]
  {
    f.IndicesSplit(start, served, left, total);
    assert f.Indices(f.Advance(start, served), left) == f.Indices(f.Advance(start, served), step)[..left];
  }

  ghost predicate AllScored(plan: Plan, o: seq<Outcome>, k: nat)
    requires plan.Valid()
  {
    k <= |o| && forall b :: 0 <= b < k ==> o[b].Scored? && Fits(plan, o[b])
  }

  /** The share of real rows judged right. */
  ghost predicate PassAccuracy(plan: Plan, n: nat, o: seq<Outcome>, accuracy: Option<real>)
    requires plan.Valid() && n > 0 && AllScored(plan, o, Batches(n, plan.Step()))
  {
    && Area(n, plan.rowsPerSample) > 0
    && accuracy == if plan.accuracy then
         Some(CountTrue(RealHits(plan, n, o, Batches(n, plan.Step()))) as real / Area(n, plan.rowsPerSample) as real)
       else None
  }

  method Finish(plan: Plan, n: nat, ghost o: seq<Outcome>, t: Tally) returns (m: Metrics)
    requires plan.Valid() && n > 0 && AllScored(plan, o, Batches(n, plan.Step()))
    requires Tallied(plan, n, o, Batches(n, plan.Step()), t)
    ensures PassLoss(plan, n, o, m.loss) && PassAccuracy(plan, n, o, m.accuracy)
  {
    BatchesCover(n, plan.Step(), Batches(n, plan.Step()));
    SampleRows(n, plan.rowsPerSample);
    var loss := if Ragged(plan, n) then t.realLoss / t.realRows as real else t.total / Batches(n, plan.Step()) as real;
    FinalLoss(plan, n, o, t, loss);
    m := Metrics(loss, if plan.accuracy && t.counted > 0 then Some(t.correct as real / t.counted as real) else None);
  }

  lemma {:induction false} ScaleZero(c: nat)
    ensures Scale(0.0, c) == 0.0
  {
    if c > 0 {
      ScaleZero(c - 1);
    }
  }

  lemma EmptyTally(plan: Plan, n: nat, o: seq<Outcome>)
    requires plan.Valid()
    ensures Tallied(plan, n, o, 0, Tally(0.0, 0.0, 0, 0, 0))
  {
    ScaleZero(if plan.tail.Rows() then plan.tail.Summands() else 0);
    ScaleZero(Area(plan.Step(), plan.Per()));
    ScaleZero(plan.batch);
  }

  // ---------------------------------------------------------------- what is staged

  ghost function BatchStart(t: Task, f: Feed, start: ServingPos, k: nat): (p: ServingPos)
    requires t.Valid() && f.Valid() && f.Has(start)
    ensures f.Has(p)
  {
    f.Advance(start, Area(k, t.plan.Step()))
  }

  /** The words batch k puts into the slots. */
  ghost function BatchInputs(t: Task, f: Feed, start: ServingPos, k: nat): seq<Word>
    requires t.Valid() && f.Valid() && f.Has(start)
  {
    f.Inputs(BatchStart(t, f, start, k), t.plan.Step())
  }

  ghost function BatchLabels(t: Task, f: Feed, start: ServingPos, k: nat): seq<Word>
    requires t.Valid() && f.Valid() && f.Has(start)
  {
    if t.labelled then f.Labels(BatchStart(t, f, start, k), t.plan.Step()) else []
  }

  ghost predicate ShapedBatch(t: Task, f: Feed, start: ServingPos, k: nat)
    requires t.Valid() && f.Valid() && f.Has(start)
  {
    var out := t.run(BatchInputs(t, f, start, k), BatchLabels(t, f, start, k));
    out.Some? ==> Shaped(t, out.value, BatchLabels(t, f, start, k))
  }

  ghost predicate ShapedPass(t: Task, f: Feed, start: ServingPos)
    requires t.Valid() && f.Valid() && f.Has(start)
  {
    forall k :: 0 <= k < Batches(f.corpus.n, t.plan.Step()) ==> ShapedBatch(t, f, start, k)
  }

  ghost function BatchOutcome(t: Task, f: Feed, start: ServingPos, k: nat): (o: Outcome)
    requires t.Valid() && f.Valid() && f.Has(start) && ShapedBatch(t, f, start, k)
    ensures Fits(t.plan, o)
  {
    OutcomeFits(t, BatchInputs(t, f, start, k), BatchLabels(t, f, start, k));
    OutcomeOf(t, BatchInputs(t, f, start, k), BatchLabels(t, f, start, k))
  }

  /** The outcomes of a pass that starts at a position, batch by batch. */
  ghost function Outcomes(t: Task, f: Feed, start: ServingPos): (o: seq<Outcome>)
    requires t.Valid() && f.Valid() && f.Has(start) && ShapedPass(t, f, start)
    ensures |o| == Batches(f.corpus.n, t.plan.Step())
    ensures forall k :: 0 <= k < |o| ==> o[k] == BatchOutcome(t, f, start, k) && Fits(t.plan, o[k])
  {
    seq(Batches(f.corpus.n, t.plan.Step()),
        k requires 0 <= k < Batches(f.corpus.n, t.plan.Step()) => BatchOutcome(t, f, start, k))
  }

  /** Where every pass starts: the beginning of the current epoch. */
  ghost function PassStart(data: Dataset): ServingPos reads data { ServingPos(0, data.epoch) }

  ghost predicate Evaluates(t: Task, data: Dataset, inputSlot: array<Word>, labelSlot: array?<Word>)
    reads data
  {
    && data.Valid() && Fed(t, data.TheFeed(), data, inputSlot, labelSlot)
    && ShapedPass(t, data.TheFeed(), PassStart(data))
  }

  /** The dataset is the feed, and the slots have the plan's sizes. */
  ghost predicate Fed(t: Task, f: Feed, data: Dataset, inputSlot: array<Word>, labelSlot: array?<Word>)
    reads data
  {
    && data.Valid() && t.Valid() && data.TheFeed() == f && Records(data.corpus, t.plan.batch) == t.plan.Step()
    && inputSlot != labelSlot && t.labelled == (labelSlot != null)
    && Area(t.plan.Step(), data.corpus.inputDim) <= inputSlot.Length
    && (labelSlot != null ==> Area(t.plan.Step(), data.corpus.LabelWords()) <= labelSlot.Length)
  }

  ghost predicate Succeeds(t: Task, f: Feed, start: ServingPos)
    requires t.Valid() && f.Valid() && f.Has(start) && ShapedPass(t, f, start)
  {
    AllScored(t.plan, Outcomes(t, f, start), Batches(f.corpus.n, t.plan.Step()))
  }

  /** Loss and accuracy of a pass from a position. */
  ghost predicate Measures(t: Task, f: Feed, start: ServingPos, m: Metrics)
    requires t.Valid() && f.Valid() && f.Has(start) && ShapedPass(t, f, start) && Succeeds(t, f, start)
  {
    && PassLoss(t.plan, f.corpus.n, Outcomes(t, f, start), m.loss)
    && PassAccuracy(t.plan, f.corpus.n, Outcomes(t, f, start), m.accuracy)
  }

  // -------------------------------------------------------------------- the pass

  /** One pass. Whatever the set's size and the batch's, the real rows scored are the
      records of the current order from its beginning, each once; the metrics are those of
      what these records stage. The dataset is left where it was, unless a batch fails while
      the feeder is `ahead` of it (BatchPipeline.Ahead, never with one thread): then it is
      left after the batches taken. */
  method EvaluateMetrics(data: Dataset, t: Task, grain: nat, inputSlot: array<Word>, labelSlot: array?<Word>, ahead: bool)
    returns (r: Result<Metrics>, ghost scored: seq<nat>, ghost taken: nat)
    requires Evaluates(t, data, inputSlot, labelSlot)
    modifies data`cursor, data`epoch, data`order, data`shuffleState, inputSlot, labelSlot
    ensures data.Valid() && data.TheFeed() == old(data.TheFeed())
    ensures r.Ok? <==> Succeeds(t, old(data.TheFeed()), old(PassStart(data)))
    ensures r.Ok? ==> scored == old(data.TheFeed()).Indices(old(PassStart(data)), data.corpus.n)
    ensures r.Ok? ==> Measures(t, old(data.TheFeed()), old(PassStart(data)), r.value)
    ensures r.Err? ==> FailsAfter(t, old(data.TheFeed()), old(PassStart(data)), taken)
    ensures data.Pos() == if r.Err? && ahead then BatchStart(t, old(data.TheFeed()), old(PassStart(data)), taken) else old(data.Pos())
  {
    r, scored, taken := PassAndRestore(data, t, grain, inputSlot, labelSlot, ahead, data.TheFeed(), PassStart(data));
  }

  method PassAndRestore(data: Dataset, t: Task, grain: nat, inputSlot: array<Word>, labelSlot: array?<Word>, ahead: bool,
                        ghost f: Feed, ghost start: ServingPos)
    returns (r: Result<Metrics>, ghost scored: seq<nat>, ghost taken: nat)
    requires Evaluates(t, data, inputSlot, labelSlot) && f == data.TheFeed() && start == PassStart(data)
    modifies data`cursor, data`epoch, data`order, data`shuffleState, inputSlot, labelSlot
    ensures data.Valid() && data.TheFeed() == f
    ensures r.Ok? <==> Succeeds(t, f, start)
    ensures r.Ok? ==> scored == f.Indices(start, f.corpus.n) && Measures(t, f, start, r.value)
    ensures r.Err? ==> FailsAfter(t, f, start, taken)
    ensures data.Pos() == if r.Err? && ahead then BatchStart(t, f, start, taken) else old(data.Pos())
  {
    var entry := data.Pos();
    data.Rewind();
    var ok, tally;
    ok, tally, scored, taken := Pass(data, t, grain, inputSlot, labelSlot, f, start);
    var reached := data.Pos();
    data.RestoreServingPos(entry);
    if !ok {
      if ahead {
        data.RestoreServingPos(reached);
      }
      return Err("eval program failed"), scored, taken;
    }
    var m := Finish(t.plan, data.corpus.n, Outcomes(t, f, start), tally);
    r := Ok(m);
  }

  /** The first batch that fails is the last of those taken. */
  ghost predicate FailsAfter(t: Task, f: Feed, start: ServingPos, taken: nat)
    requires t.Valid() && f.Valid() && f.Has(start) && ShapedPass(t, f, start)
  {
    && 0 < taken <= Batches(f.corpus.n, t.plan.Step())
    && AllScored(t.plan, Outcomes(t, f, start), taken - 1) && Outcomes(t, f, start)[taken - 1].Failed?
  }

  /** What k successful batches leave: the sums, and the list of records scored. */
  ghost predicate Through(plan: Plan, f: Feed, start: ServingPos, o: seq<Outcome>, k: nat, sums: Tally, scored: seq<nat>)
    requires plan.Valid() && f.Valid() && f.Has(start)
  {
    && AllScored(plan, o, k)
    && scored == f.Indices(start, Min(f.corpus.n, Area(k, plan.Step())))
    && Tallied(plan, f.corpus.n, o, k, sums)
  }

  method Pass(data: Dataset, t: Task, grain: nat, inputSlot: array<Word>, labelSlot: array?<Word>, ghost f: Feed, ghost start: ServingPos)
    returns (ok: bool, sums: Tally, ghost scored: seq<nat>, ghost taken: nat)
    requires Evaluates(t, data, inputSlot, labelSlot) && f == data.TheFeed() && start == PassStart(data) == data.Pos()
    modifies data`cursor, data`epoch, data`order, data`shuffleState, inputSlot, labelSlot
    ensures data.Valid() && data.TheFeed() == f
    ensures ok <==> Succeeds(t, f, start)
    ensures ok ==> scored == f.Indices(start, f.corpus.n)
    ensures ok ==> Tallied(t.plan, f.corpus.n, Outcomes(t, f, start), Batches(f.corpus.n, t.plan.Step()), sums)
    ensures !ok ==> FailsAfter(t, f, start, taken)
    ensures data.Pos() == BatchStart(t, f, start, taken)
  {
    ghost var o := Outcomes(t, f, start);
    ok, sums, scored, taken := BatchLoop(data, t, grain, inputSlot, labelSlot, f, start, o);
  }

  /** These are the outcomes of the batches staged from a position. */
  ghost predicate Staged(t: Task, f: Feed, start: ServingPos, o: seq<Outcome>)
    requires t.Valid() && f.Valid() && f.Has(start)
  {
    |o| == Batches(f.corpus.n, t.plan.Step()) && forall k {:trigger IsOutcome(t, f, start, k, o[k])} :: 0 <= k < |o| ==> IsOutcome(t, f, start, k, o[k])
  }

  ghost predicate IsOutcome(t: Task, f: Feed, start: ServingPos, k: nat, o: Outcome)
    requires t.Valid() && f.Valid() && f.Has(start)
  {
    ShapedBatch(t, f, start, k) && o == BatchOutcome(t, f, start, k) && Fits(t.plan, o)
  }

  method BatchLoop(data: Dataset, t: Task, grain: nat, inputSlot: array<Word>, labelSlot: array?<Word>,
                   ghost f: Feed, ghost start: ServingPos, ghost o: seq<Outcome>)
    returns (ok: bool, sums: Tally, ghost scored: seq<nat>, ghost taken: nat)
    requires Fed(t, f, data, inputSlot, labelSlot) && start == data.Pos() && Staged(t, f, start, o)
    modifies data`cursor, data`epoch, data`order, data`shuffleState, inputSlot, labelSlot
    ensures Fed(t, f, data, inputSlot, labelSlot) && data.Pos() == BatchStart(t, f, start, taken)
    ensures ok <==> AllScored(t.plan, o, |o|)
    ensures ok ==> scored == f.Indices(start, f.corpus.n) && Tallied(t.plan, f.corpus.n, o, |o|, sums)
    ensures !ok ==> 0 < taken <= |o| && AllScored(t.plan, o, taken - 1) && o[taken - 1].Failed?
  {
    var batches := Batches(data.corpus.n, t.plan.Step());
    sums := Tally(0.0, 0.0, 0, 0, 0);
    scored, taken := [], 0;
    BeginsThrough(t.plan, f, start, o);
    var b := 0;
    while b < batches
      invariant b <= batches && taken == b && Fed(t, f, data, inputSlot, labelSlot) && data.Pos() == BatchStart(t, f, start, b)
      invariant Through(t.plan, f, start, o, b, sums, scored)
    {
      var next := b + 1;
      taken := next;
      ok, sums, scored := OneBatch(data, t, grain, inputSlot, labelSlot, f, start, o, b, next, sums, scored);
      if !ok {
        LoopFails(t.plan, o, b);
        return;
      }
      b := next;
    }
    EndsThrough(t.plan, f, start, o, batches, sums, scored);
    ok := true;
  }

  lemma LoopFails(plan: Plan, o: seq<Outcome>, b: nat)
    requires plan.Valid() && b < |o| && o[b].Failed?
    ensures !AllScored(plan, o, |o|)
  {
  }

  lemma BeginsThrough(plan: Plan, f: Feed, start: ServingPos, o: seq<Outcome>)
    requires plan.Valid() && f.Valid() && f.Has(start)
    ensures Through(plan, f, start, o, 0, Tally(0.0, 0.0, 0, 0, 0), [])
  {
    EmptyTally(plan, f.corpus.n, o);
  }

  lemma EndsThrough(plan: Plan, f: Feed, start: ServingPos, o: seq<Outcome>, k: nat, sums: Tally, scored: seq<nat>)
    requires plan.Valid() && f.Valid() && f.Has(start) && k == Batches(f.corpus.n, plan.Step())
    requires Through(plan, f, start, o, k, sums, scored)
    ensures scored == f.Indices(start, f.corpus.n)
  {
    BatchesCover(f.corpus.n, plan.Step(), k);
  }

  /** One batch of a pass: served, executed, counted. */
  method OneBatch(data: Dataset, t: Task, grain: nat, inputSlot: array<Word>, labelSlot: array?<Word>,
                  ghost f: Feed, ghost start: ServingPos, ghost o: seq<Outcome>, b: nat, next: nat, sums: Tally, ghost scored: seq<nat>)
    returns (ok: bool, sums': Tally, ghost scored': seq<nat>)
    requires Fed(t, f, data, inputSlot, labelSlot) && f.Has(start) && next == b + 1 && data.Pos() == BatchStart(t, f, start, b)
    requires b < |o| && Staged(t, f, start, o)
    requires Through(t.plan, f, start, o, b, sums, scored)
    modifies data`cursor, data`epoch, data`order, data`shuffleState, inputSlot, labelSlot
    ensures Fed(t, f, data, inputSlot, labelSlot) && data.Pos() == BatchStart(t, f, start, next)
    ensures ok <==> o[b].Scored?
    ensures ok ==> Through(t.plan, f, start, o, next, sums', scored')
  {
    assert IsOutcome(t, f, start, b, o[b]);
    var inputs, labels := ServeStep(data, t, inputSlot, labelSlot, f, start, b, next);
    ok, sums' := ScoreBatch(t, grain, inputs, labels, data.corpus.n, f, start, o, b, next, sums, scored);
    scored' := scored;
    if ok {
      scored' := ScoredNext(f, start, data.corpus.n, b, next, t.plan.Step(), scored);
    }
  }

  method ScoreBatch(t: Task, grain: nat, inputs: seq<Word>, labels: seq<Word>, n: nat,
                    ghost f: Feed, ghost start: ServingPos, ghost o: seq<Outcome>, b: nat, next: nat, sums: Tally, ghost scored: seq<nat>)
    returns (ok: bool, sums': Tally)
    requires t.Valid() && n > 0 && next == b + 1 && b < |o| == Batches(n, t.plan.Step()) && Fits(t.plan, o[b])
    requires t.run(inputs, labels).Some? ==> Shaped(t, t.run(inputs, labels).value, labels)
    requires o[b] == OutcomeOf(t, inputs, labels)
    requires AllScored(t.plan, o, b) && Tallied(t.plan, n, o, b, sums)
    ensures ok <==> o[b].Scored?
    ensures ok ==> AllScored(t.plan, o, next) && Tallied(t.plan, n, o, next, sums')
  {
    BatchesCover(n, t.plan.Step(), b);
    var ran := Execute(t, inputs, labels, grain);
    if ran.None? { return false, sums; }
    sums' := AddBatch(t, n, o, b, next, sums, ran.value, grain);
    ok := true;
  }

  /** What has been scored grows by the real rows of the batch just served. */
  lemma ScoredNext(f: Feed, start: ServingPos, n: nat, b: nat, next: nat, step: nat, scored: seq<nat>) returns (scored': seq<nat>)
    requires f.Valid() && f.Has(start) && n == f.corpus.n && step > 0 && next == b + 1 && b < Batches(n, step)
    requires scored == f.Indices(start, Min(n, Area(b, step)))
    ensures scored' == scored + Kept(f.Indices(f.Advance(start, Area(b, step)), step), Real(n, step, b))
    ensures scored' == f.Indices(start, Min(n, Area(next, step)))
  {
    BatchesCover(n, step, b);
    RealAdds(n, step, b, next);
    ScoredGrows(f, start, Area(b, step), step, Real(n, step, b), Min(n, Area(next, step)));
    scored' := scored + Kept(f.Indices(f.Advance(start, Area(b, step)), step), Real(n, step, b));
  }

  /** The next batch of a pass: the slots show exactly its words. */
  method ServeStep(data: Dataset, t: Task, inputSlot: array<Word>, labelSlot: array?<Word>,
                   ghost f: Feed, ghost start: ServingPos, ghost b: nat, ghost next: nat)
    returns (inputs: seq<Word>, labels: seq<Word>)
    requires Fed(t, f, data, inputSlot, labelSlot) && f.Has(start) && next == b + 1 && data.Pos() == BatchStart(t, f, start, b)
    modifies data`cursor, data`epoch, data`order, data`shuffleState, inputSlot, labelSlot
    ensures Fed(t, f, data, inputSlot, labelSlot) && data.Pos() == BatchStart(t, f, start, next)
    ensures inputs == BatchInputs(t, f, start, b) && labels == BatchLabels(t, f, start, b)
  {
    ghost var step := t.plan.Step();
    ghost var before, labelBefore := inputSlot[..], if labelSlot == null then [] else labelSlot[..];
    AreaNext(b, step);
    f.AdvanceAdds(start, Area(b, step), step, Area(next, step));
    f.ServedLength(data.Pos(), step);
    data.FillBatch(t.plan.batch, inputSlot, labelSlot);
    var words := Offset(t.plan.Step(), data.corpus.inputDim);
    inputs := inputSlot[..words];
    SplicedFront(before, BatchInputs(t, f, start, b));
    labels := [];
    if labelSlot != null {
      words := Offset(t.plan.Step(), data.corpus.LabelWords());
      labels := labelSlot[..words];
      SplicedFront(labelBefore, BatchLabels(t, f, start, b));
    }
  }

  // ----------------------------------------------------- what the passes agree on

  /** A pass has one result. */
  lemma MeasuresOnce(t: Task, f: Feed, start: ServingPos, a: Metrics, b: Metrics)
    requires t.Valid() && f.Valid() && f.Has(start) && ShapedPass(t, f, start) && Succeeds(t, f, start)
    requires Measures(t, f, start, a) && Measures(t, f, start, b)
    ensures a == b
  {
    if t.plan.tail.Weighted? {
      SampleRows(f.corpus.n, t.plan.rowsPerSample);
      ScaleInjective(a.loss, b.loss, Area(f.corpus.n, t.plan.rowsPerSample));
    }
  }

  lemma ScaleInjective(x: real, y: real, c: nat)
    requires c > 0 && Scale(x, c) == Scale(y, c)
    ensures x == y
  {
    ScaleIs(x, c);
    ScaleIs(y, c);
    var r := c as real;
    assert x == x * r / r && y == y * r / r;
  }

  /** Two passes over one set, one after the other: equal results, unless the first fails
      with the feeder ahead and so moves the position. */
  method EvaluateTwice(data: Dataset, t: Task, grain: nat, inputSlot: array<Word>, labelSlot: array?<Word>, ahead: bool)
    returns (first: Result<Metrics>, second: Result<Metrics>)
    requires Evaluates(t, data, inputSlot, labelSlot)
    modifies data`cursor, data`epoch, data`order, data`shuffleState, inputSlot, labelSlot
    ensures data.Valid() && data.TheFeed() == old(data.TheFeed())
    ensures first.Ok? || !ahead ==> (first.Ok? <==> second.Ok?) && (first.Ok? ==> first.value == second.value)
  {
    ghost var f, start := data.TheFeed(), PassStart(data);
    ghost var scored, taken;
    first, scored, taken := PassAndRestore(data, t, grain, inputSlot, labelSlot, ahead, f, start);
    second := first;
    if first.Ok? || !ahead {
      second, scored, taken := PassAndRestore(data, t, grain, inputSlot, labelSlot, ahead, f, start);
      if first.Ok? {
        MeasuresOnce(t, f, start, first.value, second.value);
      }
    }
  }

  /** The program judges every record on its own: the summands of a batch are its records'
      own summands s[i], in the order they were staged. */
  ghost predicate Separable(t: Task, c: Corpus, s: seq<seq<real>>)
    requires t.Valid() && c.Valid()
  {
    && |s| == c.n && Uniform(s, t.plan.Per())
    && forall idx: seq<nat> {:trigger Separates(t, c, idx, s)} :: Separates(t, c, idx, s)
  }

  ghost predicate Separates(t: Task, c: Corpus, idx: seq<nat>, s: seq<seq<real>>)
    requires t.Valid() && c.Valid() && |s| == c.n
  {
    (forall k :: 0 <= k < |idx| ==> idx[k] < c.n) && |idx| == t.plan.Step() ==>
      var inputs, labels := Gather(c.InputRows(), idx), if t.labelled then Gather(c.LabelRows(), idx) else [];
      var out := t.run(inputs, labels);
      out.Some? && Shaped(t, out.value, labels) ==> Terms(t, out.value, labels) == Concat(Picked(s, idx))
  }

  /** The entries of s at the listed places. */
  ghost function Picked<T>(s: seq<T>, idx: seq<nat>): (r: seq<T>)
    requires forall k :: 0 <= k < |idx| ==> idx[k] < |s|
    ensures |r| == |idx| && forall k :: 0 <= k < |r| ==> r[k] == s[idx[k]]
  {
    seq(|idx|, k requires 0 <= k < |idx| => s[idx[k]])
  }

  lemma PickedSplits<T>(s: seq<T>, a: seq<nat>, b: seq<nat>)
    requires (forall k :: 0 <= k < |a| ==> a[k] < |s|) && (forall k :: 0 <= k < |b| ==> b[k] < |s|)
    ensures Picked(s, a + b) == Picked(s, a) + Picked(s, b)
  {
  }

  lemma ConcatPrefix(rows: seq<seq<real>>, k: nat, width: nat)
    requires Uniform(rows, width) && k <= |rows|
    ensures Kept(Concat(rows), Area(k, width)) == Concat(rows[..k])
  {
    assert rows == rows[..k] + rows[k..];
    ConcatSplits(rows[..k], rows[k..]);
    ConcatLength(rows[..k], width);
  }

  /** The real summands of one batch are its real records' own. */
  lemma SeparatedBatch(t: Task, f: Feed, start: ServingPos, s: seq<seq<real>>, k: nat, real_: nat)
    requires t.Valid() && f.Valid() && f.Has(start) && ShapedBatch(t, f, start, k) && Separable(t, f.corpus, s)
    requires BatchOutcome(t, f, start, k).Scored? && real_ <= t.plan.Step()
    ensures Kept(BatchOutcome(t, f, start, k).terms, Area(real_, t.plan.Per())) ==
      Concat(Picked(s, f.Indices(BatchStart(t, f, start, k), t.plan.Step())[..real_]))
  {
    var idx := f.Indices(BatchStart(t, f, start, k), t.plan.Step());
    BatchTerms(t, f, start, s, k, idx);
    PickedKept(s, idx, real_, t.plan.Per());
  }

  lemma BatchTerms(t: Task, f: Feed, start: ServingPos, s: seq<seq<real>>, k: nat, idx: seq<nat>)
    requires t.Valid() && f.Valid() && f.Has(start) && ShapedBatch(t, f, start, k) && Separable(t, f.corpus, s)
    requires BatchOutcome(t, f, start, k).Scored? && idx == f.Indices(BatchStart(t, f, start, k), t.plan.Step())
    ensures BatchOutcome(t, f, start, k).terms == Concat(Picked(s, idx))
  {
    assert Separates(t, f.corpus, idx, s);
  }

  lemma PickedKept(s: seq<seq<real>>, idx: seq<nat>, k: nat, width: nat)
    requires Uniform(s, width) && k <= |idx| && forall i :: 0 <= i < |idx| ==> idx[i] < |s|
    ensures Kept(Concat(Picked(s, idx)), Area(k, width)) == Concat(Picked(s, idx[..k]))
  {
    ConcatPrefix(Picked(s, idx), k, width);
    assert Picked(s, idx)[..k] == Picked(s, idx[..k]);
  }

  /** After k batches the real summands are those of the records scored, each once. */
  lemma {:induction false} SeparatedTerms(t: Task, f: Feed, start: ServingPos, o: seq<Outcome>, s: seq<seq<real>>, k: nat)
    requires t.Valid() && f.Valid() && f.Has(start) && Staged(t, f, start, o) && Separable(t, f.corpus, s)
    requires k <= |o| && AllScored(t.plan, o, k)
    ensures RealTerms(t.plan, f.corpus.n, o, k) == Concat(Picked(s, f.Indices(start, Min(f.corpus.n, Area(k, t.plan.Step())))))
  {
    if k > 0 {
      var n, step, b := f.corpus.n, t.plan.Step(), k - 1;
      SeparatedTerms(t, f, start, o, s, b);
      BatchesCover(n, step, b);
      RealAdds(n, step, b, k);
      assert IsOutcome(t, f, start, b, o[b]);
      SeparatedBatch(t, f, start, s, b, Real(n, step, b));
      ScoredGrows(f, start, Area(b, step), step, Real(n, step, b), Min(n, Area(k, step)));
      JoinPicked(s, f.Indices(start, Area(b, step)), f.Indices(BatchStart(t, f, start, b), step)[..Real(n, step, b)]);
      TermsNext(t.plan, n, o, b, k);
    }
  }

  lemma JoinPicked(s: seq<seq<real>>, a: seq<nat>, b: seq<nat>)
    requires (forall k :: 0 <= k < |a| ==> a[k] < |s|) && (forall k :: 0 <= k < |b| ==> b[k] < |s|)
    ensures Concat(Picked(s, a)) + Concat(Picked(s, b)) == Concat(Picked(s, a + b))
  {
    PickedSplits(s, a, b);
    ConcatSplits(Picked(s, a), Picked(s, b));
  }

  ghost function RowSums(rows: seq<seq<real>>): (t: seq<real>)
    ensures |t| == |rows| && forall i :: 0 <= i < |t| ==> t[i] == Sum(rows[i])
  {
    seq(|rows|, i requires 0 <= i < |rows| => Sum(rows[i]))
  }

  lemma {:induction false} SumOfConcat(rows: seq<seq<real>>)
    ensures Sum(Concat(rows)) == Sum(RowSums(rows))
  {
    if rows != [] {
      var k := |rows| - 1;
      SumOfConcat(rows[..k]);
      SumSplits(Concat(rows[..k]), rows[k]);
      assert RowSums(rows)[..k] == RowSums(rows[..k]);
    }
  }

  /** A sum does not depend on the order of a permutation. */
  lemma {:induction false} SumPermuted(v: seq<real>, order: seq<nat>)
    requires |order| == |v| && Permutation(order)
    ensures Sum(Picked(v, order)) == Sum(v)
    decreases |v|
  {
    if v == [] {
      assert Picked(v, order) == v;
    } else {
      var n := |v| - 1;
      PermutationCovers(order, n);
      var j :| 0 <= j < |order| && order[j] == n;
      var rest := order[..j] + order[j + 1..];
      RestPermutes(order, j, rest);
      SumPermuted(v[..n], rest);
      PickedPrefix(v, n, rest);
      TakeOut(v, order, j, rest);
    }
  }

  lemma PickedPrefix(v: seq<real>, n: nat, idx: seq<nat>)
    requires n <= |v| && forall k :: 0 <= k < |idx| ==> idx[k] < n
    ensures Picked(v[..n], idx) == Picked(v, idx)
  {
  }

  lemma RestPermutes(order: seq<nat>, j: nat, rest: seq<nat>)
    requires Permutation(order) && j < |order| && order[j] == |order| - 1 && rest == order[..j] + order[j + 1..]
    ensures Permutation(rest)
  {
    forall i | 0 <= i < |rest| ensures rest[i] < |rest| {
      var at := if i < j then i else i + 1;
      assert rest[i] == order[at] && order[at] != order[j];
    }
    forall i, k | 0 <= i < |rest| && 0 <= k < |rest| && rest[i] == rest[k] ensures i == k {
      var a, b := if i < j then i else i + 1, if k < j then k else k + 1;
      assert rest[i] == order[a] && rest[k] == order[b];
    }
  }

  lemma TakeOut(v: seq<real>, order: seq<nat>, j: nat, rest: seq<nat>)
    requires (forall k :: 0 <= k < |order| ==> order[k] < |v|) && j < |order| && rest == order[..j] + order[j + 1..]
    ensures (forall k :: 0 <= k < |rest| ==> rest[k] < |v|) && Sum(Picked(v, order)) == Sum(Picked(v, rest)) + v[order[j]]
  {
    var p := Picked(v, order);
    assert p == p[..j + 1] + p[j + 1..] && Picked(v, rest) == p[..j] + p[j + 1..];
    SumSplits(p[..j + 1], p[j + 1..]);
    SumSplits(p[..j], p[j + 1..]);
    SumNext(p, j);
  }

  /** The loss of a lone cross-entropy or squared error is the mean of the records' own
      summands, whatever the batch size, the serving order and the wrapped tail. */
  lemma LossIsMean(t: Task, f: Feed, epoch: nat, s: seq<seq<real>>, m: Metrics)
    requires t.Valid() && t.plan.tail.Rows() && f.Valid() && f.Has(ServingPos(0, epoch)) && Separable(t, f.corpus, s)
    requires ShapedPass(t, f, ServingPos(0, epoch)) && Succeeds(t, f, ServingPos(0, epoch))
    requires Measures(t, f, ServingPos(0, epoch), m)
    ensures Concat(s) != [] && m.loss == Mean(Concat(s))
  {
    var start := ServingPos(0, epoch);
    f.EpochServesEach(epoch);
    AllSeparated(t, f, start, s);
    SameMean(s, f.Indices(start, f.corpus.n), t.plan.Per());
  }

  lemma OutcomesStaged(t: Task, f: Feed, start: ServingPos)
    requires t.Valid() && f.Valid() && f.Has(start) && ShapedPass(t, f, start)
    ensures Staged(t, f, start, Outcomes(t, f, start))
  {
    forall k | 0 <= k < |Outcomes(t, f, start)| ensures IsOutcome(t, f, start, k, Outcomes(t, f, start)[k]) {
    }
  }

  lemma AllSeparated(t: Task, f: Feed, start: ServingPos, s: seq<seq<real>>)
    requires t.Valid() && f.Valid() && f.Has(start) && ShapedPass(t, f, start) && Separable(t, f.corpus, s)
    requires Succeeds(t, f, start)
    ensures RealTerms(t.plan, f.corpus.n, Outcomes(t, f, start), Batches(f.corpus.n, t.plan.Step())) ==
      Concat(Picked(s, f.Indices(start, f.corpus.n)))
  {
    var k := Batches(f.corpus.n, t.plan.Step());
    OutcomesStaged(t, f, start);
    SeparatedTerms(t, f, start, Outcomes(t, f, start), s, k);
    BatchesCover(f.corpus.n, t.plan.Step(), k);
  }

  lemma SameMean(s: seq<seq<real>>, order: seq<nat>, width: nat)
    requires Uniform(s, width) && |order| == |s| && Permutation(order)
    ensures Sum(Concat(Picked(s, order))) == Sum(Concat(s)) && |Concat(Picked(s, order))| == |Concat(s)|
  {
    SumOfConcat(Picked(s, order));
    SumOfConcat(s);
    assert RowSums(Picked(s, order)) == Picked(RowSums(s), order);
    SumPermuted(RowSums(s), order);
    ConcatLength(Picked(s, order), width);
    ConcatLength(s, width);
  }
}
