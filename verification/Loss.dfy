// The loss reductions (runtime/executor/loss.cc) and their counterpart over the real rows
// of a batch (runtime/dispatcher/update_engine.cc, RealRowLoss). Sums are over the reals.
module Loss {
  import opened Parallel
  import opened Corpus

  // ------------------------------------------------------------------ reductions

  function Sum(t: seq<real>): real {
    if t == [] then 0.0 else Sum(t[..|t| - 1]) + t[|t| - 1]
  }

  lemma {:induction false} SumSplits(a: seq<real>, b: seq<real>)
    ensures Sum(a + b) == Sum(a) + Sum(b)
  {
    if b == [] {
      assert a + b == a;
    } else {
      var b' := b[..|b| - 1];
      assert (a + b)[..|a + b| - 1] == a + b';
      SumSplits(a, b');
    }
  }

  lemma SumNext(t: seq<real>, i: nat)
    requires i < |t|
    ensures Sum(t[..i + 1]) == Sum(t[..i]) + t[i]
  {
    assert t[..i + 1] == t[..i] + [t[i]];
    SumSplits(t[..i], [t[i]]);
    assert Sum([t[i]]) == Sum([]) + t[i] by {
      assert [t[i]][..0] == [];
    }
  }

  /** Chunk after chunk, the chunk sums add up to the sum of the prefix covered. */
  lemma ChunkJoins(t: seq<real>, grain: nat, c: nat, next: nat)
    requires c < ChunkCount(|t|, grain) && next == c + 1
    ensures ChunkBegin(|t|, grain, c) <= ChunkEnd(|t|, grain, c) <= |t|
    ensures Sum(t[..ChunkEnd(|t|, grain, c)]) ==
      Sum(t[..ChunkBegin(|t|, grain, c)]) + Sum(t[ChunkBegin(|t|, grain, c)..ChunkEnd(|t|, grain, c)])
    ensures next < ChunkCount(|t|, grain) ==> ChunkBegin(|t|, grain, next) == ChunkEnd(|t|, grain, c)
    ensures next == ChunkCount(|t|, grain) ==> ChunkEnd(|t|, grain, c) == |t|
  {
    var b, e := ChunkBegin(|t|, grain, c), ChunkEnd(|t|, grain, c);
    ChunkInside(|t|, grain, c);
    assert t[..e] == t[..b] + t[b..e];
    SumSplits(t[..b], t[b..e]);
    ChunkMeets(|t|, grain, c, next);
  }

  lemma ChunkMeets(n: nat, grain: nat, c: nat, next: nat)
    requires c < ChunkCount(n, grain) && next == c + 1
    ensures next < ChunkCount(n, grain) ==> ChunkBegin(n, grain, next) == ChunkEnd(n, grain, c)
    ensures next == ChunkCount(n, grain) ==> ChunkEnd(n, grain, c) == n
  {
    var g := ChunkGrain(n, grain);
    assert next * g == c * g + g;
    ChunkCountBound(n, grain);
    if next < ChunkCount(n, grain) {
      ChunkInside(n, grain, next);
    }
  }

  function ChunkSum(t: seq<real>, grain: nat, c: nat): real
    requires c < ChunkCount(|t|, grain)
  {
    ChunkInside(|t|, grain, c);
    Sum(t[ChunkBegin(|t|, grain, c)..ChunkEnd(|t|, grain, c)])
  }

  /** The sum of entries b to e, by place. */
  function Upto(t: seq<real>, b: nat, e: nat): real
    requires b <= e <= |t|
  {
    if e == b then 0.0 else Upto(t, b, e - 1) + t[e - 1]
  }

  lemma {:induction false} UptoIs(t: seq<real>, b: nat, e: nat)
    requires b <= e <= |t|
    ensures Upto(t, b, e) == Sum(t[b..e])
  {
    if b < e {
      UptoIs(t, b, e - 1);
      SumNext(t[b..], e - 1 - b);
      assert t[b..][..e - 1 - b] == t[b..e - 1] && t[b..][..e - b] == t[b..e];
    }
  }

  method Combine(ghost t: seq<real>, n: nat, grain: nat, partials: array<real>) returns (total: real)
    requires n == |t| && partials.Length == MAX_CHUNKS >= ChunkCount(n, grain)
    requires forall c: nat {:trigger partials[c]} :: c < ChunkCount(n, grain) ==>
      partials[c] == ChunkSum(t, grain, c)
    ensures total == Sum(t)
  {
    total := 0.0;
    ghost var done: nat := 0;
    var c := 0;
    while c < ChunkCount(n, grain)
      invariant c <= ChunkCount(n, grain)
      invariant done <= n && total == Sum(t[..done])
      invariant c < ChunkCount(n, grain) ==> done == ChunkBegin(n, grain, c)
      invariant c == ChunkCount(n, grain) ==> done == n
    {
      ChunkJoins(t, grain, c, c + 1);
      total := total + partials[c];
      done := ChunkEnd(n, grain, c);
      c := c + 1;
    }
    assert t[..n] == t;
  }

  function Mean(t: seq<real>): real
    requires t != []
  {
    Sum(t) / |t| as real
  }

  // ------------------------------------------------------------- row expressions

  /** A probability as the loss sees it: a number, or NaN. */
  datatype Value = NaN | Num(r: real)

  const LEAST_PROBABILITY: real := 0.000000000001

  /** fmax: a NaN operand gives the other one. */
  function FMax(p: Value, x: real): Value {
    match p
    case NaN => Num(x)
    case Num(r) => if r < x then Num(x) else p
  }

  /** The library functions: logarithm, and softmax of a row. */
  datatype Math = Math(log: Value -> real, softmax: seq<real> -> seq<Value>)

  /** The loss of one row: a NaN goes through to the logarithm, an underflow is clamped. */
  function XentTerm(m: Math, row: seq<Value>, id: Word): real
    requires 0 <= id < |row|
  {
    -m.log(if row[id].NaN? then NaN else FMax(row[id], LEAST_PROBABILITY))
  }

  /** A number goes to the logarithm as it is unless it is below the clamp; a NaN stays one. */
  lemma ClampedLoss(m: Math, row: seq<Value>, id: Word)
    requires 0 <= id < |row|
    ensures row[id].NaN? ==> XentTerm(m, row, id) == -m.log(NaN)
    ensures row[id].Num? && row[id].r >= LEAST_PROBABILITY ==> XentTerm(m, row, id) == -m.log(row[id])
    ensures row[id].Num? && row[id].r < LEAST_PROBABILITY ==> XentTerm(m, row, id) == -m.log(Num(LEAST_PROBABILITY))
  {
  }

  /** Every row has its label's column. */
  ghost predicate Indexed(probs: seq<seq<Value>>, labels: seq<Word>) {
    |probs| <= |labels| && forall n :: 0 <= n < |probs| ==> 0 <= labels[n] < |probs[n]|
  }

  ghost function XentTerms(m: Math, probs: seq<seq<Value>>, labels: seq<Word>): (t: seq<real>)
    requires Indexed(probs, labels)
    ensures |t| == |probs| && forall n :: 0 <= n < |t| ==> t[n] == XentTerm(m, probs[n], labels[n])
  {
    seq(|probs|, n requires 0 <= n < |probs| => XentTerm(m, probs[n], labels[n]))
  }

  function Softmaxes(m: Math, logits: seq<seq<real>>): (probs: seq<seq<Value>>)
    ensures |probs| == |logits| && forall n :: 0 <= n < |probs| ==> probs[n] == m.softmax(logits[n])
  {
    seq(|logits|, n requires 0 <= n < |logits| => m.softmax(logits[n]))
  }

  function Square(d: real): real { d * d }

  function MseTerms(pred: seq<real>, target: seq<real>): (t: seq<real>)
    requires |pred| == |target|
    ensures |t| == |pred| && forall i :: 0 <= i < |t| ==> t[i] == Square(pred[i] - target[i])
  {
    seq(|pred|, i requires 0 <= i < |pred| => Square(pred[i] - target[i]))
  }

  // ----------------------------------------------------------------- the kernels

  method RowLogLikelihood(m: Math, row: seq<Value>, id: Word) returns (log: real)
    requires 0 <= id < |row|
    ensures -log == XentTerm(m, row, id)
  {
    var p := row[id];
    var safe := if p.NaN? then p else FMax(p, LEAST_PROBABILITY);
    log := m.log(safe);
  }

  method XentRow(m: Math, logits: seq<seq<real>>, labels: seq<Word>, n: nat) returns (row: seq<Value>, log: real)
    requires n < |logits| && Indexed(Softmaxes(m, logits), labels)
    ensures row == Softmaxes(m, logits)[n] && -log == XentTerms(m, Softmaxes(m, logits), labels)[n]
  {
    ghost var want := Softmaxes(m, logits)[n];
    row := m.softmax(logits[n]);
    assert row == want;
    log := RowLogLikelihood(m, row, labels[n]);
  }

  /** Rows [b, e) of the cross-entropy: their probabilities, and minus their log-likelihoods. */
  method XentRows(m: Math, logits: seq<seq<real>>, labels: seq<Word>, b: nat, e: nat, probs: array<seq<Value>>) returns (total: real)
    requires b <= e <= |logits| == probs.Length && Indexed(Softmaxes(m, logits), labels)
    modifies probs
    ensures total == Sum(XentTerms(m, Softmaxes(m, logits), labels)[b..e])
    ensures Replaced(old(probs[..]), probs[..], Softmaxes(m, logits), b, e)
  {
    ghost var before, want := probs[..], Softmaxes(m, logits);
    ghost var t := XentTerms(m, want, labels);
    total := 0.0;
    for n := b to e
      invariant total == Upto(t, b, n)
      invariant Replaced(before, probs[..], want, b, n)
    {
      var row, logLikelihood := XentRow(m, logits, labels, n);
      total := total - logLikelihood;
      ReplacedGrows(before, probs[..], want, b, n);
      probs[n] := row;
    }
    UptoIs(t, b, e);
  }

  /** Rows [b, e) are the wanted ones, the others as before. */
  ghost predicate Replaced(before: seq<seq<Value>>, after: seq<seq<Value>>, want: seq<seq<Value>>, b: nat, e: nat) {
    && |before| == |after| == |want|
    && forall k :: 0 <= k < |after| ==> after[k] == if b <= k < e then want[k] else before[k]
  }

  lemma ReplacedGrows(before: seq<seq<Value>>, now: seq<seq<Value>>, want: seq<seq<Value>>, b: nat, n: nat)
    requires Replaced(before, now, want, b, n) && b <= n < |now|
    ensures Replaced(before, now[n := want[n]], want, b, n + 1)
  {
  }

  /** One chunk of rows. */
  method XentChunk(m: Math, logits: seq<seq<real>>, labels: seq<Word>, n: nat, grain: nat, c: nat, probs: array<seq<Value>>) returns (part: real)
    requires n == |logits| == probs.Length && c < ChunkCount(n, grain) && Indexed(Softmaxes(m, logits), labels)
    modifies probs
    ensures part == ChunkSum(XentTerms(m, Softmaxes(m, logits), labels), grain, c)
    ensures OneMore(old(probs[..]), probs[..], Softmaxes(m, logits), grain, c)
  {
    ChunkInside(n, grain, c);
    part := XentRows(m, logits, labels, ChunkBegin(n, grain, c), ChunkEnd(n, grain, c), probs);
    RowsOfChunk(n, grain, c);
  }

  /** The rows of chunk c are written, the others as before. */
  ghost predicate OneMore(before: seq<seq<Value>>, after: seq<seq<Value>>, want: seq<seq<Value>>, grain: nat, c: nat) {
    && |before| == |after| == |want|
    && forall i :: 0 <= i < |after| ==> after[i] == if ChunkOf(|after|, grain, i) == c then want[i] else before[i]
  }

  /** The rows of every chunk not in `remaining` are written. */
  ghost predicate Written(probs: seq<seq<Value>>, want: seq<seq<Value>>, grain: nat, remaining: set<nat>) {
    && |probs| == |want|
    && forall i :: 0 <= i < |probs| ==> ChunkOf(|probs|, grain, i) in remaining || probs[i] == want[i]
  }

  lemma WrittenGrows(before: seq<seq<Value>>, after: seq<seq<Value>>, want: seq<seq<Value>>, grain: nat, remaining: set<nat>, c: nat)
    requires Written(before, want, grain, remaining) && OneMore(before, after, want, grain, c)
    ensures Written(after, want, grain, remaining - {c})
  {
  }

  lemma WrittenAll(probs: seq<seq<Value>>, want: seq<seq<Value>>, grain: nat)
    requires Written(probs, want, grain, {})
    ensures probs == want
  {
  }

  /** SoftmaxXEntFwd: chunks of rows in any order, one partial each, combined in chunk
      order: the mean of the rows' losses. */
  method SoftmaxXEntFwd(m: Math, logits: seq<seq<real>>, labels: seq<Word>, grain: nat, probs: array<seq<Value>>) returns (loss: real)
    requires logits != [] && |logits| == probs.Length && Indexed(Softmaxes(m, logits), labels)
    modifies probs
    ensures loss == Mean(XentTerms(m, Softmaxes(m, logits), labels))
    ensures probs[..] == Softmaxes(m, logits)
  {
    ghost var want := Softmaxes(m, logits);
    ghost var t := XentTerms(m, want, labels);
    var n := |logits|;
    ChunkCountBound(n, grain);
    var partials := new real[MAX_CHUNKS];
    var remaining := TaskSet(ChunkCount(n, grain));
    NothingWritten(probs[..], want, grain);
    while remaining != {}
      invariant forall c :: c in remaining ==> c < ChunkCount(n, grain)
      invariant forall c: nat {:trigger partials[c]} :: c < ChunkCount(n, grain) && c !in remaining ==> partials[c] == ChunkSum(t, grain, c)
      invariant Written(probs[..], want, grain, remaining)
      decreases remaining
    {
      var c :| c in remaining;
      ghost var before := probs[..];
      var part := XentChunk(m, logits, labels, n, grain, c, probs);
      partials[c] := part;
      WrittenGrows(before, probs[..], want, grain, remaining, c);
      remaining := remaining - {c};
    }
    WrittenAll(probs[..], want, grain);
    var total := Combine(t, n, grain, partials);
    loss := total / n as real;
  }

  lemma NothingWritten(probs: seq<seq<Value>>, want: seq<seq<Value>>, grain: nat)
    requires |probs| == |want|
    ensures Written(probs, want, grain, TaskSet(ChunkCount(|probs|, grain)))
  {
    ChunksAll(|probs|, grain);
  }

  lemma RowsOfChunk(n: nat, grain: nat, c: nat)
    requires c < ChunkCount(n, grain)
    ensures forall i :: 0 <= i < n ==> (ChunkBegin(n, grain, c) <= i < ChunkEnd(n, grain, c) <==> ChunkOf(n, grain, i) == c)
  {
    forall i | 0 <= i < n ensures ChunkBegin(n, grain, c) <= i < ChunkEnd(n, grain, c) <==> ChunkOf(n, grain, i) == c {
      ChunkOwner(n, grain, i);
    }
  }

  /** Elements [b, e) of the squared error. */
  method MseElements(pred: seq<real>, target: seq<real>, b: nat, e: nat) returns (total: real)
    requires b <= e <= |pred| == |target|
    ensures total == Sum(MseTerms(pred, target)[b..e])
  {
    total := 0.0;
    for i := b to e
      invariant total == Upto(MseTerms(pred, target), b, i)
    {
      var d := pred[i] - target[i];
      total := total + Square(d);
    }
    UptoIs(MseTerms(pred, target), b, e);
  }

  /** MseFwd: chunks of elements in any order: the mean of the squared differences. */
  method MseFwd(pred: seq<real>, target: seq<real>, grain: nat) returns (loss: real)
    requires pred != [] && |pred| == |target|
    ensures loss == Mean(MseTerms(pred, target))
  {
    ghost var t := MseTerms(pred, target);
    var n := |pred|;
    ChunkCountBound(n, grain);
    var partials := new real[MAX_CHUNKS];
    var remaining := TaskSet(ChunkCount(n, grain));
    while remaining != {}
      invariant forall c :: c in remaining ==> c < ChunkCount(n, grain)
      invariant forall c: nat {:trigger partials[c]} :: c < ChunkCount(n, grain) && c !in remaining ==> partials[c] == ChunkSum(t, grain, c)
      decreases remaining
    {
      var c :| c in remaining;
      ChunkInside(n, grain, c);
      var part := MseElements(pred, target, ChunkBegin(n, grain, c), ChunkEnd(n, grain, c));
      partials[c] := part;
      remaining := remaining - {c};
    }
    var total := Combine(t, n, grain, partials);
    loss := total / n as real;
  }

  // ---------------------------------------------------------- the real rows alone

  /** RealRowLoss for a lone cross-entropy, from the probabilities its kernel left: the
      first `rows` rows' losses as that kernel sums them. */
  method RealXent(m: Math, probs: seq<seq<Value>>, labels: seq<Word>, rows: nat) returns (sum: real)
    requires rows <= |probs| && Indexed(probs, labels)
    ensures sum == Sum(XentTerms(m, probs, labels)[..rows])
  {
    sum := 0.0;
    for r := 0 to rows
      invariant sum == Sum(XentTerms(m, probs, labels)[..r])
    {
      SumNext(XentTerms(m, probs, labels), r);
      var p := probs[r][labels[r]];
      var safe := if p.NaN? then p else FMax(p, LEAST_PROBABILITY);
      sum := sum - m.log(safe);
    }
  }

  /** RealRowLoss for a lone squared error, before the division by the row's width. */
  method RealMse(pred: seq<real>, target: seq<real>, elements: nat) returns (sum: real)
    requires elements <= |pred| == |target|
    ensures sum == Sum(MseTerms(pred, target)[..elements])
  {
    sum := 0.0;
    for i := 0 to elements
      invariant sum == Sum(MseTerms(pred, target)[..i])
    {
      SumNext(MseTerms(pred, target), i);
      var d := pred[i] - target[i];
      sum := sum + d * d;
    }
  }

  // -------------------------------------------------------------------- accuracy

  /** IEEE greater-than: false when either side is NaN. */
  predicate Greater(a: Value, b: Value) { a.Num? && b.Num? && a.r > b.r }

  /** The column kept by a scan of the first c columns. */
  function ArgMax(row: seq<Value>, c: nat): (best: nat)
    requires 0 < c <= |row|
    ensures best < c
  {
    if c == 1 then 0
    else
      var best := ArgMax(row, c - 1);
      if Greater(row[c - 1], row[best]) then c - 1 else best
  }

  /** Without NaNs, the first of the greatest columns. */
  lemma {:induction false} ArgMaxIsFirst(row: seq<Value>, c: nat)
    requires 0 < c <= |row| && forall k :: 0 <= k < c ==> row[k].Num?
    ensures forall k :: 0 <= k < c ==> row[k].r <= row[ArgMax(row, c)].r
    ensures forall k :: 0 <= k < ArgMax(row, c) ==> row[k].r < row[ArgMax(row, c)].r
  {
    if c > 1 {
      ArgMaxIsFirst(row, c - 1);
    }
  }

  predicate Hit(row: seq<Value>, id: Word) { row != [] && id == ArgMax(row, |row|) }

  function Hits(judged: seq<seq<Value>>, labels: seq<Word>, rows: nat): (h: seq<bool>)
    requires rows <= |judged| && rows <= |labels|
    ensures |h| == rows && forall r :: 0 <= r < rows ==> h[r] == Hit(judged[r], labels[r])
  {
    seq(rows, r requires 0 <= r < rows => Hit(judged[r], labels[r]))
  }

  function CountTrue(hits: seq<bool>): nat {
    if hits == [] then 0 else CountTrue(hits[..|hits| - 1]) + (if hits[|hits| - 1] then 1 else 0)
  }

  lemma {:induction false} CountSplits(a: seq<bool>, b: seq<bool>)
    ensures CountTrue(a + b) == CountTrue(a) + CountTrue(b)
  {
    if b == [] {
      assert a + b == a;
    } else {
      var b' := b[..|b| - 1];
      assert (a + b)[..|a + b| - 1] == a + b';
      CountSplits(a, b');
    }
  }

  method ScanRow(row: seq<Value>) returns (best: nat)
    requires row != []
    ensures best == ArgMax(row, |row|)
  {
    best := 0;
    var c := 1;
    while c < |row|
      invariant 1 <= c <= |row| && best == ArgMax(row, c)
    {
      if row[c].Num? && row[best].Num? && row[c].r > row[best].r { best := c; }
      c := c + 1;
    }
  }

  /** Rows [b, e), one chunk's tally. */
  method TallyRows(judged: seq<seq<Value>>, labels: seq<Word>, rows: nat, b: nat, e: nat) returns (hits: nat)
    requires b <= e <= rows <= |judged| && rows <= |labels| && forall r :: 0 <= r < rows ==> judged[r] != []
    ensures hits == CountTrue(Hits(judged, labels, rows)[b..e])
  {
    hits := 0;
    for r := b to e
      invariant hits == CountTrue(Hits(judged, labels, rows)[b..r])
    {
      HitsNext(Hits(judged, labels, rows), b, r, r + 1);
      var best := ScanRow(judged[r]);
      if labels[r] >= 0 && labels[r] == best { hits := hits + 1; }
    }
  }

  lemma HitsNext(h: seq<bool>, b: nat, r: nat, next: nat)
    requires b <= r < next == r + 1 <= |h|
    ensures CountTrue(h[b..next]) == CountTrue(h[b..r]) + (if h[r] then 1 else 0)
  {
    assert h[b..next][..r - b] == h[b..r];
  }

  /** Chunk after chunk, the tallies add up to the hits of the rows covered. */
  lemma TalliesJoin(h: seq<bool>, grain: nat, c: nat, next: nat)
    requires c < ChunkCount(|h|, grain) && next == c + 1
    ensures ChunkBegin(|h|, grain, c) <= ChunkEnd(|h|, grain, c) <= |h|
    ensures CountTrue(h[..ChunkEnd(|h|, grain, c)]) ==
      CountTrue(h[..ChunkBegin(|h|, grain, c)]) + CountTrue(h[ChunkBegin(|h|, grain, c)..ChunkEnd(|h|, grain, c)])
    ensures next < ChunkCount(|h|, grain) ==> ChunkBegin(|h|, grain, next) == ChunkEnd(|h|, grain, c)
    ensures next == ChunkCount(|h|, grain) ==> ChunkEnd(|h|, grain, c) == |h|
  {
    var b, e := ChunkBegin(|h|, grain, c), ChunkEnd(|h|, grain, c);
    ChunkInside(|h|, grain, c);
    assert h[..e] == h[..b] + h[b..e];
    CountSplits(h[..b], h[b..e]);
    ChunkMeets(|h|, grain, c, next);
  }

  function ChunkHits(h: seq<bool>, grain: nat, c: nat): nat
    requires c < ChunkCount(|h|, grain)
  {
    ChunkInside(|h|, grain, c);
    CountTrue(h[ChunkBegin(|h|, grain, c)..ChunkEnd(|h|, grain, c)])
  }

  /** How many of the first rows are judged right: chunks in any order, one tally each. */
  method CountHits(judged: seq<seq<Value>>, labels: seq<Word>, rows: nat, grain: nat) returns (count: nat)
    requires rows <= |judged| && rows <= |labels| && forall r :: 0 <= r < rows ==> judged[r] != []
    ensures count == CountTrue(Hits(judged, labels, rows))
  {
    ghost var h := Hits(judged, labels, rows);
    ChunkCountBound(rows, grain);
    var tallies := new nat[MAX_CHUNKS];
    var remaining := TaskSet(ChunkCount(rows, grain));
    while remaining != {}
      invariant forall c :: c in remaining ==> c < ChunkCount(rows, grain)
      invariant forall c: nat {:trigger tallies[c]} :: c < ChunkCount(rows, grain) && c !in remaining ==> tallies[c] == ChunkHits(h, grain, c)
      decreases remaining
    {
      var c :| c in remaining;
      ChunkInside(rows, grain, c);
      var hits := TallyRows(judged, labels, rows, ChunkBegin(rows, grain, c), ChunkEnd(rows, grain, c));
      tallies[c] := hits;
      remaining := remaining - {c};
    }
    count := AddTallies(h, rows, grain, tallies);
  }

  method AddTallies(ghost h: seq<bool>, n: nat, grain: nat, tallies: array<nat>) returns (count: nat)
    requires n == |h| && tallies.Length == MAX_CHUNKS >= ChunkCount(n, grain)
    requires forall c: nat {:trigger tallies[c]} :: c < ChunkCount(n, grain) ==> tallies[c] == ChunkHits(h, grain, c)
    ensures count == CountTrue(h)
  {
    count := 0;
    ghost var done: nat := 0;
    var c := 0;
    while c < ChunkCount(n, grain)
      invariant c <= ChunkCount(n, grain)
      invariant done <= n && count == CountTrue(h[..done])
      invariant c < ChunkCount(n, grain) ==> done == ChunkBegin(n, grain, c)
      invariant c == ChunkCount(n, grain) ==> done == n
    {
      TalliesJoin(h, grain, c, c + 1);
      count := count + tallies[c];
      done := ChunkEnd(n, grain, c);
      c := c + 1;
    }
    assert h[..n] == h;
  }
}
