// A training run as a state machine over the engine's persistent state
// (runtime/dispatcher/update_engine.cc, TrainImpl, SnapshotBest, SaveCheckpoint and
// LoadCheckpoint). One optimizer step and one evaluation are uninterpreted functions
// of the persistent segment.
module Training {
  import opened Scalar
  import opened Corpus
  import opened Rows
  import opened Serving

  const U32_LIMIT := 0x1_0000_0000

  /** The persistent segment: adapters and optimizer state. */
  type Seg(==, 0, !new)

  /** A loss as a float compares: NaN is less than nothing and nothing is less than NaN. */
  datatype Float = NaN | NegInf | Num(r: real) | PosInf {
    predicate Less(other: Float) {
      match (this, other)
      case (Num(a), Num(b)) => a < b
      case (NegInf, Num(_)) => true
      case (NegInf, PosInf) => true
      case (Num(_), PosInf) => true
      case _ => false
    }
  }

  /** The order the best state is chosen by. */
  lemma LessOrder(a: Float, b: Float, c: Float)
    ensures !a.Less(a)
    ensures a.Less(b) && b.Less(c) ==> a.Less(c)
    ensures !a.Less(b) && c.Less(b) ==> !a.Less(c)
  {
  }

  datatype Score = Score(loss: Float, accuracy: Option<Float>)

  /** One optimizer step (all its micro-batches) to step number s on the run's horizon,
      from a feeder position; None is a failed or non-finite step. One evaluation. */
  datatype World = World(train: (Seg, nat, nat, ServingPos) -> Option<Seg>, eval: Seg -> Option<Score>)

  datatype Best = Best(step: nat, score: Score, state: Seg)

  datatype Binding = Binding(origin: bv64, train: nat, val: nat)

  /** What the engine keeps between calls, the merge flag aside. */
  datatype Core = Core(
    seg: Seg, step: nat, horizon: nat, binding: Option<Binding>, valInitial: Option<Score>,
    best: Option<Best>, stale: nat)
  {
    /** While no step has been taken since the best, the best is the segment itself. */
    predicate BestIsCurrent() {
      best.Some? && best.value.step == step ==> best.value.state == seg
    }

    function WithBest(score: Score): Core {
      this.(best := Some(Best(step, score, seg)), stale := 0)
    }
  }

  function Fresh(seg: Seg): Core { Core(seg, 0, 0, None, None, None, 0) }

  /** A checkpoint file's contents; the best payload is left out at a new best. */
  datatype Record = Record(
    seg: Seg, step: nat, horizon: nat, binding: Option<Binding>, valInitial: Option<Score>,
    best: Option<(nat, Score)>, payload: Option<Seg>, stale: nat)

  function Save(c: Core): Record {
    Record(c.seg, c.step, c.horizon, c.binding, c.valInitial,
           if c.best.Some? then Some((c.best.value.step, c.best.value.score)) else None,
           if c.best.Some? && c.best.value.step != c.step then Some(c.best.value.state) else None,
           c.stale)
  }

  function Load(r: Record): Core {
    Core(r.seg, r.step, r.horizon, r.binding, r.valInitial,
         if r.best.Some? then Some(Best(r.best.value.0, r.best.value.1, if r.payload.Some? then r.payload.value else r.seg)) else None,
         r.stale)
  }

  /** A checkpoint gives back the state it was taken from exactly when a best of the
      current step is the current segment. */
  lemma LoadSave(c: Core)
    ensures Load(Save(c)) == c <==> c.BestIsCurrent()
  {
  }

  datatype EvalEvery = Auto | Every(steps: nat)

  /** Options that stay the same over a run and its resumptions. `stops` holds the steps
      before which should_stop answers yes. */
  datatype Options = Options(
    hasPath: bool, checkpointEvery: nat, horizonSteps: nat, validation: Option<nat>,
    evalEvery: EvalEvery, patience: nat, stops: set<nat>)

  /** What a run works with: a step takes `rows` batch rows, which are `per` records. */
  datatype Job = Job(world: World, opts: Options, feed: Feed, rows: nat, per: nat, defaultSteps: nat) {
    predicate Valid() { feed.Valid() }

    function TheBinding(): Binding {
      Binding(if feed.shuffled then feed.origin else 0, feed.corpus.n, if opts.validation.Some? then opts.validation.value else 0)
    }

    /** The periodic evaluation's interval, from the run's horizon. */
    function Interval(horizon: nat): nat {
      if opts.validation.None? then 0
      else match opts.evalEvery
           case Auto => if horizon / 10 > 1 then horizon / 10 else 1
           case Every(k) => k
    }

    predicate Tracks(horizon: nat) { opts.validation.Some? && Interval(horizon) > 0 }
  }

  // -------------------------------------------------------------------- the loop

  datatype Status = Running | Cancelled | Patience | Failed

  /** The loop between two steps: the state, the feeder's position and the last
      checkpoint on disk. */
  datatype Loop = Loop(c: Core, pos: ServingPos, status: Status, disk: Option<Record>)

  predicate EvaluatesAt(j: Job, end: nat, horizon: nat, s: nat) {
    j.Tracks(horizon) && s % j.Interval(horizon) == 0 && s < end
  }

  /** The verdict of a periodic evaluation: a new best, or one more stale one. The
      counter has 32 bits. */
  function Judge(c: Core, v: Score): Core
    requires c.best.Some?
  {
    if v.loss.Less(c.best.value.score.loss) then c.WithBest(v) else c.(stale := (c.stale + 1) % U32_LIMIT)
  }

  predicate OutOfPatience(j: Job, c: Core, v: Score)
    requires c.best.Some?
  {
    !v.loss.Less(c.best.value.score.loss) && j.opts.patience > 0 && Judge(c, v).stale >= j.opts.patience
  }

  predicate Checkpoints(j: Job, s: nat) {
    j.opts.checkpointEvery > 0 && j.opts.hasPath && s % j.opts.checkpointEvery == 0
  }

  function Checkpointed(j: Job, c: Core, disk: Option<Record>): Option<Record> {
    if Checkpoints(j, c.step) then Some(Save(c)) else disk
  }

  /** Ready to step: running, short of the end, and with a best where one is tracked. */
  predicate Steps(j: Job, end: nat, l: Loop) {
    j.Valid() && j.feed.Has(l.pos) && l.status == Running && l.c.step < end && (j.Tracks(l.c.horizon) ==> l.c.best.Some?)
  }

  /** After a step that succeeded: the periodic evaluation, then the checkpoint. */
  function Settle(j: Job, end: nat, c: Core, pos: ServingPos, disk: Option<Record>): Loop
    requires j.Tracks(c.horizon) ==> c.best.Some?
  {
    if !EvaluatesAt(j, end, c.horizon, c.step) then Loop(c, pos, Running, Checkpointed(j, c, disk))
    else
      var v := j.world.eval(c.seg);
      if v.None? then Loop(c, pos, Failed, disk)
      else
        var judged := Judge(c, v.value);
        Loop(judged, pos, if OutOfPatience(j, c, v.value) then Patience else Running, Checkpointed(j, judged, disk))
  }

  function NextLoop(j: Job, end: nat, l: Loop): Loop
    requires Steps(j, end, l)
  {
    if l.c.step in j.opts.stops then l.(status := Cancelled)
    else
      var s := l.c.step + 1;
      var moved := j.world.train(l.c.seg, s, l.c.horizon, l.pos);
      var pos := j.feed.Advance(l.pos, j.per);
      if moved.None? then Loop(l.c.(step := s), pos, Failed, l.disk)
      else Settle(j, end, l.c.(seg := moved.value, step := s), pos, l.disk)
  }

  /** The loop run to its end. */
  function RunLoop(j: Job, end: nat, l: Loop): Loop
    decreases if l.c.step < end then end - l.c.step else 0, if l.status == Running then 1 else 0
  {
    if Steps(j, end, l) then RunLoop(j, end, NextLoop(j, end, l)) else l
  }

  /** The loop after i iterations. */
  function After(j: Job, end: nat, l: Loop, i: nat): Loop {
    if i == 0 then l
    else
      var m := After(j, end, l, i - 1);
      if Steps(j, end, m) then NextLoop(j, end, m) else m
  }

  /** Every state on the way ends where the run ends. */
  lemma {:induction false} RunFromAny(j: Job, end: nat, l: Loop, i: nat)
    ensures RunLoop(j, end, After(j, end, l, i)) == RunLoop(j, end, l)
  {
    if i > 0 {
      RunFromAny(j, end, l, i - 1);
    }
  }

  // ------------------------------------------------------- before and after the loop

  datatype Report = Report(
    steps: nat, cancelled: bool, byPatience: bool, valInitial: Option<Score>, valLast: Option<Score>,
    valFinal: Option<Score>, bestStep: Option<nat>)

  /** The step count and the horizon, decided once the checkpoint is in; None is refused. */
  function Schedule(j: Job, c: Core, steps: nat): Option<(nat, nat)> {
    var resumed := c.step > 0;
    var count :=
      if steps != 0 then steps
      else if resumed && c.horizon > 0 then (if c.horizon > c.step then c.horizon - c.step else 0)
      else j.defaultSteps;
    if steps == 0 && count == 0 && !resumed then None
    else
      var horizon :=
        if j.opts.horizonSteps != 0 then j.opts.horizonSteps
        else if steps != 0 || c.horizon == 0 then c.step + count
        else c.horizon;
      if horizon >= U64_LIMIT || (horizon < c.step + count && j.opts.horizonSteps != 0) then None else Some((count, horizon))
  }

  /** The scores a run starts from: the source model's, and the bar to beat. */
  function Baseline(j: Job, c: Core): Option<Core> {
    if j.opts.validation.None? then Some(c)
    else
      var now := j.world.eval(c.seg);
      var known := c.step > 0 && c.valInitial.Some?;
      if !known && now.None? then None
      else
        var scored := if known then c else c.(valInitial := now);
        if !j.Tracks(c.horizon) || c.best.Some? then Some(scored)
        else if c.step == 0 then Some(scored.WithBest(scored.valInitial.value))
        else if now.None? then None
        else Some(scored.WithBest(now.value))
  }

  /** Everything TrainImpl does before its loop, on an engine state already loaded. */
  function Begin(j: Job, c: Core, steps: nat): Option<(Core, nat)> {
    var schedule := Schedule(j, c, steps);
    if schedule.None? then None
    else
      var (count, horizon) := schedule.value;
      var ready := Baseline(j, c.(horizon := horizon, binding := Some(j.TheBinding())));
      if ready.None? then None else Some((ready.value, c.step + count))
  }

  /** The last evaluation; where a best is tracked it is put back into the segment. */
  function Conclude(j: Job, c: Core): Option<(Core, Option<Score>, Option<Score>)>
    requires j.Tracks(c.horizon) ==> c.best.Some?
  {
    if j.opts.validation.None? then Some((c, None, None))
    else
      var v := j.world.eval(c.seg);
      if v.None? then None
      else if !j.Tracks(c.horizon) then Some((c, v, v))
      else
        var judged := if v.value.loss.Less(c.best.value.score.loss) then c.WithBest(v.value) else c;
        var kept := if judged.best.value.step != judged.step then judged.(seg := judged.best.value.state) else judged;
        Some((kept, v, Some(judged.best.value.score)))
  }

  datatype Outcome = Stopped(disk: Option<Record>) | Trained(c: Core, pos: ServingPos, disk: Option<Record>, report: Report)

  predicate Tracked(j: Job, c: Core) { j.Tracks(c.horizon) ==> c.best.Some? }

  /** From the loop's first state to the report. */
  function Finish(j: Job, end: nat, l: Loop, start: nat): Outcome {
    var out := RunLoop(j, end, l);
    if out.status == Failed || !Tracked(j, out.c) then Stopped(out.disk)
    else
      var done := Conclude(j, out.c);
      if done.None? then Stopped(out.disk)
      else
        var (c, last, final) := done.value;
        Trained(c, out.pos, out.disk, Report(
          if out.c.step >= start then out.c.step - start else 0, out.status == Cancelled, out.status == Patience,
          c.valInitial, last, final,
          if j.Tracks(c.horizon) && c.best.Some? then Some(c.best.value.step) else None))
  }

  /** A whole call of Train on a feeder standing at `pos`, with no checkpoint loaded. */
  function Train(j: Job, c: Core, pos: ServingPos, disk: Option<Record>, steps: nat): Outcome {
    var begun := Begin(j, c, steps);
    if begun.None? then Stopped(disk) else Finish(j, begun.value.1, Loop(begun.value.0, pos, Running, disk), c.step)
  }

  /** Where a feeder stands after s steps from the beginning. */
  function PosAt(j: Job, s: nat): (p: ServingPos)
    requires j.Valid()
    ensures j.feed.Has(p)
  {
    j.feed.Advance(ServingPos(0, 0), Area(s, j.per))
  }

  /** A call of Train; with resume on, a checkpoint that loads replaces the state and,
      once bound to this run, replays the feeder. */
  function Call(j: Job, c: Core, pos: ServingPos, disk: Option<Record>, steps: nat, resume: bool): Outcome
    requires j.Valid()
  {
    if !resume || !j.opts.hasPath || disk.None? then Train(j, c, pos, disk, steps)
    else
      var loaded := Load(disk.value);
      if loaded.step == 0 then Train(j, loaded, pos, disk, steps)
      else if loaded.binding.Some? && loaded.binding.value != j.TheBinding() then Stopped(disk)
      else if Area(loaded.step, j.rows) >= U64_LIMIT then Stopped(disk)
      else Train(j, loaded, PosAt(j, loaded.step), disk, steps)
  }

  /** A process that starts over with resume on and a rewound feeder. */
  function Resume(j: Job, source: Seg, disk: Option<Record>, more: nat): Outcome
    requires j.Valid()
  {
    Call(j, Fresh(source), ServingPos(0, 0), disk, more, true)
  }

  // ------------------------------------------------------------- crash and resume

  /** The horizon of a run that ends at `end`: the one asked for, or its own end. */
  function HorizonOf(j: Job, end: nat): nat { if j.opts.horizonSteps != 0 then j.opts.horizonSteps else end }

  /** A state of a run. */
  ghost predicate InRun(j: Job, end: nat, l: Loop) {
    && j.Valid() && l.pos == PosAt(j, l.c.step)
    && l.c.step <= end <= HorizonOf(j, end) < U64_LIMIT && l.c.horizon == HorizonOf(j, end)
    && l.c.binding == Some(j.TheBinding())
    && (j.opts.validation.Some? ==> l.c.valInitial.Some?)
    && (j.Tracks(l.c.horizon) ==> l.c.best.Some?)
    && (l.c.best.Some? ==> l.c.best.value.step <= l.c.step)
    && l.c.BestIsCurrent()
  }

  /** A fresh engine's first loop state. */
  function FirstLoop(j: Job, source: Seg, disk: Option<Record>, steps: nat): Option<(Loop, nat)> {
    var begun := Begin(j, Fresh(source), steps);
    if begun.None? then None else Some((Loop(begun.value.0, ServingPos(0, 0), Running, disk), begun.value.1))
  }

  lemma FreshInRun(j: Job, source: Seg, disk: Option<Record>, steps: nat)
    requires j.Valid() && FirstLoop(j, source, disk, steps).Some?
    ensures InRun(j, FirstLoop(j, source, disk, steps).value.1, FirstLoop(j, source, disk, steps).value.0)
  {
  }

  lemma StepKeepsRun(j: Job, end: nat, l: Loop)
    requires InRun(j, end, l) && Steps(j, end, l)
    ensures NextLoop(j, end, l).status != Failed ==> InRun(j, end, NextLoop(j, end, l))
  {
    var k, next := l.c.step, l.c.step + 1;
    AreaNext(k, j.per);
    j.feed.AdvanceAdds(ServingPos(0, 0), Area(k, j.per), j.per, Area(next, j.per));
  }

  lemma {:induction false} ReachedInRun(j: Job, end: nat, l: Loop, i: nat)
    requires InRun(j, end, l)
    ensures After(j, end, l, i).status != Failed ==> InRun(j, end, After(j, end, l, i))
  {
    if i > 0 {
      ReachedInRun(j, end, l, i - 1);
      var m := After(j, end, l, i - 1);
      if Steps(j, end, m) {
        StepKeepsRun(j, end, m);
      }
    }
  }

  /** The loop state a new process, asked for `more` steps, starts with from the checkpoint on disk. */
  ghost function Restarted(j: Job, disk: Option<Record>, more: nat): Option<(Loop, nat)>
    requires j.Valid() && disk.Some?
  {
    var begun := Begin(j, Load(disk.value), more);
    if begun.None? then None
    else Some((Loop(begun.value.0, PosAt(j, disk.value.step), Running, disk), begun.value.1))
  }

  /** A checkpoint written in the loop: the state and the file agree. */
  ghost predicate JustSaved(j: Job, l: Loop) {
    l.c.step > 0 && l.disk == Some(Save(l.c)) && (l.status == Running || l.status == Patience)
  }

  lemma {:induction false} SavedInLoop(j: Job, end: nat, l: Loop, i: nat)
    requires CheckpointAt(j, end, l, i)
    ensures JustSaved(j, After(j, end, l, i))
  {
  }

  /** What is asked for is what is left: as a count, or by asking for none where the run ends at its horizon. */
  predicate AsksForRest(j: Job, end: nat, step: nat, more: nat) {
    if more == 0 then HorizonOf(j, end) == end else step + more == end
  }

  /** The restarted loop stands exactly where the lost process stood, still running. */
  lemma RestartStands(j: Job, end: nat, l: Loop, more: nat)
    requires InRun(j, end, l) && JustSaved(j, l) && AsksForRest(j, end, l.c.step, more)
    ensures Restarted(j, l.disk, more) == Some((l.(status := Running), end))
  {
    LoadSave(l.c);
  }

  /** Where a horizon beyond the run's own end was asked for, a process restarted with no step count goes on to
      that horizon. */
  lemma RestartGoesOn(j: Job, end: nat, l: Loop)
    requires InRun(j, end, l) && JustSaved(j, l)
    ensures Restarted(j, l.disk, 0) == Some((l.(status := Running), HorizonOf(j, end)))
  {
    LoadSave(l.c);
  }

  /** What a resumed call reports, next to the run left uninterrupted. */
  function Resumed(o: Outcome, from: nat): Outcome {
    match o
    case Stopped(_) => o
    case Trained(c, pos, disk, r) => Trained(c, pos, disk, r.(steps := if r.steps >= from then r.steps - from else 0))
  }

  lemma {:induction false} StepsOnly(j: Job, end: nat, l: Loop)
    ensures RunLoop(j, end, l).c.step >= l.c.step
    decreases if l.c.step < end then end - l.c.step else 0, if l.status == Running then 1 else 0
  {
    if Steps(j, end, l) {
      StepsOnly(j, end, NextLoop(j, end, l));
    }
  }

  /** The k-th iteration took a step and wrote a checkpoint. */
  ghost predicate CheckpointAt(j: Job, end: nat, first: Loop, k: nat) {
    && k > 0 && Steps(j, end, After(j, end, first, k - 1)) && Checkpoints(j, After(j, end, first, k).c.step)
    && (After(j, end, first, k).status == Running || After(j, end, first, k).status == Patience)
  }

  /** Crash at any later iteration i while the checkpoint of iteration k is the last one
      written, then resume for the rest: state, best, scores and feeder position are
      those of the run left alone, also when the best payload was left out of the file. */
  lemma CrashAndResume(j: Job, source: Seg, other: Seg, disk: Option<Record>, steps: nat, k: nat, i: nat, more: nat)
    requires j.Valid() && FirstLoop(j, source, disk, steps).Some?
    requires var (first, end) := FirstLoop(j, source, disk, steps).value;
      && CheckpointAt(j, end, first, k) && After(j, end, first, k).status == Running
      && After(j, end, first, i).disk == After(j, end, first, k).disk
      && AsksForRest(j, end, After(j, end, first, k).c.step, more)
      && Area(After(j, end, first, k).c.step, j.rows) < U64_LIMIT
    ensures var (first, end) := FirstLoop(j, source, disk, steps).value;
      Resume(j, other, After(j, end, first, i).disk, more) ==
        Resumed(Train(j, Fresh(source), ServingPos(0, 0), disk, steps), After(j, end, first, k).c.step)
  {
    var (first, end) := FirstLoop(j, source, disk, steps).value;
    var l := After(j, end, first, k);
    SavedInLoop(j, end, first, k);
    FreshInRun(j, source, disk, steps);
    ReachedInRun(j, end, first, k);
    RestartStands(j, end, l, more);
    RunFromAny(j, end, first, k);
    LoadSave(l.c);
    StepsOnly(j, end, l);
  }

  /** What is on disk is the checkpoint of some iteration, the last one that wrote one. */
  lemma {:induction false} LastCheckpoint(j: Job, end: nat, first: Loop, i: nat) returns (k: nat)
    requires first.disk.None? && After(j, end, first, i).disk.Some?
    ensures k <= i && CheckpointAt(j, end, first, k) && After(j, end, first, k).disk == After(j, end, first, i).disk
    ensures After(j, end, first, k).status == Patience ==> After(j, end, first, i) == After(j, end, first, k)
  {
    var m := After(j, end, first, i - 1);
    if Steps(j, end, m) && m.c.step !in j.opts.stops && After(j, end, first, i).status != Failed && Checkpoints(j, After(j, end, first, i).c.step) {
      k := i;
    } else {
      k := LastCheckpoint(j, end, first, i - 1);
    }
  }

  /** A process that dies at any iteration with a checkpoint on disk, and whose patience had
      not run out when that was written, ends after a restart as if it had not died. */
  lemma CrashAnywhere(j: Job, source: Seg, other: Seg, steps: nat, i: nat, more: nat)
    requires j.Valid() && FirstLoop(j, source, None, steps).Some?
    requires var (first, end) := FirstLoop(j, source, None, steps).value;
      var l := After(j, end, first, i);
      && l.disk.Some? && !(l.status == Patience && l.c.step == l.disk.value.step)
      && AsksForRest(j, end, l.disk.value.step, more)
      && Area(l.disk.value.step, j.rows) < U64_LIMIT
    ensures var (first, end) := FirstLoop(j, source, None, steps).value;
      var l := After(j, end, first, i);
      Resume(j, other, l.disk, more) == Resumed(Train(j, Fresh(source), ServingPos(0, 0), None, steps), l.disk.value.step)
  {
    var (first, end) := FirstLoop(j, source, None, steps).value;
    var k := LastCheckpoint(j, end, first, i);
    SavedInLoop(j, end, first, k);
    CrashAndResume(j, source, other, None, steps, k, i, more);
  }

  /** Two jobs work on the same data: one shuffle origin (or none), and as many training and validation records. */
  predicate SameData(a: Job, b: Job) {
    && (if a.feed.shuffled then a.feed.origin else 0) == (if b.feed.shuffled then b.feed.origin else 0)
    && a.feed.corpus.n == b.feed.corpus.n
    && (if a.opts.validation.Some? then a.opts.validation.value else 0) == (if b.opts.validation.Some? then b.opts.validation.value else 0)
  }

  /** A checkpoint past its first step is bound to other data than the job's. */
  predicate WrittenElsewhere(record: Record, j: Job) {
    && record.step > 0 && record.binding.Some?
    && !(&& record.binding.value.origin == (if j.feed.shuffled then j.feed.origin else 0)
         && record.binding.value.train == j.feed.corpus.n
         && record.binding.value.val == (if j.opts.validation.Some? then j.opts.validation.value else 0))
  }

  /** A checkpoint written in a run of one job, offered to another: refused, with nothing trained, exactly when the
      two do not work on the same data. Otherwise training goes on from it, unless the replayed rows overflow. */
  lemma ResumeElsewhere(a: Job, b: Job, source: Seg, steps: nat, i: nat, c: Core, pos: ServingPos, more: nat)
    requires a.Valid() && b.Valid() && b.opts.hasPath && FirstLoop(a, source, None, steps).Some?
    requires var (first, end) := FirstLoop(a, source, None, steps).value; After(a, end, first, i).disk.Some?
    ensures var (first, end) := FirstLoop(a, source, None, steps).value;
      var disk := After(a, end, first, i).disk;
      && (!SameData(a, b) ==> Call(b, c, pos, disk, more, true) == Stopped(disk))
      && (SameData(a, b) && Area(disk.value.step, b.rows) < U64_LIMIT ==>
           Call(b, c, pos, disk, more, true) == Train(b, Load(disk.value), PosAt(b, disk.value.step), disk, more))
  {
    var (first, end) := FirstLoop(a, source, None, steps).value;
    var k := LastCheckpoint(a, end, first, i);
    SavedInLoop(a, end, first, k);
    FreshInRun(a, source, None, steps);
    ReachedInRun(a, end, first, k);
  }

  /** Exactly when resuming meets the promise: a run whose patience ran out at the
      checkpointed step ends there, but its checkpoint does not say so, and the resumed
      process trains on unless it is cancelled at once. */
  lemma ResumeExactly(j: Job, end: nat, first: Loop, i: nat, more: nat)
    requires InRun(j, end, first) && first.status == Running && CheckpointAt(j, end, first, i)
    requires AsksForRest(j, end, After(j, end, first, i).c.step, more)
    ensures var l := After(j, end, first, i);
      && l.disk.Some? && Restarted(j, l.disk, more).Some?
      && (RunLoop(j, end, Restarted(j, l.disk, more).value.0).c == RunLoop(j, end, first).c
          <==> l.status == Running || l.c.step in j.opts.stops)
  {
    hide After, Restarted, CheckpointAt, AsksForRest;
    var l := After(j, end, first, i);
    SavedInLoop(j, end, first, i);
    ReachedInRun(j, end, first, i);
    RestartStands(j, end, l, more);
    RunFromAny(j, end, first, i);
    if l.status == Patience {
      PatienceIsEarly(j, end, first, i);
      StepsOnly(j, end, NextLoop(j, end, l.(status := Running)));
    }
  }

  /** Such a run exists: two idle steps that score alike, with a patience of one. */
  lemma PatienceDiverges(feed: Feed, source: Seg) returns (j: Job)
    requires feed.Valid()
    ensures j.Valid() && j.feed == feed && j.opts.horizonSteps == 0 && FirstLoop(j, source, None, 3).Some?
    ensures var (first, end) := FirstLoop(j, source, None, 3).value;
      var l := After(j, end, first, 1);
      && l.status == Patience && CheckpointAt(j, end, first, 1) && l.disk.Some? && Restarted(j, l.disk, 0).Some?
      && RunLoop(j, end, Restarted(j, l.disk, 0).value.0).c != RunLoop(j, end, first).c
  {
    var world := World((seg, s, horizon, pos) => Some(seg), seg => Some(Score(Num(0.0), None)));
    j := Job(world, Options(true, 1, 0, Some(1), Every(1), 1, {}), feed, 1, 1, 3);
    var (first, end) := FirstLoop(j, source, None, 3).value;
    FreshInRun(j, source, None, 3);
    var l := After(j, end, first, 1);
    assert After(j, end, first, 0) == first;
    assert Steps(j, end, first) && l == NextLoop(j, end, first);
    ResumeExactly(j, end, first, 1, 0);
  }

  /** Patience only runs out before the last step. */
  lemma {:induction false} PatienceIsEarly(j: Job, end: nat, first: Loop, i: nat)
    requires first.status == Running && After(j, end, first, i).status == Patience
    ensures After(j, end, first, i).c.step < end
  {
    if i > 0 {
      if Steps(j, end, After(j, end, first, i - 1)) {
      } else {
        PatienceIsEarly(j, end, first, i - 1);
      }
    }
  }

  /** A process stands at a checkpoint from which the rest of its run can be asked for. */
  ghost predicate Resumable(j: Job, end: nat, m: Loop) {
    && InRun(j, end, m) && JustSaved(j, m) && m.status == Running && AsksForRest(j, end, m.c.step, end - m.c.step)
  }

  /** Processes that each run some iterations and die at a checkpoint, one after another. */
  ghost function Chain(j: Job, end: nat, l: Loop, cuts: seq<nat>): Loop
    decreases |cuts|
  {
    if cuts == [] then l
    else
      var m := After(j, end, l, cuts[0]);
      var next := if Resumable(j, end, m) && Restarted(j, m.disk, end - m.c.step).Some?
                  then Restarted(j, m.disk, end - m.c.step).value.0 else m;
      Chain(j, end, next, cuts[1..])
  }

  /** Any number of crashes and resumptions ends where the run left alone ends. */
  lemma {:induction false} RepeatedCrashes(j: Job, end: nat, l: Loop, cuts: seq<nat>)
    ensures RunLoop(j, end, Chain(j, end, l, cuts)) == RunLoop(j, end, l)
    decreases |cuts|
  {
    if cuts != [] {
      var m := After(j, end, l, cuts[0]);
      RunFromAny(j, end, l, cuts[0]);
      if Resumable(j, end, m) {
        RestartStands(j, end, m, end - m.c.step);
        RepeatedCrashes(j, end, m, cuts[1..]);
      } else {
        RepeatedCrashes(j, end, m, cuts[1..]);
      }
    }
  }

  // ------------------------------------------------------------- cadence and length

  /** "auto" evaluates ten to nineteen times over a horizon of at least ten steps, and at every step of a shorter one. */
  lemma AutoInterval(j: Job, horizon: nat)
    requires j.opts.validation.Some? && j.opts.evalEvery.Auto?
    ensures horizon >= 10 ==> 10 * j.Interval(horizon) <= horizon < 10 * j.Interval(horizon) + 10
    ensures horizon < 10 ==> j.Interval(horizon) == 1
  {
  }

  /** Whenever a run with a checkpoint path is not inside a step, what is on disk is the state of the last multiple of
      the interval: a crash loses less than one interval. */
  lemma {:induction false} CheckpointIsRecent(j: Job, end: nat, first: Loop, i: nat)
    requires j.opts.hasPath && j.opts.checkpointEvery > 0
    requires first.disk.None? && first.c.step == 0 && first.status == Running
    ensures var l := After(j, end, first, i);
      l.status != Failed ==> DiskAt(l.disk, l.c.step - l.c.step % j.opts.checkpointEvery)
  {
    var k := j.opts.checkpointEvery;
    if i == 0 {
      assert 0 % k == 0;
    } else {
      CheckpointIsRecent(j, end, first, i - 1);
      var m := After(j, end, first, i - 1);
      if Steps(j, end, m) {
        RecentStep(j, end, m, k);
      }
    }
  }

  /** The disk holds the state of step s, or nothing at the start. */
  predicate DiskAt(disk: Option<Record>, s: int) { if s == 0 then disk.None? else disk.Some? && disk.value.step == s }

  lemma RecentStep(j: Job, end: nat, m: Loop, k: nat)
    requires Steps(j, end, m) && j.opts.hasPath && k == j.opts.checkpointEvery > 0 && DiskAt(m.disk, m.c.step - m.c.step % k)
    ensures var l := NextLoop(j, end, m); l.status != Failed ==> DiskAt(l.disk, l.c.step - l.c.step % k)
  {
    StepMod(m.c.step, k);
  }

  /** A loop that is neither cancelled, nor out of patience, nor failed stops at its end. */
  lemma {:induction false} RunsToEnd(j: Job, end: nat, l: Loop)
    requires j.Valid() && j.feed.Has(l.pos) && l.c.step <= end && Tracked(j, l.c)
    ensures var out := RunLoop(j, end, l);
      out.c.step <= end && (out.status == Running ==> out.c.step == end)
    decreases if l.c.step < end then end - l.c.step else 0, if l.status == Running then 1 else 0
  {
    if Steps(j, end, l) {
      var next := NextLoop(j, end, l);
      if next.status == Running {
        RunsToEnd(j, end, next);
      }
    }
  }

  /** The steps a call is for: those asked for, else what the horizon leaves of a resumed run, else the plan's default. */
  function Asked(j: Job, c: Core, steps: nat): nat {
    if steps != 0 then steps
    else if c.step > 0 && c.horizon > 0 then (if c.horizon > c.step then c.horizon - c.step else 0)
    else j.defaultSteps
  }

  /** A call that ends by itself has taken exactly the steps it was for. */
  lemma TrainTakesSteps(j: Job, c: Core, pos: ServingPos, disk: Option<Record>, steps: nat)
    requires j.Valid() && j.feed.Has(pos)
    ensures var o := Train(j, c, pos, disk, steps);
      o.Trained? && !o.report.cancelled && !o.report.byPatience ==> o.report.steps == Asked(j, c, steps)
    ensures c.step == 0 && Asked(j, c, steps) == 0 ==> Train(j, c, pos, disk, steps) == Stopped(disk)
  {
    var begun := Begin(j, c, steps);
    if begun.Some? && Tracked(j, begun.value.0) {
      RunsToEnd(j, begun.value.1, Loop(begun.value.0, pos, Running, disk));
    }
  }

  // ---------------------------------------------------------------- the best state

  /** The periodic evaluation made by the step from m, if it makes one. */
  function Verdict(j: Job, end: nat, m: Loop): Option<Score> {
    if !Steps(j, end, m) || m.c.step in j.opts.stops then None
    else
      var moved := j.world.train(m.c.seg, m.c.step + 1, m.c.horizon, m.pos);
      if moved.None? || !EvaluatesAt(j, end, m.c.horizon, m.c.step + 1) then None else j.world.eval(moved.value)
  }

  /** The losses of the periodic evaluations in the first i iterations. */
  function Seen(j: Job, end: nat, first: Loop, i: nat): seq<Float> {
    if i == 0 then []
    else
      var v := Verdict(j, end, After(j, end, first, i - 1));
      Seen(j, end, first, i - 1) + (if v.Some? then [v.value.loss] else [])
  }

  /** Consecutive periodic evaluations without a new best, after i iterations. */
  function Since(j: Job, end: nat, first: Loop, i: nat): nat {
    if i == 0 then 0
    else
      var m := After(j, end, first, i - 1);
      var v := Verdict(j, end, m);
      if v.None? then Since(j, end, first, i - 1)
      else if m.c.best.Some? && v.value.loss.Less(m.c.best.value.score.loss) then 0
      else Since(j, end, first, i - 1) + 1
  }

  ghost predicate NoneBelow(losses: seq<Float>, best: Float) {
    forall k :: 0 <= k < |losses| ==> !losses[k].Less(best)
  }

  /** A best that is a number is the least of the scores that are. */
  lemma BestIsLeast(losses: seq<Float>, best: Float)
    requires NoneBelow(losses, best) && best.Num?
    ensures forall k :: 0 <= k < |losses| && losses[k].Num? ==> best.r <= losses[k].r
    ensures forall k :: 0 <= k < |losses| ==> !losses[k].NegInf?
  {
    forall k | 0 <= k < |losses| ensures !losses[k].NegInf? && (losses[k].Num? ==> best.r <= losses[k].r) {
      assert !losses[k].Less(best);
    }
  }

  /** The recorded best is the score of the stored state, and no score seen is below it. */
  ghost predicate BestHolds(j: Job, c: Core, baseline: Score, seen: seq<Float>) {
    && c.best.Some? && j.world.eval(c.best.value.state) == Some(c.best.value.score)
    && c.BestIsCurrent() && c.best.value.step <= c.step
    && !baseline.loss.Less(c.best.value.score.loss) && NoneBelow(seen, c.best.value.score.loss)
  }

  lemma BetterBelow(losses: seq<Float>, old_: Float, new_: Float)
    requires NoneBelow(losses, old_) && new_.Less(old_)
    ensures NoneBelow(losses + [new_], new_)
  {
    forall k | 0 <= k < |losses| ensures !losses[k].Less(new_) {
      LessOrder(losses[k], old_, new_);
    }
    LessOrder(new_, new_, new_);
  }

  lemma StepKeepsBest(j: Job, end: nat, l: Loop, baseline: Score, seen: seq<Float>)
    requires Steps(j, end, l) && j.Tracks(l.c.horizon) && BestHolds(j, l.c, baseline, seen)
    ensures NextLoop(j, end, l).status != Failed ==>
      BestHolds(j, NextLoop(j, end, l).c, baseline,
                seen + (if Verdict(j, end, l).Some? then [Verdict(j, end, l).value.loss] else []))
  {
    var v := Verdict(j, end, l);
    var best := l.c.best.value.score.loss;
    if v.Some? && v.value.loss.Less(best) {
      BetterBelow(seen, best, v.value.loss);
      LessOrder(baseline.loss, best, v.value.loss);
    }
  }

  /** In every tracked fresh run, at every iteration. */
  lemma {:induction false} BestInRun(j: Job, end: nat, first: Loop, i: nat, baseline: Score)
    requires j.Valid() && j.Tracks(first.c.horizon) && BestHolds(j, first.c, baseline, []) && first.status == Running
    ensures After(j, end, first, i).status != Failed ==>
      BestHolds(j, After(j, end, first, i).c, baseline, Seen(j, end, first, i))
    ensures After(j, end, first, i).c.horizon == first.c.horizon
  {
    if i > 0 {
      BestInRun(j, end, first, i - 1, baseline);
      var m := After(j, end, first, i - 1);
      if Steps(j, end, m) {
        StepKeepsBest(j, end, m, baseline, Seen(j, end, first, i - 1));
      }
    }
  }

  /** A tracked fresh run starts from a best that is the source's own state and score. */
  lemma FreshBest(j: Job, source: Seg, disk: Option<Record>, steps: nat)
    requires FirstLoop(j, source, disk, steps).Some? && j.Tracks(FirstLoop(j, source, disk, steps).value.0.c.horizon)
    ensures var first := FirstLoop(j, source, disk, steps).value.0;
      && first.c.valInitial.Some? && j.world.eval(source) == first.c.valInitial
      && BestHolds(j, first.c, first.c.valInitial.value, [])
  {
    LessOrder(j.world.eval(source).value.loss, NaN, NaN);
  }

  /** The run ends with its best state in the arena, whose score is the one reported; it is
      not above the source's, nor above any score seen on the way or at the end. */
  lemma ConcludeKeepsBest(j: Job, c: Core, baseline: Score, seen: seq<Float>)
    requires j.Tracks(c.horizon) && BestHolds(j, c, baseline, seen) && Conclude(j, c).Some?
    ensures var (kept, last, final) := Conclude(j, c).value;
      && last.Some? && final.Some? && kept.best.Some?
      && j.world.eval(kept.seg) == final && kept.best.value.score == final.value
      && kept.BestIsCurrent() && kept.seg == kept.best.value.state
      && !baseline.loss.Less(final.value.loss) && NoneBelow(seen + [last.value.loss], final.value.loss)
  {
    var v := j.world.eval(c.seg).value;
    var best := c.best.value.score.loss;
    if v.loss.Less(best) {
      BetterBelow(seen, best, v.loss);
      LessOrder(baseline.loss, best, v.loss);
    }
  }

  lemma {:induction false} AfterShifts(j: Job, end: nat, l: Loop, i: nat)
    requires Steps(j, end, l)
    ensures After(j, end, NextLoop(j, end, l), i) == After(j, end, l, i + 1)
  {
    if i > 0 {
      AfterShifts(j, end, l, i - 1);
    }
  }

  /** A run is some number of iterations. */
  lemma {:induction false} RunIsAfter(j: Job, end: nat, l: Loop) returns (n: nat)
    ensures RunLoop(j, end, l) == After(j, end, l, n)
    decreases if l.c.step < end then end - l.c.step else 0, if l.status == Running then 1 else 0
  {
    n := 0;
    if Steps(j, end, l) {
      var k := RunIsAfter(j, end, NextLoop(j, end, l));
      AfterShifts(j, end, l, k);
      n := k + 1;
    }
  }

  /** Whole tracked fresh runs: what ships is the state whose score is reported, and that
      score is not above the source model's nor above any score the run took. */
  lemma TrackedRun(j: Job, source: Seg, disk: Option<Record>, steps: nat) returns (n: nat)
    requires j.Valid() && FirstLoop(j, source, disk, steps).Some?
    requires j.Tracks(FirstLoop(j, source, disk, steps).value.0.c.horizon)
    requires Train(j, Fresh(source), ServingPos(0, 0), disk, steps).Trained?
    ensures var (first, end) := FirstLoop(j, source, disk, steps).value;
      var (c, report) := (Train(j, Fresh(source), ServingPos(0, 0), disk, steps).c, Train(j, Fresh(source), ServingPos(0, 0), disk, steps).report);
      && RunLoop(j, end, first) == After(j, end, first, n)
      && report.valInitial == j.world.eval(source) && report.valInitial.Some? && report.valFinal.Some? && report.valLast.Some?
      && j.world.eval(c.seg) == report.valFinal && report.bestStep.Some? && c.BestIsCurrent()
      && !report.valInitial.value.loss.Less(report.valFinal.value.loss)
      && NoneBelow(Seen(j, end, first, n) + [report.valLast.value.loss], report.valFinal.value.loss)
      && (report.valFinal.value.loss.Num? && report.valInitial.value.loss.Num? ==>
           report.valFinal.value.loss.r <= report.valInitial.value.loss.r)
  {
    var (first, end) := FirstLoop(j, source, disk, steps).value;
    FreshBest(j, source, disk, steps);
    n := RunIsAfter(j, end, first);
    BestInRun(j, end, first, n, first.c.valInitial.value);
    KeepsBaseline(j, end, first, n);
    ConcludeKeepsBest(j, After(j, end, first, n).c, first.c.valInitial.value, Seen(j, end, first, n));
  }

  lemma {:induction false} KeepsBaseline(j: Job, end: nat, first: Loop, i: nat)
    ensures After(j, end, first, i).c.valInitial == first.c.valInitial
  {
    if i > 0 {
      KeepsBaseline(j, end, first, i - 1);
    }
  }

  // ------------------------------------------------------------------- patience

  /** The counter is the number of consecutive stale evaluations, in 32 bits. */
  lemma {:induction false} StaleCounts(j: Job, end: nat, first: Loop, i: nat)
    requires first.status == Running && first.c.stale == 0
    ensures After(j, end, first, i).status != Failed ==>
      After(j, end, first, i).c.stale == Since(j, end, first, i) % U32_LIMIT
  {
    if i > 0 {
      StaleCounts(j, end, first, i - 1);
      var m := After(j, end, first, i - 1);
      if Steps(j, end, m) {
        StaleStep(j, end, m, Since(j, end, first, i - 1));
      }
    }
  }

  lemma StaleStep(j: Job, end: nat, m: Loop, since: nat)
    requires Steps(j, end, m) && m.c.stale == since % U32_LIMIT
    ensures NextLoop(j, end, m).status != Failed ==>
      NextLoop(j, end, m).c.stale ==
        (if Verdict(j, end, m).None? then since
         else if m.c.best.Some? && Verdict(j, end, m).value.loss.Less(m.c.best.value.score.loss) then 0
         else since + 1) % U32_LIMIT
  {
  }

  /** Patience stops a run exactly when that many consecutive evaluations brought no new
      best, if it fits the counter; a larger patience never stops it. */
  lemma {:induction false} PatienceStops(j: Job, end: nat, first: Loop, i: nat)
    requires first.status == Running && first.c.stale == 0 && j.opts.patience > 0
    ensures After(j, end, first, i).status == Running && j.opts.patience < U32_LIMIT ==>
      Since(j, end, first, i) < j.opts.patience
    ensures After(j, end, first, i).status == Patience ==>
      j.opts.patience < U32_LIMIT && Since(j, end, first, i) == j.opts.patience
  {
    if i > 0 {
      PatienceStops(j, end, first, i - 1);
      var m := After(j, end, first, i - 1);
      if Steps(j, end, m) {
        StaleCounts(j, end, first, i - 1);
        PatienceStep(j, end, m, Since(j, end, first, i - 1));
      }
    }
  }

  lemma PatienceStep(j: Job, end: nat, m: Loop, since: nat)
    requires Steps(j, end, m) && m.c.stale == since % U32_LIMIT && j.opts.patience > 0
    requires j.opts.patience < U32_LIMIT ==> since < j.opts.patience
    ensures var (v, l) := (Verdict(j, end, m), NextLoop(j, end, m));
      var now := if v.None? then since
                 else if m.c.best.Some? && v.value.loss.Less(m.c.best.value.score.loss) then 0 else since + 1;
      && (l.status == Running && j.opts.patience < U32_LIMIT ==> now < j.opts.patience)
      && (l.status == Patience ==> j.opts.patience < U32_LIMIT && now == j.opts.patience)
  {
  }

  /** An idle run with a patience that does not fit the counter. */
  function IdleJob(feed: Feed): Job {
    Job(World((seg, s, horizon, pos) => Some(seg), seg => Some(Score(Num(0.0), None))),
        Options(false, 0, 0, Some(1), Every(1), U32_LIMIT, {}), feed, 1, 1, 1)
  }

  lemma IdleStep(feed: Feed, end: nat, m: Loop)
    requires feed.Valid() && feed.Has(m.pos) && m.status == Running && m.c.step + 1 < end == m.c.horizon
    requires m.c.best.Some? && m.c.best.value.score.loss == Num(0.0)
    ensures Steps(IdleJob(feed), end, m) && Verdict(IdleJob(feed), end, m) == Some(Score(Num(0.0), None))
    ensures var l := NextLoop(IdleJob(feed), end, m);
      && l.status == Running && l.c.step == m.c.step + 1 && l.c.horizon == end && l.c.best == m.c.best && feed.Has(l.pos)
  {
  }

  lemma {:induction false} IdleRuns(feed: Feed, end: nat, first: Loop, i: nat)
    requires feed.Valid() && feed.Has(first.pos) && first.status == Running && first.c.step == 0 && first.c.horizon == end
    requires first.c.best.Some? && first.c.best.value.score.loss == Num(0.0) && i < end
    ensures var l := After(IdleJob(feed), end, first, i);
      && l.status == Running && l.c.step == i && l.c.horizon == end && l.c.best == first.c.best && feed.Has(l.pos)
    ensures Since(IdleJob(feed), end, first, i) == i
  {
    if i > 0 {
      IdleRuns(feed, end, first, i - 1);
      IdleStep(feed, end, After(IdleJob(feed), end, first, i - 1));
    }
  }

  /** A patience of 2^32 never stops a run: here are 2^32 stale evaluations in a row, and
      the run goes on. */
  lemma PatienceNeverStops(feed: Feed, source: Seg)
    requires feed.Valid()
    ensures var j := IdleJob(feed);
      && j.opts.patience == U32_LIMIT && FirstLoop(j, source, None, U32_LIMIT + 2).Some?
      && var (first, end) := FirstLoop(j, source, None, U32_LIMIT + 2).value;
      && Since(j, end, first, U32_LIMIT) == j.opts.patience && After(j, end, first, U32_LIMIT).status == Running
  {
    var j := IdleJob(feed);
    var (first, end) := FirstLoop(j, source, None, U32_LIMIT + 2).value;
    IdleRuns(feed, end, first, U32_LIMIT);
  }
}
