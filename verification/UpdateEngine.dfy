// The update engine (runtime/dispatcher/update_engine.cc): the object whose methods
// train, checkpoint, merge and commit.
module UpdateEngine {
  import opened Scalar
  import opened Corpus
  import opened Rows
  import opened Serving
  import opened Feeding
  import opened Training
  import opened Commit
  import opened Parallel

  /** A weight of the source model: where its f32 values lie in the file, and their bytes. */
  datatype EmitRange = EmitRange(offset: nat, size: nat)

  /** The deltas of the emit table's weights, as they lie in the arena. */
  type Deltas = seq<seq<F>>

  /** The merge side of a plan: the emit table, the merge program as a function of the
      persistent segment, the finiteness test, the hash of a file and the hash bound to. */
  datatype MergePlan = MergePlan(
    table: seq<EmitRange>, merge: Seg -> Deltas, finite: F -> bool, hash: seq<Cell> -> nat, sourceHash: nat)
  {
    ghost predicate Valid() {
      && (forall a, b :: 0 <= a < b < |table| ==>
        table[a].offset + table[a].size <= table[b].offset || table[b].offset + table[b].size <= table[a].offset)
      && (forall s :: Sized(merge(s)))
    }

    predicate Sized(d: Deltas) {
      |d| == |table| && forall k :: 0 <= k < |d| ==> |d[k]| == table[k].size / 4
    }

    predicate AllFinite(d: Deltas) { forall k :: 0 <= k < |d| ==> FiniteRow(d[k]) }

    predicate FiniteRow(row: seq<F>) { forall i :: 0 <= i < |row| ==> finite(row[i]) }

    /** The emit table with these deltas. */
    function Entries(d: Deltas): (e: seq<Entry>)
      requires Sized(d)
      ensures |e| == |table| && forall k :: 0 <= k < |e| ==> e[k] == Entry(table[k].offset, table[k].size, d[k])
    {
      seq(|table|, k requires 0 <= k < |table| => Entry(table[k].offset, table[k].size, d[k]))
    }

    lemma EntriesTabled(d: Deltas)
      requires Valid() && Sized(d)
      ensures Tabled(Entries(d))
    {
    }
  }

  /** What merging can come to: the plan's bytes changed, the program failed part-way and
      left these deltas, or it ran. */
  datatype MergeRun = PlanChanged | ProgramFails(left: Deltas) | Runs

  /** What decides a commit: the segment, the delta slots, the merge flag. */
  datatype Shown = Shown(seg: Seg, deltas: Deltas, merged: bool) {
    /** The merge flag promises the deltas of the current segment. */
    ghost predicate Honest(plan: MergePlan) { merged ==> deltas == plan.merge(seg) }
  }

  /** The public calls that take part in a commit. */
  datatype PublicCall =
    | TrainCall(steps: nat, resume: bool)
    | TrainOnceCall
    | LoadCall(record: Option<Record>)
    | SaveCall
    | EvaluateCall
    | MergeCall(run: MergeRun)
    | CommitCall(file: seq<Cell>)

  /** Training writes the segment and clears the flag, or is refused before that; the delta
      slots lie above everything the train and eval programs write. */
  ghost predicate Trains(a: Shown, b: Shown) { b.deltas == a.deltas && (!b.merged || b == a) }

  /** What a call does to the three. */
  ghost predicate Follows(plan: MergePlan, a: Shown, call: PublicCall, b: Shown) {
    match call
    case TrainCall(_, _) => Trains(a, b)
    case TrainOnceCall => Trains(a, b) && !b.merged
    case LoadCall(record) => b == if record.Some? then Shown(record.value.seg, a.deltas, false) else a
    case MergeCall(PlanChanged) => b == a
    case MergeCall(ProgramFails(left)) => b == a.(deltas := left)
    case MergeCall(Runs) =>
      b == Shown(a.seg, plan.merge(a.seg), a.merged || plan.AllFinite(plan.merge(a.seg)))
    case _ => b == a
  }

  /** A call keeps the flag honest unless it is a merge that fails part-way while an earlier
      merge still counts and leaves other deltas behind. */
  lemma HonestStep(plan: MergePlan, a: Shown, call: PublicCall, b: Shown)
    requires Follows(plan, a, call, b) && a.Honest(plan)
    ensures b.Honest(plan) <==>
      !(call.MergeCall? && call.run.ProgramFails? && a.merged && call.run.left != plan.merge(a.seg))
  {
  }

  ghost predicate IsTrace(plan: MergePlan, trace: seq<Shown>, calls: seq<PublicCall>) {
    |trace| == |calls| + 1 && forall k :: 0 <= k < |calls| ==> Follows(plan, trace[k], calls[k], trace[k + 1])
  }

  predicate NoMergeFails(calls: seq<PublicCall>) {
    forall k :: 0 <= k < |calls| ==> !(calls[k].MergeCall? && calls[k].run.ProgramFails?)
  }

  /** Over every sequence of calls in which no merge fails part-way the flag stays honest. */
  lemma {:induction false} HonestThroughout(plan: MergePlan, trace: seq<Shown>, calls: seq<PublicCall>, k: nat)
    requires IsTrace(plan, trace, calls) && NoMergeFails(calls) && trace[0].Honest(plan) && k < |trace|
    ensures trace[k].Honest(plan)
  {
    if k > 0 {
      HonestThroughout(plan, trace, calls, k - 1);
      HonestStep(plan, trace[k - 1], calls[k - 1], trace[k]);
    }
  }

  class UpdateEngine {
    const plan: MergePlan
    var seg: Seg
    var step: nat
    var horizon: nat
    var binding: Option<Binding>
    var valInitial: Option<Score>
    var best: Option<Best>
    var stale: nat
    var merged: bool
    var deltas: Deltas

    function State(): Core reads this { Core(seg, step, horizon, binding, valInitial, best, stale) }

    function Committed(): Shown reads this { Shown(seg, deltas, merged) }

    predicate Honest() reads this { merged ==> deltas == plan.merge(seg) }

    /** The delta slots have the emit table's sizes. */
    ghost predicate Ready() reads this { plan.Valid() && plan.Sized(deltas) }

    constructor (source: Seg, plan: MergePlan, zeros: Deltas)
      requires plan.Valid() && plan.Sized(zeros)
      ensures this.plan == plan && State() == Fresh(source) && !merged && Honest() && Ready()
    {
      this.plan := plan;
      seg, step, horizon, binding, valInitial, best, stale := source, 0, 0, None, None, None, 0;
      merged, deltas := false, zeros;
    }

    method SetState(c: Core)
      modifies `seg, `step, `horizon, `binding, `valInitial, `best, `stale
      ensures State() == c
    {
      seg, step, horizon, binding, valInitial, best, stale := c.seg, c.step, c.horizon, c.binding, c.valInitial, c.best, c.stale;
    }

    method SnapshotBest(score: Score)
      modifies `best, `stale
      ensures State() == old(State()).WithBest(score)
    {
      best := Some(Best(step, score, seg));
      stale := 0;
    }

    method SaveCheckpoint() returns (record: Record)
      ensures record == Save(State())
    {
      var payload := None;
      if best.Some? && best.value.step != step {
        payload := Some(best.value.state);
      }
      record := Record(seg, step, horizon, binding, valInitial,
        if best.Some? then Some((best.value.step, best.value.score)) else None, payload, stale);
    }

    /** All or nothing: a file that does not load changes nothing. */
    method LoadCheckpoint(file: Option<Record>) returns (ok: bool)
      modifies `seg, `step, `horizon, `binding, `valInitial, `best, `stale, `merged
      ensures ok == file.Some?
      ensures State() == if ok then Load(file.value) else old(State())
      ensures Follows(plan, old(Committed()), LoadCall(file), Committed())
    {
      if file.None? { return false; }
      SetState(Load(file.value));
      merged := false;
      ok := true;
    }

    /** One run of the train program on whatever the slots hold. */
    method ExecuteTrainOnce(j: Job, pos: ServingPos)
      modifies `seg, `step, `merged
      ensures Follows(plan, old(Committed()), TrainOnceCall, Committed())
      ensures State() == (var c := old(State()); var s := if c.step == 0 then 1 else c.step;
        c.(step := s, seg := var m := j.world.train(c.seg, s, c.horizon, pos); if m.Some? then m.value else c.seg))
    {
      if step == 0 { step := 1; }
      merged := false;
      var moved := j.world.train(seg, step, horizon, pos);
      if moved.Some? { seg := moved.value; }
    }

    /** RunMerge: refused on a changed plan, a failing program or a poisoned delta. */
    method RunMerge(run: MergeRun) returns (ok: bool)
      requires Ready() && (run.ProgramFails? ==> plan.Sized(run.left))
      modifies `merged, `deltas
      ensures Ready() && Follows(plan, old(Committed()), MergeCall(run), Committed())
      ensures ok <==> run.Runs? && plan.AllFinite(plan.merge(seg))
      ensures ok ==> merged && Honest()
      ensures old(Honest()) ==> (Honest() <==> !(run.ProgramFails? && old(merged) && run.left != plan.merge(seg)))
    {
      match run {
        case PlanChanged => return false;
        case ProgramFails(left) =>
          deltas := left;
          return false;
        case Runs =>
      }
      deltas := plan.merge(seg);
      ok := ScanFinite(deltas);
      if ok { merged := true; }
    }

    /** The finiteness gate over the emit table's deltas. */
    method ScanFinite(d: Deltas) returns (ok: bool)
      ensures ok == plan.AllFinite(d)
    {
      for k := 0 to |d|
        invariant forall j :: 0 <= j < k ==> plan.FiniteRow(d[j])
      {
        for i := 0 to |d[k]|
          invariant forall j :: 0 <= j < i ==> plan.finite(d[k][j])
        {
          if !plan.finite(d[k][i]) { return false; }
        }
      }
      ok := true;
    }

    /** Commit refuses unless a merge precedes, the file is the plan's source and every entry
        lies in it; from an honest engine, what it writes is the file plus the deltas of the
        current segment. */
    method CommitToModel(file: seq<Cell>) returns (r: Result<seq<Cell>>)
      requires Ready()
      ensures r.Ok? <==>
        merged && (plan.sourceHash == 0 || plan.hash(file) == plan.sourceHash) && InFile(plan.Entries(deltas), |file|)
      ensures r.Ok? ==> Tabled(plan.Entries(deltas)) && Patched(file, r.value, plan.Entries(deltas))
      ensures r.Ok? && Honest() ==> CommitsMerge(plan, seg, file, r.value)
    {
      if !merged { return Err("RunMerge() must precede commit"); }
      if plan.sourceHash != 0 && plan.hash(file) != plan.sourceHash {
        return Err("source model does not match the plan's source_model_hash");
      }
      plan.EntriesTabled(deltas);
      r := PatchModel(file, plan.Entries(deltas), CHUNK_FLOATS);
    }
  
    /** The micro-batches of one step: `grad` batches from the feeder. */
    method ServeMicroBatches(data: Dataset, batch: nat, grad: nat, inputSlot: array<Word>, labelSlot: array?<Word>, ghost per: nat)
      requires data.Valid() && inputSlot != labelSlot && per == Area(grad, Records(data.corpus, batch))
      requires Area(Records(data.corpus, batch), data.corpus.inputDim) <= inputSlot.Length
      requires labelSlot != null ==> Area(Records(data.corpus, batch), data.corpus.LabelWords()) <= labelSlot.Length
      modifies data`cursor, data`epoch, data`order, data`shuffleState, inputSlot, labelSlot
      ensures data.Valid() && data.TheFeed() == old(data.TheFeed())
      ensures data.Pos() == old(data.TheFeed()).Advance(old(data.Pos()), per)
    {
      ghost var f, p, records := data.TheFeed(), data.Pos(), Records(data.corpus, batch);
      var g := 0;
      while g < grad
        invariant g <= grad && data.Valid() && data.TheFeed() == f && data.Pos() == f.Advance(p, Area(g, records))
      {
        var next := g + 1;
        AreaNext(g, records);
        f.AdvanceAdds(p, Area(g, records), records, Area(next, records));
        data.FillBatch(batch, inputSlot, labelSlot);
        g := next;
      }
    }

    /** The verdict of a periodic evaluation. */
    method JudgeNow(j: Job, v: Score) returns (outOfPatience: bool)
      requires best.Some?
      modifies `best, `stale
      ensures State() == Judge(old(State()), v) && outOfPatience == OutOfPatience(j, old(State()), v)
    {
      outOfPatience := false;
      if v.loss.Less(best.value.score.loss) {
        SnapshotBest(v);
      } else {
        stale := (stale + 1) % U32_LIMIT;
        outOfPatience := j.opts.patience > 0 && stale >= j.opts.patience;
      }
    }

    /** What a training call needs of its feeder: the job's feed, and slots of the plan's size. */
    ghost predicate Feeds(j: Job, data: Dataset, batch: nat, grad: nat, inputSlot: array<Word>, labelSlot: array?<Word>)
      reads data
    {
      && j.Valid() && data.Valid() && data.TheFeed() == j.feed && inputSlot != labelSlot
      && j.per == Area(grad, Records(data.corpus, batch)) && j.rows == Area(grad, batch)
      && (data.corpus.Tokens? ==> batch % data.corpus.inputDim == 0)
      && Area(Records(data.corpus, batch), data.corpus.inputDim) <= inputSlot.Length
      && (labelSlot != null ==> Area(Records(data.corpus, batch), data.corpus.LabelWords()) <= labelSlot.Length)
    }

    /** One iteration of the training loop. */
    method StepLoop(j: Job, data: Dataset, batch: nat, grad: nat, inputSlot: array<Word>, labelSlot: array?<Word>,
                    end: nat, disk: Option<Record>)
      returns (status: Status, written: Option<Record>)
      requires Feeds(j, data, batch, grad, inputSlot, labelSlot)
      requires step < end && Tracked(j, State())
      modifies `seg, `step, `best, `stale, data`cursor, data`epoch, data`order, data`shuffleState, inputSlot, labelSlot
      ensures Feeds(j, data, batch, grad, inputSlot, labelSlot)
      ensures Loop(State(), data.Pos(), status, written) == NextLoop(j, end, Loop(old(State()), old(data.Pos()), Running, disk))
    {
      status, written := Running, disk;
      if step in j.opts.stops { return Cancelled, disk; }
      var ok := TakeStep(j, data, batch, grad, inputSlot, labelSlot);
      if !ok { return Failed, disk; }
      status, written := SettleStep(j, end, data.Pos(), disk);
    }

    /** The micro-batches of one step of the job. */
    method FeedStep(j: Job, data: Dataset, batch: nat, grad: nat, inputSlot: array<Word>, labelSlot: array?<Word>)
      requires Feeds(j, data, batch, grad, inputSlot, labelSlot)
      modifies data`cursor, data`epoch, data`order, data`shuffleState, inputSlot, labelSlot
      ensures Feeds(j, data, batch, grad, inputSlot, labelSlot) && data.Pos() == j.feed.Advance(old(data.Pos()), j.per)
    {
      ServeMicroBatches(data, batch, grad, inputSlot, labelSlot, j.per);
    }

    /** One optimizer step on the next micro-batches. */
    method TakeStep(j: Job, data: Dataset, batch: nat, grad: nat, inputSlot: array<Word>, labelSlot: array?<Word>) returns (ok: bool)
      requires Feeds(j, data, batch, grad, inputSlot, labelSlot)
      modifies `seg, `step, data`cursor, data`epoch, data`order, data`shuffleState, inputSlot, labelSlot
      ensures Feeds(j, data, batch, grad, inputSlot, labelSlot) && data.Pos() == j.feed.Advance(old(data.Pos()), j.per)
      ensures var moved := j.world.train(old(seg), old(step) + 1, horizon, old(data.Pos()));
        && ok == moved.Some?
        && State() == old(State()).(step := old(step) + 1, seg := if ok then moved.value else old(seg))
    {
      var pos := data.Pos();
      step := step + 1;
      FeedStep(j, data, batch, grad, inputSlot, labelSlot);
      var moved := j.world.train(seg, step, horizon, pos);
      ok := moved.Some?;
      if ok { seg := moved.value; }
    }

    /** The periodic evaluation's interval: "auto" is a tenth of the horizon. */
    method EvalEvery(j: Job) returns (every: nat)
      ensures every == j.Interval(horizon)
    {
      if j.opts.validation.None? { return 0; }
      match j.opts.evalEvery {
        case Auto => every := horizon / 10;
        case Every(k) => return k;
      }
      if every < 1 { every := 1; }
    }

    /** The periodic evaluation and the checkpoint after a step. */
    method SettleStep(j: Job, end: nat, pos: ServingPos, disk: Option<Record>) returns (status: Status, written: Option<Record>)
      requires Tracked(j, State())
      modifies `best, `stale
      ensures Loop(State(), pos, status, written) == Settle(j, end, old(State()), pos, disk)
    {
      status, written := Running, disk;
      var every := EvalEvery(j);
      if j.opts.validation.Some? && every > 0 && step % every == 0 && step < end {
        var v := j.world.eval(seg);
        if v.None? { return Failed, disk; }
        var out := JudgeNow(j, v.value);
        if out { status := Patience; }
      }
      if j.opts.checkpointEvery > 0 && j.opts.hasPath && step % j.opts.checkpointEvery == 0 {
        var record := SaveCheckpoint();
        written := Some(record);
      }
    }
  
    method RunTheLoop(j: Job, data: Dataset, batch: nat, grad: nat, inputSlot: array<Word>, labelSlot: array?<Word>,
                      end: nat, disk: Option<Record>)
      returns (status: Status, written: Option<Record>)
      requires Feeds(j, data, batch, grad, inputSlot, labelSlot) && Tracked(j, State())
      modifies `seg, `step, `best, `stale, data`cursor, data`epoch, data`order, data`shuffleState, inputSlot, labelSlot
      ensures Feeds(j, data, batch, grad, inputSlot, labelSlot)
      ensures Loop(State(), data.Pos(), status, written) == RunLoop(j, end, Loop(old(State()), old(data.Pos()), Running, disk))
    {
      ghost var first := Loop(State(), data.Pos(), Running, disk);
      status, written := Running, disk;
      while status == Running && step < end
        invariant Feeds(j, data, batch, grad, inputSlot, labelSlot)
        invariant status == Running ==> Tracked(j, State())
        invariant RunLoop(j, end, Loop(State(), data.Pos(), status, written)) == RunLoop(j, end, first)
        decreases end - step, if status == Running then 1 else 0
      {
        ghost var l := Loop(State(), data.Pos(), status, written);
        status, written := StepLoop(j, data, batch, grad, inputSlot, labelSlot, end, written);
        KeepsTracking(j, end, l);
      }
    }

    /** The scores a run starts from. */
    method TakeBaseline(j: Job, resumed: bool) returns (ok: bool)
      requires resumed == (step > 0)
      modifies `valInitial, `best, `stale
      ensures ok == Baseline(j, old(State())).Some?
      ensures ok ==> State() == Baseline(j, old(State())).value
    {
      if j.opts.validation.None? { return true; }
      if !(resumed && valInitial.Some?) {
        var v := j.world.eval(seg);
        if v.None? { return false; }
        valInitial := v;
      }
      var every := EvalEvery(j);
      if every > 0 && best.None? {
        var bar := valInitial.value;
        if resumed {
          var v := j.world.eval(seg);
          if v.None? { return false; }
          bar := v.value;
        }
        SnapshotBest(bar);
      }
      ok := true;
    }

    /** The closing evaluation; a tracked run leaves its best state in the arena. */
    method TakeFinal(j: Job) returns (ok: bool, last: Option<Score>, final: Option<Score>)
      requires Tracked(j, State())
      modifies `seg, `best, `stale
      ensures ok == Conclude(j, old(State())).Some?
      ensures ok ==> Conclude(j, old(State())).value == (State(), last, final)
    {
      if j.opts.validation.None? { return true, None, None; }
      var v := j.world.eval(seg);
      if v.None? { return false, None, None; }
      last, final := v, v;
      var every := EvalEvery(j);
      if every > 0 {
        if v.value.loss.Less(best.value.score.loss) { SnapshotBest(v.value); }
        if best.value.step != step { seg := best.value.state; }
        final := Some(best.value.score);
      }
      ok := true;
    }

    /** Everything before the loop: schedule, binding, baseline scores. */
    method Prepare(j: Job, steps: nat) returns (ok: bool, end: nat)
      modifies `horizon, `binding, `valInitial, `best, `stale
      ensures ok == Begin(j, old(State()), steps).Some?
      ensures ok ==> Begin(j, old(State()), steps).value == (State(), end) && Tracked(j, State())
    {
      var resumed := step > 0;
      var count;
      ok, count := DecideSteps(j, steps);
      if !ok { return false, 0; }
      binding := Some(j.TheBinding());
      end := step + count;
      ok := TakeBaseline(j, resumed);
    }

    /** The step count and the schedule horizon, decided after the checkpoint is in. */
    method DecideSteps(j: Job, steps: nat) returns (ok: bool, count: nat)
      modifies `horizon
      ensures ok == Schedule(j, old(State()), steps).Some?
      ensures ok ==> Schedule(j, old(State()), steps).value == (count, horizon)
    {
      count := steps;
      if steps == 0 {
        if step > 0 && horizon > 0 {
          count := if horizon > step then horizon - step else 0;
        } else {
          count := j.defaultSteps;
        }
        if count == 0 && step == 0 { return false, 0; }
      }
      if j.opts.horizonSteps != 0 {
        horizon := j.opts.horizonSteps;
      } else if steps != 0 || horizon == 0 {
        horizon := step + count;
      }
      if horizon >= U64_LIMIT { return false, 0; }
      if horizon < step + count && j.opts.horizonSteps != 0 { return false, 0; }
      ok := true;
    }

    /** The loop, then the report. */
    method LoopAndReport(j: Job, data: Dataset, batch: nat, grad: nat, inputSlot: array<Word>, labelSlot: array?<Word>,
                         disk: Option<Record>, end: nat, start: nat)
      returns (o: Outcome)
      requires Feeds(j, data, batch, grad, inputSlot, labelSlot) && Tracked(j, State()) && !merged
      modifies `seg, `step, `best, `stale, data`cursor, data`epoch, data`order, data`shuffleState, inputSlot, labelSlot
      ensures o == Finish(j, end, Loop(old(State()), old(data.Pos()), Running, disk), start)
      ensures o.Trained? ==> State() == o.c && data.Pos() == o.pos
      ensures Feeds(j, data, batch, grad, inputSlot, labelSlot)
    {
      var status, written := RunTheLoop(j, data, batch, grad, inputSlot, labelSlot, end, disk);
      if status == Failed || !Tracked(j, State()) { return Stopped(written); }
      var executed := if step >= start then step - start else 0;
      var ok, last, final := TakeFinal(j);
      if !ok { return Stopped(written); }
      o := Trained(State(), data.Pos(), written, Report(
        executed, status == Cancelled, status == Patience, valInitial, last, final,
        if j.Tracks(horizon) && best.Some? then Some(best.value.step) else None));
    }

    /** Train from a state already loaded. */
    method TrainFrom(j: Job, data: Dataset, batch: nat, grad: nat, inputSlot: array<Word>, labelSlot: array?<Word>,
                     disk: Option<Record>, steps: nat)
      returns (o: Outcome)
      requires Feeds(j, data, batch, grad, inputSlot, labelSlot)
      modifies `seg, `step, `horizon, `binding, `valInitial, `best, `stale, `merged
      modifies data`cursor, data`epoch, data`order, data`shuffleState, inputSlot, labelSlot
      ensures o == Train(j, old(State()), old(data.Pos()), disk, steps)
      ensures o.Trained? ==> State() == o.c && data.Pos() == o.pos && !merged
      ensures Feeds(j, data, batch, grad, inputSlot, labelSlot)
      ensures Trains(old(Committed()), Committed())
    {
      var start := step;
      var ok, end := Prepare(j, steps);
      if !ok { return Stopped(disk); }
      merged := false;
      o := LoopAndReport(j, data, batch, grad, inputSlot, labelSlot, disk, end, start);
    }

    /** Train: resume from the checkpoint when asked to, replay the feeder, then train. */
    method TrainImpl(j: Job, data: Dataset, batch: nat, grad: nat, inputSlot: array<Word>, labelSlot: array?<Word>,
                     disk: Option<Record>, steps: nat, resume: bool)
      returns (o: Outcome)
      requires Feeds(j, data, batch, grad, inputSlot, labelSlot)
      modifies `seg, `step, `horizon, `binding, `valInitial, `best, `stale, `merged
      modifies data`cursor, data`epoch, data`order, data`shuffleState, inputSlot, labelSlot
      ensures o == Call(j, old(State()), old(data.Pos()), disk, steps, resume)
      ensures o.Trained? ==> State() == o.c && data.Pos() == o.pos && !merged
      ensures Feeds(j, data, batch, grad, inputSlot, labelSlot)
      ensures Follows(plan, old(Committed()), TrainCall(steps, resume), Committed())
      ensures resume && j.opts.hasPath && disk.Some? && WrittenElsewhere(disk.value, j) ==>
        o == Stopped(disk) && State() == Load(disk.value) && data.Pos() == old(data.Pos())
    {
      if resume && j.opts.hasPath {
        var loaded := LoadCheckpoint(disk);
        if loaded && step > 0 {
          if binding.Some? && binding.value != j.TheBinding() { return Stopped(disk); }
          var served := Offset(step, j.rows);
          if served >= U64_LIMIT { return Stopped(disk); }
          RowsAreRecords(j, data.corpus, batch, grad, step);
          var skipped := data.SkipServed(served);
        }
      }
      o := TrainFrom(j, data, batch, grad, inputSlot, labelSlot, disk, steps);
    }
  }

  /** The result is the file with the deltas of this segment added in. */
  ghost predicate CommitsMerge(plan: MergePlan, seg: Seg, file: seq<Cell>, result: seq<Cell>) {
    && plan.Sized(plan.merge(seg)) && Tabled(plan.Entries(plan.merge(seg))) && InFile(plan.Entries(plan.merge(seg)), |file|)
    && Patched(file, result, plan.Entries(plan.merge(seg)))
  }

  /** One public call; a commit's result is what it wrote, or its refusal. */
  method CallOne(e: UpdateEngine, j: Job, data: Dataset, batch: nat, grad: nat, inputSlot: array<Word>, labelSlot: array?<Word>,
                 disk: Option<Record>, call: PublicCall)
    returns (disk': Option<Record>, result: Option<Result<seq<Cell>>>)
    requires e.Ready() && e.Feeds(j, data, batch, grad, inputSlot, labelSlot) && SizedCall(e.plan, call)
    modifies e, data`cursor, data`epoch, data`order, data`shuffleState, inputSlot, labelSlot
    ensures e.Ready() && e.Feeds(j, data, batch, grad, inputSlot, labelSlot)
    ensures Follows(e.plan, old(e.Committed()), call, e.Committed())
    ensures CommitIs(e.plan, old(e.Committed()), call, result)
  {
    disk', result := disk, None;
    match call {
      case TrainCall(steps, resume) =>
        var o := e.TrainImpl(j, data, batch, grad, inputSlot, labelSlot, disk, steps, resume);
        disk' := o.disk;
      case TrainOnceCall => e.ExecuteTrainOnce(j, data.Pos());
      case LoadCall(record) => var ok := e.LoadCheckpoint(record);
      case SaveCall =>
        var record := e.SaveCheckpoint();
        disk' := Some(record);
      case EvaluateCall => var score := j.world.eval(e.seg);
      case MergeCall(run) => var ok := e.RunMerge(run);
      case CommitCall(file) =>
        var r := e.CommitToModel(file);
        result := Some(r);
    }
  }

  predicate SizedCall(plan: MergePlan, call: PublicCall) {
    call.MergeCall? && call.run.ProgramFails? ==> plan.Sized(call.run.left)
  }

  /** A commit that succeeds from an honest state writes source plus the deltas of the
      segment of that state. */
  ghost predicate CommitIs(plan: MergePlan, at: Shown, call: PublicCall, result: Option<Result<seq<Cell>>>) {
    call.CommitCall? ==>
      && result.Some? && (result.value.Ok? ==> at.merged)
      && (result.value.Ok? && at.Honest(plan) ==> CommitsMerge(plan, at.seg, call.file, result.value.value))
  }

  /** Any sequence of public calls: as long as no merge fails part-way, every commit that
      succeeds writes the source plus the deltas of the segment the engine then holds. */
  method Session(e: UpdateEngine, j: Job, data: Dataset, batch: nat, grad: nat, inputSlot: array<Word>, labelSlot: array?<Word>,
                 disk: Option<Record>, calls: seq<PublicCall>)
    returns (results: seq<Option<Result<seq<Cell>>>>, ghost trace: seq<Shown>)
    requires e.Ready() && e.Feeds(j, data, batch, grad, inputSlot, labelSlot)
    requires forall k :: 0 <= k < |calls| ==> SizedCall(e.plan, calls[k])
    modifies e, data`cursor, data`epoch, data`order, data`shuffleState, inputSlot, labelSlot
    ensures e.Ready() && IsTrace(e.plan, trace, calls) && trace[0] == old(e.Committed()) && trace[|calls|] == e.Committed()
    ensures |results| == |calls| && forall k :: 0 <= k < |calls| ==> CommitIs(e.plan, trace[k], calls[k], results[k])
    ensures old(e.Honest()) && NoMergeFails(calls) ==> forall k :: 0 <= k < |calls| ==>
      calls[k].CommitCall? && results[k].Some? && results[k].value.Ok? ==> CommitsMerge(e.plan, trace[k].seg, calls[k].file, results[k].value.value)
  {
    results, trace := [], [e.Committed()];
    var now := disk;
    var k := 0;
    while k < |calls|
      invariant k <= |calls| && |results| == k && |trace| == k + 1
      invariant e.Ready() && e.Feeds(j, data, batch, grad, inputSlot, labelSlot)
      invariant trace[0] == old(e.Committed()) && trace[k] == e.Committed()
      invariant forall i :: 0 <= i < k ==> Follows(e.plan, trace[i], calls[i], trace[i + 1])
      invariant forall i :: 0 <= i < k ==> CommitIs(e.plan, trace[i], calls[i], results[i])
    {
      var result;
      now, result := CallOne(e, j, data, batch, grad, inputSlot, labelSlot, now, calls[k]);
      results, trace := results + [result], trace + [e.Committed()];
      k := k + 1;
    }
    if old(e.Honest()) && NoMergeFails(calls) {
      AllHonest(e.plan, trace, calls);
    }
  }

  lemma AllHonest(plan: MergePlan, trace: seq<Shown>, calls: seq<PublicCall>)
    requires IsTrace(plan, trace, calls) && NoMergeFails(calls) && trace[0].Honest(plan)
    ensures forall k :: 0 <= k < |trace| ==> trace[k].Honest(plan)
  {
    forall k | 0 <= k < |trace| ensures trace[k].Honest(plan) {
      HonestThroughout(plan, trace, calls, k);
    }
  }

  /** A plan of one weight whose delta is zero whatever the segment. */
  function OneWeight(): MergePlan {
    MergePlan([EmitRange(0, 4)], s => [[ZERO]], x => true, f => 0, 0)
  }

  /** A merge that succeeds and then one that fails part-way: the flag stays set over the
      deltas left behind, and the next commit writes those. */
  method StaleMerge(source: Seg, file: seq<Cell>) returns (e: UpdateEngine, r: Result<seq<Cell>>)
    requires |file| == 4
    ensures fresh(e) && e.plan == OneWeight() && e.merged && !e.Honest()
    ensures r.Ok? && !CommitsMerge(e.plan, e.seg, file, r.value)
  {
    e := new UpdateEngine(source, OneWeight(), [[ZERO]]);
    var first := e.RunMerge(Runs);
    var second := e.RunMerge(ProgramFails([[ONE]]));
    r := e.CommitToModel(file);
    FirstByte(file, r.value, ONE);
    FirstByte(file, r.value, ZERO);
  }

  lemma FirstByte(file: seq<Cell>, result: seq<Cell>, delta: F)
    requires |file| == 4
    ensures Tabled(OneWeight().Entries([[delta]])) && InFile(OneWeight().Entries([[delta]]), |file|)
    ensures Patched(file, result, OneWeight().Entries([[delta]])) ==> |result| == 4 && result[0] == SumByte(file[0..4], delta, 0)
  {
    var entries := OneWeight().Entries([[delta]]);
    assert Covers(entries[0], 0) && EntryByte(file, entries[0], 0) == SumByte(file[0..4], delta, 0);
  }

  lemma KeepsTracking(j: Job, end: nat, l: Loop)
    requires Steps(j, end, l)
    ensures NextLoop(j, end, l).status == Running ==> Tracked(j, NextLoop(j, end, l).c)
    ensures RunLoop(j, end, l) == RunLoop(j, end, NextLoop(j, end, l))
  {
  }

  /** Skipping s steps' worth of rows skips s steps' worth of records, and they are whole. */
  lemma RowsAreRecords(j: Job, corpus: Corpus, batch: nat, grad: nat, s: nat)
    requires corpus.Valid() && (corpus.Tokens? ==> batch % corpus.inputDim == 0)
    requires j.per == Area(grad, Records(corpus, batch)) && j.rows == Area(grad, batch)
    ensures corpus.Tokens? ==> Area(s, j.rows) % corpus.inputDim == 0
    ensures Records(corpus, Area(s, j.rows)) == Area(s, j.per)
  {
    if corpus.Tokens? {
      var d, records := corpus.inputDim, Records(corpus, batch);
      WholeRecords(batch, d, records);
      AreaNested(grad, records, d);
      AreaNested(s, j.per, d);
      WholeRecords(Area(s, j.rows), d, Area(s, j.per));
    }
  }

  lemma WholeRecords(rows: nat, d: nat, records: nat)
    requires d > 0
    ensures rows == Area(records, d) <==> rows % d == 0 && rows / d == records
  {
    AreaIs(records, d);
    DivisionBounds(rows, d);
    QuotientUnique(rows, d, rows / d);
    if rows == records * d {
      QuotientUnique(rows, d, records);
    }
  }
}
