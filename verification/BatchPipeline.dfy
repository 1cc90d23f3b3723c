// The feeder/engine hand-off (runtime/pipeline/batch_pipeline.cc) as two threads
// moving one program point at a time, in any order.
module BatchPipeline {
  import opened Corpus
  import opened Rows
  import opened Serving
  import opened Feeding

  /** FeederLoop's program points; the mutex is held at Check and Set. */
  datatype FeederPc = Want | Check | Asleep | Snapshot | Fill(row: nat) | WantSet | Set | Notify | Done

  /** NextBatch's program points, then the destructor's; the mutex is held at
      Checking, Clear and Stop. */
  datatype EnginePc =
    | Idle | Wanting | Checking | Sleeping | Copy(copied: nat) | WantClear | Clear | Notifying
    | WantStop | Stop | NotifyStop | Join | Restore | Finished

  datatype Thread = Feeder | Engine
  datatype Holder = Nobody | Held(owner: Thread)

  /** One run: the feed, where it starts, the records per batch and how many
      batches the engine takes before the pipeline is destroyed. */
  datatype Run = Run(feed: Feed, first: ServingPos, batch: nat, calls: nat) {
    ghost predicate Valid() { feed.Valid() && feed.Has(first) }

    /** The position after k serial batches. */
    function After(k: nat): (p: ServingPos)
      requires Valid()
      ensures feed.Has(p)
    {
      if k == 0 then first else feed.Advance(After(k - 1), batch)
    }

    /** The k-th serial batch: the records FillBatch would deliver. */
    function Serial(k: nat): (rows: seq<nat>)
      requires Valid()
      ensures |rows| == batch
    {
      feed.Indices(After(k), batch)
    }
  }

  /** Buffers hold one record number per row. `served` lists the batches the
      engine has taken, as its slots showed them. */
  datatype State = State(
    f: FeederPc, e: EnginePc, holder: Holder, full: bool, stop: bool,
    start: ServingPos, pos: ServingPos, staged: seq<nat>, slot: seq<nat>, served: seq<seq<nat>>)

  function Init(r: Run, junk: seq<nat>, slot: seq<nat>): State {
    State(Want, Idle, Nobody, false, false, ServingPos(0, 0), r.first, junk, slot, [])
  }

  predicate InFeederSection(f: FeederPc) { f == Check || f == Set }
  predicate InEngineSection(e: EnginePc) { e == Checking || e == Clear || e == Stop }
  predicate Stopping(e: EnginePc) { e == NotifyStop || e == Join || e == Restore || e == Finished }
  predicate Copying(e: EnginePc) { e.Copy? || e == WantClear || e == Clear }
  predicate Filling(f: FeederPc) { f == Snapshot || f.Fill? || f == WantSet || f == Set }

  predicate FeederReady(s: State) {
    match s.f
    case Done => false
    case Asleep => false
    case Want => s.holder == Nobody
    case WantSet => s.holder == Nobody
    case _ => true
  }

  predicate EngineReady(s: State) {
    match s.e
    case Finished => false
    case Sleeping => false
    case Wanting => s.holder == Nobody
    case WantClear => s.holder == Nobody
    case WantStop => s.holder == Nobody
    case Join => s.f == Done
    case _ => true
  }

  /** One step of FeederLoop. */
  function FeederStep(r: Run, s: State): State
    requires r.Valid() && FeederReady(s) && r.feed.Has(s.pos)
    requires s.f.Fill? ==> s.f.row <= r.batch == |s.staged|
  {
    match s.f
    case Want => s.(f := Check, holder := Held(Feeder))
    case Check =>
      if s.stop then s.(f := Done, holder := Nobody)
      else if s.full then s.(f := Asleep, holder := Nobody)
      else s.(f := Snapshot, holder := Nobody)
    case Snapshot => s.(f := Fill(0), start := s.pos)
    case Fill(i) =>
      if i < r.batch then
        s.(f := Fill(i + 1), staged := s.staged[i := r.feed.IndexAt(s.pos)], pos := r.feed.Next(s.pos))
      else s.(f := WantSet)
    case WantSet => s.(f := Set, holder := Held(Feeder))
    case Set => s.(f := Notify, full := true, holder := Nobody)
    case Notify => s.(f := Want, e := if s.e == Sleeping then Wanting else s.e)
    case _ => s
  }

  /** One step of the engine: NextBatch while calls remain, then the destructor. */
  function EngineStep(r: Run, s: State): State
    requires EngineReady(s)
    requires s.e.Copy? ==> s.e.copied <= r.batch == |s.staged| == |s.slot|
  {
    match s.e
    case Idle => s.(e := if |s.served| < r.calls then Wanting else WantStop)
    case Wanting => s.(e := Checking, holder := Held(Engine))
    case Checking => s.(e := if s.full then Copy(0) else Sleeping, holder := Nobody)
    case Copy(i) =>
      if i < r.batch then s.(e := Copy(i + 1), slot := s.slot[i := s.staged[i]])
      else s.(e := WantClear)
    case WantClear => s.(e := Clear, holder := Held(Engine))
    case Clear => s.(e := Notifying, full := false, holder := Nobody, served := s.served + [s.slot])
    case Notifying => s.(e := Idle, f := if s.f == Asleep then Want else s.f)
    case WantStop => s.(e := Stop, holder := Held(Engine))
    case Stop => s.(e := NotifyStop, stop := true, holder := Nobody)
    case NotifyStop => s.(e := Join, f := if s.f == Asleep then Want else s.f)
    case Join => s.(e := Restore)
    case Restore => s.(e := Finished, pos := if s.full then s.start else s.pos)
    case _ => s
  }

  /** A condition variable may also wake a sleeper for no reason. */
  function Spurious(s: State, t: Thread): State {
    match t
    case Feeder => s.(f := if s.f == Asleep then Want else s.f)
    case Engine => s.(e := if s.e == Sleeping then Wanting else s.e)
  }

  ghost predicate Mutex(s: State) {
    && (s.holder == Held(Feeder) <==> InFeederSection(s.f))
    && (s.holder == Held(Engine) <==> InEngineSection(s.e))
  }

  /** Every sleeper either waits for something still false or is about to be woken. */
  ghost predicate NoLostWakeUp(s: State) {
    && (s.f == Asleep && !(s.full && !s.stop) ==> s.e == Notifying || s.e == NotifyStop)
    && (s.e == Sleeping && s.full ==> s.f == Notify)
  }

  /** The first rows of serial batch n are staged. */
  ghost predicate FilledTo(r: Run, n: nat, start: ServingPos, pos: ServingPos, staged: seq<nat>, row: nat)
    requires r.Valid() && |staged| == r.batch
  {
    row <= r.batch && start == r.After(n) && pos == r.feed.Advance(start, row) && staged[..row] == r.Serial(n)[..row]
  }

  /** Who owns the staging buffer and the dataset position, and what they hold. */
  ghost predicate Owned(r: Run, s: State)
    requires r.Valid()
  {
    var n := |s.served|;
    && |s.staged| == r.batch && |s.slot| == r.batch && r.feed.Has(s.pos) && r.feed.Has(s.start)
    && (Filling(s.f) ==> !s.full)
    && (Copying(s.e) ==> s.full && n < r.calls)
    && (s.full && s.e != Finished ==> s.staged == r.Serial(n) && s.start == r.After(n) && s.pos == r.After(n + 1))
    && (!s.full && (!Filling(s.f) || s.f == Snapshot) ==> s.pos == r.After(n))
    && (s.f.Fill? ==> FilledTo(r, n, s.start, s.pos, s.staged, s.f.row))
    && (s.f == WantSet || s.f == Set ==>
      s.staged == r.Serial(n) && s.start == r.After(n) && s.pos == r.After(n + 1))
    && (s.e.Copy? ==> s.e.copied <= r.batch && s.slot[..s.e.copied] == s.staged[..s.e.copied])
    && (s.e == WantClear || s.e == Clear ==> s.slot == s.staged)
    && (s.e == Finished ==> s.pos == r.After(n))
  }

  /** The k-th batch taken is the k-th serial batch. */
  ghost predicate InOrder(r: Run, served: seq<seq<nat>>)
    requires r.Valid()
  {
    forall k :: 0 <= k < |served| ==> served[k] == r.Serial(k)
  }

  ghost predicate Ordered(r: Run, s: State)
    requires r.Valid()
  {
    && |s.served| <= r.calls && InOrder(r, s.served)
    && (s.stop <==> Stopping(s.e)) && (s.f == Done ==> s.stop)
    && (s.e == Restore || s.e == Finished ==> s.f == Done)
    && (s.stop || s.e == WantStop || s.e == Stop ==> |s.served| == r.calls)
    && (s.e == Wanting || s.e == Checking || s.e == Sleeping ==> |s.served| < r.calls)
  }

  ghost predicate Inv(r: Run, s: State)
    requires r.Valid()
  {
    Mutex(s) && NoLostWakeUp(s) && Owned(r, s) && Ordered(r, s)
  }

  lemma InitInv(r: Run, junk: seq<nat>, slot: seq<nat>)
    requires r.Valid() && |junk| == |slot| == r.batch
    ensures Inv(r, Init(r, junk, slot))
  {
  }

  lemma FeederKeeps(r: Run, s: State)
    requires r.Valid() && Inv(r, s) && FeederReady(s)
    ensures Inv(r, FeederStep(r, s))
  {
    if s.f.Fill? {
      FillKeeps(r, s);
    }
  }

  /** Row i of serial batch n, and the position once it is filled. */
  lemma RowOfBatch(r: Run, n: nat, i: nat, p: ServingPos, row: nat, q: ServingPos)
    requires r.Valid() && i < r.batch && p == r.feed.Advance(r.After(n), i)
    requires row == r.feed.IndexAt(p) && q == r.feed.Next(p)
    ensures r.Serial(n)[i] == row && q == r.feed.Advance(r.After(n), i + 1)
  {
  }

  lemma PrefixGrows(staged: seq<nat>, serial: seq<nat>, i: nat, row: nat)
    requires |staged| == |serial| && i < |staged| && staged[..i] == serial[..i] && serial[i] == row
    ensures staged[i := row][..i + 1] == serial[..i + 1]
  {
    assert serial[..i + 1] == serial[..i] + [row];
  }

  lemma FillKeeps(r: Run, s: State)
    requires r.Valid() && Owned(r, s) && s.f.Fill? && s.e != Finished
    ensures Owned(r, FeederStep(r, s))
  {
    if s.f.row < r.batch {
      var n, i, row, q := |s.served|, s.f.row, r.feed.IndexAt(s.pos), r.feed.Next(s.pos);
      RowFilled(r, n, s.start, s.pos, s.staged, i, i + 1, row, q);
      StillOwned(r, s, n, s.staged[i := row], q, i + 1);
      assert FeederStep(r, s) == s.(f := Fill(i + 1), staged := s.staged[i := row], pos := q);
    } else {
      LastRowKeeps(r, s, r.Serial(|s.served|));
      assert FeederStep(r, s) == s.(f := WantSet);
    }
  }

  lemma StillOwned(r: Run, s: State, n: nat, staged: seq<nat>, q: ServingPos, next: nat)
    requires r.Valid() && Owned(r, s) && s.e != Finished && s.f.Fill? && n == |s.served| && |staged| == r.batch && r.feed.Has(q)
    requires FilledTo(r, n, s.start, q, staged, next)
    ensures Owned(r, s.(f := Fill(next), staged := staged, pos := q))
  {
  }

  lemma RowFilled(r: Run, n: nat, start: ServingPos, pos: ServingPos, staged: seq<nat>, i: nat, next: nat, row: nat, q: ServingPos)
    requires r.Valid() && |staged| == r.batch && FilledTo(r, n, start, pos, staged, i) && i < next == i + 1 <= r.batch
    requires row == r.feed.IndexAt(pos) && q == r.feed.Next(pos)
    ensures FilledTo(r, n, start, q, staged[i := row], next)
  {
    RowOfBatch(r, n, i, pos, row, q);
    PrefixGrows(staged, r.Serial(n), i, row);
  }

  lemma LastRowKeeps(r: Run, s: State, serial: seq<nat>)
    requires r.Valid() && Owned(r, s) && s.e != Finished && s.f == Fill(r.batch) && serial == r.Serial(|s.served|)
    ensures Owned(r, s.(f := WantSet))
  {
    assert s.staged[..r.batch] == s.staged && serial[..r.batch] == serial;
    AfterNext(r, |s.served|, |s.served| + 1);
  }

  lemma EngineKeeps(r: Run, s: State)
    requires r.Valid() && Inv(r, s) && EngineReady(s)
    ensures Inv(r, EngineStep(r, s))
  {
    if s.e.Copy? {
      CopyKeeps(r, s);
    } else if s.e == Clear {
      ClearKeeps(r, s);
    } else if s.e == WantStop || s.e == Stop || Stopping(s.e) {
      TeardownKeeps(r, s);
    } else {
      LockKeeps(r, s);
    }
  }

  lemma LockKeeps(r: Run, s: State)
    requires r.Valid() && Inv(r, s) && EngineReady(s)
    requires s.e == Idle || s.e == Wanting || s.e == Checking || s.e == WantClear || s.e == Notifying
    ensures Inv(r, EngineStep(r, s))
  {
  }

  lemma TeardownKeeps(r: Run, s: State)
    requires r.Valid() && Inv(r, s) && EngineReady(s) && (s.e == WantStop || s.e == Stop || Stopping(s.e))
    ensures Inv(r, EngineStep(r, s))
  {
  }

  lemma CopyKeeps(r: Run, s: State)
    requires r.Valid() && Inv(r, s) && s.e.Copy?
    ensures Inv(r, EngineStep(r, s))
  {
    if s.e.copied == r.batch {
      assert s.slot[..r.batch] == s.slot && s.staged[..r.batch] == s.staged;
    } else {
      PrefixGrows(s.slot, s.staged, s.e.copied, s.staged[s.e.copied]);
    }
  }

  lemma ClearKeeps(r: Run, s: State)
    requires r.Valid() && Inv(r, s) && s.e == Clear
    ensures Inv(r, EngineStep(r, s))
  {
    ClearOwns(r, s);
    assert s.slot == r.Serial(|s.served|);
    ClearOrders(r, s);
  }

  lemma ClearOwns(r: Run, s: State)
    requires r.Valid() && Inv(r, s) && s.e == Clear
    ensures Owned(r, EngineStep(r, s))
  {
  }

  lemma ClearOrders(r: Run, s: State)
    requires r.Valid() && Ordered(r, s) && s.e == Clear && |s.served| < r.calls && s.slot == r.Serial(|s.served|)
    ensures Ordered(r, EngineStep(r, s))
  {
    OneMoreTaken(r, s.served, s.slot);
  }

  lemma OneMoreTaken(r: Run, served: seq<seq<nat>>, batch: seq<nat>)
    requires r.Valid() && InOrder(r, served) && batch == r.Serial(|served|)
    ensures InOrder(r, served + [batch])
  {
  }

  lemma SpuriousKeeps(r: Run, s: State, t: Thread)
    requires r.Valid() && Inv(r, s)
    ensures Inv(r, Spurious(s, t))
  {
  }

  predicate Ready(s: State, t: Thread) { if t == Feeder then FeederReady(s) else EngineReady(s) }

  predicate Final(s: State) { s.f == Done && s.e == Finished }

  function Step(r: Run, s: State, t: Thread): (s': State)
    requires r.Valid() && Inv(r, s) && Ready(s, t)
    ensures Inv(r, s')
  {
    if t == Feeder then FeederKeeps(r, s); FeederStep(r, s) else EngineKeeps(r, s); EngineStep(r, s)
  }

  /** The staging buffer and the dataset are never used by both threads at once. */
  lemma Exclusive(r: Run, s: State)
    requires r.Valid() && Inv(r, s)
    ensures !(Filling(s.f) && Copying(s.e))
    ensures !(InFeederSection(s.f) && InEngineSection(s.e))
    ensures s.e == Restore ==> s.f == Done
  {
  }

  /** Until the run is over some thread can always move. */
  lemma NotStuck(r: Run, s: State)
    requires r.Valid() && Inv(r, s) && !Final(s)
    ensures Ready(s, Feeder) || Ready(s, Engine)
  {
  }

  // What is left to do: batches to stage and take, then program points within
  // the current batch, then rounds of locking and checking.
  function BatchesLeft(r: Run, s: State): int {
    2 * (r.calls - |s.served|) + 1 - (if s.full then 1 else 0)
  }

  function FeederLeft(r: Run, s: State): int {
    match s.f
    case Notify => r.batch + 6
    case Snapshot => r.batch + 4
    case Fill(i) => r.batch - i + 3
    case WantSet => 2
    case Set => 1
    case Done => 0
    case _ => r.batch + 5
  }

  function EngineLeft(r: Run, s: State): int {
    match s.e
    case Notifying => r.batch + 10
    case Idle => r.batch + 9
    case Copy(i) => r.batch - i + 3
    case WantClear => 2
    case Clear => 1
    case WantStop => 6
    case Stop => 5
    case NotifyStop => 4
    case Join => 3
    case Restore => 2
    case Finished => 0
    case _ => r.batch + 8
  }

  function RoundsLeft(s: State): nat {
    (match s.f case Want => 3 case Check => 2 case _ => 0) + (match s.e case Wanting => 3 case Checking => 2 case _ => 0)
  }

  ghost predicate Closer(r: Run, s: State, s': State) {
    var (a, b, c) := (BatchesLeft(r, s), FeederLeft(r, s) + EngineLeft(r, s), RoundsLeft(s));
    var (a', b', c') := (BatchesLeft(r, s'), FeederLeft(r, s') + EngineLeft(r, s'), RoundsLeft(s'));
    a >= 0 && b >= 0 && (a' < a || (a' == a && (b' < b || (b' == b && c' < c))))
  }

  /** The counts the measure rests on. */
  predicate Counts(r: Run, s: State)
    requires r.Valid()
  {
    && r.feed.Has(s.pos) && |s.staged| == r.batch && |s.slot| == r.batch && |s.served| <= r.calls
    && (s.f.Fill? ==> s.f.row <= r.batch) && (s.e.Copy? ==> s.e.copied <= r.batch)
    && (s.f == Set ==> !s.full) && (s.e == Clear ==> s.full && |s.served| < r.calls)
    && (s.full ==> |s.served| <= r.calls)
  }

  lemma InvCounts(r: Run, s: State)
    requires r.Valid() && Inv(r, s)
    ensures Counts(r, s)
  {
  }

  /** A step that only moves the feeder on. */
  lemma FeederFillDecreases(r: Run, s: State)
    requires r.Valid() && Counts(r, s) && FeederReady(s) && (s.f.Fill? || s.f == Snapshot || s.f == WantSet)
    ensures Closer(r, s, FeederStep(r, s))
  {
  }

  lemma FeederLockDecreases(r: Run, s: State)
    requires r.Valid() && Counts(r, s) && FeederReady(s) && (s.f == Want || s.f == Check)
    ensures Closer(r, s, FeederStep(r, s))
  {
  }

  lemma FeederDecreases(r: Run, s: State)
    requires r.Valid() && Counts(r, s) && FeederReady(s)
    ensures Closer(r, s, FeederStep(r, s))
  {
    match s.f
    case Want => FeederLockDecreases(r, s);
    case Check => FeederLockDecreases(r, s);
    case Set =>
    case Notify =>
    case _ => FeederFillDecreases(r, s);
  }

  lemma EngineCopyDecreases(r: Run, s: State)
    requires r.Valid() && Counts(r, s) && EngineReady(s) && (s.e.Copy? || s.e == WantClear || s.e == Clear || s.e == Notifying)
    ensures Closer(r, s, EngineStep(r, s))
  {
  }

  lemma EngineLockDecreases(r: Run, s: State)
    requires r.Valid() && Counts(r, s) && EngineReady(s) && (s.e == Idle || s.e == Wanting || s.e == Checking)
    ensures Closer(r, s, EngineStep(r, s))
  {
  }

  lemma EngineDecreases(r: Run, s: State)
    requires r.Valid() && Counts(r, s) && EngineReady(s)
    ensures Closer(r, s, EngineStep(r, s))
  {
    if s.e.Copy? || s.e == WantClear || s.e == Clear || s.e == Notifying {
      EngineCopyDecreases(r, s);
    } else if s.e == Idle || s.e == Wanting || s.e == Checking {
      EngineLockDecreases(r, s);
    }
  }

  /** Every step other than a spurious wake-up brings the run closer to its end. */
  lemma StepDecreases(r: Run, s: State, t: Thread)
    requires r.Valid() && Inv(r, s) && Ready(s, t)
    ensures Closer(r, s, Step(r, s, t))
  {
    InvCounts(r, s);
    if t == Feeder {
      FeederDecreases(r, s);
    } else {
      EngineDecreases(r, s);
    }
  }

  // ------------------------------------------------------- a pass that fails

  /** The engine gives up between two batches and puts the position back to `entry`
      while the feeder still runs; the destructor comes after that. */
  function PutBack(s: State, entry: ServingPos): State
    requires s.e == Idle
  {
    s.(e := WantStop, pos := entry)
  }

  /** The feeder has staged a batch nobody took, or is past the note of where it starts. */
  predicate Ahead(s: State) { s.full || s.f.Fill? || s.f == WantSet || s.f == Set }

  /** Where the teardown will leave the dataset. */
  function Destination(s: State): ServingPos {
    if s.e != Finished && Ahead(s) then s.start else s.pos
  }

  /** What the teardown rests on, whatever the position is. */
  ghost predicate Winding(r: Run, s: State)
    requires r.Valid()
  {
    && Mutex(s) && NoLostWakeUp(s) && Counts(r, s) && r.feed.Has(s.start)
    && (Stopping(s.e) || s.e == WantStop || s.e == Stop) && (s.stop <==> Stopping(s.e))
    && (Filling(s.f) ==> !s.full) && (s.f == Done ==> s.stop) && (s.e == Restore || s.e == Finished ==> s.f == Done)
  }

  lemma WindingFeeder(r: Run, s: State)
    requires r.Valid() && Winding(r, s) && FeederReady(s)
    ensures Winding(r, FeederStep(r, s)) && Destination(FeederStep(r, s)) == Destination(s)
  {
  }

  lemma WindingEngine(r: Run, s: State)
    requires r.Valid() && Winding(r, s) && EngineReady(s)
    ensures Winding(r, EngineStep(r, s)) && Destination(EngineStep(r, s)) == Destination(s)
  {
  }

  function Move(r: Run, s: State, t: Thread): State
    requires r.Valid() && Counts(r, s) && Ready(s, t)
  {
    if t == Feeder then FeederStep(r, s) else EngineStep(r, s)
  }

  lemma WindingStep(r: Run, s: State, t: Thread)
    requires r.Valid() && Winding(r, s) && Ready(s, t)
    ensures Winding(r, Move(r, s, t)) && Destination(Move(r, s, t)) == Destination(s) && Closer(r, s, Move(r, s, t))
  {
    if t == Feeder {
      WindingFeeder(r, s);
      FeederDecreases(r, s);
    } else {
      WindingEngine(r, s);
      EngineDecreases(r, s);
    }
  }

  lemma WindingSpurious(r: Run, s: State, t: Thread)
    requires r.Valid() && Winding(r, s)
    ensures Winding(r, Spurious(s, t)) && Destination(Spurious(s, t)) == Destination(s)
  {
  }

  lemma WindingMoves(r: Run, s: State)
    requires r.Valid() && Winding(r, s) && !Final(s)
    ensures Ready(s, Feeder) || Ready(s, Engine)
  {
  }

  /** The position put back is still there after the teardown exactly when no batch was
      staged or being filled when it was put back, or that batch starts there. */
  ghost predicate Survives(r: Run, s: State, entry: ServingPos)
    requires r.Valid()
  {
    !Ahead(s) || r.After(|s.served|) == entry
  }

  lemma PutBackWinds(r: Run, s: State, entry: ServingPos)
    requires r.Valid() && Inv(r, s) && s.e == Idle && r.feed.Has(entry)
    ensures Winding(r, PutBack(s, entry))
    ensures Destination(PutBack(s, entry)) == if Ahead(s) then r.After(|s.served|) else entry
  {
  }

  /** From the put-back on, in any order of the threads and with any spurious wake-ups,
      the pipeline comes down, and the dataset is left at its destination. */
  method TearDown(r: Run, before: State, wakes: nat) returns (s: State)
    requires r.Valid() && Winding(r, before)
    ensures Final(s) && s.pos == Destination(before)
  {
    s := before;
    var budget := wakes;
    while !Final(s)
      invariant Winding(r, s) && Destination(s) == Destination(before)
      decreases budget, BatchesLeft(r, s), FeederLeft(r, s) + EngineLeft(r, s), RoundsLeft(s)
    {
      WindingMoves(r, s);
      var spurious: bool, t: Thread :| (spurious && budget > 0) || (!spurious && Ready(s, t));
      if spurious {
        WindingSpurious(r, s, t);
        s, budget := Spurious(s, t), budget - 1;
      } else {
        WindingStep(r, s, t);
        s := Move(r, s, t);
      }
    }
  }

  /** A pass that fails after `calls` batches, in any order of the threads: the feeder may
      move on between the last NextBatch and the put-back, and `mid` is where it stood. */
  method FailingPass(r: Run, junk: seq<nat>, slot: seq<nat>, entry: ServingPos, wakes: nat) returns (mid: State, s: State)
    requires r.Valid() && |junk| == |slot| == r.batch && r.feed.Has(entry)
    ensures Inv(r, mid) && mid.e == Idle && |mid.served| == r.calls
    ensures Final(s) && s.pos == if Ahead(mid) then r.After(r.calls) else entry
    ensures s.pos == entry <==> Survives(r, mid, entry)
  {
    mid := Init(r, junk, slot);
    InitInv(r, junk, slot);
    var more: nat :| true;
    while !(mid.e == Idle && |mid.served| == r.calls && (more == 0 || !FeederReady(mid)))
      invariant Inv(r, mid)
      invariant !Stopping(mid.e) && mid.e != WantStop && mid.e != Stop
      decreases BatchesLeft(r, mid), FeederLeft(r, mid) + EngineLeft(r, mid), RoundsLeft(mid)
    {
      NotStuck(r, mid);
      var t: Thread :| Ready(mid, t) && (t == Engine ==> !(mid.e == Idle && |mid.served| == r.calls));
      StepDecreases(r, mid, t);
      mid := Step(r, mid, t);
      more := if more > 0 then more - 1 else 0;
    }
    PutBackWinds(r, mid, entry);
    s := TearDown(r, PutBack(mid, entry), wakes);
  }

  /** The threads of a schedule moved in turn, those that cannot move skipped. */
  function Play(r: Run, s: State, schedule: seq<Thread>): State
    requires r.Valid()
    decreases |schedule|
  {
    if schedule == [] then s
    else
      var m := Play(r, s, schedule[..|schedule| - 1]);
      var t := schedule[|schedule| - 1];
      if Counts(r, m) && Ready(m, t) then Move(r, m, t) else m
  }

  lemma {:induction false} PlayKeeps(r: Run, s: State, schedule: seq<Thread>)
    requires r.Valid() && Inv(r, s)
    ensures Inv(r, Play(r, s, schedule))
    decreases |schedule|
  {
    if schedule != [] {
      var m, t := Play(r, s, schedule[..|schedule| - 1]), schedule[|schedule| - 1];
      PlayKeeps(r, s, schedule[..|schedule| - 1]);
      if Counts(r, m) && Ready(m, t) {
        var next := Step(r, m, t);
      }
    }
  }

  lemma PlayOne(r: Run, s: State, schedule: seq<Thread>, m: State, t: Thread) returns (longer: seq<Thread>, m': State)
    requires r.Valid() && m == Play(r, s, schedule) && Counts(r, m) && Ready(m, t)
    ensures m' == Play(r, s, longer) && m' == Move(r, m, t)
  {
    longer := schedule + [t];
    m' := Move(r, m, t);
    assert longer[..|schedule|] == schedule;
  }

  /** The feeder begins to stage a batch. */
  lemma PlayBegin(r: Run, s: State, schedule: seq<Thread>, m: State) returns (longer: seq<Thread>, m': State)
    requires r.Valid() && m == Play(r, s, schedule) && Counts(r, m)
    requires m.f == Want && m.holder == Nobody && !m.full && !m.stop
    ensures m' == Play(r, s, longer) && m' == m.(f := Fill(0), start := m.pos) && Counts(r, m')
  {
    longer, m' := PlayOne(r, s, schedule, m, Feeder);
    longer, m' := PlayOne(r, s, longer, m', Feeder);
    longer, m' := PlayOne(r, s, longer, m', Feeder);
  }

  /** A batch of one record staged, the feeder at rest. */
  lemma PlayStage(r: Run, s: State, schedule: seq<Thread>, m: State) returns (longer: seq<Thread>, m': State)
    requires r.Valid() && m == Play(r, s, schedule) && Counts(r, m) && r.batch == 1
    requires m.f == Want && m.e == Idle && m.holder == Nobody && !m.full && !m.stop
    ensures m' == Play(r, s, longer) && Counts(r, m')
    ensures m'.f == Want && m'.e == Idle && m'.holder == Nobody && m'.full && !m'.stop && m'.served == m.served
  {
    longer, m' := PlayBegin(r, s, schedule, m);
    longer, m' := PlayOne(r, s, longer, m', Feeder);
    longer, m' := PlayOne(r, s, longer, m', Feeder);
    longer, m' := PlayOne(r, s, longer, m', Feeder);
    longer, m' := PlayOne(r, s, longer, m', Feeder);
    longer, m' := PlayOne(r, s, longer, m', Feeder);
  }

  /** That batch taken. */
  lemma PlayTake(r: Run, s: State, schedule: seq<Thread>, m: State) returns (longer: seq<Thread>, m': State)
    requires r.Valid() && m == Play(r, s, schedule) && Counts(r, m) && r.batch == 1 && |m.served| < r.calls
    requires m.f == Want && m.e == Idle && m.holder == Nobody && m.full && !m.stop
    ensures m' == Play(r, s, longer) && Counts(r, m')
    ensures m'.f == Want && m'.e == Idle && m'.holder == Nobody && !m'.full && !m'.stop && |m'.served| == |m.served| + 1
  {
    longer, m' := PlayOne(r, s, schedule, m, Engine);
    longer, m' := PlayOne(r, s, longer, m', Engine);
    longer, m' := PlayOne(r, s, longer, m', Engine);
    longer, m' := PlayOne(r, s, longer, m', Engine);
    longer, m' := PlayOne(r, s, longer, m', Engine);
    longer, m' := PlayOne(r, s, longer, m', Engine);
    longer, m' := PlayOne(r, s, longer, m', Engine);
    longer, m' := PlayOne(r, s, longer, m', Engine);
  }

  /** A run that loses the position put back: one batch of one record taken, the next one
      begun, and then the put-back of the position the pass started from. */
  lemma PutBackLost(r: Run, junk: seq<nat>, slot: seq<nat>) returns (schedule: seq<Thread>, mid: State)
    requires r.Valid() && |junk| == |slot| == r.batch == r.calls == 1 && r.feed.corpus.n > 1
    ensures Inv(r, mid) && mid == Play(r, Init(r, junk, slot), schedule)
    ensures mid.e == Idle && |mid.served| == 1 && mid.f == Fill(0) && !Survives(r, mid, r.first)
  {
    var s := Init(r, junk, slot);
    schedule, mid := PlayStage(r, s, [], s);
    schedule, mid := PlayTake(r, s, schedule, mid);
    schedule, mid := PlayBegin(r, s, schedule, mid);
    AfterOne(r);
    InitInv(r, junk, slot);
    PlayKeeps(r, s, schedule);
  }

  lemma AfterOne(r: Run)
    requires r.Valid() && r.batch == 1 && r.feed.corpus.n > 1
    ensures r.After(1) != r.first
  {
    AfterNext(r, 0, 1);
    assert r.feed.Advance(r.first, 1) == r.feed.Next(r.feed.Advance(r.first, 0));
  }

  /** Every run, whatever order the threads move in and however often a sleeper wakes
      for no reason (up to any number of times), ends; the k-th NextBatch returned the
      k-th serial batch and the dataset stands after exactly the batches taken. */
  method RunThreads(r: Run, junk: seq<nat>, slot: seq<nat>, wakes: nat) returns (s: State)
    requires r.Valid() && |junk| == |slot| == r.batch
    ensures Final(s) && |s.served| == r.calls && s.pos == r.After(r.calls)
    ensures forall k :: 0 <= k < r.calls ==> s.served[k] == r.Serial(k)
  {
    s := Init(r, junk, slot);
    InitInv(r, junk, slot);
    var budget := wakes;
    while !Final(s)
      invariant Inv(r, s)
      decreases budget, BatchesLeft(r, s), FeederLeft(r, s) + EngineLeft(r, s), RoundsLeft(s)
    {
      NotStuck(r, s);
      var spurious: bool, t: Thread :| (spurious && budget > 0) || (!spurious && Ready(s, t));
      if spurious {
        SpuriousKeeps(r, s, t);
        s, budget := Spurious(s, t), budget - 1;
      } else {
        StepDecreases(r, s, t);
        s := Step(r, s, t);
      }
    }
  }

  /** The data a slot shows is serial batch k. */
  ghost predicate Shows(r: Run, k: nat, inputSlot: array<Word>, labelSlot: array?<Word>)
    requires r.Valid()
    reads inputSlot, labelSlot
  {
    && Holds(inputSlot, r.feed.Inputs(r.After(k), r.batch))
    && (labelSlot != null ==> Holds(labelSlot, r.feed.Labels(r.After(k), r.batch)))
  }

  /** NextBatch with one thread: the engine fills its own slots. */
  method NextBatch(data: Dataset, rows: nat, inputSlot: array<Word>, labelSlot: array?<Word>, ghost r: Run, ghost k: nat, ghost next: nat)
    requires data.Valid() && inputSlot != labelSlot
    requires Area(Records(data.corpus, rows), data.corpus.inputDim) <= inputSlot.Length
    requires labelSlot != null ==> Area(Records(data.corpus, rows), data.corpus.LabelWords()) <= labelSlot.Length
    requires r.Valid() && data.TheFeed() == r.feed && data.Pos() == r.After(k) && r.batch == Records(data.corpus, rows) && next == k + 1
    modifies data`cursor, data`epoch, data`order, data`shuffleState, inputSlot, labelSlot
    ensures data.Valid() && data.TheFeed() == r.feed && data.Pos() == r.After(next) && Shows(r, k, inputSlot, labelSlot)
  {
    ghost var inputs, labels := r.feed.Inputs(r.After(k), r.batch), r.feed.Labels(r.After(k), r.batch);
    ghost var before, labelBefore := inputSlot[..], if labelSlot == null then [] else labelSlot[..];
    data.FillBatch(rows, inputSlot, labelSlot);
    SplicedFront(before, inputs);
    if labelSlot != null {
      SplicedFront(labelBefore, labels);
    }
    AfterNext(r, k, next);
  }

  lemma AfterNext(r: Run, k: nat, next: nat)
    requires r.Valid() && next == k + 1
    ensures r.After(next) == r.feed.Advance(r.After(k), r.batch)
  {
  }

  /** A single-threaded run of `calls` batches: the same batches and the same final
      position as every threaded run. */
  method ServeSerially(data: Dataset, rows: nat, calls: nat, inputSlot: array<Word>, labelSlot: array?<Word>, ghost r: Run)
    requires data.Valid() && inputSlot != labelSlot
    requires Area(Records(data.corpus, rows), data.corpus.inputDim) <= inputSlot.Length
    requires labelSlot != null ==> Area(Records(data.corpus, rows), data.corpus.LabelWords()) <= labelSlot.Length
    requires r == Run(data.TheFeed(), data.Pos(), Records(data.corpus, rows), calls)
    modifies data`cursor, data`epoch, data`order, data`shuffleState, inputSlot, labelSlot
    ensures r.Valid() && data.Valid() && data.TheFeed() == r.feed && data.Pos() == r.After(calls)
    ensures calls > 0 ==> Shows(r, calls - 1, inputSlot, labelSlot)
  {
    for k := 0 to calls
      invariant data.Valid() && r.Valid() && data.TheFeed() == r.feed && data.Pos() == r.After(k)
      invariant k > 0 ==> Shows(r, k - 1, inputSlot, labelSlot)
    {
      NextBatch(data, rows, inputSlot, labelSlot, r, k, k + 1);
    }
  }

  /** The slot starts with these words. */
  ghost predicate Holds(slot: array<Word>, words: seq<Word>)
    reads slot
  {
    words <= slot[..]
  }
}
