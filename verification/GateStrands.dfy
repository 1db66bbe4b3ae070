/**
  Two runs that end in a shutdown with ops left behind: an op published before the stop
  request whose worker leaves without having seen it, and a second op of the same stream
  that keeps its own worker, and with it the shutdown, waiting forever.
 */
module GateStrands {
  import opened Words
  import opened GateModel
  import opened GateInvariant
  import opened GateQueue
  import opened GateRuns
  import opened GateShutdown
  import opened GateRank
  import opened GateDrain
  import opened GateLimits

  // A run without failed enqueues keeps every invariant.
  lemma {:induction false} CleanRun(s0: State, steps: seq<Step>, s: State)
    requires Init(s0) && Run(s0, steps, s) && Failures(steps) == 0
    ensures Inv(s) && QueueInv(s) && Reachable(s)
  {
    InitInv(s0);
    forall st | 0 <= st < |s0.streams| ensures |Ahead(s0.streams[st])| <= 0 {
      assert InitStream(s0.streams[st]);
      assert Ahead(s0.streams[st]) == {};
    }
    FewFailuresKeepBudget(s0, steps, s, 0);
    ReachableInv(s);
  }

  // ---------- one worker, one future ----------

  function FutureSlot(phase: Phase): Slot {
    EMPTY_SLOT.(state := if phase == Waiting then Pending else Free, phase := phase)
  }

  // The only worker at a moment of the run; it has loaded the head of an empty ring.
  function Alone(sl: Slot, head: nat, stage: Stage, lock: Lock, stop: bool): State {
    State([Worker(EmptySlots()[0 := sl], head, 0, stage, 0, 0, false, 2, 2)], BusyStart().streams,
          lock, 1, stop, false, 1, if sl.phase == Waiting then map[0 := Place(0, 0)] else map[], [])
  }

  function FutureLock(at: LockStage): Lock {
    Locked(0, AsyncOp(0, false), at)
  }

  lemma {:induction false} ThreeSteps(s0: State, t0: Step, s1: State, t1: Step, s2: State, t2: Step, s3: State)
    requires StepTo(s0, t0, s1) && StepTo(s1, t1, s2) && StepTo(s2, t2, s3)
    ensures Run(s0, [t0, t1, t2], s3) && Failures([t0, t1, t2]) == 0
  {
    RunOne(s0, t0);
    RunSnoc(s0, [t0], s1, t1);
    RunSnoc(s0, [t0] + [t1], s2, t2);
    assert [t0] + [t1] + [t2] == [t0, t1, t2];
  }

  ghost function InStage(s: State, stage: Stage): State
    requires |s.workers| > 0
  {
    SetWorker(s, 0, s.workers[0].(stage := stage, pos := 0, seen := 0, busy := false))
  }

  lemma IdleSteps(s: State)
    requires WellFormed(s) && HasWorker(s, 0, Load) && s.workers[0].head == 0 && s.workers[0].tail == 0
    ensures StepTo(s, LoadHead(0), InStage(s, Sweep)) && StepTo(InStage(s, Sweep), SweepEnd(0), InStage(s, Retire))
    ensures StepTo(InStage(s, Retire), RetireEnd(0), InStage(s, Decide))
  {
    assert Word(0) == 0;
  }

  // A worker has found nothing to do and is about to look at the stop flag.
  lemma IdlePass(s: State) returns (steps: seq<Step>, s': State)
    requires WellFormed(s) && HasWorker(s, 0, Load) && s.workers[0].head == 0 && s.workers[0].tail == 0
    ensures Run(s, steps, s') && Failures(steps) == 0 && s' == InStage(s, Decide)
  {
    IdleSteps(s);
    ThreeSteps(s, LoadHead(0), InStage(s, Sweep), SweepEnd(0), InStage(s, Retire), RetireEnd(0), InStage(s, Decide));
    steps, s' := [LoadHead(0), SweepEnd(0), RetireEnd(0)], InStage(s, Decide);
  }

  lemma FutureSteps()
    ensures StepTo(InStage(BusyStart(), Decide), ClaimAsync(false),
                   Alone(FutureSlot(Idle), 0, Decide, FutureLock(Queued), false))
    ensures StepTo(Alone(FutureSlot(Idle), 0, Decide, FutureLock(Queued), false), MarkPending,
                   Alone(FutureSlot(Waiting), 0, Decide, FutureLock(Marked), false))
    ensures StepTo(Alone(FutureSlot(Waiting), 0, Decide, FutureLock(Marked), false), PublishHead,
                   Alone(FutureSlot(Waiting), 1, Decide, Unlocked, false))
  {
    assert EmptySlots()[0 := FutureSlot(Idle)] == EmptySlots();
    assert EmptySlots()[0 := FutureSlot(Idle)][0 := FutureSlot(Waiting)] == EmptySlots()[0 := FutureSlot(Waiting)];
  }

  lemma StopSteps(sl: Slot)
    ensures StepTo(Alone(sl, 1, Decide, Unlocked, false), StopDriver, Alone(sl, 1, Decide, Unlocked, true))
    ensures StepTo(Alone(sl, 1, Decide, Unlocked, true), DecideStep(0), Alone(sl, 1, Exited, Unlocked, true))
  {
  }

  lemma FutureMarked() returns (steps: seq<Step>)
    ensures Run(BusyStart(), steps, Alone(FutureSlot(Waiting), 0, Decide, FutureLock(Marked), false))
            && Failures(steps) == 0
  {
    var s0 := BusyStart();
    var idle;
    steps, idle := IdlePass(s0);
    FutureSteps();
    var m0 := Alone(FutureSlot(Idle), 0, Decide, FutureLock(Queued), false);
    steps := Extend(s0, steps, idle, ClaimAsync(false), m0);
    steps := Extend(s0, steps, m0, MarkPending, Alone(FutureSlot(Waiting), 0, Decide, FutureLock(Marked), false));
  }

  const LAST_STEPS: seq<Step> := [PublishHead, StopDriver, DecideStep(0)]

  // The op is published, then the driver is stopped, then the worker leaves.
  lemma LateOpRuns() returns (steps: seq<Step>)
    ensures Run(BusyStart(), steps + LAST_STEPS, Alone(FutureSlot(Waiting), 1, Exited, Unlocked, true))
    ensures Failures(steps + LAST_STEPS) == 0
  {
    steps := FutureMarked();
    FutureSteps();
    StopSteps(FutureSlot(Waiting));
    var m1 := Alone(FutureSlot(Waiting), 0, Decide, FutureLock(Marked), false);
    var m4 := Alone(FutureSlot(Waiting), 1, Exited, Unlocked, true);
    ThreeSteps(m1, PublishHead, Alone(FutureSlot(Waiting), 1, Decide, Unlocked, false),
               StopDriver, Alone(FutureSlot(Waiting), 1, Decide, Unlocked, true), DecideStep(0), m4);
    RunAppend(BusyStart(), steps, m1, LAST_STEPS, m4);
  }

  lemma NobodyLeft(s: State)
    requires WellFormed(s) && s.lock.Unlocked? && forall w :: 0 <= w < |s.workers| ==> s.workers[w].stage == Exited
    ensures !Movable(s)
  {
  }

  // A future handed in before the driver is stopped may never be completed: its worker had
  // loaded the head before, and looks at the stop flag after.
  lemma StrandedByShutdown() returns (steps: seq<Step>, s: State)
    ensures Init(BusyStart()) && Run(BusyStart(), steps + LAST_STEPS, s) && Failures(steps + LAST_STEPS) == 0
    ensures 0 < s.nextFuture
    ensures forall more, s' :: BudgetRun(s, more, s') ==> 0 !in s'.doneFutures
  {
    steps := LateOpRuns();
    s := Alone(FutureSlot(Waiting), 1, Exited, Unlocked, true);
    CleanRun(BusyStart(), steps + LAST_STEPS, s);
    NobodyLeft(s);
    forall more, s' | BudgetRun(s, more, s') ensures 0 !in s'.doneFutures {
      NeverFinished(s, more, s', AsyncOp(0, false), Place(0, 0));
    }
  }

  // ---------- two workers, one stream ----------

  function TwoStart(): State {
    State([BusyStart().workers[0], BusyStart().workers[0]],
          [Stream(0, 0, [], 0, 0, [], {}, map[], {}, 0, [], map[], map[], {}, Ledger(map[], {}, {}))],
          Unlocked, 0, false, false, 0, map[], [])
  }

  // The write numbered q waits in the first slot of a ring.
  ghost predicate FirstSlotHolds(wk: Worker, q: nat) {
    && |wk.slots| == RING && wk.tail == 0 && wk.head == 1
    && wk.slots[0].state == Pending && wk.slots[0].op == StreamOp(0, q, true)
  }

  ghost predicate TwoWorkers(s: State) {
    WellFormed(s) && |s.workers| == 2 && |s.streams| == 1 && s.lock.Unlocked? && !s.alignedOnly
  }

  // Write 1 is published; its worker has loaded the head before that.
  ghost predicate OnePublished(s: State) {
    && TwoWorkers(s) && s.rr == 1
    && FirstSlotHolds(s.workers[0], 1) && s.workers[0].stage == Decide && !s.workers[0].busy
    && s.workers[1] == BusyStart().workers[0]
    && s.streams[0].gate == 0 && s.streams[0].nextSeq == 1 && s.streams[0].queue == [WriteGate(1), WaitGate(1)]
    && s.streams[0].home == map[1 := Place(0, 0)]
  }

  ghost predicate BothPublished(s: State) {
    && TwoWorkers(s)
    && FirstSlotHolds(s.workers[0], 1) && s.workers[0].stage == Decide && !s.workers[0].busy
    && FirstSlotHolds(s.workers[1], 2) && s.workers[1].stage == Load
    && s.streams[0].gate == 0 && s.streams[0].queue == [WriteGate(1), WaitGate(1)] + [WriteGate(2)] + [WaitGate(2)]
    && s.streams[0].home == map[1 := Place(0, 0)][2 := Place(1, 0)]
  }

  // The first worker is gone; the second has seen a write behind the one left there.
  ghost predicate Hung(s: State) {
    && TwoWorkers(s) && s.stop
    && FirstSlotHolds(s.workers[0], 1) && s.workers[0].stage == Exited
    && FirstSlotHolds(s.workers[1], 2) && s.workers[1].stage == Sweep && s.workers[1].seen == 1
    && s.streams[0].gate == 2 && s.streams[0].queue != [] && s.streams[0].queue[0] == WaitGate(1)
    && s.streams[0].home == map[1 := Place(0, 0)][2 := Place(1, 0)]
  }

  ghost function Idled(): State {
    InStage(TwoStart(), Decide)
  }

  lemma FirstWrite()
    ensures Ready(Idled()) && OnePublished(AfterSubmit(Idled(), true))
  {
    assert Routed(Idled()) == 0;
  }

  lemma SecondWrite(s: State)
    requires OnePublished(s)
    ensures Ready(s) && BothPublished(AfterSubmit(s, true))
  {
    assert Routed(s) == 1;
  }

  // The first worker leaves.
  lemma LeaverGoes(s: State) returns (s': State)
    requires BothPublished(s)
    ensures s' == s.(stop := true, workers := s.workers[0 := s.workers[0].(stage := Exited)])
    ensures Run(s, [StopDriver] + [DecideStep(0)], s') && Failures([StopDriver] + [DecideStep(0)]) == 0
  {
    var s1 := Apply(s, StopDriver);
    RunOne(s, StopDriver);
    RunSnoc(s, [StopDriver], s1, DecideStep(0));
    s' := Apply(s1, DecideStep(0));
  }

  // The stream arrives at write 1, and the second worker loads its head.
  lemma StreamParks(s: State) returns (s': State)
    requires TwoWorkers(s) && s.streams[0].queue != [] && s.streams[0].queue[0] == WriteGate(1)
             && s.workers[1].stage == Load
    ensures s'.stop == s.stop && s'.lock == s.lock && s'.alignedOnly == s.alignedOnly
    ensures s'.streams == [s.streams[0].(queue := s.streams[0].queue[1..], gate := 2)]
    ensures s'.workers == s.workers[1 := s.workers[1].(stage := Sweep, pos := s.workers[1].tail,
            seen := s.workers[1].head, busy := false)]
    ensures Run(s, [GpuStep(0)] + [LoadHead(1)], s') && Failures([GpuStep(0)] + [LoadHead(1)]) == 0
  {
    var s1 := Apply(s, GpuStep(0));
    RunOne(s, GpuStep(0));
    RunSnoc(s, [GpuStep(0)], s1, LoadHead(1));
    s' := Apply(s1, LoadHead(1));
  }

  lemma Join(s0: State, a: seq<Step>, s1: State, b: seq<Step>, s2: State) returns (steps: seq<Step>)
    requires Run(s0, a, s1) && Run(s1, b, s2) && Failures(a) == Failures(b) == 0
    ensures Run(s0, steps, s2) && Failures(steps) == 0
  {
    RunAppend(s0, a, s1, b, s2);
    steps := a + b;
  }

  lemma ReachesOne() returns (steps: seq<Step>, s: State)
    ensures Run(TwoStart(), steps, s) && Failures(steps) == 0 && OnePublished(s)
  {
    var idle;
    steps, idle := IdlePass(TwoStart());
    FirstWrite();
    var one := SubmitRuns(idle, true);
    s := AfterSubmit(idle, true);
    steps := Join(TwoStart(), steps, idle, one, s);
  }

  lemma ReachesBoth() returns (steps: seq<Step>, s: State)
    ensures Run(TwoStart(), steps, s) && Failures(steps) == 0 && BothPublished(s)
  {
    var s1;
    steps, s1 := ReachesOne();
    SecondWrite(s1);
    var two := SubmitRuns(s1, true);
    s := AfterSubmit(s1, true);
    steps := Join(TwoStart(), steps, s1, two, s);
  }

  lemma HungIs(s2: State, s3: State, s: State)
    requires BothPublished(s2) && s3 == s2.(stop := true, workers := s2.workers[0 := s2.workers[0].(stage := Exited)])
    requires s.stop == s3.stop && s.lock == s3.lock && s.alignedOnly == s3.alignedOnly
    requires s.streams == [s3.streams[0].(queue := s3.streams[0].queue[1..], gate := 2)]
    requires s.workers == s3.workers[1 := s3.workers[1].(stage := Sweep, pos := s3.workers[1].tail,
                                                         seen := s3.workers[1].head, busy := false)]
    ensures Hung(s)
  {
  }

  lemma ReachesHung() returns (steps: seq<Step>, s: State)
    ensures Run(TwoStart(), steps, s) && Failures(steps) == 0 && Hung(s)
  {
    var s2;
    steps, s2 := ReachesBoth();
    var s3 := LeaverGoes(s2);
    steps := Join(TwoStart(), steps, s2, [StopDriver] + [DecideStep(0)], s3);
    s := StreamParks(s3);
    HungIs(s2, s3, s);
    steps := Join(TwoStart(), steps, s3, [GpuStep(0)] + [LoadHead(1)], s);
  }

  lemma HungFacts(s: State)
    requires Hung(s)
    ensures !Movable(s) && Seen(s, StreamOp(0, 2, true), Place(1, 0)) && !Finished(s, StreamOp(0, 2, true))
  {
    assert Stranded(s, 0);
    CyclicTestExact(2, 4);
    assert Hopeless(s, s.workers[1].slots[Ix(0)]);
  }

  // The second write's worker waits for the first write, which no worker will look at again:
  // it never leaves, and the shutdown never ends.
  lemma ShutdownHangs() returns (steps: seq<Step>, s: State)
    ensures Init(TwoStart()) && Run(TwoStart(), steps, s) && Failures(steps) == 0
    ensures forall more, s' :: BudgetRun(s, more, s') ==> |s'.workers| > 1 && s'.workers[1].stage != Exited
  {
    steps, s := ReachesHung();
    CleanRun(TwoStart(), steps, s);
    HungFacts(s);
    forall more, s' | BudgetRun(s, more, s') ensures |s'.workers| > 1 && s'.workers[1].stage != Exited {
      NeverLeaves(s, more, s', StreamOp(0, 2, true), Place(1, 0));
    }
  }
}
