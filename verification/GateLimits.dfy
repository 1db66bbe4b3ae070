/**
  Where the protocol's promises end: a run whose failed enqueues burn 2^30 sequence numbers
  opens a gate early, and two threads submitting on one stream make one read's kernel copy
  the other read's tail. Both are shown by whole runs.
 */
module GateLimits {
  import opened Common
  import opened Words
  import opened GateModel
  import opened GateRuns

  // ---------- building runs ----------

  lemma {:induction false} ConsRun(s: State, steps: seq<Step>, rest: seq<Step>, s': State)
    requires steps != [] && steps[1..] == rest && WellFormed(s) && Enabled(s, steps[0])
    requires Run(Apply(s, steps[0]), rest, s')
    ensures Run(s, steps, s')
  {
  }

  lemma {:induction false} RunAppendOnly(s0: State, a: seq<Step>, s1: State, b: seq<Step>, s2: State)
    requires Run(s0, a, s1) && Run(s1, b, s2)
    ensures Run(s0, a + b, s2)
    decreases |a|
  {
    if a == [] {
      assert a + b == b;
    } else {
      RunAppendOnly(Apply(s0, a[0]), a[1..], s1, b, s2);
      TailOfSum(a, b);
      ConsRun(s0, a + b, a[1..] + b, s2);
    }
  }

  lemma {:induction false} FailuresAppend(a: seq<Step>, b: seq<Step>)
    ensures Failures(a + b) == Failures(a) + Failures(b)
    decreases |a|
  {
    if a == [] {
      assert a + b == b;
    } else {
      assert (a + b)[0] == a[0] && (a + b)[1..] == a[1..] + b;
      FailuresAppend(a[1..], b);
    }
  }

  lemma {:induction false} RunAppend(s0: State, a: seq<Step>, s1: State, b: seq<Step>, s2: State)
    requires Run(s0, a, s1) && Run(s1, b, s2)
    ensures Run(s0, a + b, s2)
    ensures Failures(a + b) == Failures(a) + Failures(b)
  {
    RunAppendOnly(s0, a, s1, b, s2);
    FailuresAppend(a, b);
  }

  lemma {:induction false} RunOne(s: State, step: Step)
    requires WellFormed(s) && Enabled(s, step)
    ensures Run(s, [step], Apply(s, step)) && Failures([step]) == if FailedEnqueue(step) then 1 else 0
  {
    assert [step][1..] == [];
    assert Run(Apply(s, step), [], Apply(s, step));
    assert Failures([step][1..]) == 0;
  }

  // One more step at the end of a run.
  lemma {:induction false} RunSnoc(s0: State, steps: seq<Step>, s: State, step: Step)
    requires Run(s0, steps, s) && WellFormed(s) && Enabled(s, step)
    ensures Run(s0, steps + [step], Apply(s, step))
    ensures Failures(steps + [step]) == Failures(steps) + (if FailedEnqueue(step) then 1 else 0)
  {
    RunOne(s, step);
    RunAppend(s0, steps, s, [step], Apply(s, step));
  }

  // ---------- burned sequence numbers ----------

  const EMPTY_SLOT := Slot(Free, AsyncOp(0, false), 0, 0, NoBounce, None, false, Idle, Effort(false, 0, 0))

  function EmptySlots(): (slots: seq<Slot>)
    ensures |slots| == RING && forall i :: 0 <= i < RING ==> slots[i] == EMPTY_SLOT
  {
    seq(RING, _ => EMPTY_SLOT)
  }

  // One worker, one registered stream that is busy with user work, nothing submitted yet.
  function BusyStart(): State {
    State([Worker(EmptySlots(), 0, 0, Load, 0, 0, false, 2, 2)],
          [Stream(0, 0, [User], 0, 0, [], {}, map[], {}, 0, [], map[], map[], {}, Ledger(map[], {}, {}))],
          Unlocked, 0, false, false, 0, map[], [])
  }

  // k numbers have been lost; the stream has not moved.
  ghost predicate Lost(s: State, k: nat) {
    && |s.workers| == 1 && |s.streams| == 1 && WellFormed(s)
    && s.lock.Unlocked? && !s.alignedOnly
    && s.workers[0].head == 0 && s.workers[0].tail == 0 && s.workers[0].stage == Load
    && s.streams[0].gate == 0 && s.streams[0].nextSeq == k && s.streams[0].queue == [User]
  }

  // A submission whose first enqueue fails.
  lemma LoseOne(s: State, k: nat)
    requires Lost(s, k)
    ensures Enabled(s, ClaimStream(0, false))
    ensures var s1 := Apply(s, ClaimStream(0, false));
            WellFormed(s1) && Enabled(s1, EnqWrite(false)) && Lost(Apply(s1, EnqWrite(false)), k + 1)
  {
  }

  lemma {:induction false} LoseMany(k: nat) returns (steps: seq<Step>, s: State)
    ensures Run(BusyStart(), steps, s) && Lost(s, k) && Failures(steps) == k
    decreases k
  {
    if k == 0 {
      steps, s := [], BusyStart();
    } else {
      steps, s := LoseMany(k - 1);
      LoseOne(s, k - 1);
      RunSnoc(BusyStart(), steps, s, ClaimStream(0, false));
      steps, s := steps + [ClaimStream(0, false)], Apply(s, ClaimStream(0, false));
      RunSnoc(BusyStart(), steps, s, EnqWrite(false));
      steps, s := steps + [EnqWrite(false)], Apply(s, EnqWrite(false));
    }
  }

  // An op can be submitted on the only stream, all enqueues succeeding.
  ghost predicate Ready(s: State) {
    && |s.streams| == 1 && WellFormed(s) && s.lock.Unlocked? && !s.alignedOnly
    && RingHasRoom(s.workers[Routed(s)])
  }

  function AfterClaim(s: State, write: bool): State
    requires Ready(s)
  {
    var w, gs := Routed(s), s.streams[0];
    var wk := s.workers[w];
    var op := StreamOp(0, gs.nextSeq + 1, write);
    s.(workers := s.workers[w := SetSlot(wk, Ix(wk.head), wk.slots[Ix(wk.head)].(op := op))],
       streams := [TakeNumber(gs, write)], rr := s.rr + 1, lock := Locked(w, op, Claimed))
  }

  function AfterGate(s: State, write: bool): State
    requires Ready(s)
  {
    var gs := AfterClaim(s, write).streams[0];
    AfterClaim(s, write).(streams := [gs.(queue := gs.queue + [WriteGate(gs.nextSeq)] + [WaitGate(gs.nextSeq)])],
                          lock := AfterClaim(s, write).lock.(at := Queued))
  }

  function AfterSubmit(s: State, write: bool): State
    requires Ready(s)
  {
    var w := Routed(s);
    var wk, gs := AfterGate(s, write).workers[w], AfterGate(s, write).streams[0];
    var i := Ix(wk.head);
    var wk' := SetSlot(wk, i, wk.slots[i].(state := Pending, phase := Waiting)).(head := wk.head + 1);
    AfterGate(s, write).(workers := AfterGate(s, write).workers[w := wk'],
                         streams := [gs.(home := gs.home[gs.nextSeq := Place(w, i)],
                                         owed := if write then gs.owed else gs.owed + {gs.nextSeq})],
                         lock := Unlocked)
  }

  lemma {:induction false} ClaimRuns(s: State, write: bool)
    requires Ready(s)
    ensures Run(s, [ClaimStream(0, write)], AfterClaim(s, write)) && Failures([ClaimStream(0, write)]) == 0
  {
    RunOne(s, ClaimStream(0, write));
    assert Apply(s, ClaimStream(0, write)) == AfterClaim(s, write);
  }

  lemma GateCmdsRun(s: State, write: bool)
    requires Ready(s)
    ensures Run(AfterClaim(s, write), [EnqWrite(true)] + [EnqWait(true)], AfterGate(s, write))
    ensures Failures([EnqWrite(true)] + [EnqWait(true)]) == 0
  {
    var s1 := AfterClaim(s, write);
    RunOne(s1, EnqWrite(true));
    var s2 := Apply(s1, EnqWrite(true));
    RunOne(s2, EnqWait(true));
    assert Apply(s2, EnqWait(true)) == AfterGate(s, write);
    RunAppend(s1, [EnqWrite(true)], s2, [EnqWait(true)], AfterGate(s, write));
  }

  lemma PublishRuns(s: State, write: bool)
    requires Ready(s)
    ensures Run(AfterGate(s, write), [MarkPending] + [PublishHead], AfterSubmit(s, write))
    ensures Failures([MarkPending] + [PublishHead]) == 0
  {
    var s3 := AfterGate(s, write);
    RunOne(s3, MarkPending);
    var s4 := Apply(s3, MarkPending);
    RunOne(s4, PublishHead);
    assert Apply(s4, PublishHead) == AfterSubmit(s, write);
    RunAppend(s3, [MarkPending], s4, [PublishHead], AfterSubmit(s, write));
  }

  lemma SubmitRuns(s: State, write: bool) returns (steps: seq<Step>)
    requires Ready(s)
    ensures Run(s, steps, AfterSubmit(s, write)) && Failures(steps) == 0
  {
    ClaimRuns(s, write);
    GateCmdsRun(s, write);
    PublishRuns(s, write);
    RunAppend(AfterClaim(s, write), [EnqWrite(true)] + [EnqWait(true)], AfterGate(s, write),
              [MarkPending] + [PublishHead], AfterSubmit(s, write));
    steps := [EnqWrite(true)] + [EnqWait(true)] + ([MarkPending] + [PublishHead]);
    RunAppend(s, [ClaimStream(0, write)], AfterClaim(s, write), steps, AfterSubmit(s, write));
    steps := [ClaimStream(0, write)] + steps;
  }

  // The worker looks at the op published last: the 32-bit test lets it through.
  lemma EarlyDispatch(s: State, k: nat)
    requires Lost(s, k) && Ready(s) && k == 0x4000_0000
    ensures var s1 := AfterSubmit(s, false);
            && Enabled(s1, LoadHead(0))
            && var s2 := Apply(s1, LoadHead(0));
            && WellFormed(s2) && Enabled(s2, Visit(0, 0))
            && OpenedEarly(Apply(s2, Visit(0, 0)), k + 1)
  {
    CyclicTestExact(0, 2 * (k + 1));
  }

  // Op q is in flight although its stream is still held up by earlier user work.
  ghost predicate OpenedEarly(s: State, q: nat) {
    && WellFormed(s) && |s.workers| == 1 && |s.streams| == 1
    && s.workers[0].slots[0].state == InFlight && s.workers[0].slots[0].op == StreamOp(0, q, false)
    && s.streams[0].gate == 0 && s.streams[0].queue == [User, WriteGate(q), WaitGate(q)]
  }

  lemma EarlyVisit(s: State, k: nat) returns (s2: State)
    requires Lost(s, k) && Ready(s) && k == 0x4000_0000
    ensures Run(AfterSubmit(s, false), [LoadHead(0)] + [Visit(0, 0)], s2)
            && Failures([LoadHead(0)] + [Visit(0, 0)]) == 0
    ensures OpenedEarly(s2, k + 1)
  {
    EarlyDispatch(s, k);
    var s0 := AfterSubmit(s, false);
    var s1 := Apply(s0, LoadHead(0));
    s2 := Apply(s1, Visit(0, 0));
    RunOne(s0, LoadHead(0));
    RunOne(s1, Visit(0, 0));
    RunAppend(s0, [LoadHead(0)], s1, [Visit(0, 0)], s2);
  }

  // After 2^30 failed enqueues the gate word and the arrival value of the next op are more
  // than half the number circle apart: the worker dispatches a read whose stream has not
  // reached it, while the user's earlier work is still at the front of the queue.
  lemma BurnedNumbersOpenTheGate() returns (steps: seq<Step>, s: State)
    ensures Init(BusyStart()) && Run(BusyStart(), steps, s) && Failures(steps) == 0x4000_0000
    ensures OpenedEarly(s, 0x4000_0001)
  {
    var k := 0x4000_0000;
    var lost;
    steps, lost := LoseMany(k);
    var submit := SubmitRuns(lost, false);
    RunAppend(BusyStart(), steps, lost, submit, AfterSubmit(lost, false));
    s := EarlyVisit(lost, k);
    RunAppend(BusyStart(), steps + submit, AfterSubmit(lost, false), [LoadHead(0)] + [Visit(0, 0)], s);
    steps := steps + submit + ([LoadHead(0)] + [Visit(0, 0)]);
  }

  // ---------- two threads on one stream ----------

  // The stream is idle and has a bounce buffer of one byte.
  function IdleStart(): State {
    State([Worker(EmptySlots(), 0, 0, Load, 0, 0, false, 2, 2)],
          [Stream(0, 0, [], 0, 0, [0], {}, map[], {}, 0, [], map[], map[], {}, Ledger(map[], {}, {}))],
          Unlocked, 0, false, false, 0, map[], [])
  }

  function ReadSlot(q: nat, phase: Phase): Slot {
    EMPTY_SLOT.(state := if phase == Waiting then Pending else InFlight, op := StreamOp(0, q, false), phase := phase)
  }

  // A tail on its way holds a context; the reads of this run have no other commands.
  function Held(sl: Slot): (n: nat)
    ensures n <= 1
  {
    if sl.bounce == OnDevice || sl.bounce == Landed then 1 else 0
  }

  // The worker and the stream at a moment of the run; a and b are the slots of reads 1 and 2.
  function Moment(a: Slot, b: Slot, stage: Stage, pos: nat, seen: nat, tail: nat, busy: bool, gs: Stream): State {
    State([Worker(EmptySlots()[0 := a][1 := b], 2, tail, stage, pos, seen, busy, 2, 2 - Held(a) - Held(b))],
          [gs], Unlocked, 2, false, false, 0, map[], [])
  }

  const TWO_HOMES: map<nat, Place> := map[1 := Place(0, 0)][2 := Place(0, 1)]

  function Queue12(): Stream {
    Stream(0, 2, [WriteGate(1), WaitGate(1), WriteGate(2), WaitGate(2), Copy(1), Copy(2)],
           0, 0, [0], {}, TWO_HOMES, {}, 0, [], map[], map[], {1, 2}, Ledger(map[], {}, {}))
  }

  const TAIL2 := Tail(7, [9])

  lemma SlotsSet(a: Slot, b: Slot, a': Slot, b': Slot)
    ensures EmptySlots()[0 := a][1 := b][0 := a'] == EmptySlots()[0 := a'][1 := b]
    ensures EmptySlots()[0 := a][1 := b][1 := b'] == EmptySlots()[0 := a][1 := b']
  {
  }

  ghost predicate StepTo(s: State, step: Step, s': State) {
    WellFormed(s) && Enabled(s, step) && s' == Apply(s, step) && !FailedEnqueue(step)
  }

  lemma Extend(s0: State, steps: seq<Step>, s: State, step: Step, s': State) returns (steps': seq<Step>)
    requires Run(s0, steps, s) && StepTo(s, step, s') && Failures(steps) == 0
    ensures Run(s0, steps', s') && Failures(steps') == 0
  {
    RunSnoc(s0, steps, s, step);
    steps' := steps + [step];
  }

  // The first read submitted, and what the stream then looks like.
  function AfterFirst(): State {
    State([Worker(EmptySlots()[0 := ReadSlot(1, Waiting)], 1, 0, Load, 0, 0, false, 2, 2)],
          [Stream(0, 1, [WriteGate(1), WaitGate(1)], 0, 0, [0], {1}, map[1 := Place(0, 0)], {}, 0, [], map[], map[],
              {1}, Ledger(map[], {}, {}))],
          Unlocked, 1, false, false, 0, map[], [])
  }

  lemma FirstIs()
    ensures Ready(IdleStart()) && AfterSubmit(IdleStart(), false) == AfterFirst()
  {
    var s := AfterSubmit(IdleStart(), false);
    assert s.workers[0].slots == EmptySlots()[0 := ReadSlot(1, Waiting)];
    assert s.streams[0].owed == {1} == s.streams[0].readSeqs && s.streams[0].queue == [WriteGate(1), WaitGate(1)];
  }

  lemma SecondIs()
    ensures Ready(AfterFirst())
    ensures AfterSubmit(AfterFirst(), false) ==
              Moment(ReadSlot(1, Waiting), ReadSlot(2, Waiting), Load, 0, 0, 0, false,
                     Queue12().(queue := Queue12().queue[..4], owed := {1, 2}))
  {
    var s := AfterSubmit(AfterFirst(), false);
    assert s.workers[0].slots == EmptySlots()[0 := ReadSlot(1, Waiting)][1 := ReadSlot(2, Waiting)];
    assert s.streams[0].owed == {1, 2} == s.streams[0].readSeqs && s.streams[0].queue == Queue12().queue[..4];
    assert s.streams[0].home == TWO_HOMES;
  }

  lemma CopiesEnqueue()
    ensures var gs := Queue12();
            var m0 := Moment(ReadSlot(1, Waiting), ReadSlot(2, Waiting), Load, 0, 0, 0, false,
                gs.(queue := gs.queue[..4], owed := {1, 2}));
            var m1 := Moment(ReadSlot(1, Waiting), ReadSlot(2, Waiting), Load, 0, 0, 0, false,
                gs.(queue := gs.queue[..5], owed := {2}));
            var m2 := Moment(ReadSlot(1, Waiting), ReadSlot(2, Waiting), Load, 0, 0, 0, false, gs);
            StepTo(m0, EnqCopy(0, 1, true), m1) && StepTo(m1, EnqCopy(0, 2, true), m2)
  {
    var gs := Queue12();
    assert gs.queue[..4] + [Copy(1)] == gs.queue[..5] && gs.queue[..5] + [Copy(2)] == gs.queue;
    assert {1, 2} - {1} == {2} && {2} - {2} == {};
  }

  // Two reads are submitted by two threads: the gate pairs of both are on the stream before
  // the copies of either.
  lemma BothQueued() returns (steps: seq<Step>)
    ensures Run(IdleStart(), steps, Moment(ReadSlot(1, Waiting), ReadSlot(2, Waiting), Load, 0, 0, 0, false, Queue12()))
    ensures Failures(steps) == 0
  {
    var gs := Queue12();
    var m0 := Moment(ReadSlot(1, Waiting), ReadSlot(2, Waiting), Load, 0, 0, 0, false,
        gs.(queue := gs.queue[..4], owed := {1, 2}));
    var m1 := Moment(ReadSlot(1, Waiting), ReadSlot(2, Waiting), Load, 0, 0, 0, false,
        gs.(queue := gs.queue[..5], owed := {2}));
    FirstIs();
    SecondIs();
    CopiesEnqueue();
    var one := SubmitRuns(IdleStart(), false);
    var two := SubmitRuns(AfterFirst(), false);
    RunAppend(IdleStart(), one, AfterFirst(), two, m0);
    steps := Extend(IdleStart(), one + two, m0, EnqCopy(0, 1, true), m1);
    steps := Extend(IdleStart(), steps, m1, EnqCopy(0, 2, true),
        Moment(ReadSlot(1, Waiting), ReadSlot(2, Waiting), Load, 0, 0, 0, false, gs));
  }

  // ---- single steps from one moment to the next ----

  lemma FrontTo(a: Slot, b: Slot, stage: Stage, pos: nat, seen: nat, tail: nat, busy: bool, gs: Stream, gs': Stream)
    requires gs.queue != [] && !gs.queue[0].HostFn?
    requires var m := Moment(a, b, stage, pos, seen, tail, busy, gs); FrontReady(m, 0) && gs' == RunFront(m, 0)
    ensures StepTo(Moment(a, b, stage, pos, seen, tail, busy, gs), GpuStep(0),
            Moment(a, b, stage, pos, seen, tail, busy, gs'))
  {
  }

  lemma GpuTo(a: Slot, b: Slot, stage: Stage, pos: nat, seen: nat, tail: nat, busy: bool, gs: Stream)
    requires gs.queue != []
    ensures var m := Moment(a, b, stage, pos, seen, tail, busy, gs); var rest := gs.queue[1..];
            match gs.queue[0]
            case WriteGate(q) => StepTo(m, GpuStep(0), Moment(a, b, stage, pos, seen, tail, busy,
                gs.(queue := rest, gate := 2 * q)))
            case WaitGate(q) => gs.gate == 2 * q + 1 ==>
                StepTo(m, GpuStep(0), Moment(a, b, stage, pos, seen, tail, busy, gs.(queue := rest)))
            case Copy(q) => 0 < gs.descLen <= |gs.bounceBuf| ==>
              StepTo(m, GpuStep(0), Moment(a, b, stage, pos, seen, tail, busy,
                     gs.(queue := rest, copied := gs.copied[q := Some(Tail(gs.descDst, gs.bounceBuf[..gs.descLen]))])))
            case _ => true
  {
    var rest := gs.queue[1..];
    match gs.queue[0] {
      case WriteGate(q) => FrontTo(a, b, stage, pos, seen, tail, busy, gs, gs.(queue := rest, gate := 2 * q));
      case WaitGate(q) =>
        if gs.gate == 2 * q + 1 { FrontTo(a, b, stage, pos, seen, tail, busy, gs, gs.(queue := rest)); }
      case Copy(q) =>
        if 0 < gs.descLen <= |gs.bounceBuf| {
          var copied := gs.copied[q := Some(Tail(gs.descDst, gs.bounceBuf[..gs.descLen]))];
          FrontTo(a, b, stage, pos, seen, tail, busy, gs, gs.(queue := rest, copied := copied));
        }
      case _ =>
    }
  }

  lemma LoadTo(a: Slot, b: Slot, pos: nat, seen: nat, tail: nat, busy: bool, gs: Stream)
    ensures StepTo(Moment(a, b, Load, pos, seen, tail, busy, gs), LoadHead(0),
            Moment(a, b, Sweep, tail, 2, tail, false, gs))
  {
  }

  lemma RetireOneTo(a: Slot, b: Slot, gs: Stream)
    requires a.state == Free
    ensures StepTo(Moment(a, b, Retire, 2, 2, 0, false, gs), RetireOne(0), Moment(a, b, Retire, 2, 2, 1, false, gs))
  {
    assert Word(2) == 2 && Word(0) == 0;
  }

  lemma SweepEndTo(a: Slot, b: Slot, tail: nat, busy: bool, gs: Stream)
    ensures StepTo(Moment(a, b, Sweep, 2, 2, tail, busy, gs), SweepEnd(0), Moment(a, b, Retire, 2, 2, tail, busy, gs))
  {
  }

  lemma RetireEndTo(a: Slot, b: Slot, tail: nat, busy: bool, gs: Stream)
    requires tail <= 1 && (if tail == 0 then a else b).state != Free
    ensures StepTo(Moment(a, b, Retire, 2, 2, tail, busy, gs), RetireEnd(0), Moment(a, b, Decide, 2, 2, tail, true, gs))
  {
    assert Word(2) == 2 && Word(1) == 1 && Word(0) == 0;
  }

  lemma DecideTo(a: Slot, b: Slot, tail: nat, gs: Stream)
    ensures StepTo(Moment(a, b, Decide, 2, 2, tail, true, gs), DecideStep(0), Moment(a, b, Poke, 2, 2, tail, true, gs))
    ensures StepTo(Moment(a, b, Poke, 2, 2, tail, true, gs), PokeEnd(0), Moment(a, b, Load, 2, 2, tail, true, gs))
  {
  }

  // The rest of a pass of the worker's loop, up to the beginning of the next sweep.
  lemma NextPass(s0: State, steps: seq<Step>, a: Slot, b: Slot, tail: nat, busy: bool, gs: Stream)
      returns (steps': seq<Step>)
    requires Run(s0, steps, Moment(a, b, Retire, 2, 2, tail, busy, gs)) && Failures(steps) == 0
    requires tail <= 1 && (if tail == 0 then a else b).state != Free
    ensures Run(s0, steps', Moment(a, b, Sweep, tail, 2, tail, false, gs)) && Failures(steps') == 0
  {
    RetireEndTo(a, b, tail, busy, gs);
    DecideTo(a, b, tail, gs);
    LoadTo(a, b, 2, 2, tail, true, gs);
    steps' := Extend(s0, steps, Moment(a, b, Retire, 2, 2, tail, busy, gs), RetireEnd(0),
        Moment(a, b, Decide, 2, 2, tail, true, gs));
    steps' := Extend(s0, steps', Moment(a, b, Decide, 2, 2, tail, true, gs), DecideStep(0),
        Moment(a, b, Poke, 2, 2, tail, true, gs));
    steps' := Extend(s0, steps', Moment(a, b, Poke, 2, 2, tail, true, gs), PokeEnd(0),
        Moment(a, b, Load, 2, 2, tail, true, gs));
    steps' := Extend(s0, steps', Moment(a, b, Load, 2, 2, tail, true, gs), LoadHead(0),
        Moment(a, b, Sweep, tail, 2, tail, false, gs));
  }

  // What the worker does with read 1, which has no tail and no commands.
  lemma FirstReadTo(b: Slot, gs: Stream)
    requires gs.gate == 2 && gs.nextSeq == 2
    ensures StepTo(Moment(ReadSlot(1, Waiting), b, Sweep, 0, 2, 0, false, gs), Visit(0, 0),
                   Moment(ReadSlot(1, Dispatched), b, Starting, 0, 2, 0, false, gs.(last := 1, log := gs.log + [1])))
    ensures StepTo(Moment(ReadSlot(1, Dispatched), b, Starting, 0, 2, 0, false, gs), EndStart(0),
                   Moment(ReadSlot(1, Dispatched), b, Sweep, 1, 2, 0, false, gs))
  {
    SlotsSet(ReadSlot(1, Waiting), b, ReadSlot(1, Dispatched), b);
    assert Word(2) == 2 && Word(0) == 0;
  }

  lemma FirstDoneTo(b: Slot, gs: Stream)
    requires gs.gate == 2 && gs.nextSeq == 2
    ensures StepTo(Moment(ReadSlot(1, Dispatched), b, Sweep, 0, 2, 0, false, gs), Visit(0, 0),
                   Moment(ReadSlot(1, Dispatched), b, Finishing, 0, 2, 0, false, gs.(descLen := 0)))
    ensures StepTo(Moment(ReadSlot(1, Dispatched), b, Finishing, 0, 2, 0, false, gs), Release(0),
                   Moment(ReadSlot(1, Released), b, Freeing, 0, 2, 0, false,
                       gs.(gate := 3, outcome := gs.outcome[1 := None])))
  {
    FirstReapedTo(b, gs);
    FirstReleasedTo(b, gs);
  }

  lemma FirstReapedTo(b: Slot, gs: Stream)
    ensures StepTo(Moment(ReadSlot(1, Dispatched), b, Sweep, 0, 2, 0, false, gs), Visit(0, 0),
                   Moment(ReadSlot(1, Dispatched), b, Finishing, 0, 2, 0, false, gs.(descLen := 0)))
  {
    assert Word(2) == 2 && Word(0) == 0;
  }

  lemma FirstReleasedTo(b: Slot, gs: Stream)
    ensures StepTo(Moment(ReadSlot(1, Dispatched), b, Finishing, 0, 2, 0, false, gs), Release(0),
                   Moment(ReadSlot(1, Released), b, Freeing, 0, 2, 0, false,
                       gs.(gate := 3, outcome := gs.outcome[1 := None])))
  {
    SlotsSet(ReadSlot(1, Dispatched), b, ReadSlot(1, Released), b);
  }

  lemma GatedTo(a: Slot, gs: Stream)
    requires gs.gate == 2
    ensures StepTo(Moment(a, ReadSlot(2, Waiting), Sweep, 1, 2, 0, false, gs), Visit(0, 0),
                   Moment(a, ReadSlot(2, Waiting), Sweep, 2, 2, 0, true, gs))
  {
    CyclicTestExact(2, 4);
    assert Word(2) == 2 && Word(1) == 1;
  }

  lemma FreeTo(b: Slot, gs: Stream)
    ensures StepTo(Moment(ReadSlot(1, Released), b, Freeing, 0, 2, 0, false, gs), FreeSlot(0),
                   Moment(ReadSlot(1, Released).(state := Free, phase := Idle), b, Sweep, 1, 2, 0, false, gs))
  {
    SlotsSet(ReadSlot(1, Released), b, ReadSlot(1, Released).(state := Free, phase := Idle), b);
  }

  // What the worker and the device do with read 2, whose tail is TAIL2.
  function TailSlot2(bounce: Bounce, phase: Phase): Slot {
    ReadSlot(2, phase).(bounce := bounce, tail := Some(TAIL2),
                        effort := Effort(false, 1, if bounce == Reaped then 1 else 0))
  }

  function StartedSlot2(): Slot {
    ReadSlot(2, Dispatched).(todo := 1, effort := Effort(false, 1, 0))
  }

  lemma SecondReadTo(a: Slot, gs: Stream)
    requires gs.gate == 4 && gs.nextSeq == 2 && |gs.bounceBuf| == 1
    ensures StepTo(Moment(a, ReadSlot(2, Waiting), Sweep, 1, 2, 0, false, gs), Visit(0, 1),
                   Moment(a, StartedSlot2(), Starting, 1, 2, 0, false,
                       gs.(last := 2, log := gs.log + [2])))
    ensures StepTo(Moment(a, StartedSlot2(), Starting, 1, 2, 0, false, gs), SubmitTail(0, TAIL2),
                   Moment(a, TailSlot2(OnDevice, Dispatched), Starting, 1, 2, 0, false, AskTail(gs, 2, TAIL2)))
  {
    SecondDispatchTo(a, gs);
    SlotsSet(a, StartedSlot2(), a, TailSlot2(OnDevice, Dispatched));
  }

  lemma SecondDispatchTo(a: Slot, gs: Stream)
    requires gs.gate == 4 && gs.nextSeq == 2
    ensures StepTo(Moment(a, ReadSlot(2, Waiting), Sweep, 1, 2, 0, false, gs), Visit(0, 1),
                   Moment(a, StartedSlot2(), Starting, 1, 2, 0, false,
                       gs.(last := 2, log := gs.log + [2])))
  {
    SlotsSet(a, ReadSlot(2, Waiting), a, StartedSlot2());
    assert Word(2) == 2 && Word(1) == 1;
  }

  lemma TailTo(a: Slot, gs: Stream)
    requires |gs.bounceBuf| == 1
    ensures StepTo(Moment(a, TailSlot2(OnDevice, Dispatched), Starting, 1, 2, 0, false, gs), DmaLand(0, 1),
                   Moment(a, TailSlot2(Landed, Dispatched), Starting, 1, 2, 0, false, gs.(bounceBuf := [9])))
  {
    SlotsSet(a, TailSlot2(OnDevice, Dispatched), a, TailSlot2(Landed, Dispatched));
    assert [9] + gs.bounceBuf[1..] == [9];
  }

  lemma TailReapedTo(a: Slot, gs: Stream)
    ensures StepTo(Moment(a, TailSlot2(Landed, Dispatched), Starting, 1, 2, 0, false, gs), CallbackTail(0, 1, false),
                   Moment(a, TailSlot2(Reaped, Dispatched), Starting, 1, 2, 0, false, gs))
    ensures StepTo(Moment(a, TailSlot2(Reaped, Dispatched), Starting, 1, 2, 0, false, gs), EndStart(0),
                   Moment(a, TailSlot2(Reaped, Dispatched), Sweep, 2, 2, 0, false, gs))
  {
    SlotsSet(a, TailSlot2(Landed, Dispatched), a, TailSlot2(Reaped, Dispatched));
  }

  lemma SecondDoneTo(a: Slot, gs: Stream)
    requires gs.gate == 4
    ensures StepTo(Moment(a, TailSlot2(Reaped, Dispatched), Sweep, 1, 2, 1, false, gs), Visit(0, 0),
                   Moment(a, TailSlot2(Reaped, Dispatched), Finishing, 1, 2, 1, false, gs.(descLen := 1)))
    ensures StepTo(Moment(a, TailSlot2(Reaped, Dispatched), Finishing, 1, 2, 1, false, gs), Release(0),
                   Moment(a, TailSlot2(Reaped, Released), Freeing, 1, 2, 1, false,
                       gs.(gate := 5, outcome := gs.outcome[2 := Some(TAIL2)])))
  {
    SecondReapedTo(a, gs);
    SecondReleasedTo(a, gs);
  }

  lemma SecondReapedTo(a: Slot, gs: Stream)
    ensures StepTo(Moment(a, TailSlot2(Reaped, Dispatched), Sweep, 1, 2, 1, false, gs), Visit(0, 0),
                   Moment(a, TailSlot2(Reaped, Dispatched), Finishing, 1, 2, 1, false, gs.(descLen := 1)))
  {
    assert Word(2) == 2 && Word(1) == 1;
  }

  lemma SecondReleasedTo(a: Slot, gs: Stream)
    ensures StepTo(Moment(a, TailSlot2(Reaped, Dispatched), Finishing, 1, 2, 1, false, gs), Release(0),
                   Moment(a, TailSlot2(Reaped, Released), Freeing, 1, 2, 1, false,
                       gs.(gate := 5, outcome := gs.outcome[2 := Some(TAIL2)])))
  {
    SlotsSet(a, TailSlot2(Reaped, Dispatched), a, TailSlot2(Reaped, Released));
  }

  // ---- the run ----

  function Queue12From(n: nat): Stream
    requires n <= 6
  {
    Queue12().(queue := Queue12().queue[n..])
  }

  // The stream when read 1 has been dispatched, released, and when read 2 is being started.
  function Sending1(): Stream { Queue12From(1).(gate := 2, last := 1, log := [1]) }
  function Sent1(): Stream { Sending1().(gate := 3, outcome := map[1 := None]) }
  function Sending2(): Stream { Sent1().(queue := Queue12().queue[3..], gate := 4) }
  function Sent2(): Stream {
    Sending2().(gate := 5, last := 2, log := [1, 2], descDst := 7, descLen := 1, bounceBuf := [9],
                outcome := map[1 := None][2 := Some(TAIL2)], ledger := Ledger(map[2 := TAIL2], {}, {}))
  }

  lemma FirstArrives() returns (steps: seq<Step>)
    ensures Run(IdleStart(), steps, Moment(ReadSlot(1, Waiting), ReadSlot(2, Waiting), Sweep, 0, 2, 0, false,
            Queue12From(1).(gate := 2)))
    ensures Failures(steps) == 0
  {
    var a, b := ReadSlot(1, Waiting), ReadSlot(2, Waiting);
    var s0, full, gs := IdleStart(), Queue12(), Queue12From(1).(gate := 2);
    steps := BothQueued();
    GpuTo(a, b, Load, 0, 0, 0, false, full);
    steps := Extend(s0, steps, Moment(a, b, Load, 0, 0, 0, false, full), GpuStep(0),
        Moment(a, b, Load, 0, 0, 0, false, gs));
    LoadTo(a, b, 0, 0, 0, false, gs);
    steps := Extend(s0, steps, Moment(a, b, Load, 0, 0, 0, false, gs), LoadHead(0),
        Moment(a, b, Sweep, 0, 2, 0, false, gs));
  }

  lemma FirstDispatched() returns (steps: seq<Step>)
    ensures Run(IdleStart(), steps, Moment(ReadSlot(1, Dispatched), ReadSlot(2, Waiting), Sweep, 1, 2, 0, false,
            Sending1()))
    ensures Failures(steps) == 0
  {
    var a0, a1, b := ReadSlot(1, Waiting), ReadSlot(1, Dispatched), ReadSlot(2, Waiting);
    var s0, gs := IdleStart(), Queue12From(1).(gate := 2);
    steps := FirstArrives();
    FirstReadTo(b, gs);
    assert gs.(last := 1, log := gs.log + [1]) == Sending1() by { assert gs.log + [1] == [1]; }
    steps := Extend(s0, steps, Moment(a0, b, Sweep, 0, 2, 0, false, gs), Visit(0, 0),
        Moment(a1, b, Starting, 0, 2, 0, false, Sending1()));
    FirstReadTo(b, Sending1());
    steps := Extend(s0, steps, Moment(a1, b, Starting, 0, 2, 0, false, Sending1()), EndStart(0),
        Moment(a1, b, Sweep, 1, 2, 0, false, Sending1()));
  }

  // Read 1 runs without a tail while read 2 waits behind it.
  lemma FirstReadRuns() returns (steps: seq<Step>)
    ensures Run(IdleStart(), steps, Moment(ReadSlot(1, Released), ReadSlot(2, Waiting), Freeing, 0, 2, 0, false,
            Sent1()))
    ensures Failures(steps) == 0
  {
    var a1, b := ReadSlot(1, Dispatched), ReadSlot(2, Waiting);
    var s0, gs := IdleStart(), Sending1();
    steps := FirstDispatched();
    GatedTo(a1, gs);
    steps := Extend(s0, steps, Moment(a1, b, Sweep, 1, 2, 0, false, gs), Visit(0, 0),
        Moment(a1, b, Sweep, 2, 2, 0, true, gs));
    SweepEndTo(a1, b, 0, true, gs);
    steps := Extend(s0, steps, Moment(a1, b, Sweep, 2, 2, 0, true, gs), SweepEnd(0),
        Moment(a1, b, Retire, 2, 2, 0, true, gs));
    steps := NextPass(s0, steps, a1, b, 0, true, gs);
    FirstDoneTo(b, gs);
    assert gs.(descLen := 0) == gs && gs.(gate := 3, outcome := gs.outcome[1 := None]) == Sent1();
    steps := Extend(s0, steps, Moment(a1, b, Sweep, 0, 2, 0, false, gs), Visit(0, 0),
        Moment(a1, b, Finishing, 0, 2, 0, false, gs));
    steps := Extend(s0, steps, Moment(a1, b, Finishing, 0, 2, 0, false, gs), Release(0),
        Moment(ReadSlot(1, Released), b, Freeing, 0, 2, 0, false, Sent1()));
  }

  // Its gate lets the second arrival through before the first copy.
  lemma SecondArrives() returns (steps: seq<Step>)
    ensures Run(IdleStart(), steps, Moment(ReadSlot(1, Released).(state := Free, phase := Idle),
            ReadSlot(2, Waiting), Sweep, 1, 2, 0, false, Sending2()))
    ensures Failures(steps) == 0
  {
    var a, b := ReadSlot(1, Released), ReadSlot(2, Waiting);
    var s0 := IdleStart();
    steps := FirstReadRuns();
    var gs := Sent1().(queue := Queue12().queue[2..]);
    GpuTo(a, b, Freeing, 0, 2, 0, false, Sent1());
    steps := Extend(s0, steps, Moment(a, b, Freeing, 0, 2, 0, false, Sent1()), GpuStep(0),
        Moment(a, b, Freeing, 0, 2, 0, false, gs));
    GpuTo(a, b, Freeing, 0, 2, 0, false, gs);
    steps := Extend(s0, steps, Moment(a, b, Freeing, 0, 2, 0, false, gs), GpuStep(0),
        Moment(a, b, Freeing, 0, 2, 0, false, Sending2()));
    FreeTo(b, Sending2());
    steps := Extend(s0, steps, Moment(a, b, Freeing, 0, 2, 0, false, Sending2()), FreeSlot(0),
                    Moment(a.(state := Free, phase := Idle), b, Sweep, 1, 2, 0, false, Sending2()));
  }

  // The stream once the tail of read 2 is in its bounce buffer.
  function Filled2(): Stream {
    Sending2().(last := 2, log := [1, 2], descDst := 7, bounceBuf := [9], ledger := Ledger(map[2 := TAIL2], {}, {}))
  }

  // Read 2 fills the one descriptor and the one buffer.
  lemma SecondStarted() returns (steps: seq<Step>)
    ensures Run(IdleStart(), steps, Moment(ReadSlot(1, Released).(state := Free, phase := Idle),
            TailSlot2(Reaped, Dispatched), Sweep, 2, 2, 0, false, Filled2()))
    ensures Failures(steps) == 0
  {
    var a := ReadSlot(1, Released).(state := Free, phase := Idle);
    var s0 := IdleStart();
    steps := SecondArrives();
    var gs1 := Sending2().(last := 2, log := [1, 2]);
    var gs2 := gs1.(descDst := 7, ledger := Ledger(map[2 := TAIL2], {}, {}));
    assert gs1 == Sending2().(last := 2, log := Sending2().log + [2]) by { assert Sending2().log + [2] == [1, 2]; }
    assert gs2.(bounceBuf := [9]) == Filled2();
    SecondReadTo(a, Sending2());
    SecondReadTo(a, gs1);
    var b1, b2 := StartedSlot2(), TailSlot2(OnDevice, Dispatched);
    steps := Extend(s0, steps, Moment(a, ReadSlot(2, Waiting), Sweep, 1, 2, 0, false, Sending2()), Visit(0, 1),
        Moment(a, b1, Starting, 1, 2, 0, false, gs1));
    steps := Extend(s0, steps, Moment(a, b1, Starting, 1, 2, 0, false, gs1), SubmitTail(0, TAIL2),
        Moment(a, b2, Starting, 1, 2, 0, false, gs2));
    TailTo(a, gs2);
    TailReapedTo(a, Filled2());
    var b3, b4 := TailSlot2(Landed, Dispatched), TailSlot2(Reaped, Dispatched);
    steps := Extend(s0, steps, Moment(a, b2, Starting, 1, 2, 0, false, gs2), DmaLand(0, 1),
        Moment(a, b3, Starting, 1, 2, 0, false, Filled2()));
    steps := Extend(s0, steps, Moment(a, b3, Starting, 1, 2, 0, false, Filled2()), CallbackTail(0, 1, false),
        Moment(a, b4, Starting, 1, 2, 0, false, Filled2()));
    steps := Extend(s0, steps, Moment(a, b4, Starting, 1, 2, 0, false, Filled2()), EndStart(0),
        Moment(a, b4, Sweep, 2, 2, 0, false, Filled2()));
  }

  lemma SecondReadRuns() returns (steps: seq<Step>)
    ensures Run(IdleStart(), steps, Moment(ReadSlot(1, Released).(state := Free, phase := Idle),
            TailSlot2(Reaped, Released), Freeing, 1, 2, 1, false, Sent2()))
    ensures Failures(steps) == 0
  {
    var a, b := ReadSlot(1, Released).(state := Free, phase := Idle), TailSlot2(Reaped, Dispatched);
    var s0, gs := IdleStart(), Filled2();
    steps := SecondStarted();
    SweepEndTo(a, b, 0, false, gs);
    steps := Extend(s0, steps, Moment(a, b, Sweep, 2, 2, 0, false, gs), SweepEnd(0),
        Moment(a, b, Retire, 2, 2, 0, false, gs));
    RetireOneTo(a, b, gs);
    steps := Extend(s0, steps, Moment(a, b, Retire, 2, 2, 0, false, gs), RetireOne(0),
        Moment(a, b, Retire, 2, 2, 1, false, gs));
    steps := NextPass(s0, steps, a, b, 1, false, gs);
    SecondDoneTo(a, gs);
    SecondDoneTo(a, gs.(descLen := 1));
    steps := Extend(s0, steps, Moment(a, b, Sweep, 1, 2, 1, false, gs), Visit(0, 0),
        Moment(a, b, Finishing, 1, 2, 1, false, gs.(descLen := 1)));
    steps := Extend(s0, steps, Moment(a, b, Finishing, 1, 2, 1, false, gs.(descLen := 1)), Release(0),
                    Moment(a, TailSlot2(Reaped, Released), Freeing, 1, 2, 1, false, Sent2()));
  }

  // With two threads on one stream the copy of read 1, which left no tail, writes the bytes
  // of read 2 to the destination of read 2: "one submitting thread at a time" is needed.
  lemma TwoSubmittersMixTails() returns (steps: seq<Step>, s: State)
    ensures Init(IdleStart()) && Run(IdleStart(), steps, s) && Failures(steps) == 0
    ensures |s.streams| == 1
    ensures var gs := s.streams[0];
            1 in gs.copied && 1 in gs.outcome && gs.outcome[1] == None && gs.copied[1] == Some(TAIL2)
  {
    var a, b := ReadSlot(1, Released).(state := Free, phase := Idle), TailSlot2(Reaped, Released);
    var s0 := IdleStart();
    steps := SecondReadRuns();
    var gs1 := Sent2().(queue := Queue12().queue[4..]);
    GpuTo(a, b, Freeing, 1, 2, 1, false, Sent2());
    steps := Extend(s0, steps, Moment(a, b, Freeing, 1, 2, 1, false, Sent2()), GpuStep(0),
        Moment(a, b, Freeing, 1, 2, 1, false, gs1));
    s := FirstCopyRuns(a, b);
    steps := Extend(s0, steps, Moment(a, b, Freeing, 1, 2, 1, false, gs1), GpuStep(0), s);
  }

  lemma FirstCopyRuns(a: Slot, b: Slot) returns (s: State)
    ensures StepTo(Moment(a, b, Freeing, 1, 2, 1, false, Sent2().(queue := Queue12().queue[4..])), GpuStep(0), s)
    ensures |s.streams| == 1
    ensures var gs := s.streams[0];
            1 in gs.copied && 1 in gs.outcome && gs.outcome[1] == None && gs.copied[1] == Some(TAIL2)
  {
    var gs1 := Sent2().(queue := Queue12().queue[4..]);
    GpuTo(a, b, Freeing, 1, 2, 1, false, gs1);
    assert [9][..1] == [9];
    s := Moment(a, b, Freeing, 1, 2, 1, false,
                gs1.(queue := gs1.queue[1..], copied := gs1.copied[1 := Some(TAIL2)]));
  }
}
