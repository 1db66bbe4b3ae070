/**
  Whole runs of the gate protocol. A run may lose sequence numbers to failed enqueues; as
  long as at most BURN_BUDGET of them are still ahead of the gate of any one stream,
  the 32-bit comparisons agree with the unbounded counters and the invariant holds.
 */
module GateRuns {
  import opened Common
  import opened Words
  import opened GateModel
  import opened GateInvariant
  import opened GateRing
  import opened GateWorkers
  import opened GateQueue

  // 2^30 minus the ring slots of MAX_THREADS workers, and two.
  const BURN_BUDGET: nat := 0x4000_0000 - MAX_THREADS * RING - 2

  // ---------- why the window holds ----------

  ghost function Ahead(gs: Stream): set<nat> {
    set q | q in gs.burned && gs.gate <= 2 * q
  }

  ghost function Unpassed(gs: Stream): set<nat> {
    set q | 1 <= q <= gs.nextSeq && gs.gate <= 2 * q
  }

  ghost function AtHome(gs: Stream): set<nat> {
    set q | q in gs.home && 1 <= q <= gs.nextSeq && gs.gate <= 2 * q
  }

  lemma {:induction false} IntervalSize(lo: nat, hi: nat, xs: set<nat>)
    requires lo <= hi + 1 && forall q :: lo <= q <= hi ==> q in xs
    ensures |xs| >= hi + 1 - lo
    decreases hi + 1 - lo
  {
    if lo <= hi {
      IntervalSize(lo + 1, hi, xs - {lo});
    }
  }

  function Code(pl: Place): nat {
    pl.w * RING + pl.i
  }

  // Numbers that live in distinct ring slots are no more than there are slots.
  lemma {:induction false} DistinctPlaces(xs: set<nat>, home: map<nat, Place>, bound: nat)
    requires forall q :: q in xs ==> q in home && home[q].i < RING && Code(home[q]) < bound
    requires forall p, q :: p in xs && q in xs && home[p] == home[q] ==> p == q
    ensures |xs| <= bound
    decreases bound
  {
    if xs != {} {
      assert bound > 0 by { var q :| q in xs; assert Code(home[q]) < bound; }
      if q :| q in xs && Code(home[q]) == bound - 1 {
        forall p | p in xs - {q} ensures Code(home[p]) < bound - 1 {
        }
        DistinctPlaces(xs - {q}, home, bound - 1);
      } else {
        DistinctPlaces(xs, home, bound - 1);
      }
    }
  }

  lemma UnpassedBound(s: State, st: nat)
    requires Inv(s) && st < |s.streams|
    ensures |Unpassed(s.streams[st])| <= MAX_THREADS * RING + |Ahead(s.streams[st])| + 1
  {
    var gs := s.streams[st];
    var homed, lost := AtHome(gs), Ahead(gs);
    var held: set<nat> := if s.lock.Locked? && s.lock.op.StreamOp?
        && s.lock.op.stream == st then {s.lock.op.seqNo} else {};
    forall q | q in Unpassed(gs) ensures q in homed + lost + held {
      assert Covered(s, st, q);
    }
    forall q | q in homed ensures LivesAt(s, gs.home[q], st, q) && Code(gs.home[q]) < MAX_THREADS * RING {
      assert LivesAt(s, s.streams[st].home[q], st, q);
    }
    DistinctPlaces(homed, gs.home, MAX_THREADS * RING);
    SubsetSize(Unpassed(gs), homed + lost + held);
    assert |homed + lost + held| <= |homed| + |lost| + |held|;
  }

  // The numbers a stream's gate has not passed sit in distinct ring slots, or are burned,
  // or are being submitted: so they cannot span half the number circle.
  lemma WindowFromBudget(s: State)
    requires Inv(s) && BudgetOk(s)
    ensures WindowOk(s)
  {
    forall st | 0 <= st < |s.streams| ensures 2 * s.streams[st].nextSeq + 1 - s.streams[st].gate <= HALF {
      var gs := s.streams[st];
      UnpassedBound(s, st);
      assert |Ahead(gs)| <= BURN_BUDGET;
      var lo := if gs.gate == 0 then 1 else (gs.gate + 1) / 2;
      if lo <= gs.nextSeq {
        IntervalSize(lo, gs.nextSeq, Unpassed(gs));
      }
    }
  }

  ghost predicate AheadWithin(s: State, n: nat) {
    forall st :: 0 <= st < |s.streams| ==> |Ahead(s.streams[st])| <= n
  }

  // No stream's gate has more than BURN_BUDGET lost numbers still ahead of it.
  ghost predicate BudgetOk(s: State) {
    AheadWithin(s, BURN_BUDGET)
  }

  // ---------- runs ----------

  ghost predicate Run(s: State, steps: seq<Step>, s': State)
    decreases |steps|
  {
    if steps == [] then s' == s
    else WellFormed(s) && Enabled(s, steps[0]) && Run(Apply(s, steps[0]), steps[1..], s')
  }

  predicate FailedEnqueue(step: Step) {
    (step.EnqWrite? || step.EnqWait? || step.EnqHost?) && !step.ok
  }

  function Failures(steps: seq<Step>): nat {
    if steps == [] then 0 else (if FailedEnqueue(steps[0]) then 1 else 0) + Failures(steps[1..])
  }

  // A run on which the budget is kept in every state.
  ghost predicate BudgetRun(s: State, steps: seq<Step>, s': State)
    decreases |steps|
  {
    && BudgetOk(s)
    && if steps == [] then s' == s
       else WellFormed(s) && Enabled(s, steps[0]) && BudgetRun(Apply(s, steps[0]), steps[1..], s')
  }

  lemma TailOfSum<T>(a: seq<T>, b: seq<T>)
    requires a != []
    ensures (a + b)[0] == a[0] && (a + b)[1..] == a[1..] + b
  {
  }

  lemma {:induction false} ConsBudget(s: State, steps: seq<Step>, rest: seq<Step>, s': State)
    requires steps != [] && steps[1..] == rest && BudgetOk(s) && WellFormed(s) && Enabled(s, steps[0])
    requires BudgetRun(Apply(s, steps[0]), rest, s')
    ensures BudgetRun(s, steps, s')
  {
  }

  // Reached from the initial state by a run that keeps the budget.
  ghost predicate Reachable(s: State) {
    exists s0, steps :: Init(s0) && BudgetRun(s0, steps, s)
  }

  // What a step that is neither a failed enqueue nor a move of the gate leaves alone; the
  // queue may grow behind.
  ghost predicate Kept(gs: Stream, gs': Stream) {
    gs'.gate == gs.gate && gs'.burned == gs.burned && gs.queue <= gs'.queue && gs'.home == gs.home
  }

  lemma VisitKeeps(s: State, w: nat, n: nat, st: nat)
    requires WellFormed(s) && SharedEnabled(s, Visit(w, n)) && st < |s.streams|
    ensures Kept(s.streams[st], VisitSlot(s, w, n).streams[st])
  {
    match Current(s.workers[w]).state
    case Free =>
    case Pending => VisitPendingKeeps(s, w, n, st);
    case InFlight => VisitInFlightKeeps(s, w, st);
  }

  lemma VisitPendingKeeps(s: State, w: nat, n: nat, st: nat)
    requires WellFormed(s) && HasWorker(s, w, Sweep) && KnownStream(s, Current(s.workers[w]).op) && st < |s.streams|
    ensures Kept(s.streams[st], VisitPending(s, w, n).streams[st])
  {
    VisitPendingIs(s, w, n, st);
  }

  lemma VisitPendingIs(s: State, w: nat, n: nat, st: nat)
    requires WellFormed(s) && HasWorker(s, w, Sweep) && KnownStream(s, Current(s.workers[w]).op) && st < |s.streams|
    ensures var gs, gs' := s.streams[st], VisitPending(s, w, n).streams[st];
            gs' == gs.(last := gs'.last, log := gs'.log)
  {
  }

  lemma VisitInFlightKeeps(s: State, w: nat, st: nat)
    requires WellFormed(s) && HasWorker(s, w, Sweep) && KnownStream(s, Current(s.workers[w]).op) && st < |s.streams|
    ensures Kept(s.streams[st], VisitInFlight(s, w).streams[st])
  {
  }

  lemma SubmitKeeps(s: State, step: Step, st: nat)
    requires WellFormed(s) && !IsLocal(step) && SharedEnabled(s, step) && st < |s.streams|
    requires step.ClaimStream? || step.ClaimAsync? || step.ClaimFull? || step.PublishHead?
    ensures Kept(s.streams[st], ApplyShared(s, step).streams[st])
  {
  }

  // The held op is given its home.
  lemma MarkKeeps(s: State, st: nat)
    requires WellFormed(s) && SharedEnabled(s, MarkPending) && st < |s.streams|
    ensures var gs, gs' := s.streams[st], Mark(s).streams[st];
            Kept(gs, gs'.(home := gs.home)) && forall q :: q in gs.home && !HeldSeq(s, st, q) ==>
                q in gs'.home && gs'.home[q] == gs.home[q]
  {
  }

  lemma EnqueueKeeps(s: State, step: Step, st: nat)
    requires WellFormed(s) && !IsLocal(step) && SharedEnabled(s, step) && st < |s.streams|
    requires step.EnqWrite? || step.EnqWait? || step.EnqHost?
    ensures var gs' := ApplyShared(s, step).streams[st];
            if step.ok then Kept(s.streams[st], gs')
            else
              && Kept(s.streams[st], gs'.(burned := s.streams[st].burned))
              && (gs'.burned == s.streams[st].burned || gs'.burned == s.streams[st].burned + {s.lock.op.seqNo})
  {
  }

  lemma OtherKeeps(s: State, step: Step, st: nat)
    requires WellFormed(s) && !IsLocal(step) && SharedEnabled(s, step) && st < |s.streams|
    requires step.EnqCopy? || step.EnqUser? || step.SubmitTail? || step.DmaPart? || step.DmaLand? || step.StopDriver?
    ensures Kept(s.streams[st], ApplyShared(s, step).streams[st])
  {
    if step.SubmitTail? { AskKeeps(s, step.w, step.t, st); }
    else if step.DmaLand? { LandKeeps(s, step.w, step.i, st); }
    else if step.EnqCopy? { PayKeeps(s.streams[st], step.q, step.ok); }
  }

  lemma PayKeeps(gs: Stream, q: nat, ok: bool)
    ensures Kept(gs, PayCopy(gs, q, ok))
  {
  }

  lemma AskKeeps(s: State, w: nat, t: Tail, st: nat)
    requires WellFormed(s) && SharedEnabled(s, SubmitTail(w, t)) && st < |s.streams|
    ensures Kept(s.streams[st], TailSubmitted(s, w, t).streams[st])
  {
  }

  lemma LandKeeps(s: State, w: nat, i: nat, st: nat)
    requires WellFormed(s) && SharedEnabled(s, DmaLand(w, i)) && st < |s.streams|
    ensures Kept(s.streams[st], TailLanded(s, w, i).streams[st])
  {
  }

  lemma GateStepKeeps(s: State, step: Step, st: nat)
    requires WellFormed(s) && !IsLocal(step) && SharedEnabled(s, step) && st < |s.streams|
    requires step.GpuStep? || step.Release?
    ensures ApplyShared(s, step).streams[st].burned == s.streams[st].burned
    ensures ApplyShared(s, step).streams[st].home == s.streams[st].home
    ensures step.Release? ==> ApplyShared(s, step).streams[st].queue == s.streams[st].queue
    ensures step.GpuStep? && step.st != st ==> ApplyShared(s, step).streams[st] == s.streams[st]
  {
    if step.Release? { ReleaseKeeps(s, step.w, st); }
  }

  lemma ReleaseKeeps(s: State, w: nat, st: nat)
    requires WellFormed(s) && SharedEnabled(s, Release(w)) && st < |s.streams|
    ensures var gs, gs' := s.streams[st], ReleaseSlot(s, w).streams[st];
            gs'.burned == gs.burned && gs'.home == gs.home && gs'.queue == gs.queue
  {
  }

  lemma BurnedChange(s: State, step: Step, st: nat)
    requires WellFormed(s) && !IsLocal(step) && SharedEnabled(s, step) && st < |s.streams|
    ensures var b, b' := s.streams[st].burned, ApplyShared(s, step).streams[st].burned;
            b' == b || (FailedEnqueue(step) && b' == b + {s.lock.op.seqNo})
  {
    if step.Visit? { VisitKeeps(s, step.w, step.n, st); }
    else if step.EnqWrite? || step.EnqWait? || step.EnqHost? { EnqueueKeeps(s, step, st); }
    else if step.GpuStep? || step.Release? { GateStepKeeps(s, step, st); }
    else if step.EnqCopy? || step.EnqUser? || step.SubmitTail? || step.DmaPart? || step.DmaLand?
        || step.StopDriver? { OtherKeeps(s, step, st); }
    else if step.MarkPending? { MarkKeeps(s, st); }
    else { SubmitKeeps(s, step, st); }
  }

  ghost function Bump(step: Step): nat {
    if FailedEnqueue(step) then 1 else 0
  }

  lemma AheadShared(s: State, step: Step, st: nat)
    requires Inv(s) && WindowOk(s) && !IsLocal(step) && SharedEnabled(s, step) && st < |s.streams|
    ensures |Ahead(ApplyShared(s, step).streams[st])| <= |Ahead(s.streams[st])| + Bump(step)
  {
    var before, after := Ahead(s.streams[st]), Ahead(ApplyShared(s, step).streams[st]);
    BurnedChange(s, step, st);
    GateMoves(s, step, st);
    if FailedEnqueue(step) {
      SubsetSize(after, before + {s.lock.op.seqNo});
    } else {
      SubsetSize(after, before);
    }
  }

  lemma AheadStep(s: State, step: Step, st: nat, s': State)
    requires Inv(s) && WindowOk(s) && Enabled(s, step) && s' == Apply(s, step) && st < |s.streams|
    ensures |Ahead(s'.streams[st])| <= |Ahead(s.streams[st])| + Bump(step)
  {
    if !IsLocal(step) { AheadShared(s, step, st); }
  }

  // A gate never falls back, and only a failed enqueue loses a number.
  lemma AheadGrows(s: State, step: Step, n: nat)
    requires Inv(s) && WindowOk(s) && Enabled(s, step) && AheadWithin(s, n)
    ensures AheadWithin(Apply(s, step), n + Bump(step))
  {
    var s' := Apply(s, step);
    forall st | 0 <= st < |s'.streams| ensures |Ahead(s'.streams[st])| <= n + Bump(step) {
      AheadStep(s, step, st, s');
    }
  }

  lemma {:induction false} RunKeeps(s: State, steps: seq<Step>, s': State)
    requires Inv(s) && QueueInv(s) && BudgetRun(s, steps, s')
    ensures Inv(s') && QueueInv(s') && WindowOk(s') && BudgetOk(s')
    decreases |steps|
  {
    WindowFromBudget(s);
    if steps != [] {
      StepKept(s, steps[0]);
      QueueKept(s, steps[0]);
      RunKeeps(Apply(s, steps[0]), steps[1..], s');
    }
  }

  lemma ReachableInv(s: State)
    requires Reachable(s)
    ensures Inv(s) && QueueInv(s) && WindowOk(s) && BudgetOk(s)
  {
    var s0, steps :| Init(s0) && BudgetRun(s0, steps, s);
    InitInv(s0);
    InitQueue(s0);
    RunKeeps(s0, steps, s);
  }

  // A run with at most BURN_BUDGET failed enqueues keeps the budget; so does any longer one
  // whose losses the gates have left behind.
  lemma {:induction false} FewFailuresKeepBudget(s: State, steps: seq<Step>, s': State, n: nat)
    requires Inv(s) && AheadWithin(s, n) && Run(s, steps, s') && n + Failures(steps) <= BURN_BUDGET
    ensures BudgetRun(s, steps, s')
    decreases |steps|
  {
    WindowFromBudget(s);
    if steps != [] {
      StepKept(s, steps[0]);
      AheadGrows(s, steps[0], n);
      FewFailuresKeepBudget(Apply(s, steps[0]), steps[1..], s', n + Bump(steps[0]));
    }
  }

  // Whatever is lost to failed enqueues, a run breaks the invariant only after a state in
  // which the numbers ahead of some gate span more than half the number circle.
  lemma {:induction false} WindowLostFirst(s: State, steps: seq<Step>, s': State) returns (k: nat, lost: State)
    requires Inv(s) && Run(s, steps, s') && !Inv(s')
    ensures k <= |steps| && Run(s, steps[..k], lost) && Inv(lost) && !WindowOk(lost)
    decreases |steps|
  {
    if !WindowOk(s) {
      return 0, s;
    }
    StepKept(s, steps[0]);
    k, lost := WindowLostFirst(Apply(s, steps[0]), steps[1..], s');
    k := k + 1;
    assert steps[..k][1..] == steps[1..][..k - 1];
  }

  // Exactly when the worker's poll lets an op through before its stream has arrived at it.
  lemma LetThroughEarly(gs: Stream, q: nat)
    requires gs.gate <= 2 * q <= gs.gate + WRAP
    ensures GateOpen(gs, q) && gs.gate < 2 * q <==> 2 * q - gs.gate > HALF
  {
    CyclicTestExact(gs.gate, 2 * q);
  }

  // ---------- what holds in every reachable state ----------

  // Across all workers, at most one op of a stream is between dispatch and release, and the
  // gate stands at exactly its arrival value.
  lemma OneDispatchedPerStream(s: State, w1: nat, i1: nat, w2: nat, i2: nat)
    requires Reachable(s) && HasSlot(s, w1, i1) && HasSlot(s, w2, i2)
    requires WellFormed(s)
    requires s.workers[w1].slots[i1].phase == Dispatched && s.workers[w1].slots[i1].op.StreamOp?
    requires s.workers[w2].slots[i2].phase == Dispatched && s.workers[w2].slots[i2].op.StreamOp?
    requires s.workers[w1].slots[i1].op.stream == s.workers[w2].slots[i2].op.stream
    ensures w1 == w2 && i1 == i2
    ensures var op := s.workers[w1].slots[i1].op; op.stream < |s.streams| && s.streams[op.stream].gate == 2 * op.seqNo
  {
    ReachableInv(s);
    assert LinkAt(s, w1, i1) && LinkAt(s, w2, i2);
  }

  // Ops of one stream are dispatched in the order of their sequence numbers, whichever
  // workers hold them.
  lemma DispatchInSeqOrder(s: State, st: nat)
    requires Reachable(s) && st < |s.streams|
    ensures forall a, b :: 0 <= a < b < |s.streams[st].log| ==> s.streams[st].log[a] < s.streams[st].log[b]
  {
    ReachableInv(s);
  }

  // Two unreleased ops of a stream never share a sequence number.
  lemma SeqNumbersDistinct(s: State, w1: nat, i1: nat, w2: nat, i2: nat)
    requires Reachable(s) && WellFormed(s) && HasSlot(s, w1, i1) && HasSlot(s, w2, i2)
    requires Owing(s.workers[w1].slots[i1]) && Owing(s.workers[w2].slots[i2])
    requires s.workers[w1].slots[i1].op.StreamOp? && s.workers[w2].slots[i2].op.StreamOp?
    requires s.workers[w1].slots[i1].op.stream == s.workers[w2].slots[i2].op.stream
    requires s.workers[w1].slots[i1].op.seqNo == s.workers[w2].slots[i2].op.seqNo
    ensures w1 == w2 && i1 == i2
  {
    ReachableInv(s);
    assert LinkAt(s, w1, i1) && LinkAt(s, w2, i2);
  }

  // The tests made on 32-bit words say what the unbounded counters say: the worker's poll,
  // and the wait at the front of a stream.
  lemma CyclicTestsAgree(s: State)
    requires Reachable(s) && WellFormed(s)
    ensures forall w, i {:trigger s.workers[w].slots[i]} ::
            0 <= w < |s.workers| && 0 <= i < RING
            && Owing(s.workers[w].slots[i]) && s.workers[w].slots[i].op.StreamOp? ==>
              var op := s.workers[w].slots[i].op;
              && op.stream < |s.streams|
              && (GateOpen(s.streams[op.stream], op.seqNo) <==> s.streams[op.stream].gate >= 2 * op.seqNo)
    ensures forall st, j {:trigger s.streams[st].queue[j]} ::
            0 <= st < |s.streams| && 0 <= j < |s.streams[st].queue|
            && (s.streams[st].queue[j].WaitGate? || s.streams[st].queue[j].Park?) ==>
              (GateReleased(s.streams[st], s.streams[st].queue[j].q) <==>
                  s.streams[st].gate >= 2 * s.streams[st].queue[j].q + 1)
  {
    ReachableInv(s);
    forall w, i | 0 <= w < |s.workers| && 0 <= i < RING && Owing(s.workers[w].slots[i])
        && s.workers[w].slots[i].op.StreamOp?
      ensures var op := s.workers[w].slots[i].op;
              && op.stream < |s.streams|
              && (GateOpen(s.streams[op.stream], op.seqNo) <==> s.streams[op.stream].gate >= 2 * op.seqNo)
    {
      var op := s.workers[w].slots[i].op;
      assert LinkAt(s, w, i);
      assert HomeSeqOk(s.streams[op.stream], op.seqNo);
      CyclicTestExact(s.streams[op.stream].gate, 2 * op.seqNo);
    }
    forall st, j | 0 <= st < |s.streams| && 0 <= j < |s.streams[st].queue|
        && (s.streams[st].queue[j].WaitGate? || s.streams[st].queue[j].Park?)
      ensures GateReleased(s.streams[st], s.streams[st].queue[j].q) <==>
              s.streams[st].gate >= 2 * s.streams[st].queue[j].q + 1
    {
      assert CmdOk(s.streams[st], s.streams[st].queue[j]);
      CyclicTestExact(s.streams[st].gate, 2 * s.streams[st].queue[j].q + 1);
    }
  }

  // The gate of a stream moves only forward: the stream's arrival of q takes it to 2q, and
  // the release of q from 2q to 2q + 1.
  lemma GateMovesForward(s: State, step: Step, st: nat) returns (g': nat)
    requires Reachable(s) && WellFormed(s) && Enabled(s, step) && st < |s.streams|
    ensures g' == Apply(s, step).streams[st].gate
    ensures || g' == s.streams[st].gate
            || (step == GpuStep(st) && g' > s.streams[st].gate && g' % 2 == 0)
            || (step.Release? && s.streams[st].gate % 2 == 0 && g' == s.streams[st].gate + 1)
  {
    ReachableInv(s);
    g' := s.streams[st].gate;
    if !IsLocal(step) {
      GateMoves(s, step, st);
      g' := ApplyShared(s, step).streams[st].gate;
    }
  }

  lemma GateMoves(s: State, step: Step, st: nat)
    requires Inv(s) && WindowOk(s) && !IsLocal(step) && SharedEnabled(s, step) && st < |s.streams|
    ensures var g, g' := s.streams[st].gate, ApplyShared(s, step).streams[st].gate;
            || g' == g
            || (step == GpuStep(st) && g' > g && g' % 2 == 0)
            || (step.Release? && g % 2 == 0 && g' == g + 1)
  {
    if step.Release? { ReleaseGate(s, step.w, st); }
    else if step == GpuStep(st) { GpuGate(s, st); }
    else if step.Visit? { VisitKeeps(s, step.w, step.n, st); }
    else if step.EnqWrite? || step.EnqWait? || step.EnqHost? { EnqueueKeeps(s, step, st); }
    else if step.GpuStep? { GateStepKeeps(s, step, st); }
    else if step.EnqCopy? || step.EnqUser? || step.SubmitTail? || step.DmaPart? || step.DmaLand?
        || step.StopDriver? { OtherKeeps(s, step, st); }
    else if step.MarkPending? { MarkKeeps(s, st); }
    else { SubmitKeeps(s, step, st); }
  }

  lemma ReleaseGate(s: State, w: nat, st: nat)
    requires Inv(s) && SharedEnabled(s, Release(w)) && st < |s.streams|
    ensures var g, g' := s.streams[st].gate, ReleaseSlot(s, w).streams[st].gate; g' == g || (g % 2 == 0 && g' == g + 1)
  {
    var op := Current(s.workers[w]).op;
    if op.StreamOp? { ReleaseFacts(s, w, op); }
  }

  lemma GpuGate(s: State, st: nat)
    requires Inv(s) && WindowOk(s) && SharedEnabled(s, GpuStep(st))
    ensures var g, g' := s.streams[st].gate, RunFront(s, st).gate; g' == g || (g' > g && g' % 2 == 0)
  {
    var c := s.streams[st].queue[0];
    assert CmdOk(s.streams[st], c);
    if c.HostFn? { assert HostOk(s, st, c.w, c.i, c.q); }
  }

  // Ring safety on the 32-bit counters: the window never exceeds the ring, everything
  // outside it is FREE or, at head, about to be published; and a claim is let through
  // exactly when there is room, onto a slot no op or queued callback refers to.
  lemma RingSafety(s: State, w: nat)
    requires Reachable(s) && WellFormed(s) && w < |s.workers|
    ensures s.workers[w].tail <= s.workers[w].head <= s.workers[w].tail + RING
    ensures WordSub(Word(s.workers[w].head), Word(s.workers[w].tail)) == s.workers[w].head - s.workers[w].tail
    ensures Word(s.workers[w].head) % RING == Ix(s.workers[w].head)
    ensures forall p :: s.workers[w].head <= p < s.workers[w].tail + RING ==>
              s.workers[w].slots[Ix(p)].state == Free || (p == s.workers[w].head && MarkedAt(s, w))
    ensures s.lock.Unlocked? && RingHasRoom(s.workers[w]) ==>
              s.workers[w].slots[Ix(s.workers[w].head)].state == Free
              && forall st, j {:trigger s.streams[st].queue[j]} ::
                0 <= st < |s.streams| && 0 <= j < |s.streams[st].queue| && s.streams[st].queue[j].HostFn? ==>
                   !(s.streams[st].queue[j].w == w && s.streams[st].queue[j].i == Ix(s.workers[w].head))
  {
    ReachableInv(s);
    assert RingOk(s.workers[w], MarkedAt(s, w));
    WordSubIsDistance(s.workers[w].head, s.workers[w].tail);
    WordMask(s.workers[w].head, RING);
    if s.lock.Unlocked? && RingHasRoom(s.workers[w]) { GatePreserve.ClaimedSlotIsDead(s, w); }
  }

  // A host callback that comes to the front of its stream reads the sequence number it was
  // launched with: its op's slot has not been given away.
  lemma CallbackSeesItsOp(s: State, st: nat)
    requires Reachable(s) && WellFormed(s) && st < |s.streams| && s.streams[st].queue != []
    requires s.streams[st].queue[0].HostFn?
    ensures var c := s.streams[st].queue[0];
            HasSlot(s, c.w, c.i) && s.workers[c.w].slots[c.i].op.StreamOp?
            && s.workers[c.w].slots[c.i].op.stream == st && s.workers[c.w].slots[c.i].op.seqNo == c.q
  {
    ReachableInv(s);
    var c := s.streams[st].queue[0];
    assert HostOk(s, st, c.w, c.i, c.q);
  }

  // No op is lost and none is finished twice: a submitted future is completed once, or
  // still owned by exactly the slot it was given, or being submitted; and every published
  // stream op whose gate has not passed is in its slot.
  lemma ExactlyOnce(s: State)
    requires Reachable(s) && WellFormed(s)
    ensures forall a, b :: 0 <= a < b < |s.doneFutures| ==> s.doneFutures[a] != s.doneFutures[b]
    ensures forall f :: f in s.doneFutures ==> f < s.nextFuture
    ensures forall f :: 0 <= f < s.nextFuture && f !in s.doneFutures ==>
              || (f in s.futureHome && FutureLives(s, s.futureHome[f], f))
              || (s.lock.Locked? && s.lock.op.AsyncOp? && s.lock.op.future == f)
    ensures forall st, q :: 0 <= st < |s.streams| && 1 <= q <= s.streams[st].nextSeq && s.streams[st].gate <= 2 * q ==>
              || (q in s.streams[st].home && LivesAt(s, s.streams[st].home[q], st, q))
              || q in s.streams[st].burned || HeldSeq(s, st, q)
  {
    ReachableInv(s);
    forall st, q | 0 <= st < |s.streams| && 1 <= q <= s.streams[st].nextSeq && s.streams[st].gate <= 2 * q
      ensures (q in s.streams[st].home && LivesAt(s, s.streams[st].home[q], st, q)) || q in s.streams[st].burned
              || HeldSeq(s, st, q)
    {
      assert Covered(s, st, q);
      if q in s.streams[st].home { assert LivesAt(s, s.streams[st].home[q], st, q); }
    }
  }

  // A worker that has left its loop has finished every op below the head it last observed.
  // (What becomes of ops published after that load is the subject of GateShutdown.)
  lemma ExitDrainsObserved(s: State, w: nat)
    requires Reachable(s) && WellFormed(s) && w < |s.workers| && s.workers[w].stage == Exited
    ensures s.workers[w].tail == s.workers[w].seen <= s.workers[w].head
    ensures forall i :: 0 <= i < RING && s.workers[w].slots[i].state != Free ==>
              s.workers[w].slots[i].phase == Waiting
  {
    ReachableInv(s);
    ExitedRing(s.workers[w], MarkedAt(s, w));
  }

  lemma ExitedRing(wk: Worker, marked: bool)
    requires RingOk(wk, marked) && wk.stage == Exited
    ensures wk.tail == wk.seen <= wk.head
    ensures forall i :: 0 <= i < RING && wk.slots[i].state != Free ==> wk.slots[i].phase == Waiting
    ensures forall i :: 0 <= i < RING ==> wk.slots[i].state != InFlight
  {
    forall i | 0 <= i < RING && wk.slots[i].state != Free
      ensures wk.slots[i].phase == Waiting && wk.slots[i].state != InFlight
    {
      var p := IxCovers(wk.tail, i);
      assert PhaseOk(wk, i);
    }
  }
}
