/**
  What a shutdown leaves behind. A worker loads its ring's head before it looks at the stop
  flag, so an op published in between may stay in the ring of a worker that has left its
  loop; nothing ever finishes it, nor any later op of its stream.
 */
module GateShutdown {
  import opened GateModel
  import opened GateInvariant
  import opened GateRing
  import GatePreserve
  import opened GateStreams
  import opened GateWorkers
  import opened GateRuns

  // ---------- when a worker leaves something behind ----------

  // A worker that looks at the stop flag leaves ops behind exactly when it found nothing to
  // come back for and the head has moved since it loaded it.
  lemma ExitLeavesBehind(s: State, w: nat)
    requires Reachable(s) && WellFormed(s) && HasWorker(s, w, Decide) && s.stop
    ensures var wk' := Apply(s, DecideStep(w)).workers[w];
            wk'.stage == Exited && wk'.tail < wk'.head
            <==> !s.workers[w].busy && s.workers[w].head != s.workers[w].seen
  {
    ReachableInv(s);
    assert RingOk(s.workers[w], MarkedAt(s, w));
    DecidedRing(s.workers[w], w);
  }

  lemma DecidedRing(wk: Worker, w: nat)
    requires PosOk(wk) && wk.stage == Decide
    ensures var wk' := WorkerStep(wk, DecideStep(w), true);
            wk'.stage == Exited && wk'.tail < wk'.head <==> !wk.busy && wk.head != wk.seen
  {
  }

  // The ring of a worker that is gone only grows.
  ghost predicate Frozen(wk: Worker, wk': Worker) {
    && |wk.slots| == |wk'.slots| == RING && wk'.stage == wk.stage
    && wk'.tail == wk.tail && wk'.seen == wk.seen && wk.head <= wk'.head
    && forall p :: wk.tail <= p < wk.head ==> wk'.slots[Ix(p)] == wk.slots[Ix(p)]
  }

  lemma HeadSlotOnly(wk: Worker, wk': Worker)
    requires |wk.slots| == |wk'.slots| == RING && wk.tail <= wk.head < wk.tail + RING
    requires wk' == SetSlot(wk, Ix(wk.head), wk'.slots[Ix(wk.head)])
    ensures Frozen(wk, wk')
  {
    forall p | wk.tail <= p < wk.head ensures wk'.slots[Ix(p)] == wk.slots[Ix(p)] {
      IxApart(p, wk.head);
    }
  }

  lemma ClaimFreezes(s: State, op: Op, w: nat)
    requires Inv(s) && s.lock.Unlocked? && RingHasRoom(s.workers[Routed(s)]) && w < |s.workers|
    ensures Frozen(s.workers[w], Claim(s, op).workers[w])
  {
    GatePreserve.ClaimedSlotIsDead(s, Routed(s));
    assert RingOk(s.workers[Routed(s)], MarkedAt(s, Routed(s)));
    if w == Routed(s) { HeadSlotOnly(s.workers[w], Claim(s, op).workers[w]); }
  }

  lemma MarkFreezes(s: State, w: nat)
    requires Inv(s) && SharedEnabled(s, MarkPending) && w < |s.workers|
    ensures Frozen(s.workers[w], Mark(s).workers[w])
  {
    assert RingOk(s.workers[s.lock.w], MarkedAt(s, s.lock.w));
    if w == s.lock.w { HeadSlotOnly(s.workers[w], Mark(s).workers[w]); }
  }

  lemma GoneTakesNoStep(wk: Worker, step: Step)
    requires |wk.slots| == RING && wk.stage == Exited && IsLocal(step)
    ensures !LocalEnabled(wk, step)
  {
  }

  lemma ExitedHasNoStep(s: State, step: Step, w: nat)
    requires Inv(s) && w < |s.workers| && s.workers[w].stage == Exited && Enabled(s, step)
    requires IsLocal(step) || step.Visit? || step.SubmitTail? || step.DmaLand? || step.Release?
    ensures Apply(s, step).workers[w] == s.workers[w]
  {
    if IsLocal(step) {
      GoneTakesNoStep(s.workers[w], step);
    } else if step.w != w {
      OtherWorkerSame(s, step, w);
    } else {
      assert RingOk(s.workers[w], MarkedAt(s, w));
      ExitedRing(s.workers[w], MarkedAt(s, w));
    }
  }

  lemma OtherWorkerSame(s: State, step: Step, w: nat)
    requires WellFormed(s) && w < |s.workers| && !IsLocal(step) && SharedEnabled(s, step)
    requires (step.Visit? || step.SubmitTail? || step.DmaLand? || step.Release?) && step.w != w
    ensures ApplyShared(s, step).workers[w] == s.workers[w]
  {
    if step.Visit? { VisitElsewhere(s, step.w, step.n, w); }
  }

  lemma VisitElsewhere(s: State, v: nat, n: nat, w: nat)
    requires WellFormed(s) && w < |s.workers| && SharedEnabled(s, Visit(v, n)) && v != w
    ensures VisitSlot(s, v, n).workers[w] == s.workers[w]
  {
  }

  lemma SubmitterFreezes(s: State, step: Step, w: nat)
    requires Inv(s) && w < |s.workers|
    requires step.ClaimStream? || step.ClaimAsync? || step.ClaimFull? || step.MarkPending? || step.PublishHead?
    requires SharedEnabled(s, step)
    ensures Frozen(s.workers[w], ApplyShared(s, step).workers[w])
  {
    if step.ClaimStream? {
      ClaimFreezes(s, StreamOp(step.st, s.streams[step.st].nextSeq + 1, step.write), w);
    } else if step.ClaimAsync? {
      ClaimFreezes(s, AsyncOp(s.nextFuture, step.write), w);
    } else if step.MarkPending? {
      MarkFreezes(s, w);
    }
  }

  lemma NoRingTouched(s: State, step: Step)
    requires WellFormed(s) && !IsLocal(step) && SharedEnabled(s, step)
    requires step.EnqWrite? || step.EnqWait? || step.EnqHost? || step.EnqCopy? || step.EnqUser? || step.GpuStep?
             || step.DmaPart? || step.StopDriver?
    ensures ApplyShared(s, step).workers == s.workers
  {
  }

  // No step of anybody touches the ops a departed worker has left in its ring.
  lemma ExitedStays(s: State, step: Step, w: nat)
    requires Inv(s) && Enabled(s, step) && w < |s.workers| && s.workers[w].stage == Exited
    ensures Frozen(s.workers[w], Apply(s, step).workers[w])
  {
    if IsLocal(step) || step.Visit? || step.SubmitTail? || step.DmaLand? || step.Release? {
      ExitedHasNoStep(s, step, w);
    } else if step.ClaimStream? || step.ClaimAsync? || step.ClaimFull? || step.MarkPending? || step.PublishHead? {
      SubmitterFreezes(s, step, w);
    } else {
      NoRingTouched(s, step);
    }
  }

  lemma {:induction false} LeftBehindForever(s: State, steps: seq<Step>, s': State, w: nat)
    requires Inv(s) && BudgetRun(s, steps, s') && w < |s.workers| && s.workers[w].stage == Exited
    ensures |s'.workers| == |s.workers| && Frozen(s.workers[w], s'.workers[w])
    decreases |steps|
  {
    if steps != [] {
      WindowFromBudget(s);
      StepKept(s, steps[0]);
      ExitedStays(s, steps[0], w);
      LeftBehindForever(Apply(s, steps[0]), steps[1..], s', w);
    }
  }

  // ---------- homes are remembered ----------

  ghost predicate HomesRemembered(gs: Stream, gs': Stream) {
    forall q :: q in gs.home ==> q in gs'.home && gs'.home[q] == gs.home[q]
  }

  ghost predicate FuturesRemembered(s: State, s': State) {
    && (forall f :: f in s.futureHome ==> f in s'.futureHome && s'.futureHome[f] == s.futureHome[f])
    && (forall f :: f in s.doneFutures ==> f in s'.doneFutures)
  }

  lemma StreamRemembers(s: State, step: Step, st: nat)
    requires Inv(s) && Enabled(s, step) && st < |s.streams|
    ensures HomesRemembered(s.streams[st], Apply(s, step).streams[st])
  {
    if IsLocal(step) {
    } else if step.Visit? {
      VisitKeeps(s, step.w, step.n, st);
    } else if step.EnqWrite? || step.EnqWait? || step.EnqHost? {
      EnqueueKeeps(s, step, st);
    } else if step.GpuStep? || step.Release? {
      GateStepKeeps(s, step, st);
    } else if step.MarkPending? {
      MarkKeeps(s, st);
    } else {
      QuietStepKeeps(s, step, st);
    }
  }

  lemma QuietStepKeeps(s: State, step: Step, st: nat)
    requires WellFormed(s) && !IsLocal(step) && SharedEnabled(s, step) && st < |s.streams|
    requires !step.Visit? && !step.EnqWrite? && !step.EnqWait? && !step.EnqHost? && !step.GpuStep? && !step.Release?
             && !step.MarkPending?
    ensures Kept(s.streams[st], ApplyShared(s, step).streams[st])
  {
    if step.EnqCopy? || step.EnqUser? || step.SubmitTail? || step.DmaPart? || step.DmaLand? || step.StopDriver? {
      OtherKeeps(s, step, st);
    } else {
      SubmitKeeps(s, step, st);
    }
  }

  lemma StepFutures(s: State, step: Step)
    requires Inv(s) && Enabled(s, step)
    ensures FuturesRemembered(s, Apply(s, step))
  {
    if !IsLocal(step) && !step.MarkPending? && !step.Release? { FuturesSame(s, step); }
  }

  lemma FuturesSame(s: State, step: Step)
    requires WellFormed(s) && !IsLocal(step) && !step.MarkPending? && !step.Release? && SharedEnabled(s, step)
    ensures ApplyShared(s, step).futureHome == s.futureHome && ApplyShared(s, step).doneFutures == s.doneFutures
  {
    if step.Visit? { VisitFutures(s, step.w, step.n); }
  }

  lemma VisitFutures(s: State, w: nat, n: nat)
    requires WellFormed(s) && SharedEnabled(s, Visit(w, n))
    ensures VisitSlot(s, w, n).futureHome == s.futureHome && VisitSlot(s, w, n).doneFutures == s.doneFutures
  {
  }

  // ---------- streams that wait for an op left behind ----------

  // A pending stream op the worker would leave for a later pass.
  ghost predicate Gated(s: State, sl: Slot) {
    sl.state == Pending && sl.op.StreamOp? && sl.op.stream < |s.streams|
        && !GateOpen(s.streams[sl.op.stream], sl.op.seqNo)
  }

  // The stream is parked on an op of its own: that op has to be served first.
  ghost predicate ParkedOn(gs: Stream) {
    && gs.queue != [] && (gs.queue[0].WaitGate? || gs.queue[0].Park?)
    && gs.queue[0].q in gs.home && gs.home[gs.queue[0].q].i < RING
  }

  // It is parked on an op in the ring of a worker that is gone.
  ghost predicate Stranded(s: State, st: nat) {
    && st < |s.streams| && ParkedOn(s.streams[st])
    && var gs := s.streams[st];
    && gs.gate == 2 * gs.queue[0].q
    && gs.home[gs.queue[0].q].w < |s.workers| && s.workers[gs.home[gs.queue[0].q].w].stage == Exited
  }

  lemma FinishingAtHome(s: State, w: nat)
    requires Inv(s) && SharedEnabled(s, Release(w)) && Current(s.workers[w]).op.StreamOp?
    ensures var op := Current(s.workers[w]).op;
            && op.seqNo in s.streams[op.stream].home
            && s.streams[op.stream].home[op.seqNo].w == w && s.streams[op.stream].gate == 2 * op.seqNo
  {
    ReleaseFacts(s, w, Current(s.workers[w]).op);
    assert LinkAt(s, w, Ix(s.workers[w].pos));
  }

  lemma NoReleaseThere(s: State, w: nat, st: nat)
    requires Inv(s) && Stranded(s, st) && SharedEnabled(s, Release(w))
    ensures !(Current(s.workers[w]).op.StreamOp? && Current(s.workers[w]).op.stream == st)
  {
    if Current(s.workers[w]).op.StreamOp? { FinishingAtHome(s, w); }
  }

  lemma FrontBlocked(s: State, st: nat)
    requires Inv(s) && WindowOk(s) && Stranded(s, st)
    ensures !FrontReady(s, st)
  {
    var gs := s.streams[st];
    assert CmdOk(gs, gs.queue[0]);
    ReleaseTestExact(gs, gs.queue[0].q);
  }

  lemma ReleaseElsewhere(s: State, w: nat, st: nat)
    requires WellFormed(s) && SharedEnabled(s, Release(w)) && st < |s.streams|
    requires !(Current(s.workers[w]).op.StreamOp? && Current(s.workers[w]).op.stream == st)
    ensures ReleaseSlot(s, w).streams[st] == s.streams[st]
  {
  }

  lemma FrontStays(s: State, step: Step, st: nat)
    requires Inv(s) && WindowOk(s) && Stranded(s, st) && Enabled(s, step)
    ensures Apply(s, step).streams[st].gate == s.streams[st].gate
    ensures s.streams[st].queue <= Apply(s, step).streams[st].queue
  {
    FrontBlocked(s, st);
    if IsLocal(step) {
    } else if step.Release? {
      NoReleaseThere(s, step.w, st);
      ReleaseElsewhere(s, step.w, st);
    } else if step.GpuStep? {
      GateStepKeeps(s, step, st);
    } else if step.Visit? {
      VisitKeeps(s, step.w, step.n, st);
    } else if step.EnqWrite? || step.EnqWait? || step.EnqHost? {
      EnqueueKeeps(s, step, st);
    } else if step.MarkPending? {
      MarkKeeps(s, st);
    } else {
      QuietStepKeeps(s, step, st);
    }
  }

  // No step ever moves such a stream.
  lemma StrandedStays(s: State, step: Step, st: nat)
    requires Inv(s) && WindowOk(s) && Stranded(s, st) && Enabled(s, step)
    ensures Stranded(Apply(s, step), st) && Apply(s, step).streams[st].gate == s.streams[st].gate
  {
    var gs := s.streams[st];
    FrontStays(s, step, st);
    StreamRemembers(s, step, st);
    ExitedStays(s, step, gs.home[gs.queue[0].q].w);
  }

  // Once a stream waits for an op left behind, its gate never moves again: none of its
  // later ops is ever let through, in whatever run.
  lemma {:induction false} StrandedForever(s: State, steps: seq<Step>, s': State, st: nat)
    requires Inv(s) && Stranded(s, st) && BudgetRun(s, steps, s')
    ensures Stranded(s', st) && s'.streams[st].gate == s.streams[st].gate
    decreases |steps|
  {
    if steps != [] {
      WindowFromBudget(s);
      StepKept(s, steps[0]);
      StrandedStays(s, steps[0], st);
      StrandedForever(Apply(s, steps[0]), steps[1..], s', st);
    }
  }

  // ---------- ops a worker has seen ----------

  // The position in the worker's window that slot i stands for.
  function PosOf(wk: Worker, i: nat): (p: nat)
    requires i < RING
    ensures wk.tail <= p < wk.tail + RING && Ix(p) == i
  {
    wk.tail + (i + RING - Ix(wk.tail)) % RING
  }

  // The op was published into this slot.
  ghost predicate Placed(s: State, op: Op, pl: Place) {
    match op
    case StreamOp(st, q, _) => st < |s.streams| && q in s.streams[st].home && s.streams[st].home[q] == pl
    case AsyncOp(f, _) => f in s.futureHome && s.futureHome[f] == pl
  }

  // Its future is completed; its gate has been let go.
  ghost predicate Finished(s: State, op: Op) {
    match op
    case StreamOp(st, q, _) => st < |s.streams| && s.streams[st].gate > 2 * q
    case AsyncOp(f, _) => f in s.doneFutures
  }

  // The op's worker has loaded a head beyond it.
  ghost predicate Seen(s: State, op: Op, pl: Place) {
    && Placed(s, op, pl) && HasSlot(s, pl.w, pl.i)
    && PosOf(s.workers[pl.w], pl.i) < s.workers[pl.w].seen
  }

  ghost predicate SameOp(a: Op, b: Op) {
    match a
    case StreamOp(st, q, _) => b.StreamOp? && b.stream == st && b.seqNo == q
    case AsyncOp(f, _) => b.AsyncOp? && b.future == f
  }

  // An unfinished op is still in its slot.
  lemma StillThere(s: State, op: Op, pl: Place)
    requires Inv(s) && Placed(s, op, pl) && !Finished(s, op)
    ensures HasSlot(s, pl.w, pl.i)
    ensures var sl := s.workers[pl.w].slots[pl.i]; Owing(sl) && sl.state != Free && SameOp(op, sl.op)
  {
    match op {
      case StreamOp(st, q, _) => assert LivesAt(s, s.streams[st].home[q], st, q);
      case AsyncOp(f, _) => assert FutureLives(s, s.futureHome[f], f);
    }
    assert RingOk(s.workers[pl.w], MarkedAt(s, pl.w));
    assert PhaseOk(s.workers[pl.w], pl.i);
  }

  // Its worker has not left its loop.
  lemma SeenIsServed(s: State, op: Op, pl: Place)
    requires Inv(s) && Seen(s, op, pl) && !Finished(s, op)
    ensures s.workers[pl.w].stage != Exited
  {
    assert RingOk(s.workers[pl.w], MarkedAt(s, pl.w));
  }

  // The window moves forward, and past freed slots only.
  ghost predicate Advances(wk: Worker, wk': Worker)
    requires |wk.slots| == RING
  {
    && wk.seen <= wk'.seen
    && (wk'.tail == wk.tail || (wk'.tail == wk.tail + 1 && wk.slots[Ix(wk.tail)].state == Free))
  }

  lemma LocalAdvances(wk: Worker, step: Step, stop: bool, marked: bool)
    requires RingOk(wk, marked) && IsLocal(step) && LocalEnabled(wk, step)
    ensures Advances(wk, WorkerStep(wk, step, stop))
  {
  }

  lemma SharedAdvances(s: State, step: Step, w: nat)
    requires WellFormed(s) && !IsLocal(step) && SharedEnabled(s, step) && w < |s.workers|
    ensures Advances(s.workers[w], ApplyShared(s, step).workers[w])
  {
    if step.Visit? { VisitAdvances(s, step.w, step.n, w); }
  }

  lemma VisitAdvances(s: State, v: nat, n: nat, w: nat)
    requires WellFormed(s) && SharedEnabled(s, Visit(v, n)) && w < |s.workers|
    ensures Advances(s.workers[w], VisitSlot(s, v, n).workers[w])
  {
    match Current(s.workers[v]).state
    case Free =>
    case Pending => assert DispatchAdvances(s.workers[v], n);
    case InFlight =>
  }

  ghost predicate DispatchAdvances(wk: Worker, n: nat)
    requires |wk.slots| == RING
  {
    Dispatch(wk, n).seen == wk.seen && Dispatch(wk, n).tail == wk.tail
  }

  lemma LocalStepAdvances(s: State, step: Step)
    requires WellFormed(s) && RingInv(s) && IsLocal(step) && Enabled(s, step)
    ensures Advances(s.workers[step.w], WorkerStep(s.workers[step.w], step, s.stop))
  {
    assert RingOk(s.workers[step.w], MarkedAt(s, step.w));
    LocalAdvances(s.workers[step.w], step, s.stop, MarkedAt(s, step.w));
  }

  lemma StepAdvances(s: State, step: Step, w: nat)
    requires WellFormed(s) && RingInv(s) && Enabled(s, step) && w < |s.workers|
    ensures Advances(s.workers[w], Apply(s, step).workers[w])
  {
    if IsLocal(step) {
      LocalStepAdvances(s, step);
    } else {
      SharedAdvances(s, step, w);
    }
  }

  lemma SameSpot(wk: Worker, wk': Worker, i: nat)
    requires |wk.slots| == RING && Advances(wk, wk') && i < RING && wk.slots[i].state != Free
    ensures PosOf(wk', i) == PosOf(wk, i)
  {
    var p, p' := PosOf(wk, i), PosOf(wk', i);
    assert wk'.tail == wk.tail + 1 ==> p != wk.tail;
    if p < p' { IxApart(p, p'); } else if p' < p { IxApart(p', p); }
  }

  lemma GateNeverBack(s: State, step: Step, st: nat)
    requires Inv(s) && WindowOk(s) && Enabled(s, step) && st < |s.streams|
    ensures s.streams[st].gate <= Apply(s, step).streams[st].gate
  {
    if !IsLocal(step) { GateMoves(s, step, st); }
  }

  lemma FinishedStays(s: State, step: Step, op: Op)
    requires Inv(s) && WindowOk(s) && Enabled(s, step) && Finished(s, op)
    ensures Finished(Apply(s, step), op)
  {
    match op
    case StreamOp(st, _, _) => GateNeverBack(s, step, st);
    case AsyncOp(_, _) => StepFutures(s, step);
  }

  // An op its worker has seen is finished, or stays seen.
  lemma SeenKept(s: State, step: Step, op: Op, pl: Place)
    requires Inv(s) && WindowOk(s) && Enabled(s, step) && Seen(s, op, pl)
    ensures Finished(Apply(s, step), op) || Seen(Apply(s, step), op, pl)
  {
    if Finished(s, op) {
      FinishedStays(s, step, op);
    } else {
      StillThere(s, op, pl);
      StepAdvances(s, step, pl.w);
      SameSpot(s.workers[pl.w], Apply(s, step).workers[pl.w], pl.i);
      match op
      case StreamOp(st, _, _) => StreamRemembers(s, step, st);
      case AsyncOp(_, _) => StepFutures(s, step);
    }
  }
}
