/**
  The device commands of a read: those it has still to issue, those on the device and those
  that have called back are together all it was to issue, unless one of them failed.
 */
module GateCommands {
  import opened GateModel
  import opened GateInvariant
  import GatePreserve
  import opened GateWorkers
  import opened GateQueue
  import opened GateRuns

  // The commands a slot's read has on the device.
  function OnTheWay(sl: Slot): nat {
    sl.out + if sl.bounce == OnDevice || sl.bounce == Landed then 1 else 0
  }

  // A read in flight, of a stream or not.
  ghost predicate Flying(sl: Slot) {
    sl.state == InFlight && sl.phase == Dispatched
  }

  ghost predicate CommandsOk(sl: Slot, starting: bool) {
    Flying(sl) ==>
      && sl.err == sl.effort.failed
      && (!starting ==> sl.todo == 0)
      && (sl.effort.failed || sl.effort.called + OnTheWay(sl) + sl.todo == sl.effort.planned)
  }

  ghost predicate StartingAt(wk: Worker, i: nat) {
    wk.stage == Starting && Ix(wk.pos) == i
  }

  ghost predicate RingCommands(wk: Worker) {
    forall i :: 0 <= i < |wk.slots| ==> CommandsOk(wk.slots[i], StartingAt(wk, i))
  }

  ghost predicate CommandInv(s: State) {
    forall w :: 0 <= w < |s.workers| ==> RingCommands(s.workers[w])
  }

  lemma InitCommands(s: State)
    requires Init(s)
    ensures CommandInv(s)
  {
    forall w | 0 <= w < |s.workers| ensures RingCommands(s.workers[w]) {
      assert InitWorker(s.workers[w]);
    }
  }

  // ---------- one worker at a time ----------

  lemma OneWorkerCommands(s: State, w: nat, s': State)
    requires CommandInv(s) && w < |s.workers| == |s'.workers| && s'.workers == s.workers[w := s'.workers[w]]
    requires RingCommands(s'.workers[w])
    ensures CommandInv(s')
  {
  }

  // One slot is replaced, the worker's loop stays where it is.
  lemma SlotCommands(wk: Worker, i: nat, wk': Worker)
    requires RingCommands(wk) && i < |wk.slots| == |wk'.slots| && wk'.slots == wk.slots[i := wk'.slots[i]]
    requires wk'.stage == wk.stage && wk'.pos == wk.pos
    requires CommandsOk(wk'.slots[i], StartingAt(wk', i))
    ensures RingCommands(wk')
  {
  }

  // The loop moves on from a slot with nothing left to issue.
  lemma MoveCommands(wk: Worker, i: nat, wk': Worker)
    requires RingCommands(wk) && i == Ix(wk.pos) && i < |wk.slots| == |wk'.slots|
    requires wk'.slots == wk.slots[i := wk'.slots[i]] && wk'.stage != Starting
    requires Flying(wk'.slots[i]) ==> wk'.slots[i] == wk.slots[i] && (wk.stage == Starting ==> wk.slots[i].todo == 0)
    ensures RingCommands(wk')
  {
    forall k | 0 <= k < |wk'.slots| ensures CommandsOk(wk'.slots[k], false) {
      assert CommandsOk(wk.slots[k], StartingAt(wk, k));
    }
  }

  lemma CallbackCommands(wk: Worker, step: Step, stop: bool)
    requires |wk.slots| == RING && RingCommands(wk) && (step.Callback? || step.CallbackTail?) && LocalEnabled(wk, step)
    ensures RingCommands(WorkerStep(wk, step, stop))
  {
    assert CommandsOk(wk.slots[step.i], StartingAt(wk, step.i));
    SlotCommands(wk, step.i, WorkerStep(wk, step, stop));
  }

  lemma IssueCommands(wk: Worker, step: Step, stop: bool)
    requires |wk.slots| == RING && RingCommands(wk) && (step.Submit? || step.SubmitBusy? || step.SubmitFail?)
    requires LocalEnabled(wk, step)
    ensures RingCommands(WorkerStep(wk, step, stop))
  {
    assert CommandsOk(Current(wk), true);
    SlotCommands(wk, Ix(wk.pos), WorkerStep(wk, step, stop));
  }

  lemma LoopCommands(wk: Worker, step: Step, stop: bool)
    requires |wk.slots| == RING && RingCommands(wk) && IsLocal(step) && LocalEnabled(wk, step)
    requires !step.Callback? && !step.CallbackTail? && !step.Submit? && !step.SubmitBusy? && !step.SubmitFail?
    ensures RingCommands(WorkerStep(wk, step, stop))
  {
    MoveCommands(wk, Ix(wk.pos), WorkerStep(wk, step, stop));
  }

  lemma LocalCommands(s: State, step: Step)
    requires WellFormed(s) && CommandInv(s) && IsLocal(step) && Enabled(s, step)
    ensures CommandInv(Apply(s, step))
  {
    var wk := s.workers[step.w];
    if step.Callback? || step.CallbackTail? {
      CallbackCommands(wk, step, s.stop);
    } else if step.Submit? || step.SubmitBusy? || step.SubmitFail? {
      IssueCommands(wk, step, s.stop);
    } else {
      LoopCommands(wk, step, s.stop);
    }
    OneWorkerCommands(s, step.w, Apply(s, step));
  }

  // ---------- the other steps ----------

  lemma DispatchCommands(wk: Worker, n: nat)
    requires |wk.slots| == RING && RingCommands(wk) && wk.stage == Sweep && Current(wk).state == Pending
    ensures RingCommands(Dispatch(wk, n))
  {
    var wk' := Dispatch(wk, n);
    forall k | 0 <= k < RING ensures CommandsOk(wk'.slots[k], StartingAt(wk', k)) {
      assert CommandsOk(wk.slots[k], false);
    }
  }

  // What a visit makes of its worker.
  lemma VisitIs(s: State, w: nat, n: nat) returns (wk': Worker)
    requires WellFormed(s) && SharedEnabled(s, Visit(w, n))
    ensures VisitSlot(s, w, n).workers == s.workers[w := wk']
    ensures || (wk'.slots == s.workers[w].slots && wk'.stage != Starting)
            || (Current(s.workers[w]).state == Pending && wk' == Dispatch(s.workers[w], n))
  {
    wk' := VisitSlot(s, w, n).workers[w];
  }

  lemma VisitCommands(s: State, w: nat, n: nat)
    requires WellFormed(s) && CommandInv(s) && SharedEnabled(s, Visit(w, n))
    ensures CommandInv(VisitSlot(s, w, n))
  {
    var wk' := VisitIs(s, w, n);
    if wk'.slots == s.workers[w].slots && wk'.stage != Starting {
      MoveCommands(s.workers[w], Ix(s.workers[w].pos), wk');
    } else {
      DispatchCommands(s.workers[w], n);
    }
    OneWorkerCommands(s, w, VisitSlot(s, w, n));
  }

  lemma SubmitTailCommands(s: State, w: nat, t: Tail)
    requires WellFormed(s) && RingInv(s) && CommandInv(s) && SharedEnabled(s, SubmitTail(w, t))
    ensures CommandInv(TailSubmitted(s, w, t))
  {
    var wk, i := s.workers[w], Ix(s.workers[w].pos);
    assert RingOk(wk, MarkedAt(s, w)) && PhaseOk(wk, i) && CommandsOk(wk.slots[i], true);
    SlotCommands(wk, i, TailSubmitted(s, w, t).workers[w]);
    OneWorkerCommands(s, w, TailSubmitted(s, w, t));
  }

  lemma LandCommands(s: State, w: nat, i: nat)
    requires WellFormed(s) && CommandInv(s) && SharedEnabled(s, DmaLand(w, i))
    ensures CommandInv(TailLanded(s, w, i))
  {
    assert CommandsOk(s.workers[w].slots[i], StartingAt(s.workers[w], i));
    SlotCommands(s.workers[w], i, TailLanded(s, w, i).workers[w]);
    OneWorkerCommands(s, w, TailLanded(s, w, i));
  }

  lemma ReleaseCommands(s: State, w: nat)
    requires WellFormed(s) && CommandInv(s) && SharedEnabled(s, Release(w))
    ensures CommandInv(ReleaseSlot(s, w))
  {
    var wk' := ReleaseSlot(s, w).workers[w];
    MoveCommands(s.workers[w], Ix(s.workers[w].pos), wk');
    OneWorkerCommands(s, w, ReleaseSlot(s, w));
  }

  lemma ClaimCommands(s: State, op: Op, s': State)
    requires Inv(s) && CommandInv(s) && s.lock.Unlocked? && RingHasRoom(s.workers[Routed(s)])
    requires s'.workers == Claim(s, op).workers
    ensures CommandInv(s')
  {
    var w := Routed(s);
    ClaimedSlotNotFlying(s, w);
    SlotCommands(s.workers[w], Ix(s.workers[w].head), s'.workers[w]);
    OneWorkerCommands(s, w, s');
  }

  lemma ClaimedSlotNotFlying(s: State, w: nat)
    requires Inv(s) && w < |s.workers| && s.lock.Unlocked? && RingHasRoom(s.workers[w])
    ensures !Flying(s.workers[w].slots[Ix(s.workers[w].head)])
  {
    GatePreserve.ClaimedSlotIsDead(s, w);
  }

  lemma MarkCommands(s: State)
    requires WellFormed(s) && CommandInv(s) && SharedEnabled(s, MarkPending)
    ensures CommandInv(Mark(s))
  {
    SlotCommands(s.workers[s.lock.w], Ix(s.workers[s.lock.w].head), Mark(s).workers[s.lock.w]);
    OneWorkerCommands(s, s.lock.w, Mark(s));
  }

  lemma PublishCommands(s: State)
    requires WellFormed(s) && CommandInv(s) && SharedEnabled(s, PublishHead)
    ensures CommandInv(Publish(s))
  {
    SlotCommands(s.workers[s.lock.w], 0, Publish(s).workers[s.lock.w]);
    OneWorkerCommands(s, s.lock.w, Publish(s));
  }

  // Steps on queues and buffers only.
  lemma QueueStepWorkers(s: State, step: Step)
    requires WellFormed(s)
    requires step.EnqWrite? || step.EnqWait? || step.EnqHost? || step.EnqCopy? || step.EnqUser? || step.GpuStep?
             || step.DmaPart? || step.StopDriver? || step.ClaimFull?
    requires SharedEnabled(s, step)
    ensures ApplyShared(s, step).workers == s.workers
  {
  }

  lemma ClaimStepCommands(s: State, step: Step)
    requires Inv(s) && CommandInv(s) && (step.ClaimStream? || step.ClaimAsync?) && SharedEnabled(s, step)
    ensures CommandInv(ApplyShared(s, step))
  {
    var op := if step.ClaimStream? then StreamOp(step.st, s.streams[step.st].nextSeq + 1, step.write)
              else AsyncOp(s.nextFuture, step.write);
    ClaimCommands(s, op, ApplyShared(s, step));
  }

  lemma StepCommands(s: State, step: Step)
    requires Inv(s) && CommandInv(s) && Enabled(s, step)
    ensures CommandInv(Apply(s, step))
  {
    if IsLocal(step) {
      LocalCommands(s, step);
    } else if step.Visit? {
      VisitCommands(s, step.w, step.n);
    } else if step.SubmitTail? {
      SubmitTailCommands(s, step.w, step.t);
    } else if step.DmaLand? {
      LandCommands(s, step.w, step.i);
    } else if step.Release? {
      ReleaseCommands(s, step.w);
    } else if step.ClaimStream? || step.ClaimAsync? {
      ClaimStepCommands(s, step);
    } else if step.MarkPending? {
      MarkCommands(s);
    } else if step.PublishHead? {
      PublishCommands(s);
    } else {
      QueueStepWorkers(s, step);
    }
  }

  lemma {:induction false} RunCommands(s: State, steps: seq<Step>, s': State)
    requires Inv(s) && QueueInv(s) && CommandInv(s) && BudgetRun(s, steps, s')
    ensures CommandInv(s')
    decreases |steps|
  {
    if steps != [] {
      WindowFromBudget(s);
      StepKept(s, steps[0]);
      QueueKept(s, steps[0]);
      StepCommands(s, steps[0]);
      RunCommands(Apply(s, steps[0]), steps[1..], s');
    }
  }

  /**
    A read is released only when nothing of it is left to issue or on the device, and then
    either a command of it failed, and that is noted, or every one of its commands has been
    issued and has called back.
   */
  lemma ReleasedWhenComplete(s: State, w: nat)
    requires Reachable(s) && WellFormed(s) && HasWorker(s, w, Finishing) && !Current(s.workers[w]).op.write
    ensures var sl := Current(s.workers[w]);
            && sl.todo == 0 && OnTheWay(sl) == 0 && sl.err == sl.effort.failed
            && (!sl.err ==> sl.effort.called == sl.effort.planned)
  {
    var s0, steps :| Init(s0) && BudgetRun(s0, steps, s);
    InitInv(s0);
    InitQueue(s0);
    InitCommands(s0);
    RunCommands(s0, steps, s);
    ReachableInv(s);
    var wk, i := s.workers[w], Ix(s.workers[w].pos);
    assert RingOk(wk, MarkedAt(s, w)) && PhaseOk(wk, i);
    assert RingCommands(wk) && CommandsOk(wk.slots[i], StartingAt(wk, i));
  }
}
