/**
  What a worker does to its own ring: each of its steps keeps the ring invariant and
  leaves every op that still owes its release alone.
 */
module GateRing {
  import opened Words
  import opened GateModel
  import opened GateInvariant

  // The same ops owe their release, in the same slots and the same phase.
  ghost predicate SameDuties(wk: Worker, wk': Worker) {
    && |wk.slots| == RING && |wk'.slots| == RING
    && wk'.head == wk.head
    && forall i :: 0 <= i < RING ==>
         && wk'.slots[i].op == wk.slots[i].op
         && (Owing(wk'.slots[i]) <==> Owing(wk.slots[i]))
         && (Owing(wk.slots[i]) ==> wk'.slots[i].phase == wk.slots[i].phase)
  }

  // Two positions of one window have two slots.
  lemma IxApart(p: nat, q: nat)
    requires p < q < p + RING
    ensures Ix(p) != Ix(q)
  {
  }

  lemma IxCovers(t: nat, i: nat) returns (p: nat)
    requires i < RING
    ensures t <= p < t + RING && Ix(p) == i
  {
    p := t + (i + RING - Ix(t)) % RING;
  }

  // Replacing one live slot inside the window by another live one.
  lemma SlotUpdate(wk: Worker, wk': Worker, p: nat, marked: bool)
    requires RingOk(wk, marked)
    requires wk.tail <= p < wk.seen && wk.slots[Ix(p)].state != Free
    requires |wk'.slots| == RING
    requires wk' == wk.(slots := wk.slots[Ix(p) := wk'.slots[Ix(p)]], stage := wk'.stage, pos := wk'.pos,
             busy := wk'.busy,
                    free := wk'.free)
    requires PosOk(wk')
    requires forall i :: 0 <= i < RING ==> PhaseOk(wk', i)
    ensures RingOk(wk', marked)
  {
    forall r | wk.seen <= r < wk.tail + RING ensures wk'.slots[Ix(r)] == wk.slots[Ix(r)] {
      IxApart(p, r);
    }
  }

  lemma VisitRing(wk: Worker, marked: bool)
    requires RingOk(wk, marked) && wk.stage == Sweep && Word(wk.pos) != Word(wk.seen)
    ensures wk.pos < wk.seen
    ensures RingOk(Advance(wk), marked) && RingOk(Advance(wk).(busy := true), marked)
    ensures Current(wk).state == InFlight && Quiet(Current(wk)) ==> RingOk(wk.(stage := Finishing), marked)
  {
    assert wk.pos != wk.seen;
    assert PhaseOk(wk, Ix(wk.pos));
    forall i | 0 <= i < RING
      ensures PhaseOk(Advance(wk), i) && PhaseOk(Advance(wk).(busy := true), i) && PhaseOk(wk.(stage := Finishing), i)
    {
      assert PhaseOk(wk, i);
    }
  }

  lemma DispatchRing(wk: Worker, marked: bool, n: nat)
    requires RingOk(wk, marked) && wk.stage == Sweep && wk.pos < wk.seen && Current(wk).state == Pending
    ensures Current(wk).phase == Waiting && RingOk(Dispatch(wk, n), marked)
  {
    var wk' := Dispatch(wk, n);
    assert PhaseOk(wk, Ix(wk.pos));
    forall i | 0 <= i < RING ensures PhaseOk(wk', i) {
      assert PhaseOk(wk, i);
    }
    SlotUpdate(wk, wk', wk.pos, marked);
  }

  lemma ReleaseRing(wk: Worker, marked: bool)
    requires RingOk(wk, marked) && wk.stage == Finishing
    ensures RingOk(SetSlot(wk, Ix(wk.pos), Current(wk).(phase := Released)).(stage := Freeing), marked)
  {
    var wk' := SetSlot(wk, Ix(wk.pos), Current(wk).(phase := Released)).(stage := Freeing);
    forall i | 0 <= i < RING ensures PhaseOk(wk', i) {
      assert PhaseOk(wk, i);
    }
    SlotUpdate(wk, wk', wk.pos, marked);
  }

  lemma FreeRing(wk: Worker, marked: bool)
    requires RingOk(wk, marked) && wk.stage == Freeing
    ensures RingOk(Advance(SetSlot(wk, Ix(wk.pos), Current(wk).(state := Free, phase := Idle))), marked)
  {
    var wk' := Advance(SetSlot(wk, Ix(wk.pos), Current(wk).(state := Free, phase := Idle)));
    forall i | 0 <= i < RING ensures PhaseOk(wk', i) {
      assert PhaseOk(wk, i);
    }
    SlotUpdate(wk, wk', wk.pos, marked);
  }

  // Changing the submission counters of a read in flight.
  lemma CountersRing(wk: Worker, i: nat, sl: Slot, free: nat, marked: bool)
    requires RingOk(wk, marked) && i < RING
    requires wk.slots[i].state == InFlight && sl.state == InFlight
    requires sl.op == wk.slots[i].op && sl.phase == wk.slots[i].phase && BounceKnown(sl)
    requires Active(wk) && Ix(wk.pos) == i ==> wk.stage == Starting || Quiet(sl)
    ensures RingOk(SetSlot(wk, i, sl).(free := free), marked)
  {
    var wk' := SetSlot(wk, i, sl).(free := free);
    forall j | 0 <= j < RING ensures PhaseOk(wk', j) {
      assert PhaseOk(wk, j);
    }
    var p := IxCovers(wk.tail, i);
    assert PhaseOk(wk, i);
    assert p < wk.seen;
    SlotUpdate(wk, wk', p, marked);
  }

  // The position a whole ring ahead has the same slot.
  lemma IxWraps(t: nat)
    ensures Ix(t + RING) == Ix(t)
  {
  }

  lemma RetireRing(wk: Worker, marked: bool)
    requires RingOk(wk, marked) && wk.stage == Retire
    ensures Word(wk.tail) != Word(wk.seen) && wk.slots[Ix(wk.tail)].state == Free ==>
              wk.tail < wk.seen && RingOk(wk.(tail := wk.tail + 1), marked)
    ensures Word(wk.tail) == Word(wk.seen) <==> wk.tail == wk.seen
  {
    WordEqIsEq(wk.tail, wk.seen);
    if wk.tail != wk.seen && wk.slots[Ix(wk.tail)].state == Free {
      TailFreed(wk, marked);
    }
  }

  lemma TailFreed(wk: Worker, marked: bool)
    requires RingOk(wk, marked) && wk.stage == Retire && wk.tail < wk.seen && wk.slots[Ix(wk.tail)].state == Free
    ensures RingOk(wk.(tail := wk.tail + 1), marked)
  {
    var wk' := wk.(tail := wk.tail + 1);
    IxWraps(wk.tail);
    forall p | wk'.head + (if marked then 1 else 0) <= p < wk'.tail + RING ensures wk'.slots[Ix(p)].state == Free {
      if p < wk.tail + RING { assert wk.slots[Ix(p)].state == Free; }
    }
    forall i | 0 <= i < RING ensures PhaseOk(wk', i) { assert PhaseOk(wk, i); }
    assert PosOk(wk');
  }

  lemma StageOnlyRing(wk: Worker, wk': Worker, marked: bool)
    requires RingOk(wk, marked)
    requires wk' == wk.(stage := wk'.stage, pos := wk'.pos, seen := wk'.seen, busy := wk'.busy)
    requires !Active(wk) && wk.seen <= wk'.seen <= wk.head
    requires !Active(wk') && PosOk(wk')
    ensures RingOk(wk', marked)
  {
    forall i | 0 <= i < RING ensures PhaseOk(wk', i) {
      assert PhaseOk(wk, i);
    }
  }

  lemma EndStartRing(wk: Worker, marked: bool)
    requires RingOk(wk, marked) && wk.stage == Starting
    ensures RingOk(Advance(wk), marked)
  {
    forall i | 0 <= i < RING ensures PhaseOk(Advance(wk), i) {
      assert PhaseOk(wk, i);
    }
  }

  lemma WriteDoneRing(wk: Worker, marked: bool)
    requires RingOk(wk, marked) && wk.stage == Writing
    ensures RingOk(wk.(stage := Finishing), marked)
  {
    forall i | 0 <= i < RING ensures PhaseOk(wk.(stage := Finishing), i) {
      assert PhaseOk(wk, i);
    }
  }

  lemma LocalStepDuties(wk: Worker, step: Step, stop: bool, marked: bool)
    requires RingOk(wk, marked) && IsLocal(step) && LocalEnabled(wk, step)
    ensures SameDuties(wk, WorkerStep(wk, step, stop))
  {
  }

  lemma CounterStepRing(wk: Worker, step: Step, stop: bool, marked: bool)
    requires RingOk(wk, marked) && IsLocal(step) && LocalEnabled(wk, step)
    requires step.Submit? || step.SubmitBusy? || step.SubmitFail? || step.Callback? || step.CallbackTail?
    ensures RingOk(WorkerStep(wk, step, stop), marked)
  {
    var i := if step.Callback? || step.CallbackTail? then step.i else Ix(wk.pos);
    var wk' := WorkerStep(wk, step, stop);
    assert PhaseOk(wk, i);
    assert step.SubmitBusy? ==> wk.slots[i := wk.slots[i]] == wk.slots;
    CountersRing(wk, i, wk'.slots[i], wk'.free, marked);
  }

  lemma StageStepRing(wk: Worker, step: Step, stop: bool, marked: bool)
    requires RingOk(wk, marked) && IsLocal(step) && LocalEnabled(wk, step)
    requires step.SweepEnd? || step.LoadHead? || step.RetireEnd? || step.DecideStep? || step.PokeEnd?
    ensures RingOk(WorkerStep(wk, step, stop), marked)
  {
    if step.RetireEnd? { WordEqIsEq(wk.tail, wk.seen); }
    StageOnlyRing(wk, WorkerStep(wk, step, stop), marked);
  }

  lemma MoveStepRing(wk: Worker, step: Step, stop: bool, marked: bool)
    requires RingOk(wk, marked) && IsLocal(step) && LocalEnabled(wk, step)
    requires step.EndStart? || step.WriteDone? || step.FreeSlot? || step.RetireOne?
    ensures RingOk(WorkerStep(wk, step, stop), marked)
  {
    if step.EndStart? {
      EndStartRing(wk, marked);
    } else if step.WriteDone? {
      WriteDoneRing(wk, marked);
    } else if step.FreeSlot? {
      FreeRing(wk, marked);
    } else {
      RetireRing(wk, marked);
    }
  }

  lemma LocalStepRing(wk: Worker, step: Step, stop: bool, marked: bool)
    requires RingOk(wk, marked) && IsLocal(step) && LocalEnabled(wk, step)
    ensures RingOk(WorkerStep(wk, step, stop), marked)
  {
    if step.Submit? || step.SubmitBusy? || step.SubmitFail? || step.Callback? || step.CallbackTail? {
      CounterStepRing(wk, step, stop, marked);
    } else if step.EndStart? || step.WriteDone? || step.FreeSlot? || step.RetireOne? {
      MoveStepRing(wk, step, stop, marked);
    } else {
      StageStepRing(wk, step, stop, marked);
    }
  }
}
