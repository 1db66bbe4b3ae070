/**
  The command contexts of a worker's device queue: every context is either free or held by
  a command whose callback has not run, so a worker that finds none has something to wait for.
 */
module GateQueue {
  import opened GateModel
  import opened GateInvariant

  // ---------- sums ----------

  ghost function Total<T>(xs: seq<T>, f: T -> nat): nat {
    if xs == [] then 0 else Total(xs[..|xs| - 1], f) + f(xs[|xs| - 1])
  }

  lemma {:induction false} TotalUpdate<T>(xs: seq<T>, f: T -> nat, i: nat, x: T)
    requires i < |xs|
    ensures Total(xs[i := x], f) + f(xs[i]) == Total(xs, f) + f(x)
  {
    var ys := xs[i := x];
    if i == |xs| - 1 {
      assert ys[..|ys| - 1] == xs[..|xs| - 1];
    } else {
      assert ys[..|ys| - 1] == xs[..|xs| - 1][i := x];
      TotalUpdate(xs[..|xs| - 1], f, i, x);
    }
  }

  lemma {:induction false} TotalHead<T>(xs: seq<T>, f: T -> nat)
    requires xs != []
    ensures Total(xs, f) == f(xs[0]) + Total(xs[1..], f)
  {
    if |xs| > 1 {
      assert xs[1..][..|xs| - 2] == xs[..|xs| - 1][1..];
      TotalHead(xs[..|xs| - 1], f);
    } else {
      assert xs[..0] == [] == xs[1..];
    }
  }

  ghost function First<T>(xs: seq<T>, p: T -> bool): (r: nat)
    ensures r <= |xs|
    ensures forall i :: 0 <= i < r ==> !p(xs[i])
    ensures r < |xs| ==> p(xs[r])
  {
    if xs == [] || p(xs[0]) then 0 else 1 + First(xs[1..], p)
  }

  // ---------- contexts ----------

  // The contexts an op holds.
  function SlotOut(sl: Slot): nat {
    sl.out + if sl.bounce == OnDevice || sl.bounce == Landed then 1 else 0
  }

  ghost predicate QueueOk(wk: Worker) {
    && |wk.slots| == RING && wk.depth > 0
    && wk.free + Total(wk.slots, SlotOut) == wk.depth
    && forall i :: 0 <= i < RING && wk.slots[i].state != InFlight ==> Quiet(wk.slots[i])
  }

  ghost predicate QueueInv(s: State) {
    forall w :: 0 <= w < |s.workers| ==> QueueOk(s.workers[w])
  }

  lemma {:induction false} QuietTotal(slots: seq<Slot>)
    requires forall i :: 0 <= i < |slots| ==> SlotOut(slots[i]) == 0
    ensures Total(slots, SlotOut) == 0
  {
    if slots != [] { QuietTotal(slots[..|slots| - 1]); }
  }

  // Without a free context some op has a command outstanding.
  lemma FullQueueHasWork(wk: Worker)
    requires QueueOk(wk) && wk.free == 0
    ensures First(wk.slots, HasOut) < RING
  {
    if First(wk.slots, HasOut) == RING {
      forall i | 0 <= i < RING ensures SlotOut(wk.slots[i]) == 0 {
        assert !HasOut(wk.slots[i]);
      }
      QuietTotal(wk.slots);
    }
  }

  predicate HasOut(sl: Slot) {
    SlotOut(sl) > 0
  }

  lemma InitQueue(s: State)
    requires Init(s)
    ensures QueueInv(s)
  {
    forall w | 0 <= w < |s.workers| ensures QueueOk(s.workers[w]) {
      assert InitWorker(s.workers[w]);
      forall i | 0 <= i < RING ensures SlotOut(s.workers[w].slots[i]) == 0 {
        assert InitSlot(s.workers[w].slots[i]);
      }
      QuietTotal(s.workers[w].slots);
    }
  }

  // One slot changes, and the free contexts with it.
  lemma SlotQueue(wk: Worker, wk': Worker, i: nat)
    requires QueueOk(wk) && i < RING && |wk'.slots| == RING && wk'.depth == wk.depth
    requires wk'.slots == wk.slots[i := wk'.slots[i]]
    requires wk'.free + SlotOut(wk'.slots[i]) == wk.free + SlotOut(wk.slots[i])
    requires wk'.slots[i].state != InFlight ==> Quiet(wk'.slots[i])
    ensures QueueOk(wk')
  {
    TotalUpdate(wk.slots, SlotOut, i, wk'.slots[i]);
    forall j | 0 <= j < RING && wk'.slots[j].state != InFlight ensures Quiet(wk'.slots[j]) {
      if j != i { assert wk'.slots[j] == wk.slots[j]; }
    }
  }

  lemma LocalQueue(wk: Worker, step: Step, stop: bool, marked: bool)
    requires RingOk(wk, marked) && QueueOk(wk) && IsLocal(step) && LocalEnabled(wk, step)
    ensures QueueOk(WorkerStep(wk, step, stop))
  {
    var wk' := WorkerStep(wk, step, stop);
    if step.Submit? || step.SubmitFail? || step.FreeSlot? {
      SlotQueue(wk, wk', Ix(wk.pos));
    } else if step.Callback? || step.CallbackTail? {
      SlotQueue(wk, wk', step.i);
    }
  }

  lemma WorkerQueue(s: State, w: nat, wk': Worker)
    requires QueueInv(s) && w < |s.workers| && QueueOk(wk')
    ensures QueueInv(SetWorker(s, w, wk'))
  {
  }

  lemma ClaimQueue(s: State, op: Op)
    requires WellFormed(s) && QueueInv(s)
    ensures QueueInv(Claim(s, op))
  {
    var w := Routed(s);
    var wk := s.workers[w];
    var i := Ix(wk.head);
    assert QueueOk(wk);
    SlotQueue(wk, SetSlot(wk, i, wk.slots[i].(op := op)), i);
  }

  lemma MarkQueue(s: State)
    requires Inv(s) && QueueInv(s) && SharedEnabled(s, MarkPending)
    ensures QueueInv(Mark(s))
  {
    var wk := s.workers[s.lock.w];
    var i := Ix(wk.head);
    assert QueueOk(wk);
    assert RingOk(wk, MarkedAt(s, s.lock.w));
    var wk' := SetSlot(wk, i, wk.slots[i].(state := Pending, phase := Waiting));
    assert wk.slots[i].state == Free;
    SlotQueue(wk, wk', i);
  }

  lemma DispatchQueue(wk: Worker, n: nat)
    requires QueueOk(wk) && Current(wk).state == Pending
    ensures QueueOk(Dispatch(wk, n))
  {
    SlotQueue(wk, Dispatch(wk, n), Ix(wk.pos));
  }

  lemma VisitQueue(s: State, w: nat, n: nat)
    requires QueueInv(s) && WellFormed(s) && SharedEnabled(s, Visit(w, n))
    ensures QueueInv(VisitSlot(s, w, n))
  {
    assert QueueOk(s.workers[w]);
    if Current(s.workers[w]).state == Pending {
      DispatchQueue(s.workers[w], n);
    }
  }

  lemma SubmitTailQueue(s: State, w: nat, t: Tail)
    requires Inv(s) && QueueInv(s) && SharedEnabled(s, SubmitTail(w, t))
    ensures QueueInv(TailSubmitted(s, w, t))
  {
    var wk := s.workers[w];
    assert RingOk(wk, MarkedAt(s, w)) && QueueOk(wk);
    assert PhaseOk(wk, Ix(wk.pos));
    SlotQueue(wk, TailSubmitted(s, w, t).workers[w], Ix(wk.pos));
  }

  lemma DmaLandQueue(s: State, w: nat, i: nat)
    requires QueueInv(s) && WellFormed(s) && SharedEnabled(s, DmaLand(w, i))
    ensures QueueInv(TailLanded(s, w, i))
  {
    assert QueueOk(s.workers[w]);
    SlotQueue(s.workers[w], TailLanded(s, w, i).workers[w], i);
  }

  lemma ReleaseQueue(s: State, w: nat)
    requires QueueInv(s) && WellFormed(s) && SharedEnabled(s, Release(w))
    ensures QueueInv(ReleaseSlot(s, w))
  {
    assert QueueOk(s.workers[w]);
    SlotQueue(s.workers[w], ReleaseSlot(s, w).workers[w], Ix(s.workers[w].pos));
  }

  // Steps that touch no slot.
  lemma OtherQueue(s: State, step: Step)
    requires WellFormed(s) && QueueInv(s) && !IsLocal(step) && SharedEnabled(s, step)
    requires step.ClaimFull? || step.PublishHead? || step.EnqWrite? || step.EnqWait? || step.EnqHost? || step.EnqCopy?
             || step.EnqUser? || step.GpuStep? || step.DmaPart? || step.StopDriver?
    ensures QueueInv(ApplyShared(s, step))
  {
  }

  lemma LocalStepQueue(s: State, step: Step)
    requires WellFormed(s) && RingInv(s) && QueueInv(s) && IsLocal(step) && Enabled(s, step)
    ensures QueueInv(Apply(s, step))
  {
    var wk := s.workers[step.w];
    assert RingOk(wk, MarkedAt(s, step.w));
    LocalQueue(wk, step, s.stop, MarkedAt(s, step.w));
    WorkerQueue(s, step.w, WorkerStep(wk, step, s.stop));
  }

  lemma ClaimStepQueue(s: State, step: Step)
    requires WellFormed(s) && QueueInv(s) && (step.ClaimStream? || step.ClaimAsync?) && SharedEnabled(s, step)
    ensures QueueInv(ApplyShared(s, step))
  {
    match step
    case ClaimStream(st, write) => ClaimQueue(s, StreamOp(st, s.streams[st].nextSeq + 1, write));
    case ClaimAsync(write) => ClaimQueue(s, AsyncOp(s.nextFuture, write));
  }

  lemma WorkQueue(s: State, step: Step)
    requires Inv(s) && QueueInv(s) && (step.Visit? || step.SubmitTail? || step.DmaLand? || step.Release?)
             && SharedEnabled(s, step)
    ensures QueueInv(ApplyShared(s, step))
  {
    match step
    case Visit(w, n) => VisitQueue(s, w, n);
    case SubmitTail(w, t) => SubmitTailQueue(s, w, t);
    case DmaLand(w, i) => DmaLandQueue(s, w, i);
    case Release(w) => ReleaseQueue(s, w);
  }

  // Every step keeps the books of the contexts.
  lemma QueueKept(s: State, step: Step)
    requires Inv(s) && QueueInv(s) && Enabled(s, step)
    ensures QueueInv(Apply(s, step))
  {
    if IsLocal(step) {
      LocalStepQueue(s, step);
    } else if step.ClaimStream? || step.ClaimAsync? {
      ClaimStepQueue(s, step);
    } else if step.MarkPending? {
      MarkQueue(s);
    } else if step.Visit? || step.SubmitTail? || step.DmaLand? || step.Release? {
      WorkQueue(s, step);
    } else {
      OtherQueue(s, step);
    }
  }
}
