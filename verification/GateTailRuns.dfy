/**
  When the descriptor is left alone, and what follows for streams on which one thread at a
  time submits reads: every copy is in time, so every kernel copies its own read's tail.
 */
module GateTailRuns {
  import opened Common
  import opened GateModel
  import opened GateInvariant
  import opened GateWorkers
  import opened GateQueue
  import opened GateRuns
  import opened GateTail
  import opened GateDescriptor
  import opened GateOutcomes
  import opened GateCopies

  // ---------- nothing disturbs an awaited descriptor ----------

  ghost predicate SameDescriptor(gs: Stream, gs': Stream) {
    gs'.descDst == gs.descDst && gs'.descLen == gs.descLen && gs'.bounceBuf == gs.bounceBuf
  }

  // From the release of read q until a later read arrives, nothing changes the stream's
  // descriptor or bounce buffer, whichever threads, devices and streams take steps.
  lemma DescriptorStable(s: State, step: Step, st: nat, q: nat) returns (gs': Stream)
    requires Reachable(s) && st < |s.streams| && q in s.streams[st].outcome && LastRead(s.streams[st], q)
    requires WellFormed(s) && Enabled(s, step)
    ensures gs' == Apply(s, step).streams[st]
    ensures SameDescriptor(s.streams[st], gs')
  {
    ReachableAccounted(s);
    OnTimeIsLast(s, st, q);
    gs' := StepLeavesDescriptor(s, step, st);
  }

  lemma StepLeavesDescriptor(s: State, step: Step, st: nat) returns (gs': Stream)
    requires Inv(s) && st < |s.streams| && NoRead(s, st) && Enabled(s, step)
    ensures gs' == Apply(s, step).streams[st] && SameDescriptor(s.streams[st], gs')
  {
    if IsLocal(step) {
      gs' := s.streams[st];
    } else {
      SharedLeavesDescriptor(s, step, st);
      gs' := ApplyShared(s, step).streams[st];
    }
  }

  // Only a read between dispatch and release changes the descriptor, and none is there.
  lemma SharedLeavesDescriptor(s: State, step: Step, st: nat)
    requires Inv(s) && st < |s.streams| && NoRead(s, st) && !IsLocal(step) && SharedEnabled(s, step)
    ensures SameDescriptor(s.streams[st], ApplyShared(s, step).streams[st])
  {
    if step.Visit? {
      VisitLeavesDescriptor(s, step.w, step.n, st);
    } else if step.SubmitTail? {
      SubmitTailLeavesDescriptor(s, step.w, step.t, st);
    } else if step.DmaPart? || step.DmaLand? {
      DmaLeavesDescriptor(s, step, st);
    } else if step.EnqCopy? || step.Release? {
      OthersLeaveDescriptor(s, step, st);
    } else if OfQueues(step) {
      QueueSameDesc(s, step, st);
    } else {
      SubmitLeavesDescriptor(s, step, st);
    }
  }

  // A read in flight that the worker visits is not released.
  lemma VisitedRead(s: State, w: nat, n: nat)
    requires Inv(s) && SharedEnabled(s, Visit(w, n)) && Current(s.workers[w]).state == InFlight
    ensures Current(s.workers[w]).phase == Dispatched && !Current(s.workers[w]).op.write
  {
    VisitFacts(s, w);
    assert RingOk(s.workers[w], MarkedAt(s, w));
    assert PhaseOk(s.workers[w], Ix(s.workers[w].pos));
  }

  lemma VisitLeavesDescriptor(s: State, w: nat, n: nat, st: nat)
    requires Inv(s) && st < |s.streams| && NoRead(s, st) && SharedEnabled(s, Visit(w, n))
    ensures SameDescriptor(s.streams[st], VisitSlot(s, w, n).streams[st])
  {
    assert !ReadsHere(s, w, Ix(s.workers[w].pos), st);
    if Current(s.workers[w]).state == InFlight && Current(s.workers[w]).op.StreamOp? { VisitedRead(s, w, n); }
    VisitElsewhere(s, w, n, st);
  }

  lemma VisitElsewhere(s: State, w: nat, n: nat, st: nat)
    requires WellFormed(s) && SharedEnabled(s, Visit(w, n)) && st < |s.streams|
    requires Current(s.workers[w]).state == InFlight && Current(s.workers[w]).op.StreamOp? ==>
             Current(s.workers[w]).op.stream != st
    ensures SameDescriptor(s.streams[st], VisitSlot(s, w, n).streams[st])
  {
  }

  lemma SubmitTailLeavesDescriptor(s: State, w: nat, t: Tail, st: nat)
    requires Inv(s) && st < |s.streams| && NoRead(s, st) && SharedEnabled(s, SubmitTail(w, t))
    ensures SameDescriptor(s.streams[st], TailSubmitted(s, w, t).streams[st])
  {
    assert RingOk(s.workers[w], MarkedAt(s, w));
    assert !ReadsHere(s, w, Ix(s.workers[w].pos), st);
  }

  lemma DmaLeavesDescriptor(s: State, step: Step, st: nat)
    requires Inv(s) && st < |s.streams| && NoRead(s, st) && (step.DmaPart? || step.DmaLand?) && SharedEnabled(s, step)
    ensures SameDescriptor(s.streams[st], ApplyShared(s, step).streams[st])
  {
    DmaReads(s, step.w, step.i);
    assert !ReadsHere(s, step.w, step.i, st);
    DmaElsewhere(s, step, st);
  }

  lemma DmaElsewhere(s: State, step: Step, st: nat)
    requires WellFormed(s) && (step.DmaPart? || step.DmaLand?) && SharedEnabled(s, step) && st < |s.streams|
    requires s.workers[step.w].slots[step.i].op.stream != st
    ensures SameDescriptor(s.streams[st], ApplyShared(s, step).streams[st])
  {
  }

  // The device writes for a read that is not released.
  lemma DmaReads(s: State, w: nat, i: nat)
    requires WellFormed(s) && RingInv(s) && BouncePending(s, w, i)
    ensures Reading(s.workers[w].slots[i])
  {
    assert RingOk(s.workers[w], MarkedAt(s, w));
    assert PhaseOk(s.workers[w], i);
  }

  lemma OthersLeaveDescriptor(s: State, step: Step, st: nat)
    requires WellFormed(s) && st < |s.streams| && (step.EnqCopy? || step.Release?) && SharedEnabled(s, step)
    ensures SameDescriptor(s.streams[st], ApplyShared(s, step).streams[st])
  {
  }

  lemma SubmitLeavesDescriptor(s: State, step: Step, st: nat)
    requires WellFormed(s) && st < |s.streams|
    requires step.ClaimStream? || step.ClaimAsync? || step.MarkPending? || step.PublishHead?
    requires SharedEnabled(s, step)
    ensures SameDescriptor(s.streams[st], ApplyShared(s, step).streams[st])
  {
  }

  // ---------- one thread at a time submitting reads ----------

  // A thread claims a read only after the copy of the stream's last read is enqueued; writes,
  // which have no tail, may be claimed at any time.
  ghost predicate Polite(s: State, step: Step) {
    step.ClaimStream? && step.st < |s.streams| && !step.write ==> s.streams[step.st].owed == {}
  }

  ghost predicate PoliteRun(s: State, steps: seq<Step>, s': State)
    decreases |steps|
  {
    && BudgetOk(s)
    && if steps == [] then s' == s
       else
         && WellFormed(s) && Enabled(s, steps[0]) && Polite(s, steps[0])
         && PoliteRun(Apply(s, steps[0]), steps[1..], s')
  }

  ghost predicate PolitelyReachable(s: State) {
    exists s0, steps :: Init(s0) && PoliteRun(s0, steps, s)
  }

  // No read is claimed after one whose copy is owed.
  ghost predicate OwedLast(s: State, st: nat)
    requires st < |s.streams|
  {
    var gs := s.streams[st];
    && (forall q, r :: q in gs.owed && r in gs.readSeqs ==> r <= q)
    && (forall q :: HeldSeq(s, st, q) && q in gs.readSeqs ==> gs.owed == {})
  }

  ghost predicate Enqueued(gs: Stream, q: nat) {
    Copy(q) in gs.queue || q in gs.copied
  }

  ghost predicate PoliteStream(s: State, st: nat)
    requires st < |s.streams|
  {
    OwedLast(s, st) && forall q: nat :: Enqueued(s.streams[st], q) ==> Right(s.streams[st], q)
  }

  ghost predicate PoliteInv(s: State) {
    forall st :: 0 <= st < |s.streams| ==> PoliteStream(s, st)
  }

  // The step owes no copy, takes no number for a read and enqueues no copy on this stream.
  ghost predicate Tame(gs: Stream, gs': Stream) {
    && gs'.owed <= gs.owed && gs'.readSeqs == gs.readSeqs
    && forall q: nat :: Enqueued(gs', q) ==> Enqueued(gs, q)
  }

  ghost predicate HeldStays(s: State, s': State) {
    s'.lock.Locked? ==> s.lock.Locked? && s'.lock.op == s.lock.op
  }

  lemma TamePolite(s: State, s': State, st: nat)
    requires st < |s.streams| && st < |s'.streams| && PoliteStream(s, st)
    requires Tame(s.streams[st], s'.streams[st])
    requires forall q :: HeldSeq(s', st, q) && q in s.streams[st].readSeqs ==> HeldSeq(s, st, q)
    requires forall q: nat :: Enqueued(s.streams[st], q) && Right(s.streams[st], q) ==> Right(s'.streams[st], q)
    ensures PoliteStream(s', st)
  {
  }

  lemma AppendTame(gs: Stream, gs': Stream, cmd: Cmd)
    requires gs'.queue == gs.queue + [cmd] && !cmd.Copy? && gs'.owed == gs.owed && gs'.readSeqs == gs.readSeqs
    requires gs'.copied == gs.copied
    ensures Tame(gs, gs')
  {
    forall q: nat | Enqueued(gs', q) ensures Enqueued(gs, q) { CopyInFront(gs.queue, cmd, q); }
  }

  lemma EnqueueTame(s: State, ok: bool, cmd: Cmd, next: LockStage, st: nat)
    requires s.lock.Locked? && s.lock.op.StreamOp? && s.lock.op.stream < |s.streams| && st < |s.streams| && GateCmd(cmd)
    ensures Tame(s.streams[st], Enqueue(s, ok, cmd, next).streams[st]) && HeldStays(s, Enqueue(s, ok, cmd, next))
  {
    if ok && s.lock.op.stream == st { AppendTame(s.streams[st], Enqueue(s, ok, cmd, next).streams[st], cmd); }
  }

  lemma EnqueueStepTame(s: State, step: Step, st: nat)
    requires WellFormed(s) && st < |s.streams|
    requires (step.EnqWrite? || step.EnqWait? || step.EnqHost?) && SharedEnabled(s, step)
    ensures Tame(s.streams[st], ApplyShared(s, step).streams[st]) && HeldStays(s, ApplyShared(s, step))
  {
    var n := s.lock.op.seqNo;
    match step
    case EnqWrite(ok) => EnqueueTame(s, ok, WriteGate(n), Written, st);
    case EnqWait(ok) => EnqueueTame(s, ok, WaitGate(n), Queued, st);
    case EnqHost(ok) => EnqueueTame(s, ok, HostFn(s.lock.w, Ix(s.workers[s.lock.w].head), n), Queued, st);
  }

  lemma FrontTame(s: State, st: nat)
    requires Inv(s) && SharedEnabled(s, GpuStep(st))
    ensures Tame(s.streams[st], RunFront(s, st))
  {
    var gs, gs' := s.streams[st], RunFront(s, st);
    FrontIs(s, st);
    forall q: nat | Enqueued(gs', q) ensures Enqueued(gs, q) {
      if Copy(q) in gs'.queue { AfterFrontCopies(gs, q); }
    }
  }

  lemma WorkTame(s: State, step: Step, st: nat)
    requires WellFormed(s) && st < |s.streams|
    requires step.Visit? || step.SubmitTail? || step.DmaPart? || step.DmaLand? || step.StopDriver?
    requires SharedEnabled(s, step)
    ensures Tame(s.streams[st], ApplyShared(s, step).streams[st])
  {
    WorkCopies(s, step, st);
  }

  lemma MarkTame(s: State, step: Step, st: nat)
    requires WellFormed(s) && st < |s.streams| && (step.ClaimAsync? || step.ClaimFull? || step.MarkPending?)
    requires SharedEnabled(s, step)
    ensures Tame(s.streams[st], ApplyShared(s, step).streams[st])
  {
    ClaimCopies(s, step, st);
  }

  // Steps of the stream, the workers and the device leave the lock as it is.
  lemma LockAlone(s: State, step: Step)
    requires WellFormed(s)
    requires step.Visit? || step.SubmitTail? || step.DmaPart? || step.DmaLand? || step.StopDriver?
             || step.EnqCopy? || step.EnqUser? || step.GpuStep? || step.Release?
    requires SharedEnabled(s, step)
    ensures ApplyShared(s, step).lock == s.lock
  {
    if step.Visit? { VisitLock(s, step.w, step.n); }
  }

  lemma VisitLock(s: State, w: nat, n: nat)
    requires WellFormed(s) && SharedEnabled(s, Visit(w, n))
    ensures VisitSlot(s, w, n).lock == s.lock
  {
  }

  // All steps but claims of reads, publications and enqueued copies.
  ghost predicate Plain(step: Step) {
    !step.ClaimStream? && !step.PublishHead? && !step.EnqCopy?
  }

  lemma PlainTame(s: State, step: Step, st: nat)
    requires Inv(s) && st < |s.streams| && Plain(step) && !IsLocal(step) && SharedEnabled(s, step)
    ensures Tame(s.streams[st], ApplyShared(s, step).streams[st])
  {
    if step.EnqWrite? || step.EnqWait? || step.EnqHost? {
      EnqueueStepTame(s, step, st);
    } else if step.GpuStep? {
      if step.st == st { FrontTame(s, st); }
    } else if step.EnqUser? {
      if step.st == st { AppendTame(s.streams[st], s.streams[st].(queue := s.streams[st].queue + [User]), User); }
    } else if step.Release? {
      ReleaseTame(s, step.w, st);
    } else if step.ClaimAsync? || step.ClaimFull? || step.MarkPending? {
      MarkTame(s, step, st);
    } else {
      WorkTame(s, step, st);
    }
  }

  lemma ReleaseTame(s: State, w: nat, st: nat)
    requires WellFormed(s) && SharedEnabled(s, Release(w)) && st < |s.streams|
    ensures Tame(s.streams[st], ReleaseSlot(s, w).streams[st])
  {
  }

  lemma PlainHeld(s: State, step: Step, st: nat, q: nat)
    requires Inv(s) && st < |s.streams| && Plain(step) && !IsLocal(step) && SharedEnabled(s, step)
    requires HeldSeq(ApplyShared(s, step), st, q)
    ensures HeldSeq(s, st, q)
  {
    if step.EnqWrite? || step.EnqWait? || step.EnqHost? {
      EnqueueStepTame(s, step, st);
    } else if !step.ClaimAsync? && !step.ClaimFull? && !step.MarkPending? {
      LockAlone(s, step);
    }
  }

  lemma PlainPolite(s: State, step: Step, st: nat)
    requires Accounted(s) && Enabled(s, step) && Plain(step) && st < |s.streams| && PoliteStream(s, st)
    ensures PoliteStream(Apply(s, step), st)
  {
    var s' := Apply(s, step);
    forall q: nat | Right(s.streams[st], q) ensures Right(s'.streams[st], q) {
      RightKept(s, step, st, q);
    }
    if !IsLocal(step) {
      PlainTame(s, step, st);
      forall q | HeldSeq(s', st, q) ensures HeldSeq(s, st, q) { PlainHeld(s, step, st, q); }
    }
    TamePolite(s, s', st);
  }

  lemma ClaimPolite(s: State, st0: nat, write: bool, st: nat)
    requires Accounted(s) && SharedEnabled(s, ClaimStream(st0, write)) && Polite(s, ClaimStream(st0, write))
    requires st < |s.streams| && PoliteStream(s, st)
    ensures PoliteStream(ApplyShared(s, ClaimStream(st0, write)), st)
  {
    var gs, gs' := s.streams[st], ApplyShared(s, ClaimStream(st0, write)).streams[st];
    assert TailStream(s, st);
    forall q: nat | Enqueued(gs', q) ensures Right(gs', q) {
      assert Enqueued(gs, q);
      RightKept(s, ClaimStream(st0, write), st, q);
    }
  }

  lemma PublishPolite(s: State, st: nat)
    requires Accounted(s) && SharedEnabled(s, PublishHead) && st < |s.streams| && PoliteStream(s, st)
    ensures PoliteStream(Publish(s), st)
  {
    var gs, gs' := s.streams[st], Publish(s).streams[st];
    assert TailStream(s, st);
    if s.lock.op.StreamOp? && s.lock.op.stream == st {
      assert HeldSeq(s, st, s.lock.op.seqNo) && HeldKind(s, st, s.lock.op.seqNo);
    }
    forall q: nat | Enqueued(gs', q) ensures Right(gs', q) {
      assert Enqueued(gs, q);
      PublishRight(s, st, q);
    }
  }

  lemma CopyPolite(s: State, st0: nat, p: nat, ok: bool, st: nat)
    requires Accounted(s) && SharedEnabled(s, EnqCopy(st0, p, ok)) && st < |s.streams| && PoliteStream(s, st)
    ensures PoliteStream(ApplyShared(s, EnqCopy(st0, p, ok)), st)
  {
    var gs, gs' := s.streams[st], ApplyShared(s, EnqCopy(st0, p, ok)).streams[st];
    assert TailStream(s, st);
    forall q: nat | Enqueued(gs', q) ensures Right(gs', q) {
      if Enqueued(gs, q) {
        CopyRight(s, st0, p, ok, st, q);
      } else {
        CopiesBefore(gs, p, q);
        TimelyIsRight(gs, q);
      }
    }
  }

  lemma StepPolite(s: State, step: Step)
    requires Accounted(s) && Enabled(s, step) && Polite(s, step) && PoliteInv(s)
    ensures PoliteInv(Apply(s, step))
  {
    forall st | 0 <= st < |Apply(s, step).streams| ensures PoliteStream(Apply(s, step), st) {
      if step.ClaimStream? {
        ClaimPolite(s, step.st, step.write, st);
      } else if step.PublishHead? {
        PublishPolite(s, st);
      } else if step.EnqCopy? {
        CopyPolite(s, step.st, step.q, step.ok, st);
      } else {
        PlainPolite(s, step, st);
      }
    }
  }

  lemma {:induction false} PoliteRunKeeps(s: State, steps: seq<Step>, s': State)
    requires Accounted(s) && PoliteInv(s) && PoliteRun(s, steps, s')
    ensures Accounted(s') && PoliteInv(s')
    decreases |steps|
  {
    if steps != [] {
      StepAccounted(s, steps[0]);
      StepPolite(s, steps[0]);
      PoliteRunKeeps(Apply(s, steps[0]), steps[1..], s');
    }
  }

  lemma PolitelyReachableInv(s: State)
    requires PolitelyReachable(s)
    ensures Accounted(s) && PoliteInv(s)
  {
    var s0, steps :| Init(s0) && PoliteRun(s0, steps, s);
    InitInv(s0);
    InitQueue(s0);
    InitTail(s0);
    InitDesc(s0);
    InitOutcomes(s0);
    forall st | 0 <= st < |s0.streams| ensures PoliteStream(s0, st) {
      assert InitStream(s0.streams[st]);
    }
    PoliteRunKeeps(s0, steps, s);
  }

  // Every copy that has run took exactly the tail its own read requested: the right bytes to
  // the right place, or nothing at all if a command of the read failed or it had no tail.
  lemma CopyTakesItsOwnTail(s: State, st: nat, q: nat)
    requires PolitelyReachable(s) && st < |s.streams| && q in s.streams[st].copied
    ensures q in s.streams[st].outcome && s.streams[st].copied[q] == s.streams[st].outcome[q]
    ensures q in s.streams[st].ledger.failed ==> s.streams[st].copied[q] == None
    ensures q !in s.streams[st].ledger.failed ==> s.streams[st].copied[q] == AskedTail(s.streams[st], q)
  {
    PolitelyReachableInv(s);
    assert PoliteStream(s, st) && Enqueued(s.streams[st], q);
    OutcomeIsDue(s, st, q);
  }

  // A kernel at the front of its stream is behind its read's release, and finds in the
  // descriptor what it is due.
  lemma KernelFindsItsRead(s: State, st: nat)
    requires PolitelyReachable(s) && st < |s.streams| && s.streams[st].queue != [] && s.streams[st].queue[0].Copy?
    ensures var gs := s.streams[st]; var q := gs.queue[0].q;
            gs.gate > 2 * q && q in gs.outcome && Taken(gs) == DueTail(gs, q)
  {
    PolitelyReachableInv(s);
    var gs := s.streams[st];
    assert PoliteStream(s, st) && TailStream(s, st);
    assert gs.queue[0] == Copy(gs.queue[0].q) && Enqueued(gs, gs.queue[0].q);
    CopyBehindGate(s, st);
    OnTimeTakes(s, st, gs.queue[0].q);
    OutcomeIsDue(s, st, gs.queue[0].q);
  }
}
