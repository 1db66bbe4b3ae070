/**
  What a stream read leaves to its copy, measured against a record of its own commands: a
  read of which a command failed leaves nothing, any other exactly the tail it requested.
 */
module GateOutcomes {
  import opened Common
  import opened GateModel
  import opened GateInvariant
  import GatePreserve
  import opened GateWorkers
  import opened GateRuns
  import opened GateTail

  // The tail read q has requested so far.
  ghost function AskedTail(gs: Stream, q: nat): Option<Tail> {
    if q in gs.ledger.asked then Some(gs.ledger.asked[q]) else None
  }

  // What the copy of a released read q is to take.
  ghost function DueTail(gs: Stream, q: nat): Option<Tail> {
    if q in gs.ledger.failed then None else AskedTail(gs, q)
  }

  // A read in flight knows whether one of its commands failed, and its tail.
  ghost predicate Knows(gs: Stream, sl: Slot)
    requires sl.op.StreamOp?
  {
    sl.err == sl.effort.failed && sl.tail == AskedTail(gs, sl.op.seqNo)
  }

  ghost predicate KnowsAt(s: State, w: nat, i: nat) {
    w < |s.workers| && i < |s.workers[w].slots| ==> KnowsIn(s.streams, s.workers[w].slots[i])
  }

  ghost predicate KnowsIn(streams: seq<Stream>, sl: Slot) {
    Reading(sl) && sl.op.stream < |streams| ==> Knows(streams[sl.op.stream], sl)
  }

  ghost predicate Honest(gs: Stream) {
    && (forall q :: q in gs.outcome ==> 2 * q + 1 <= gs.gate && gs.outcome[q] == DueTail(gs, q))
    && (forall q :: q in gs.ledger.failed ==> q in gs.outcome)
    && (forall q :: q in gs.ledger.asked ==> q <= gs.last)
  }

  ghost predicate OutcomeInv(s: State) {
    && (forall w: nat, i: nat :: KnowsAt(s, w, i))
    && (forall st :: 0 <= st < |s.streams| ==> Honest(s.streams[st]))
  }

  lemma InitOutcomes(s: State)
    requires Init(s)
    ensures OutcomeInv(s)
  {
    forall w: nat, i: nat ensures KnowsAt(s, w, i) {
      if w < |s.workers| && i < RING { assert InitWorker(s.workers[w]) && InitSlot(s.workers[w].slots[i]); }
    }
    forall st | 0 <= st < |s.streams| ensures Honest(s.streams[st]) {
      assert InitStream(s.streams[st]);
    }
  }

  // ---------- frames ----------

  // The slot holds no read in flight, or the one it held, which knows as much as it did.
  ghost predicate KnowledgeKept(sl: Slot, sl': Slot) {
    Reading(sl') ==>
      && Reading(sl) && sl'.op == sl.op && sl'.tail == sl.tail
      && (sl.err == sl.effort.failed ==> sl'.err == sl'.effort.failed)
  }

  ghost predicate KnowledgesKept(wk: Worker, wk': Worker) {
    |wk'.slots| == |wk.slots| && forall i :: 0 <= i < |wk.slots| ==> KnowledgeKept(wk.slots[i], wk'.slots[i])
  }

  ghost predicate SameAccount(gs: Stream, gs': Stream) {
    && gs'.outcome == gs.outcome && gs'.ledger.failed == gs.ledger.failed && gs'.ledger.asked == gs.ledger.asked
    && gs.gate <= gs'.gate && gs.last <= gs'.last
  }

  lemma KnowsFrame(s: State, s': State, w: nat, i: nat)
    requires |s'.workers| == |s.workers| && |s'.streams| == |s.streams| && KnowsAt(s, w, i)
    requires w < |s.workers| ==> KnowledgesKept(s.workers[w], s'.workers[w])
    requires forall st :: 0 <= st < |s.streams| ==> s'.streams[st].ledger.asked == s.streams[st].ledger.asked
    ensures KnowsAt(s', w, i)
  {
    if w < |s.workers| && i < |s.workers[w].slots| {
      assert KnowledgeKept(s.workers[w].slots[i], s'.workers[w].slots[i]);
    }
  }

  lemma OutcomeFrame(s: State, s': State)
    requires OutcomeInv(s) && |s'.workers| == |s.workers| && |s'.streams| == |s.streams|
    requires forall w :: 0 <= w < |s.workers| ==> KnowledgesKept(s.workers[w], s'.workers[w])
    requires forall st :: 0 <= st < |s.streams| ==> SameAccount(s.streams[st], s'.streams[st])
    ensures OutcomeInv(s')
  {
    forall w: nat, i: nat ensures KnowsAt(s', w, i) {
      assert KnowsAt(s, w, i);
      KnowsFrame(s, s', w, i);
    }
    forall st | 0 <= st < |s'.streams| ensures Honest(s'.streams[st]) {
      assert SameAccount(s.streams[st], s'.streams[st]) && Honest(s.streams[st]);
    }
  }

  // Only worker w has changed.
  lemma OneWorkerFrame(s: State, w: nat, s': State)
    requires OutcomeInv(s) && w < |s.workers| == |s'.workers| && |s'.streams| == |s.streams|
    requires s'.workers == s.workers[w := s'.workers[w]] && KnowledgesKept(s.workers[w], s'.workers[w])
    requires forall st :: 0 <= st < |s.streams| ==> SameAccount(s.streams[st], s'.streams[st])
    ensures OutcomeInv(s')
  {
    OutcomeFrame(s, s');
  }

  // ---------- steps that settle nothing ----------

  lemma LocalKnowledge(wk: Worker, step: Step, stop: bool)
    requires |wk.slots| == RING && IsLocal(step) && LocalEnabled(wk, step)
    ensures KnowledgesKept(wk, WorkerStep(wk, step, stop))
  {
  }

  lemma LocalOutcomes(s: State, step: Step)
    requires WellFormed(s) && OutcomeInv(s) && IsLocal(step) && Enabled(s, step)
    ensures OutcomeInv(Apply(s, step))
  {
    LocalKnowledge(s.workers[step.w], step, s.stop);
    OneWorkerFrame(s, step.w, Apply(s, step));
  }

  // A slot that holds no read afterwards.
  lemma HeadKnowledge(wk: Worker, wk': Worker, i: nat)
    requires i < |wk.slots| == |wk'.slots| && wk'.slots == wk.slots[i := wk'.slots[i]] && !Reading(wk'.slots[i])
    ensures KnowledgesKept(wk, wk')
  {
  }

  lemma ClaimOutcomes(s: State, op: Op, s': State)
    requires Inv(s) && OutcomeInv(s) && s.lock.Unlocked? && RingHasRoom(s.workers[Routed(s)])
    requires s'.workers == Claim(s, op).workers && |s'.streams| == |s.streams|
    requires forall st :: 0 <= st < |s.streams| ==> SameAccount(s.streams[st], s'.streams[st])
    ensures OutcomeInv(s')
  {
    var w := Routed(s);
    GatePreserve.ClaimedSlotIsDead(s, w);
    HeadKnowledge(s.workers[w], Claim(s, op).workers[w], Ix(s.workers[w].head));
    OneWorkerFrame(s, w, s');
  }

  lemma MarkOutcomes(s: State)
    requires Inv(s) && OutcomeInv(s) && SharedEnabled(s, MarkPending)
    ensures OutcomeInv(Mark(s))
  {
    var w := s.lock.w;
    HeadKnowledge(s.workers[w], Mark(s).workers[w], Ix(s.workers[w].head));
    forall st | 0 <= st < |s.streams| ensures SameAccount(s.streams[st], Mark(s).streams[st]) {
      MarkKeeps(s, st);
      MarkAccount(s, st);
    }
    OneWorkerFrame(s, w, Mark(s));
  }

  lemma MarkAccount(s: State, st: nat)
    requires WellFormed(s) && SharedEnabled(s, MarkPending) && st < |s.streams|
    ensures SameAccount(s.streams[st], Mark(s).streams[st])
  {
  }

  lemma PublishOutcomes(s: State)
    requires WellFormed(s) && OutcomeInv(s) && SharedEnabled(s, PublishHead)
    ensures OutcomeInv(Publish(s))
  {
    var s' := Publish(s);
    forall st | 0 <= st < |s.streams| ensures SameAccount(s.streams[st], s'.streams[st]) {
    }
    OneWorkerFrame(s, s.lock.w, s');
  }

  lemma ClaimAccount(s: State, step: Step, st: nat)
    requires WellFormed(s) && (step.ClaimStream? || step.ClaimAsync?) && SharedEnabled(s, step) && st < |s.streams|
    ensures SameAccount(s.streams[st], ApplyShared(s, step).streams[st])
  {
  }

  lemma ClaimStepOutcomes(s: State, step: Step)
    requires Inv(s) && OutcomeInv(s) && (step.ClaimStream? || step.ClaimAsync?) && SharedEnabled(s, step)
    ensures OutcomeInv(ApplyShared(s, step))
  {
    forall st | 0 <= st < |s.streams| ensures SameAccount(s.streams[st], ApplyShared(s, step).streams[st]) {
      ClaimAccount(s, step, st);
    }
    var op := if step.ClaimStream? then StreamOp(step.st, s.streams[step.st].nextSeq + 1, step.write)
              else AsyncOp(s.nextFuture, step.write);
    ClaimOutcomes(s, op, ApplyShared(s, step));
  }

  lemma SubmitOutcomes(s: State, step: Step)
    requires Inv(s) && OutcomeInv(s)
    requires step.ClaimStream? || step.ClaimAsync? || step.MarkPending? || step.PublishHead?
    requires SharedEnabled(s, step)
    ensures OutcomeInv(ApplyShared(s, step))
  {
    if step.MarkPending? {
      MarkOutcomes(s);
    } else if step.PublishHead? {
      PublishOutcomes(s);
    } else {
      ClaimStepOutcomes(s, step);
    }
  }

  lemma FrontAccount(s: State, st: nat)
    requires Inv(s) && WindowOk(s) && SharedEnabled(s, GpuStep(st))
    ensures SameAccount(s.streams[st], RunFront(s, st))
  {
    GateMoves(s, GpuStep(st), st);
  }

  // Steps on queues and buffers only.
  ghost predicate Beside(step: Step) {
    step.EnqWrite? || step.EnqWait? || step.EnqHost? || step.EnqCopy? || step.EnqUser? || step.GpuStep?
    || step.DmaPart? || step.StopDriver? || step.ClaimFull?
  }

  lemma EnqueuedAccount(s: State, ok: bool, cmd: Cmd, next: LockStage, st: nat)
    requires s.lock.Locked? && s.lock.op.StreamOp? && s.lock.op.stream < |s.streams| && st < |s.streams|
    ensures SameAccount(s.streams[st], Enqueue(s, ok, cmd, next).streams[st])
  {
  }

  lemma EnqueueAccount(s: State, step: Step, st: nat)
    requires WellFormed(s) && st < |s.streams|
    requires (step.EnqWrite? || step.EnqWait? || step.EnqHost?) && SharedEnabled(s, step)
    ensures SameAccount(s.streams[st], ApplyShared(s, step).streams[st])
  {
    var q := s.lock.op.seqNo;
    match step
    case EnqWrite(ok) => EnqueuedAccount(s, ok, WriteGate(q), Written, st);
    case EnqWait(ok) => EnqueuedAccount(s, ok, WaitGate(q), Queued, st);
    case EnqHost(ok) => EnqueuedAccount(s, ok, HostFn(s.lock.w, Ix(s.workers[s.lock.w].head), q), Queued, st);
  }

  lemma BesideAccount(s: State, step: Step, st: nat)
    requires WellFormed(s) && st < |s.streams| && Beside(step) && SharedEnabled(s, step)
    requires step.GpuStep? ==> SameAccount(s.streams[step.st], RunFront(s, step.st))
    ensures SameAccount(s.streams[st], ApplyShared(s, step).streams[st])
  {
    if step.EnqWrite? || step.EnqWait? || step.EnqHost? {
      EnqueueAccount(s, step, st);
    }
  }

  lemma BesideWorkers(s: State, step: Step)
    requires WellFormed(s) && Beside(step) && SharedEnabled(s, step)
    ensures ApplyShared(s, step).workers == s.workers
  {
  }

  lemma BesideOutcomes(s: State, step: Step)
    requires WellFormed(s) && OutcomeInv(s) && Beside(step) && SharedEnabled(s, step)
    requires step.GpuStep? ==> SameAccount(s.streams[step.st], RunFront(s, step.st))
    ensures OutcomeInv(ApplyShared(s, step))
  {
    var s' := ApplyShared(s, step);
    BesideWorkers(s, step);
    forall st | 0 <= st < |s.streams| ensures SameAccount(s.streams[st], s'.streams[st]) {
      BesideAccount(s, step, st);
    }
    OutcomeFrame(s, s');
  }

  lemma LandOutcomes(s: State, w: nat, i: nat)
    requires WellFormed(s) && OutcomeInv(s) && SharedEnabled(s, DmaLand(w, i))
    ensures OutcomeInv(TailLanded(s, w, i))
  {
    OneWorkerFrame(s, w, TailLanded(s, w, i));
  }

  // ---------- the sweep ----------

  // A read put in flight has asked for nothing yet, and none of its commands has failed.
  lemma DispatchKnows(s: State, w: nat, n: nat)
    requires Inv(s) && OutcomeInv(s) && SharedEnabled(s, Visit(w, n)) && Current(s.workers[w]).state == Pending
    ensures var sl, sl' := Current(s.workers[w]), Current(Dispatch(s.workers[w], n));
            sl.op.StreamOp? && KnownStream(s, sl.op) && Reading(sl') ==> Knows(s.streams[sl.op.stream], sl')
  {
    var sl := Current(s.workers[w]);
    VisitFacts(s, w);
    if sl.op.StreamOp? {
      assert LinkAt(s, w, Ix(s.workers[w].pos));
      assert Honest(s.streams[sl.op.stream]);
    }
  }

  lemma DispatchIsNext(s: State, w: nat, n: nat)
    requires Inv(s) && SharedEnabled(s, Visit(w, n)) && Current(s.workers[w]).state == Pending
    ensures var op := Current(s.workers[w]).op;
            op.StreamOp? ==> op.stream < |s.streams| && s.streams[op.stream].last < op.seqNo
  {
    VisitFacts(s, w);
    assert LinkAt(s, w, Ix(s.workers[w].pos));
  }

  lemma DispatchIs(s: State, w: nat, n: nat)
    requires WellFormed(s) && SharedEnabled(s, Visit(w, n)) && Current(s.workers[w]).state == Pending
    requires var op := Current(s.workers[w]).op;
             op.StreamOp? ==> op.stream < |s.streams| && s.streams[op.stream].last < op.seqNo
    ensures var s' := VisitPending(s, w, n);
            && (s'.workers == s.workers[w := Dispatch(s.workers[w], n)]
                || (s'.workers == s.workers[w := s'.workers[w]] && s'.workers[w].slots == s.workers[w].slots))
            && forall st :: 0 <= st < |s.streams| ==> SameAccount(s.streams[st], s'.streams[st])
  {
  }

  // Dispatching q leaves the accounts of its stream as they are.
  lemma DispatchOutcomes(s: State, w: nat, n: nat)
    requires Inv(s) && OutcomeInv(s) && SharedEnabled(s, Visit(w, n)) && Current(s.workers[w]).state == Pending
    ensures OutcomeInv(VisitPending(s, w, n))
  {
    DispatchKnows(s, w, n);
    DispatchIsNext(s, w, n);
    DispatchIs(s, w, n);
    DispatchFrame(s, w, n, VisitPending(s, w, n));
  }

  lemma DispatchElsewhere(s: State, w: nat, n: nat, s': State, v: nat, i: nat)
    requires WellFormed(s) && w < |s.workers| == |s'.workers| && |s'.streams| == |s.streams| && KnowsAt(s, v, i)
    requires s'.workers == s.workers[w := Dispatch(s.workers[w], n)]
             || (s'.workers == s.workers[w := s'.workers[w]] && s'.workers[w].slots == s.workers[w].slots)
    requires forall st :: 0 <= st < |s.streams| ==> s'.streams[st].ledger.asked == s.streams[st].ledger.asked
    requires !(v == w && i == Ix(s.workers[w].pos))
    ensures KnowsAt(s', v, i)
  {
  }

  lemma DispatchFrame(s: State, w: nat, n: nat, s': State)
    requires WellFormed(s) && OutcomeInv(s) && w < |s.workers| == |s'.workers| && |s'.streams| == |s.streams|
    requires s'.workers == s.workers[w := Dispatch(s.workers[w], n)]
             || (s'.workers == s.workers[w := s'.workers[w]] && s'.workers[w].slots == s.workers[w].slots)
    requires forall st :: 0 <= st < |s.streams| ==> SameAccount(s.streams[st], s'.streams[st])
    requires var sl, sl' := Current(s.workers[w]), Current(Dispatch(s.workers[w], n));
             sl.op.StreamOp? && KnownStream(s, sl.op) && Reading(sl') ==> Knows(s.streams[sl.op.stream], sl')
    ensures OutcomeInv(s')
  {
    forall v: nat, i: nat ensures KnowsAt(s', v, i) {
      assert KnowsAt(s, v, i);
      if !(v == w && i == Ix(s.workers[w].pos)) { DispatchElsewhere(s, w, n, s', v, i); }
    }
    forall st | 0 <= st < |s'.streams| ensures Honest(s'.streams[st]) {
      assert SameAccount(s.streams[st], s'.streams[st]) && Honest(s.streams[st]);
    }
  }

  lemma ReapOutcomes(s: State, w: nat)
    requires WellFormed(s) && OutcomeInv(s) && HasWorker(s, w, Sweep) && KnownStream(s, Current(s.workers[w]).op)
    ensures OutcomeInv(VisitInFlight(s, w))
  {
    var s' := VisitInFlight(s, w);
    forall st | 0 <= st < |s.streams| ensures SameAccount(s.streams[st], s'.streams[st]) {
    }
    OneWorkerFrame(s, w, s');
  }

  lemma VisitOutcomes(s: State, w: nat, n: nat)
    requires Inv(s) && OutcomeInv(s) && SharedEnabled(s, Visit(w, n))
    ensures OutcomeInv(VisitSlot(s, w, n))
  {
    match Current(s.workers[w]).state
    case Free => OneWorkerFrame(s, w, VisitSlot(s, w, n));
    case Pending => DispatchOutcomes(s, w, n);
    case InFlight => ReapOutcomes(s, w);
  }

  // ---------- asking for the tail ----------

  // No other read of the stream is in flight.
  lemma OnlyReader(s: State, w: nat, i: nat, v: nat, j: nat)
    requires Inv(s) && HasSlot(s, w, i) && HasSlot(s, v, j)
    requires Reading(s.workers[w].slots[i]) && Reading(s.workers[v].slots[j])
    requires s.workers[w].slots[i].op.stream == s.workers[v].slots[j].op.stream
    ensures v == w && j == i
  {
    assert LinkAt(s, w, i) && LinkAt(s, v, j);
  }

  lemma AskHonest(gs: Stream, q: nat, t: Tail, gs': Stream)
    requires Honest(gs) && gs' == AskTail(gs, q, t) && gs.gate == 2 * q && gs.last == q
    ensures Honest(gs')
  {
  }

  lemma SubmitTailOutcomes(s: State, w: nat, t: Tail)
    requires Inv(s) && OutcomeInv(s) && SharedEnabled(s, SubmitTail(w, t))
    ensures OutcomeInv(TailSubmitted(s, w, t))
  {
    var s', i := TailSubmitted(s, w, t), Ix(s.workers[w].pos);
    var op := s.workers[w].slots[i].op;
    assert RingOk(s.workers[w], MarkedAt(s, w));
    assert Reading(s.workers[w].slots[i]);
    assert LinkAt(s, w, i) && KnowsAt(s, w, i);
    forall v: nat, j: nat ensures KnowsAt(s', v, j) {
      assert KnowsAt(s, v, j);
      if v < |s'.workers| && j < RING && Reading(s'.workers[v].slots[j])
         && s'.workers[v].slots[j].op.stream == op.stream {
        OnlyReader(s, w, i, v, j);
      }
    }
    AskHonest(s.streams[op.stream], op.seqNo, t, s'.streams[op.stream]);
  }

  // ---------- the release ----------

  lemma ReleaseHonest(gs: Stream, q: nat, sl: Slot, write: bool, gs': Stream)
    requires Honest(gs) && gs.gate == 2 * q && sl.op.StreamOp? && sl.op.seqNo == q && (!write ==> Knows(gs, sl))
    requires gs' == LetGo(gs, q, if write then gs.outcome else gs.outcome[q := Outcome(sl)],
                          if write then gs.ledger else Settle(gs.ledger, q, sl.effort.failed))
    ensures Honest(gs')
  {
    assert q !in gs.outcome && q !in gs.ledger.failed;
    forall p | p in gs'.outcome ensures 2 * p + 1 <= gs'.gate && gs'.outcome[p] == DueTail(gs', p) {
      if p != q { assert p in gs.outcome; }
    }
  }

  lemma ReleaseAsked(s: State, w: nat)
    requires WellFormed(s) && SharedEnabled(s, Release(w))
    ensures forall st :: 0 <= st < |s.streams| ==>
              ReleaseSlot(s, w).streams[st].ledger.asked == s.streams[st].ledger.asked
  {
  }

  lemma ReleaseKnows(s: State, w: nat)
    requires WellFormed(s) && OutcomeInv(s) && SharedEnabled(s, Release(w))
    ensures forall v: nat, j: nat :: KnowsAt(ReleaseSlot(s, w), v, j)
  {
    var s' := ReleaseSlot(s, w);
    HeadKnowledge(s.workers[w], s'.workers[w], Ix(s.workers[w].pos));
    ReleaseAsked(s, w);
    forall v: nat, j: nat ensures KnowsAt(s', v, j) {
      assert KnowsAt(s, v, j);
      KnowsFrame(s, s', v, j);
    }
  }

  lemma ReleasedStream(s: State, w: nat, st: nat)
    requires Inv(s) && OutcomeInv(s) && SharedEnabled(s, Release(w)) && st < |s.streams|
    ensures Honest(ReleaseSlot(s, w).streams[st])
  {
    var sl := Current(s.workers[w]);
    assert Honest(s.streams[st]);
    if sl.op.StreamOp? && sl.op.stream == st {
      FinishedRead(s, w, Ix(s.workers[w].pos));
      ReleaseHonest(s.streams[st], sl.op.seqNo, sl, sl.op.write, ReleaseSlot(s, w).streams[st]);
    }
  }

  // The op about to be released is at its stream's gate, and a read knows its outcome.
  lemma FinishedRead(s: State, w: nat, i: nat)
    requires Inv(s) && OutcomeInv(s) && HasWorker(s, w, Finishing) && i == Ix(s.workers[w].pos)
    requires s.workers[w].slots[i].op.StreamOp?
    ensures var sl := s.workers[w].slots[i];
            && sl.op.stream < |s.streams| && s.streams[sl.op.stream].gate == 2 * sl.op.seqNo
            && (!sl.op.write ==> Knows(s.streams[sl.op.stream], sl))
  {
    assert RingOk(s.workers[w], MarkedAt(s, w));
    assert PhaseOk(s.workers[w], i) && LinkAt(s, w, i) && KnowsAt(s, w, i);
  }

  lemma ReleaseOutcomes(s: State, w: nat)
    requires Inv(s) && OutcomeInv(s) && SharedEnabled(s, Release(w))
    ensures OutcomeInv(ReleaseSlot(s, w))
  {
    var s' := ReleaseSlot(s, w);
    ReleaseKnows(s, w);
    forall st | 0 <= st < |s'.streams| ensures Honest(s'.streams[st]) {
      ReleasedStream(s, w, st);
    }
  }

  // ---------- every step ----------

  lemma SharedOutcomes(s: State, step: Step)
    requires Inv(s) && WindowOk(s) && OutcomeInv(s) && !IsLocal(step) && SharedEnabled(s, step)
    ensures OutcomeInv(ApplyShared(s, step))
  {
    if step.Visit? {
      VisitOutcomes(s, step.w, step.n);
    } else if step.SubmitTail? {
      SubmitTailOutcomes(s, step.w, step.t);
    } else if step.DmaLand? {
      LandOutcomes(s, step.w, step.i);
    } else if step.Release? {
      ReleaseOutcomes(s, step.w);
    } else if Beside(step) {
      if step.GpuStep? { FrontAccount(s, step.st); }
      BesideOutcomes(s, step);
    } else {
      SubmitOutcomes(s, step);
    }
  }

  // Every step keeps the account: a released read of which a command failed has left
  // nothing to its copy, any other exactly the tail it requested, if it requested one.
  lemma StepOutcomes(s: State, step: Step)
    requires Inv(s) && WindowOk(s) && OutcomeInv(s) && Enabled(s, step)
    ensures OutcomeInv(Apply(s, step))
  {
    if IsLocal(step) { LocalOutcomes(s, step); } else { SharedOutcomes(s, step); }
  }
}
