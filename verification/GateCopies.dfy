/**
  What the tail copies of a stream take, with any number of threads submitting on it. A copy
  takes what the descriptor holds when it runs: its own read's tail exactly when no later
  read has got there first, which its submitter can see when it enqueues the copy.
 */
module GateCopies {
  import opened Common
  import opened GateModel
  import opened GateInvariant
  import opened GateStreams
  import opened GateWorkers
  import opened GateQueue
  import opened GateRuns
  import opened GateShutdown
  import opened GateTail
  import opened GateDescriptor
  import opened GateOutcomes

  // ---------- every reachable state ----------

  ghost predicate Accounted(s: State) {
    Inv(s) && QueueInv(s) && BudgetOk(s) && TailInv(s) && DescInv(s) && OutcomeInv(s)
  }

  lemma StepAccounted(s: State, step: Step)
    requires Accounted(s) && Enabled(s, step) && BudgetOk(Apply(s, step))
    ensures Accounted(Apply(s, step))
  {
    WindowFromBudget(s);
    StepKept(s, step);
    QueueKept(s, step);
    StepTail(s, step);
    StepDesc(s, step);
    StepOutcomes(s, step);
  }

  lemma {:induction false} RunAccounted(s: State, steps: seq<Step>, s': State)
    requires Accounted(s) && BudgetRun(s, steps, s')
    ensures Accounted(s')
    decreases |steps|
  {
    if steps != [] {
      StepAccounted(s, steps[0]);
      RunAccounted(Apply(s, steps[0]), steps[1..], s');
    }
  }

  lemma ReachableAccounted(s: State)
    requires Reachable(s)
    ensures Accounted(s) && WindowOk(s)
  {
    var s0, steps :| Init(s0) && BudgetRun(s0, steps, s);
    InitInv(s0);
    InitQueue(s0);
    InitTail(s0);
    InitDesc(s0);
    InitOutcomes(s0);
    RunAccounted(s0, steps, s);
    WindowFromBudget(s);
  }

  lemma OutcomeIsDue(s: State, st: nat, q: nat)
    requires Accounted(s) && st < |s.streams| && q in s.streams[st].outcome
    ensures s.streams[st].outcome[q] == DueTail(s.streams[st], q)
  {
    assert Honest(s.streams[st]);
  }

  // A released read of which a command failed has left nothing to its copy; any other has
  // left exactly the tail it requested, if it requested one.
  lemma ReadLeavesItsDue(s: State, st: nat, q: nat)
    requires Reachable(s) && st < |s.streams| && q in s.streams[st].outcome
    ensures q in s.streams[st].ledger.failed ==> s.streams[st].outcome[q] == None
    ensures q !in s.streams[st].ledger.failed ==> s.streams[st].outcome[q] == AskedTail(s.streams[st], q)
  {
    ReachableAccounted(s);
    OutcomeIsDue(s, st, q);
  }

  // ---------- what a copy takes ----------

  // What the copy kernel finds in the descriptor and the bounce buffer.
  ghost function Taken(gs: Stream): Option<Tail> {
    if gs.descLen == 0 then None else Some(Tail(gs.descDst, Prefix(gs.bounceBuf, gs.descLen)))
  }

  lemma HoldsIsTaken(gs: Stream, o: Option<Tail>)
    requires Holds(gs, o)
    ensures Taken(gs) == o
  {
  }

  // With a read of the stream in flight in slot i of wk, o being the tail left before it: a
  // read found complete has put its own tail there; one that has not requested its tail has
  // touched nothing; in between, the copy takes as many bytes as its predecessor left, from
  // whatever is in the bounce buffer, to the destination of the read in flight.
  ghost function FoundAt(gs: Stream, wk: Worker, i: nat, o: Option<Tail>): Option<Tail>
    requires i < |wk.slots|
  {
    if FinishingAt(wk, i) then Outcome(wk.slots[i])
    else if wk.slots[i].tail.None? || o.None? then o
    else Some(Tail(wk.slots[i].tail.value.dst, Prefix(gs.bounceBuf, |o.value.data|)))
  }

  lemma ReaderTakes(s: State, st: nat, w: nat, i: nat, o: Option<Tail>)
    requires Accounted(s) && st < |s.streams| && Latest(s.streams[st], o) && ReadsHere(s, w, i, st)
    ensures Taken(s.streams[st]) == FoundAt(s.streams[st], s.workers[w], i, o)
  {
    var gs, wk := s.streams[st], s.workers[w];
    assert DescOk(s, st, o);
    assert BeforeFinish(gs, wk, i, o);
    assert TailSlotAt(s, w, i);
    assert RingOk(wk, MarkedAt(s, w));
    if FinishingAt(wk, i) {
      ReleasedHolds(s, w);
      HoldsIsTaken(gs, Outcome(wk.slots[i]));
    } else if wk.slots[i].tail.None? {
      HoldsIsTaken(gs, o);
    }
  }

  /**
    The copy of read q takes what the last released read left, if no read of the stream is in
    flight; else what FoundAt says. In particular it takes its own read's tail if and only if
    that is what it finds.
   */
  lemma CopyTakes(s: State, st: nat, q: nat, o: Option<Tail>)
    requires Reachable(s) && WellFormed(s) && st < |s.streams| && s.streams[st].queue != []
    requires s.streams[st].queue[0] == Copy(q) && Latest(s.streams[st], o)
    ensures q in s.streams[st].outcome
    ensures SharedEnabled(s, GpuStep(st)) && q in RunFront(s, st).copied
    ensures NoRead(s, st) ==> RunFront(s, st).copied[q] == o
    ensures forall w: nat, i: nat :: ReadsHere(s, w, i, st) ==>
              RunFront(s, st).copied[q] == FoundAt(s.streams[st], s.workers[w], i, o)
  {
    ReachableAccounted(s);
    assert TailStream(s, st);
    CopyBehindGate(s, st);
    assert RunFront(s, st).copied[q] == Taken(s.streams[st]);
    assert DescOk(s, st, o);
    if NoRead(s, st) { HoldsIsTaken(s.streams[st], o); }
    forall w: nat, i: nat | ReadsHere(s, w, i, st)
      ensures Taken(s.streams[st]) == FoundAt(s.streams[st], s.workers[w], i, o)
    {
      ReaderTakes(s, st, w, i, o);
    }
  }

  // No read in flight has begun to replace what the last released one left.
  ghost predicate Undisturbed(s: State, st: nat) {
    forall w: nat, i: nat :: ReadsHere(s, w, i, st) ==>
      s.workers[w].slots[i].tail.None? && !FinishingAt(s.workers[w], i)
  }

  // Then a copy is right exactly when its own read left what the last one left: if it was
  // the last one, or by coincidence.
  lemma CopyIsRightIff(s: State, st: nat, q: nat, last: nat)
    requires Reachable(s) && WellFormed(s) && st < |s.streams| && s.streams[st].queue != []
    requires s.streams[st].queue[0] == Copy(q) && IsLast(s.streams[st], last) && Undisturbed(s, st)
    ensures q in s.streams[st].outcome && q in RunFront(s, st).copied
    ensures RunFront(s, st).copied[q] == s.streams[st].outcome[last]
    ensures RunFront(s, st).copied[q] == s.streams[st].outcome[q]
            <==> s.streams[st].outcome[q] == s.streams[st].outcome[last]
  {
    var gs := s.streams[st];
    assert Latest(gs, gs.outcome[last]);
    CopyTakes(s, st, q, gs.outcome[last]);
    if !NoRead(s, st) {
      var w: nat, i: nat :| ReadsHere(s, w, i, st);
      assert RunFront(s, st).copied[q] == FoundAt(gs, s.workers[w], i, gs.outcome[last]);
    }
  }

  // ---------- copies enqueued in time ----------

  // Every gate command of a later read stands behind the copies of q in the queue.
  ghost predicate AheadOfLater(gs: Stream, q: nat) {
    forall a, b :: 0 <= a < b < |gs.queue| && gs.queue[b] == Copy(q) ==> !LaterArrival(gs, gs.queue[a], q)
  }

  // A gate command of a read after q whose number has not been lost.
  ghost predicate LaterArrival(gs: Stream, c: Cmd, q: nat) {
    GateCmd(c) && c.q in gs.readSeqs && c.q !in gs.burned && c.q > q
  }

  // No read after q has arrived.
  ghost predicate LastRead(gs: Stream, q: nat) {
    forall r :: r in gs.readSeqs && r !in gs.burned && r > q ==> gs.gate < 2 * r
  }

  // What a submitter can see before it enqueues the copy of q: no later read of the stream
  // has arrived or has its gate commands in the queue.
  ghost predicate Timely(gs: Stream, q: nat) {
    LastRead(gs, q) && forall c :: c in gs.queue ==> !LaterArrival(gs, c, q)
  }

  ghost predicate OnTime(gs: Stream, q: nat) {
    q !in gs.owed && (Copy(q) in gs.queue ==> LastRead(gs, q) && AheadOfLater(gs, q))
  }

  // The copy of q is on its way and in time, or has taken its own read's tail.
  ghost predicate Right(gs: Stream, q: nat) {
    && OnTime(gs, q) && (Copy(q) in gs.queue || q in gs.copied)
    && (q in gs.copied ==> q in gs.outcome && gs.copied[q] == gs.outcome[q])
  }

  // When such a copy runs, its read is the last released and none is in flight.
  lemma OnTimeIsLast(s: State, st: nat, q: nat)
    requires Accounted(s) && st < |s.streams| && q in s.streams[st].outcome && LastRead(s.streams[st], q)
    ensures IsLast(s.streams[st], q) && NoRead(s, st)
  {
    var gs := s.streams[st];
    assert TailStream(s, st);
    forall k | k in gs.outcome ensures k <= q {
      assert HomeSeqOk(gs, k);
    }
    forall w: nat, i: nat ensures !ReadsHere(s, w, i, st) {
      if ReadsHere(s, w, i, st) { ReaderIsLater(s, w, i, st, q); }
    }
  }

  lemma ReaderIsLater(s: State, w: nat, i: nat, st: nat, q: nat)
    requires Accounted(s) && st < |s.streams| && ReadsHere(s, w, i, st) && q in s.streams[st].outcome
    ensures var gs, r := s.streams[st], s.workers[w].slots[i].op.seqNo;
            r in gs.readSeqs && r !in gs.burned && r > q && gs.gate == 2 * r
  {
    var r := s.workers[w].slots[i].op.seqNo;
    ReaderAtGate(s, w, i, st);
    assert RingOk(s.workers[w], MarkedAt(s, w));
    assert PhaseOk(s.workers[w], i);
    assert TailStream(s, st);
    assert HomeKind(s, st, r) && HomeSeqOk(s.streams[st], r);
  }

  // ---------- what steps do to such a copy ----------

  ghost predicate SameCopies(gs: Stream, gs': Stream) {
    && gs'.gate == gs.gate && gs'.queue == gs.queue && gs'.readSeqs == gs.readSeqs && gs.burned <= gs'.burned
    && gs'.owed == gs.owed && gs'.outcome == gs.outcome && gs'.copied == gs.copied
  }

  lemma RightSame(gs: Stream, gs': Stream, q: nat)
    requires SameCopies(gs, gs') && Right(gs, q)
    ensures Right(gs', q)
  {
    forall a, b | 0 <= a < b < |gs'.queue| && gs'.queue[b] == Copy(q) ensures !LaterArrival(gs', gs'.queue[a], q) {
      assert !LaterArrival(gs, gs.queue[a], q);
    }
  }

  lemma RightNumber(gs: Stream, write: bool, q: nat)
    requires StreamOk(gs) && Right(gs, q)
    ensures Right(TakeNumber(gs, write), q)
  {
    var gs' := TakeNumber(gs, write);
    forall a, b | 0 <= a < b < |gs'.queue| && gs'.queue[b] == Copy(q) ensures !LaterArrival(gs', gs'.queue[a], q) {
      assert !LaterArrival(gs, gs.queue[a], q);
      assert CmdOk(gs, gs.queue[a]);
    }
  }

  // A command goes to the end of the queue; owed copies may have become fewer.
  lemma RightAppend(gs: Stream, gs': Stream, cmd: Cmd, q: nat)
    requires Right(gs, q) && cmd != Copy(q) && gs'.owed <= gs.owed && gs'.queue == gs.queue + [cmd]
    requires SameCopies(gs, gs'.(queue := gs.queue, owed := gs.owed))
    ensures Right(gs', q)
  {
    CopyInFront(gs.queue, cmd, q);
    forall a, b | 0 <= a < b < |gs'.queue| && gs'.queue[b] == Copy(q) ensures !LaterArrival(gs', gs'.queue[a], q) {
      assert gs.queue[b] == Copy(q) && !LaterArrival(gs, gs.queue[a], q);
    }
  }

  lemma CopyInFront(queue: seq<Cmd>, cmd: Cmd, q: nat)
    requires cmd != Copy(q)
    ensures Copy(q) in queue + [cmd] <==> Copy(q) in queue
  {
    if Copy(q) in queue {
      var j :| 0 <= j < |queue| && queue[j] == Copy(q);
      assert (queue + [cmd])[j] == Copy(q);
    }
  }

  lemma RightFewerOwed(gs: Stream, gs': Stream, q: nat)
    requires Right(gs, q) && gs'.owed <= gs.owed && SameCopies(gs, gs'.(owed := gs.owed))
    ensures Right(gs', q)
  {
    forall a, b | 0 <= a < b < |gs'.queue| && gs'.queue[b] == Copy(q) ensures !LaterArrival(gs', gs'.queue[a], q) {
      assert !LaterArrival(gs, gs.queue[a], q);
    }
  }

  lemma RightOwe(gs: Stream, gs': Stream, q0: nat, q: nat)
    requires Right(gs, q) && q0 != q && gs'.owed == gs.owed + {q0} && SameCopies(gs, gs'.(owed := gs.owed))
    ensures Right(gs', q)
  {
    forall a, b | 0 <= a < b < |gs'.queue| && gs'.queue[b] == Copy(q) ensures !LaterArrival(gs', gs'.queue[a], q) {
      assert !LaterArrival(gs, gs.queue[a], q);
    }
  }

  // An op p is released.
  lemma RightRelease(gs: Stream, gs': Stream, p: nat, q: nat)
    requires Right(gs, q) && gs.gate == 2 * p && gs'.gate == 2 * p + 1 && OutcomeOk(gs)
    requires SameCopies(gs, gs'.(gate := gs.gate, outcome := gs.outcome))
    requires forall k :: k in gs.outcome && k != p ==> k in gs'.outcome && gs'.outcome[k] == gs.outcome[k]
    ensures Right(gs', q)
  {
    forall a, b | 0 <= a < b < |gs'.queue| && gs'.queue[b] == Copy(q) ensures !LaterArrival(gs', gs'.queue[a], q) {
      assert !LaterArrival(gs, gs.queue[a], q);
    }
  }

  // An arrival at the front of the queue is not that of a later read.
  lemma FrontLast(s: State, st: nat, q: nat, j: nat)
    requires Inv(s) && st < |s.streams| && 0 < j < |s.streams[st].queue| && s.streams[st].queue[j] == Copy(q)
    requires LastRead(s.streams[st], q) && AheadOfLater(s.streams[st], q) && ReadsOk(s.streams[st])
    ensures LastRead(AfterFront(s.streams[st]), q)
  {
    var gs := s.streams[st];
    if Arrives(gs) {
      forall r | r in gs.readSeqs && r !in gs.burned && r > q ensures AfterFront(gs).gate < 2 * r {
        ArrivalNotBeyond(s, st, r);
        assert !LaterArrival(gs, gs.queue[0], q);
      }
    }
  }

  lemma FrontAhead(gs: Stream, q: nat)
    requires gs.queue != [] && AheadOfLater(gs, q)
    ensures AheadOfLater(AfterFront(gs), q)
  {
    var gs' := AfterFront(gs);
    var d := if gs.queue[0].HostFn? then 0 else 1;
    forall a, b | 0 <= a < b < |gs'.queue| && gs'.queue[b] == Copy(q) ensures !LaterArrival(gs', gs'.queue[a], q) {
      assert gs.queue[b + d] == Copy(q) && !LaterArrival(gs, gs.queue[a + d], q);
    }
  }

  lemma QueuedAfterFront(gs: Stream, q: nat) returns (j: nat)
    requires gs.queue != [] && Copy(q) in AfterFront(gs).queue
    ensures 0 < j < |gs.queue| && gs.queue[j] == Copy(q)
  {
    var k :| 0 <= k < |AfterFront(gs).queue| && AfterFront(gs).queue[k] == Copy(q);
    j := if gs.queue[0].HostFn? then k else k + 1;
  }

  // The command at the front executes.
  lemma FrontOnTime(s: State, st: nat, q: nat)
    requires Inv(s) && st < |s.streams| && s.streams[st].queue != [] && OnTime(s.streams[st], q)
    requires ReadsOk(s.streams[st])
    ensures OnTime(AfterFront(s.streams[st]), q)
  {
    var gs := s.streams[st];
    if Copy(q) in AfterFront(gs).queue {
      var j := QueuedAfterFront(gs, q);
      assert Copy(q) in gs.queue;
      FrontLast(s, st, q, j);
      FrontAhead(gs, q);
    }
  }

  // A copy in time that runs takes its own read's tail.
  lemma OnTimeTakes(s: State, st: nat, q: nat)
    requires Accounted(s) && st < |s.streams| && s.streams[st].queue != [] && s.streams[st].queue[0] == Copy(q)
    requires OnTime(s.streams[st], q)
    ensures q in s.streams[st].outcome && Taken(s.streams[st]) == s.streams[st].outcome[q]
  {
    var gs := s.streams[st];
    assert TailStream(s, st);
    CopyBehindGate(s, st);
    OnTimeIsLast(s, st, q);
    assert Latest(gs, gs.outcome[q]);
    assert DescOk(s, st, gs.outcome[q]);
    HoldsIsTaken(gs, gs.outcome[q]);
  }

  lemma FrontTakes(s: State, st: nat, q: nat)
    requires Accounted(s) && SharedEnabled(s, GpuStep(st)) && Right(s.streams[st], q)
    ensures var gs' := RunFront(s, st);
            && (q in s.streams[st].copied || s.streams[st].queue[0] == Copy(q) <==> q in gs'.copied)
            && (q in gs'.copied ==> q in gs'.outcome && gs'.copied[q] == gs'.outcome[q])
  {
    if s.streams[st].queue[0] == Copy(q) { OnTimeTakes(s, st, q); }
  }

  lemma FrontRight(s: State, st: nat, q: nat)
    requires Accounted(s) && SharedEnabled(s, GpuStep(st)) && Right(s.streams[st], q)
    ensures Right(RunFront(s, st), q)
  {
    var gs, gs' := s.streams[st], RunFront(s, st);
    assert TailStream(s, st);
    FrontOnTime(s, st, q);
    FrontTakes(s, st, q);
    FrontIs(s, st);
    OnTimeSame(AfterFront(gs), gs', q);
    if Copy(q) in gs.queue && gs.queue[0] != Copy(q) { CopyStaysQueued(gs, q); }
  }

  lemma CopyStaysQueued(gs: Stream, q: nat)
    requires gs.queue != [] && Copy(q) in gs.queue && gs.queue[0] != Copy(q)
    ensures Copy(q) in AfterFront(gs).queue
  {
    var j :| 0 <= j < |gs.queue| && gs.queue[j] == Copy(q);
    assert AfterFront(gs).queue[if gs.queue[0].HostFn? then j else j - 1] == Copy(q);
  }

  lemma FrontIs(s: State, st: nat)
    requires WellFormed(s) && HostInv(s) && SharedEnabled(s, GpuStep(st))
    ensures SameCopies(AfterFront(s.streams[st]), RunFront(s, st).(copied := s.streams[st].copied))
  {
    var c := s.streams[st].queue[0];
    if c.HostFn? { assert HostOk(s, st, c.w, c.i, c.q); }
  }

  lemma OnTimeSame(gs: Stream, gs': Stream, q: nat)
    requires OnTime(gs, q) && SameCopies(gs, gs'.(copied := gs.copied))
    ensures OnTime(gs', q)
  {
    forall a, b | 0 <= a < b < |gs'.queue| && gs'.queue[b] == Copy(q) ensures !LaterArrival(gs', gs'.queue[a], q) {
      assert Copy(q) in gs.queue && !LaterArrival(gs, gs.queue[a], q);
    }
  }

  // ---------- every step ----------

  lemma VisitCopies(s: State, w: nat, n: nat, st: nat)
    requires WellFormed(s) && SharedEnabled(s, Visit(w, n)) && st < |s.streams|
    ensures SameCopies(s.streams[st], VisitSlot(s, w, n).streams[st])
  {
    match Current(s.workers[w]).state
    case Free =>
    case Pending => VisitPendingCopies(s, w, n, st);
    case InFlight =>
  }

  lemma VisitPendingCopies(s: State, w: nat, n: nat, st: nat)
    requires WellFormed(s) && HasWorker(s, w, Sweep) && KnownStream(s, Current(s.workers[w]).op) && st < |s.streams|
    ensures SameCopies(s.streams[st], VisitPending(s, w, n).streams[st])
  {
    VisitPendingIs(s, w, n, st);
  }

  // Steps that leave all queues and all copies alone.
  lemma WorkCopies(s: State, step: Step, st: nat)
    requires WellFormed(s) && st < |s.streams|
    requires step.Visit? || step.SubmitTail? || step.DmaPart? || step.DmaLand? || step.StopDriver?
    requires SharedEnabled(s, step)
    ensures SameCopies(s.streams[st], ApplyShared(s, step).streams[st])
  {
    if step.Visit? { VisitCopies(s, step.w, step.n, st); }
  }

  lemma ClaimCopies(s: State, step: Step, st: nat)
    requires WellFormed(s) && st < |s.streams| && (step.ClaimAsync? || step.ClaimFull? || step.MarkPending?)
    requires SharedEnabled(s, step)
    ensures SameCopies(s.streams[st], ApplyShared(s, step).streams[st])
  {
  }

  // The number held by the lock is later than every due or finished one.
  lemma HeldIsLater(s: State, st: nat, q: nat)
    requires Accounted(s) && HoldsOp(s, Marked) && s.lock.op.StreamOp? && s.lock.op.stream == st
    requires Right(s.streams[st], q)
    ensures s.lock.op.seqNo != q
  {
    var q0 := s.lock.op.seqNo;
    assert TailStream(s, st);
    assert HeldSeq(s, st, q0) && HeldKind(s, st, q0);
    assert RingOk(s.workers[s.lock.w], true);
    assert LinkAt(s, s.lock.w, Ix(s.workers[s.lock.w].head));
    if Copy(q) in s.streams[st].queue { assert Due(s.streams[st], q); }
  }

  lemma PublishRight(s: State, st: nat, q: nat)
    requires Accounted(s) && SharedEnabled(s, PublishHead) && st < |s.streams| && Right(s.streams[st], q)
    ensures Right(Publish(s).streams[st], q)
  {
    var gs, gs' := s.streams[st], Publish(s).streams[st];
    if s.lock.op.StreamOp? && s.lock.op.stream == st && !s.lock.op.write && !s.alignedOnly {
      HeldIsLater(s, st, q);
      RightOwe(gs, gs', s.lock.op.seqNo, q);
    } else {
      RightSame(gs, gs', q);
    }
  }

  lemma EnqueueRight(s: State, ok: bool, cmd: Cmd, next: LockStage, st: nat, q: nat)
    requires s.lock.Locked? && s.lock.op.StreamOp? && s.lock.op.stream < |s.streams| && st < |s.streams|
    requires GateCmd(cmd) && Right(s.streams[st], q)
    ensures Right(Enqueue(s, ok, cmd, next).streams[st], q)
  {
    var gs, gs' := s.streams[st], Enqueue(s, ok, cmd, next).streams[st];
    if ok && s.lock.op.stream == st {
      RightAppend(gs, gs', cmd, q);
    } else {
      RightSame(gs, gs', q);
    }
  }

  lemma EnqueueStepRight(s: State, step: Step, st: nat, q: nat)
    requires WellFormed(s) && st < |s.streams| && Right(s.streams[st], q)
    requires (step.EnqWrite? || step.EnqWait? || step.EnqHost?) && SharedEnabled(s, step)
    ensures Right(ApplyShared(s, step).streams[st], q)
  {
    var n := s.lock.op.seqNo;
    match step
    case EnqWrite(ok) => EnqueueRight(s, ok, WriteGate(n), Written, st, q);
    case EnqWait(ok) => EnqueueRight(s, ok, WaitGate(n), Queued, st, q);
    case EnqHost(ok) => EnqueueRight(s, ok, HostFn(s.lock.w, Ix(s.workers[s.lock.w].head), n), Queued, st, q);
  }

  lemma ReleaseRight(s: State, w: nat, st: nat, q: nat)
    requires Accounted(s) && SharedEnabled(s, Release(w)) && st < |s.streams| && Right(s.streams[st], q)
    ensures Right(ReleaseSlot(s, w).streams[st], q)
  {
    var op := Current(s.workers[w]).op;
    var gs, gs' := s.streams[st], ReleaseSlot(s, w).streams[st];
    if op.StreamOp? && op.stream == st {
      ReleaseFacts(s, w, op);
      assert TailStream(s, st);
      RightRelease(gs, gs', op.seqNo, q);
    } else {
      ReleaseElsewhere(s, w, st);
    }
  }

  lemma CopyRight(s: State, st0: nat, p: nat, ok: bool, st: nat, q: nat)
    requires WellFormed(s) && SharedEnabled(s, EnqCopy(st0, p, ok)) && st < |s.streams| && Right(s.streams[st], q)
    ensures Right(ApplyShared(s, EnqCopy(st0, p, ok)).streams[st], q)
  {
    var gs, gs' := s.streams[st], ApplyShared(s, EnqCopy(st0, p, ok)).streams[st];
    if st0 == st && ok {
      RightAppend(gs, gs', Copy(p), q);
    } else if st0 == st {
      RightFewerOwed(gs, gs', q);
    }
  }

  lemma SubmitRight(s: State, step: Step, st: nat, q: nat)
    requires Accounted(s) && st < |s.streams| && Right(s.streams[st], q)
    requires step.ClaimStream? || step.ClaimAsync? || step.ClaimFull? || step.MarkPending? || step.EnqUser?
    requires SharedEnabled(s, step)
    ensures Right(ApplyShared(s, step).streams[st], q)
  {
    var gs := s.streams[st];
    if step.ClaimStream? {
      if step.st == st { RightNumber(gs, step.write, q); }
    } else if step.EnqUser? {
      if step.st == st { RightAppend(gs, gs.(queue := gs.queue + [User]), User, q); }
    } else {
      ClaimRight(s, step, st, q);
    }
  }

  lemma ClaimRight(s: State, step: Step, st: nat, q: nat)
    requires WellFormed(s) && st < |s.streams| && (step.ClaimAsync? || step.ClaimFull? || step.MarkPending?)
    requires SharedEnabled(s, step) && Right(s.streams[st], q)
    ensures Right(ApplyShared(s, step).streams[st], q)
  {
    ClaimCopies(s, step, st);
    RightSame(s.streams[st], ApplyShared(s, step).streams[st], q);
  }

  // However many threads submit, a copy that is in time stays right.
  lemma RightKept(s: State, step: Step, st: nat, q: nat)
    requires Accounted(s) && Enabled(s, step) && st < |s.streams| && Right(s.streams[st], q)
    ensures Right(Apply(s, step).streams[st], q)
  {
    if IsLocal(step) {
    } else if step.ClaimStream? || step.ClaimAsync? || step.ClaimFull? || step.MarkPending? || step.EnqUser? {
      SubmitRight(s, step, st, q);
    } else if step.EnqWrite? || step.EnqWait? || step.EnqHost? {
      EnqueueStepRight(s, step, st, q);
    } else if step.GpuStep? {
      if step.st == st { FrontRight(s, st, q); }
    } else {
      OtherRight(s, step, st, q);
    }
  }

  lemma OtherRight(s: State, step: Step, st: nat, q: nat)
    requires Accounted(s) && st < |s.streams| && Right(s.streams[st], q)
    requires step.PublishHead? || step.EnqCopy? || step.Release?
             || step.Visit? || step.SubmitTail? || step.DmaPart? || step.DmaLand? || step.StopDriver?
    requires SharedEnabled(s, step)
    ensures Right(ApplyShared(s, step).streams[st], q)
  {
    if step.PublishHead? {
      PublishRight(s, st, q);
    } else if step.EnqCopy? {
      CopyRight(s, step.st, step.q, step.ok, st, q);
    } else if step.Release? {
      ReleaseRight(s, step.w, st, q);
    } else {
      WorkRight(s, step, st, q);
    }
  }

  lemma WorkRight(s: State, step: Step, st: nat, q: nat)
    requires WellFormed(s) && st < |s.streams| && Right(s.streams[st], q)
    requires step.Visit? || step.SubmitTail? || step.DmaPart? || step.DmaLand? || step.StopDriver?
    requires SharedEnabled(s, step)
    ensures Right(ApplyShared(s, step).streams[st], q)
  {
    WorkCopies(s, step, st);
    RightSame(s.streams[st], ApplyShared(s, step).streams[st], q);
  }

  lemma {:induction false} StaysRight(s: State, steps: seq<Step>, s': State, st: nat, q: nat)
    requires Accounted(s) && BudgetRun(s, steps, s') && st < |s.streams| && Right(s.streams[st], q)
    ensures st < |s'.streams| && Right(s'.streams[st], q)
    decreases |steps|
  {
    if steps != [] {
      StepAccounted(s, steps[0]);
      RightKept(s, steps[0], st, q);
      StaysRight(Apply(s, steps[0]), steps[1..], s', st, q);
    }
  }

  // The copy of q joins the queue.
  lemma TimelyIsRight(gs: Stream, q: nat)
    requires q in gs.owed && CopiesOk(gs) && Timely(gs, q)
    ensures Right(PayCopy(gs, q, true), q)
  {
    var gs' := PayCopy(gs, q, true);
    assert gs'.queue[|gs.queue|] == Copy(q);
    forall a, b | 0 <= a < b < |gs'.queue| && gs'.queue[b] == Copy(q) ensures !LaterArrival(gs', gs'.queue[a], q) {
      assert gs'.queue[a] == gs.queue[a] && gs.queue[a] in gs.queue;
    }
  }

  /**
    A copy enqueued before any later read of its stream has put its gate commands on the
    stream takes its own read's tail, or nothing if a command of its read failed, whatever any
    thread, the device or the stream does afterwards, and however the other reads of the
    stream are submitted.
   */
  lemma {:induction false} TimelyCopyIsRight(s: State, st: nat, q: nat, steps: seq<Step>, s': State)
    requires Reachable(s) && WellFormed(s) && SharedEnabled(s, EnqCopy(st, q, true)) && Timely(s.streams[st], q)
    requires BudgetRun(Apply(s, EnqCopy(st, q, true)), steps, s')
    ensures st < |s'.streams|
    ensures Copy(q) in s'.streams[st].queue || q in s'.streams[st].copied
    ensures q in s'.streams[st].copied ==>
              q in s'.streams[st].outcome && s'.streams[st].copied[q] == DueTail(s'.streams[st], q)
  {
    ReachableAccounted(s);
    var s1 := Apply(s, EnqCopy(st, q, true));
    StepAccounted(s, EnqCopy(st, q, true));
    assert TailStream(s, st);
    TimelyIsRight(s.streams[st], q);
    StaysRight(s1, steps, s', st, q);
    RunAccounted(s1, steps, s');
    if q in s'.streams[st].copied { OutcomeIsDue(s', st, q); }
  }
}
