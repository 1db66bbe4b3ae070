/**
  No read's copy gets lost on the way: from the moment a stream read is published its copy is
  owed by the submitting thread, queued on the stream or done, unless it could not be
  enqueued; and all of them can be brought to an end.
 */
module GateDelivery {
  import opened Words
  import opened GateModel
  import opened GateInvariant
  import opened GateWorkers
  import opened GateQueue
  import opened GateRuns
  import opened GateShutdown
  import opened GateRank
  import opened GateDrain
  import opened GateOutcomes
  import opened GateTailRuns
  import opened GateExits

  ghost predicate Carried(gs: Stream, q: nat) {
    q in gs.owed || Copy(q) in gs.queue || q in gs.copied || q in gs.ledger.lost
  }

  // A device restricted to aligned ranges leaves no tails to copy.
  ghost predicate NoTails(gs: Stream) {
    gs.owed == {} && gs.ledger.asked == map[] && gs.copied == map[] && forall q :: Copy(q) !in gs.queue
  }

  ghost predicate HeldMarked(s: State, st: nat, q: nat) {
    HeldSeq(s, st, q) && s.lock.at == Marked
  }

  ghost predicate CarryOk(s: State, st: nat)
    requires st < |s.streams|
  {
    var gs := s.streams[st];
    && (s.alignedOnly ==> NoTails(gs))
    && (!s.alignedOnly ==> forall q :: q in gs.home && q in gs.readSeqs ==> Carried(gs, q) || HeldMarked(s, st, q))
    && (forall q :: HeldSeq(s, st, q) ==> (q in gs.readSeqs <==> !s.lock.op.write))
    && (forall q :: q in gs.readSeqs ==> q <= gs.nextSeq)
  }

  // ---------- frames ----------

  ghost predicate SameCarry(gs: Stream, gs': Stream) {
    && gs'.owed == gs.owed && gs'.home == gs.home && gs'.readSeqs == gs.readSeqs && gs'.nextSeq == gs.nextSeq
    && gs'.copied == gs.copied && gs'.ledger.lost == gs.ledger.lost && gs'.ledger.asked == gs.ledger.asked
    && forall q :: Copy(q) in gs'.queue <==> Copy(q) in gs.queue
  }

  // The lock is held for the same op, or was dropped before the op was marked.
  ghost predicate LockOn(s: State, s': State) {
    && (s'.lock.Locked? ==> s.lock.Locked? && s'.lock.op == s.lock.op)
    && (s.lock.Locked? && s.lock.at == Marked ==> s'.lock == s.lock)
  }

  lemma CarryFrame(s: State, s': State, st: nat)
    requires st < |s.streams| == |s'.streams| && CarryOk(s, st)
    requires s'.alignedOnly == s.alignedOnly && LockOn(s, s') && SameCarry(s.streams[st], s'.streams[st])
    ensures CarryOk(s', st)
  {
  }

  // ---------- submitting ----------

  lemma ClaimStreamIs(s: State, st0: nat, write: bool, st: nat)
    requires WellFormed(s) && SharedEnabled(s, ClaimStream(st0, write)) && st < |s.streams|
    ensures var s' := ApplyShared(s, ClaimStream(st0, write)); var gs := s.streams[st];
            && s'.alignedOnly == s.alignedOnly && s'.lock.Locked? && s'.lock.at == Claimed
            && s'.lock.op == StreamOp(st0, s.streams[st0].nextSeq + 1, write)
            && s'.streams[st] == if st == st0 then TakeNumber(gs, write) else gs
  {
  }

  lemma ClaimStreamCarry(s: State, st0: nat, write: bool, st: nat)
    requires WellFormed(s) && StreamInv(s) && SharedEnabled(s, ClaimStream(st0, write))
    requires st < |s.streams| && CarryOk(s, st)
    ensures CarryOk(ApplyShared(s, ClaimStream(st0, write)), st)
    ensures ApplyShared(s, ClaimStream(st0, write)).streams[st].ledger == s.streams[st].ledger
  {
    ClaimStreamIs(s, st0, write, st);
    forall q | q in s.streams[st].home ensures q <= s.streams[st].nextSeq {
      assert HomeSeqOk(s.streams[st], q);
    }
  }

  lemma ClaimOtherCarry(s: State, step: Step, st: nat)
    requires WellFormed(s) && (step.ClaimAsync? || step.ClaimFull?) && SharedEnabled(s, step)
    requires st < |s.streams| && CarryOk(s, st)
    ensures CarryOk(ApplyShared(s, step), st) && ApplyShared(s, step).streams[st].ledger == s.streams[st].ledger
  {
    var s' := ApplyShared(s, step);
    assert s'.streams == s.streams && s'.alignedOnly == s.alignedOnly && s.lock.Unlocked?;
    assert forall q :: !HeldSeq(s', st, q);
  }

  lemma AppendSameCarry(gs: Stream, cmd: Cmd)
    requires !cmd.Copy?
    ensures SameCarry(gs, gs.(queue := gs.queue + [cmd]))
  {
  }

  lemma EnqueueCarry(s: State, ok: bool, cmd: Cmd, next: LockStage, st: nat)
    requires s.lock.Locked? && s.lock.at != Marked && s.lock.op.StreamOp? && s.lock.op.stream < |s.streams|
    requires !cmd.Copy? && st < |s.streams| && CarryOk(s, st)
    ensures CarryOk(Enqueue(s, ok, cmd, next), st)
    ensures Enqueue(s, ok, cmd, next).streams[st].ledger == s.streams[st].ledger
  {
    AppendSameCarry(s.streams[st], cmd);
    CarryFrame(s, Enqueue(s, ok, cmd, next), st);
  }

  lemma EnqueueStepCarry(s: State, step: Step, st: nat)
    requires WellFormed(s) && (step.EnqWrite? || step.EnqWait? || step.EnqHost?) && SharedEnabled(s, step)
    requires st < |s.streams| && CarryOk(s, st)
    ensures CarryOk(ApplyShared(s, step), st) && ApplyShared(s, step).streams[st].ledger == s.streams[st].ledger
  {
    var q := s.lock.op.seqNo;
    match step
    case EnqWrite(ok) => EnqueueCarry(s, ok, WriteGate(q), Written, st);
    case EnqWait(ok) => EnqueueCarry(s, ok, WaitGate(q), Queued, st);
    case EnqHost(ok) => EnqueueCarry(s, ok, HostFn(s.lock.w, Ix(s.workers[s.lock.w].head), q), Queued, st);
  }

  lemma MarkIs(s: State, st: nat)
    requires WellFormed(s) && SharedEnabled(s, MarkPending) && st < |s.streams|
    ensures var gs, gs' := s.streams[st], Mark(s).streams[st];
            && gs' == gs.(home := gs'.home)
            && forall q :: q in gs'.home ==> q in gs.home || HeldSeq(s, st, q)
    ensures Mark(s).lock == s.lock.(at := Marked) && Mark(s).alignedOnly == s.alignedOnly
  {
  }

  lemma MarkCarry(s: State, st: nat)
    requires WellFormed(s) && SharedEnabled(s, MarkPending) && st < |s.streams| && CarryOk(s, st)
    ensures CarryOk(Mark(s), st) && Mark(s).streams[st].ledger == s.streams[st].ledger
  {
    MarkIs(s, st);
  }

  // From now on the copy of a read is owed.
  lemma PublishIs(s: State, st: nat)
    requires WellFormed(s) && SharedEnabled(s, PublishHead) && st < |s.streams|
    ensures var gs, gs' := s.streams[st], Publish(s).streams[st];
            && gs' == gs.(owed := gs'.owed) && gs.owed <= gs'.owed
            && (s.alignedOnly ==> gs' == gs)
            && (!s.alignedOnly && !s.lock.op.write ==> forall q :: HeldSeq(s, st, q) ==> q in gs'.owed)
    ensures Publish(s).lock.Unlocked? && Publish(s).alignedOnly == s.alignedOnly
  {
  }

  lemma PublishCarry(s: State, st: nat)
    requires WellFormed(s) && SharedEnabled(s, PublishHead) && st < |s.streams| && CarryOk(s, st)
    ensures CarryOk(Publish(s), st) && Publish(s).streams[st].ledger == s.streams[st].ledger
  {
    PublishIs(s, st);
  }

  lemma CopyCarry(s: State, st0: nat, p: nat, ok: bool, st: nat)
    requires WellFormed(s) && SharedEnabled(s, EnqCopy(st0, p, ok)) && st < |s.streams| && CarryOk(s, st)
    ensures CarryOk(ApplyShared(s, EnqCopy(st0, p, ok)), st)
    ensures ok ==> ApplyShared(s, EnqCopy(st0, p, ok)).streams[st].ledger == s.streams[st].ledger
  {
    var gs := s.streams[st];
    if st == st0 {
      var gs' := PayCopy(gs, p, ok);
      forall q | Carried(gs, q) ensures Carried(gs', q) {
        assert ok ==> gs'.queue[|gs.queue|] == Copy(p);
      }
    }
  }

  // ---------- running ----------

  lemma FrontCarry(s: State, st0: nat, st: nat)
    requires WellFormed(s) && SharedEnabled(s, GpuStep(st0)) && st < |s.streams| && CarryOk(s, st)
    ensures CarryOk(ApplyShared(s, GpuStep(st0)), st)
    ensures ApplyShared(s, GpuStep(st0)).streams[st].ledger == s.streams[st].ledger
  {
    if st == st0 {
      FrontMoves(s, st);
      FrontCarried(s.streams[st], RunFront(s, st));
    }
  }

  // The front command is popped, parked or copied.
  ghost predicate Popped(gs: Stream, gs': Stream)
    requires gs.queue != []
  {
    var c, rest := gs.queue[0], gs.queue[1..];
    && gs' == gs.(gate := gs'.gate, queue := gs'.queue, copied := gs'.copied)
    && (gs'.queue == rest || (c.HostFn? && |gs'.queue| == |rest| + 1 && gs'.queue[0].Park? && gs'.queue[1..] == rest))
    && (c.Copy? ==> gs'.queue == rest && gs'.copied.Keys == gs.copied.Keys + {c.q})
    && (!c.Copy? ==> gs'.copied == gs.copied)
  }

  lemma FrontMoves(s: State, st: nat)
    requires WellFormed(s) && SharedEnabled(s, GpuStep(st))
    ensures Popped(s.streams[st], RunFront(s, st))
  {
  }

  lemma FrontCarried(gs: Stream, gs': Stream)
    requires gs.queue != [] && Popped(gs, gs')
    ensures forall q :: Carried(gs, q) ==> Carried(gs', q)
    ensures NoTails(gs) ==> NoTails(gs')
  {
    forall q | Copy(q) in gs.queue ensures Carried(gs', q) {
      if gs.queue[0] != Copy(q) { assert Copy(q) in gs.queue[1..]; }
    }
    forall q | Copy(q) in gs'.queue ensures Copy(q) in gs.queue {
      assert Copy(q) in gs.queue[1..];
    }
  }

  // A tail is requested only where tails are copied.
  lemma SubmitTailCarry(s: State, w: nat, t: Tail, st: nat)
    requires WellFormed(s) && SharedEnabled(s, SubmitTail(w, t)) && st < |s.streams| && CarryOk(s, st)
    ensures CarryOk(TailSubmitted(s, w, t), st)
    ensures TailSubmitted(s, w, t).streams[st].ledger.lost == s.streams[st].ledger.lost
  {
  }

  lemma VisitSame(s: State, w: nat, n: nat, st: nat)
    requires WellFormed(s) && SharedEnabled(s, Visit(w, n)) && st < |s.streams|
    ensures SameCarry(s.streams[st], VisitSlot(s, w, n).streams[st])
  {
    if Current(s.workers[w]).state == Pending { VisitPendingIs(s, w, n, st); }
  }

  lemma VisitRest(s: State, w: nat, n: nat)
    requires WellFormed(s) && SharedEnabled(s, Visit(w, n))
    ensures VisitSlot(s, w, n).lock == s.lock && VisitSlot(s, w, n).alignedOnly == s.alignedOnly
  {
  }

  lemma ReleaseSame(s: State, w: nat, st: nat)
    requires WellFormed(s) && SharedEnabled(s, Release(w)) && st < |s.streams|
    ensures SameCarry(s.streams[st], ReleaseSlot(s, w).streams[st])
    ensures ReleaseSlot(s, w).lock == s.lock && ReleaseSlot(s, w).alignedOnly == s.alignedOnly
  {
  }

  lemma LandSame(s: State, w: nat, i: nat, st: nat)
    requires WellFormed(s) && SharedEnabled(s, DmaLand(w, i)) && st < |s.streams|
    ensures SameCarry(s.streams[st], TailLanded(s, w, i).streams[st])
    ensures TailLanded(s, w, i).lock == s.lock && TailLanded(s, w, i).alignedOnly == s.alignedOnly
  {
  }

  lemma WorkSame(s: State, step: Step, st: nat)
    requires WellFormed(s) && (step.DmaPart? || step.DmaLand? || step.Release? || step.StopDriver?)
    requires SharedEnabled(s, step) && st < |s.streams|
    ensures SameCarry(s.streams[st], ApplyShared(s, step).streams[st])
    ensures ApplyShared(s, step).lock == s.lock && ApplyShared(s, step).alignedOnly == s.alignedOnly
  {
    if step.Release? { ReleaseSame(s, step.w, st); }
    else if step.DmaLand? { LandSame(s, step.w, step.i, st); }
  }

  lemma UserSame(s: State, st0: nat, st: nat)
    requires WellFormed(s) && SharedEnabled(s, EnqUser(st0)) && st < |s.streams|
    ensures SameCarry(s.streams[st], ApplyShared(s, EnqUser(st0)).streams[st])
  {
    AppendSameCarry(s.streams[st0], User);
  }

  lemma WorkCarry(s: State, step: Step, st: nat, s': State)
    requires WellFormed(s) && st < |s.streams| == |s'.streams| && CarryOk(s, st)
    requires step.Visit? || step.DmaPart? || step.DmaLand? || step.Release? || step.StopDriver? || step.EnqUser?
    requires SharedEnabled(s, step) && s' == ApplyShared(s, step)
    ensures CarryOk(s', st) && s'.streams[st].ledger.lost == s.streams[st].ledger.lost
  {
    if step.Visit? { VisitSame(s, step.w, step.n, st); VisitRest(s, step.w, step.n); }
    else if step.EnqUser? { UserSame(s, step.st, st); }
    else { WorkSame(s, step, st); }
    CarryFrame(s, s', st);
  }

  ghost predicate LosesCopy(step: Step) {
    step.EnqCopy? && !step.ok
  }

  lemma SubmitCarry(s: State, step: Step, st: nat)
    requires WellFormed(s) && StreamInv(s) && st < |s.streams| && CarryOk(s, st)
    requires step.ClaimStream? || step.ClaimAsync? || step.ClaimFull? || step.EnqWrite? || step.EnqWait?
             || step.EnqHost? || step.MarkPending? || step.PublishHead?
    requires SharedEnabled(s, step)
    ensures CarryOk(ApplyShared(s, step), st) && ApplyShared(s, step).streams[st].ledger == s.streams[st].ledger
  {
    if step.ClaimStream? { ClaimStreamCarry(s, step.st, step.write, st); }
    else if step.ClaimAsync? || step.ClaimFull? { ClaimOtherCarry(s, step, st); }
    else if step.MarkPending? { MarkCarry(s, st); }
    else if step.PublishHead? { PublishCarry(s, st); }
    else { EnqueueStepCarry(s, step, st); }
  }

  lemma SharedCarry(s: State, step: Step, st: nat)
    requires WellFormed(s) && StreamInv(s) && !IsLocal(step) && SharedEnabled(s, step) && st < |s.streams|
    requires CarryOk(s, st)
    ensures CarryOk(ApplyShared(s, step), st)
    ensures !LosesCopy(step) ==> ApplyShared(s, step).streams[st].ledger.lost == s.streams[st].ledger.lost
  {
    if step.EnqCopy? { CopyCarry(s, step.st, step.q, step.ok, st); }
    else if step.GpuStep? { FrontCarry(s, step.st, st); }
    else if step.SubmitTail? { SubmitTailCarry(s, step.w, step.t, st); }
    else if step.Visit? || step.DmaPart? || step.DmaLand? || step.Release? || step.StopDriver? || step.EnqUser? {
      WorkCarry(s, step, st, ApplyShared(s, step));
    } else { SubmitCarry(s, step, st); }
  }

  lemma StepCarry(s: State, step: Step, st: nat)
    requires WellFormed(s) && StreamInv(s) && Enabled(s, step) && st < |s.streams| && CarryOk(s, st)
    ensures CarryOk(Apply(s, step), st)
    ensures !LosesCopy(step) ==> Apply(s, step).streams[st].ledger.lost == s.streams[st].ledger.lost
  {
    if IsLocal(step) { CarryFrame(s, Apply(s, step), st); } else { SharedCarry(s, step, st); }
  }

  lemma {:induction false} RunCarry(s: State, steps: seq<Step>, s': State, st: nat)
    requires Inv(s) && QueueInv(s) && BudgetRun(s, steps, s') && st < |s.streams| && CarryOk(s, st)
    ensures st < |s'.streams| && CarryOk(s', st)
    ensures (forall k :: 0 <= k < |steps| ==> !LosesCopy(steps[k])) ==>
              s'.streams[st].ledger.lost == s.streams[st].ledger.lost
    decreases |steps|
  {
    if steps != [] {
      WindowFromBudget(s);
      StepKept(s, steps[0]);
      QueueKept(s, steps[0]);
      StepCarry(s, steps[0], st);
      RunCarry(Apply(s, steps[0]), steps[1..], s', st);
    }
  }

  lemma ReachableCarry(s: State, st: nat)
    requires Reachable(s) && st < |s.streams|
    ensures CarryOk(s, st)
  {
    var s0, steps :| Init(s0) && BudgetRun(s0, steps, s);
    InitInv(s0);
    InitQueue(s0);
    SameStreams(s0, steps, s);
    assert InitStream(s0.streams[st]);
    RunCarry(s0, steps, s, st);
  }

  lemma {:induction false} SameStreams(s: State, steps: seq<Step>, s': State)
    requires BudgetRun(s, steps, s')
    ensures |s'.streams| == |s.streams|
    decreases |steps|
  {
    if steps != [] { SameStreams(Apply(s, steps[0]), steps[1..], s'); }
  }

  /**
    In every reachable state the copy of every published read is owed, queued, done, or
    could not be enqueued; where only aligned ranges are read there is none.
   */
  lemma CopiesAreCarried(s: State, st: nat)
    requires Reachable(s) && st < |s.streams|
    ensures s.alignedOnly ==> NoTails(s.streams[st])
    ensures !s.alignedOnly ==>
              forall q :: q in s.streams[st].home && q in s.streams[st].readSeqs && !HeldSeq(s, st, q) ==>
                Carried(s.streams[st], q)
  {
    ReachableCarry(s, st);
  }

  // ---------- delivering ----------

  // Every op accepted is finished and has let its gate go.
  ghost predicate Served(s: State) {
    && Inv(s) && QueueInv(s) && BudgetOk(s) && !Unfinished(s)
    && forall st, q :: 0 <= st < |s.streams| && q in s.streams[st].home ==> s.streams[st].gate >= 2 * q + 1
  }

  // The steps of a delivery.
  predicate Delivers(t: Step) {
    (t.EnqCopy? && t.ok) || t.GpuStep?
  }

  lemma ServedStays(s: State, t: Step)
    requires Served(s) && Delivers(t) && SharedEnabled(s, t)
    ensures Served(ApplyShared(s, t)) && ApplyShared(s, t).workers == s.workers
  {
    var s' := ApplyShared(s, t);
    WindowFromBudget(s);
    StepKept(s, t);
    QueueKept(s, t);
    AheadGrows(s, t, BURN_BUDGET);
    NoRingTouched(s, t);
    forall st, q | 0 <= st < |s'.streams| && q in s'.streams[st].home ensures s'.streams[st].gate >= 2 * q + 1 {
      DeliveryKeeps(s, t, st);
    }
  }

  lemma DeliveryKeeps(s: State, t: Step, st: nat)
    requires Inv(s) && WindowOk(s) && Delivers(t) && SharedEnabled(s, t) && st < |s.streams|
    ensures ApplyShared(s, t).streams[st].home == s.streams[st].home
    ensures ApplyShared(s, t).streams[st].gate >= s.streams[st].gate
  {
    GateMoves(s, t, st);
    if t.GpuStep? { GateStepKeeps(s, t, st); } else { OtherKeeps(s, t, st); }
  }

  lemma NumberPassed(s: State, st: nat, q: nat)
    requires Served(s) && st < |s.streams| && 1 <= q <= s.streams[st].nextSeq && q !in s.streams[st].burned
    ensures s.streams[st].gate >= 2 * q + 1
  {
    assert s.streams[st].gate <= 2 * q ==> Covered(s, st, q);
  }

  // Nothing holds a stream up any more.
  lemma FrontRuns(s: State, st: nat)
    requires Served(s) && st < |s.streams| && s.streams[st].queue != []
    ensures FrontReady(s, st) && !s.streams[st].queue[0].HostFn?
  {
    var gs, c := s.streams[st], s.streams[st].queue[0];
    assert CmdOk(gs, c);
    if c.HostFn? || c.WaitGate? || c.Park? { NumberPassed(s, st, c.q); }
    if c.WaitGate? || c.Park? { CyclicTestExact(gs.gate, 2 * c.q + 1); }
  }

  ghost predicate OthersSame(s: State, st: nat, s': State) {
    && |s'.streams| == |s.streams|
    && forall t :: 0 <= t < |s.streams| && t != st ==> s'.streams[t] == s.streams[t]
  }

  // The copies its threads owe are enqueued, and the stream runs until it is idle.
  lemma {:induction false} Deliver(s: State, st: nat) returns (steps: seq<Step>, s': State)
    requires Served(s) && st < |s.streams|
    ensures BudgetRun(s, steps, s') && Served(s') && OthersSame(s, st, s')
    ensures forall k :: 0 <= k < |steps| ==> Delivers(steps[k])
    ensures s'.streams[st].owed == {} && s'.streams[st].queue == []
    decreases |s.streams[st].owed|, |s.streams[st].queue|
  {
    var gs := s.streams[st];
    if gs.owed == {} && gs.queue == [] {
      return [], s;
    }
    var t, s1 := DeliverOne(s, st);
    var rest;
    rest, s' := Deliver(s1, st);
    steps := [t] + rest;
    assert steps[1..] == rest;
  }

  lemma DeliverOne(s: State, st: nat) returns (t: Step, s1: State)
    requires Served(s) && st < |s.streams| && (s.streams[st].owed != {} || s.streams[st].queue != [])
    ensures Delivers(t) && Leads(s, t, s1) && Served(s1) && OthersSame(s, st, s1)
    ensures var gs, gs' := s.streams[st], s1.streams[st];
            |gs'.owed| < |gs.owed| || (gs'.owed == gs.owed && |gs'.queue| < |gs.queue|)
  {
    var gs := s.streams[st];
    if gs.owed != {} {
      var q :| q in gs.owed;
      t := EnqCopy(st, q, true);
      assert gs.owed == (gs.owed - {q}) + {q};
    } else {
      t := GpuStep(st);
      FrontRuns(s, st);
      FrontMoves(s, st);
    }
    s1 := ApplyShared(s, t);
    ServedStays(s, t);
  }

  lemma {:induction false} DeliverAll(s: State, n: nat) returns (steps: seq<Step>, s': State)
    requires Served(s) && n <= |s.streams|
    ensures BudgetRun(s, steps, s') && |s'.streams| == |s.streams|
    ensures forall k :: 0 <= k < |steps| ==> Delivers(steps[k])
    ensures forall st :: 0 <= st < n ==> s'.streams[st].owed == {} && s'.streams[st].queue == []
    ensures forall st :: n <= st < |s.streams| ==> s'.streams[st] == s.streams[st]
    decreases n
  {
    if n == 0 {
      return [], s;
    }
    var a, s1 := Deliver(s, n - 1);
    var b;
    b, s' := DeliverAll(s1, n - 1);
    RunJoin(s, a, s1, b, s');
    steps := a + b;
  }

  // Steps on the way to the last copy.
  predicate OldWorkOrCopy(t: Step) {
    !BringsWork(t) || Delivers(t)
  }

  /**
    From every state reached without a shutdown request, a run without new submissions ends
    with all streams idle and with the copy of every published read done, but for those that
    could not be enqueued before.
   */
  lemma EveryTailIsCopied(s: State) returns (steps: seq<Step>, s': State)
    requires Reachable(s) && WellFormed(s) && Running(s)
    ensures BudgetRun(s, steps, s') && |s'.streams| == |s.streams|
    ensures forall k :: 0 <= k < |steps| ==> OldWorkOrCopy(steps[k])
    ensures forall st :: 0 <= st < |s'.streams| ==> s'.streams[st].queue == [] && s'.streams[st].owed == {}
    ensures forall st :: 0 <= st < |s'.streams| ==>
              AllDone(s'.streams[st], s'.alignedOnly, s.streams[st].ledger.lost)
  {
    var a, s1 := EveryOpCanFinish(s);
    ReachableInv(s);
    RunKeeps(s, a, s1);
    var b;
    b, s' := DeliverAll(s1, |s1.streams|);
    RunJoin(s, a, s1, b, s');
    steps := a + b;
    SameStreams(s, steps, s');
    StillUnlocked(s1, b, s');
    forall st | 0 <= st < |s'.streams| ensures AllDone(s'.streams[st], s'.alignedOnly, s.streams[st].ledger.lost) {
      ReachableCarry(s, st);
      RunCarry(s, steps, s', st);
      IdleIsDone(s', st);
    }
  }

  ghost predicate AllDone(gs: Stream, alignedOnly: bool, lost: set<nat>) {
    !alignedOnly ==> forall q :: q in gs.home && q in gs.readSeqs ==> q in gs.copied || q in lost
  }

  lemma IdleIsDone(s: State, st: nat)
    requires st < |s.streams| && CarryOk(s, st) && s.lock.Unlocked?
    requires s.streams[st].owed == {} && s.streams[st].queue == []
    ensures AllDone(s.streams[st], s.alignedOnly, s.streams[st].ledger.lost)
  {
  }

  lemma {:induction false} StillUnlocked(s: State, steps: seq<Step>, s': State)
    requires s.lock.Unlocked? && BudgetRun(s, steps, s') && forall k :: 0 <= k < |steps| ==> Delivers(steps[k])
    ensures s'.lock.Unlocked?
    decreases |steps|
  {
    if steps != [] { StillUnlocked(Apply(s, steps[0]), steps[1..], s'); }
  }

  // ---------- and everybody gets what is due ----------

  lemma {:induction false} PoliteIsBudgetRun(s: State, steps: seq<Step>, s': State)
    requires PoliteRun(s, steps, s')
    ensures BudgetRun(s, steps, s')
    decreases |steps|
  {
    if steps != [] { PoliteIsBudgetRun(Apply(s, steps[0]), steps[1..], s'); }
  }

  lemma {:induction false} QuietIsPolite(s: State, steps: seq<Step>, s': State)
    requires BudgetRun(s, steps, s') && forall k :: 0 <= k < |steps| ==> OldWorkOrCopy(steps[k])
    ensures PoliteRun(s, steps, s')
    decreases |steps|
  {
    if steps != [] { QuietIsPolite(Apply(s, steps[0]), steps[1..], s'); }
  }

  lemma {:induction false} PoliteJoin(s: State, a: seq<Step>, s1: State, b: seq<Step>, s': State)
    requires PoliteRun(s, a, s1) && PoliteRun(s1, b, s')
    ensures PoliteRun(s, a + b, s')
    decreases |a|
  {
    if a == [] {
      assert a + b == b;
    } else {
      PoliteJoin(Apply(s, a[0]), a[1..], s1, b, s');
      TailOfSum(a, b);
    }
  }

  // The copy of every published read has taken what its read was due, unless it was lost.
  ghost predicate AllDelivered(gs: Stream, lost: set<nat>) {
    forall q :: q in gs.home && q in gs.readSeqs && q !in lost ==> q in gs.copied && gs.copied[q] == DueTail(gs, q)
  }

  /**
    Where reads of a stream are submitted by one thread at a time, every read accepted can be
    carried to its end: its copy takes exactly the tail it requested, or nothing if a command
    of it failed.
   */
  lemma EveryTailArrives(s: State) returns (steps: seq<Step>, s': State)
    requires PolitelyReachable(s) && WellFormed(s) && Running(s) && !s.alignedOnly
    ensures PoliteRun(s, steps, s') && |s'.streams| == |s.streams|
    ensures forall k :: 0 <= k < |steps| ==> OldWorkOrCopy(steps[k])
    ensures forall st :: 0 <= st < |s'.streams| ==> AllDelivered(s'.streams[st], s.streams[st].ledger.lost)
  {
    var s0, before :| Init(s0) && PoliteRun(s0, before, s);
    PoliteIsBudgetRun(s0, before, s);
    steps, s' := EveryTailIsCopied(s);
    QuietIsPolite(s, steps, s');
    PoliteJoin(s0, before, s, steps, s');
    SameMode(s, steps, s');
    forall st | 0 <= st < |s'.streams| ensures AllDelivered(s'.streams[st], s.streams[st].ledger.lost) {
      assert AllDone(s'.streams[st], s'.alignedOnly, s.streams[st].ledger.lost);
      forall q | q in s'.streams[st].copied ensures s'.streams[st].copied[q] == DueTail(s'.streams[st], q) {
        CopyTakesItsOwnTail(s', st, q);
      }
    }
  }

  lemma StepMode(s: State, t: Step)
    requires WellFormed(s) && Enabled(s, t)
    ensures Apply(s, t).alignedOnly == s.alignedOnly
  {
    if t.Visit? { VisitRest(s, t.w, t.n); }
  }

  lemma {:induction false} SameMode(s: State, steps: seq<Step>, s': State)
    requires BudgetRun(s, steps, s')
    ensures s'.alignedOnly == s.alignedOnly
    decreases |steps|
  {
    if steps != [] {
      StepMode(s, steps[0]);
      SameMode(Apply(s, steps[0]), steps[1..], s');
    }
  }
}
