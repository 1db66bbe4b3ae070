/**
  Progress over whole runs: as long as some op can be finished the strategy has an enabled
  step that lowers the rank, and following it leaves only what a shutdown has left behind;
  without a shutdown, nothing.
 */
module GateDrain {
  import opened GateModel
  import opened GateInvariant
  import opened GateWorkers
  import opened GateQueue
  import opened GateRuns
  import opened GateShutdown
  import opened GateRank
  import opened GateProgress

  lemma {:induction false} LeastSame(lo: nat, hi: nat, p: nat -> bool, q: nat -> bool)
    requires forall i: nat :: p(i) <==> q(i)
    ensures Least(lo, hi, p) == Least(lo, hi, q)
  {
    var a, b := Least(lo, hi, p), Least(lo, hi, q);
    assert a < hi ==> p(a) && q(a);
    assert b < hi ==> q(b) && p(b);
  }

  // A worker has moved on in its loop and has not left it.
  ghost predicate MovedOn(s: State, w: nat, wk': Worker) {
    && w < |s.workers| && Moved(s.workers[w], wk')
    && !Active(wk') && (wk'.stage == Exited <==> s.workers[w].stage == Exited)
  }

  lemma SameHope(s: State, w: nat, wk': Worker, v: nat)
    requires WellFormed(s) && MovedOn(s, w, wk') && v < |s.workers|
    ensures HopeAt(SetWorker(s, w, wk'), v) == HopeAt(s, v)
    ensures HasHope(SetWorker(s, w, wk'), v) <==> HasHope(s, v)
  {
    var s' := SetWorker(s, w, wk');
    forall p: nat ensures Hopeful(s, v, p) <==> Hopeful(s', v, p) {
    }
    LeastSame(s.workers[v].tail, s.workers[v].head, HopefulIn(s', v), HopefulIn(s, v));
  }

  lemma SameTarget(s: State, w: nat, wk': Worker)
    requires WellFormed(s) && InLoop(s) && MovedOn(s, w, wk')
    ensures var s' := SetWorker(s, w, wk'); InLoop(s') && Target(s') == Target(s) && Wanted(s') == Wanted(s)
  {
    var s' := SetWorker(s, w, wk');
    forall v: nat ensures WithHope(s')(v) <==> WithHope(s)(v) {
      if v < |s.workers| { SameHope(s, w, wk', v); }
    }
    LeastSame(0, |s.workers|, WithHope(s'), WithHope(s));
    SameHope(s, w, wk', FirstHope(s));
  }

  lemma SameSpotServed(s: State, w: nat, wk': Worker)
    requires WellFormed(s) && InLoop(s) && MovedOn(s, w, wk')
    ensures var s' := SetWorker(s, w, wk'); InLoop(s') && Focus(s') == Focus(s)
  {
    SameTarget(s, w, wk');
    FocusOf(s, SetWorker(s, w, wk'));
  }

  // The focus is found from the wanted op, the streams and the rings' tails.
  lemma FocusOf(s: State, s': State)
    requires WellFormed(s) && WellFormed(s') && FirstHope(s) < |s.workers| == |s'.workers|
    requires FirstHope(s') < |s'.workers|
    requires Wanted(s') == Wanted(s) && Target(s') == Target(s) && s'.streams == s.streams
    requires forall v :: 0 <= v < |s.workers| ==> s'.workers[v].tail == s.workers[v].tail
    ensures Focus(s') == Focus(s)
  {
  }

  lemma SameMoves(s: State, w: nat, wk': Worker)
    requires WellFormed(s) && InLoop(s) && MovedOn(s, w, wk')
    ensures var s' := SetWorker(s, w, wk'); InLoop(s') && (StreamMoves(s') <==> StreamMoves(s))
  {
    SameTarget(s, w, wk');
  }

  // A worker moving on in its loop changes neither whom the strategy serves nor why.
  lemma SameFocus(s: State, w: nat, wk': Worker)
    requires WellFormed(s) && InLoop(s) && MovedOn(s, w, wk')
    ensures var s' := SetWorker(s, w, wk');
            InLoop(s') && Focus(s') == Focus(s) && (StreamMoves(s') <==> StreamMoves(s))
  {
    SameSpotServed(s, w, wk');
    SameMoves(s, w, wk');
  }

  lemma LoopStepIsBelow(s: State, w: nat, wk': Worker)
    requires WellFormed(s) && InLoop(s) && w < |s.workers| && Loops(s.workers[w], wk')
    requires w == Focus(s).w && s.workers[w].tail <= Focus(s).p
    requires SpotDist(SetWorker(s, w, wk'), Focus(s)) < SpotDist(s, Focus(s))
    ensures var s' := SetWorker(s, w, wk'); Below(RankOf(s'), RankOf(s))
  {
    SameFocus(s, w, wk');
    MovedWork(s, w, wk');
  }

  lemma CloserIsBelow(s: State, s': State)
    requires WellFormed(s) && InLoop(s) && Closer(s, Focus(s), s')
    ensures WellFormed(s') && Below(RankOf(s'), RankOf(s))
  {
    var at := Focus(s);
    var wk' :| Loops(s.workers[at.w], wk') && s' == SetWorker(s, at.w, wk')
               && SpotDist(SetWorker(s, at.w, wk'), at) < SpotDist(s, at);
    LoopStepIsBelow(s, at.w, wk');
  }

  lemma HopeIsFound(s: State)
    requires Movable(s) && s.lock.Unlocked?
    ensures FirstHope(s) < |s.workers|
  {
    var w: nat, p: nat :| Hopeful(s, w, p);
    assert HopefulIn(s, w)(p);
    assert HasHope(s, w);
    assert WithHope(s)(w);
  }

  ghost predicate Descends(s: State, s': State) {
    WellFormed(s) && WellFormed(s') && Below(RankOf(s'), RankOf(s))
  }

  // As long as some op can be finished the strategy has a step, and the step lowers the
  // rank: the rings may be full of gated ops on any number of streams, the device queues
  // full, commands turned away, a shutdown under way and some workers gone.
  lemma NoStuckState(s: State, c: Choice)
    requires Inv(s) && QueueInv(s) && WindowOk(s) && Movable(s)
    ensures s.lock.Locked? || FirstHope(s) < |s.workers|
    ensures Enabled(s, NextStep(s, c)) && Descends(s, Apply(s, NextStep(s, c)))
  {
    if s.lock.Unlocked? { HopeIsFound(s); }
    var t := NextStep(s, c);
    StepEnabled(s, c);
    StepKept(s, t);
    var s' := Apply(s, t);
    if s.lock.Unlocked? && !Less(s', s) {
      CloserIsBelow(s, s');
    }
  }

  lemma StepEnabled(s: State, c: Choice)
    requires Inv(s) && QueueInv(s) && WindowOk(s) && (s.lock.Locked? || FirstHope(s) < |s.workers|)
    ensures var t := NextStep(s, c);
            && Enabled(s, t)
            && if s.lock.Locked? then LockWork(Apply(s, t).lock) < LockWork(s.lock)
               else Less(Apply(s, t), s) || (InLoop(s) && Closer(s, Focus(s), Apply(s, t)))
  {
    var a := First(s.workers, Active);
    if s.lock.Locked? {
      SubmitLowers(s, c);
    } else if a < |s.workers| {
      ActiveLowers(s, a, c);
    } else if StreamMoves(s) {
      GpuLowers(s, Wanted(s).op.stream);
    } else {
      FocusFacts(s);
      ServeLowers(s, Focus(s), c);
    }
  }

  // ---------- what can be finished ----------

  // No worker has left its loop.
  ghost predicate AllPresent(s: State) {
    forall w :: 0 <= w < |s.workers| ==> s.workers[w].stage != Exited
  }

  lemma PresentIsMovable(s: State)
    requires WellFormed(s) && AllPresent(s) && Unfinished(s)
    ensures Movable(s)
  {
    if s.lock.Unlocked? {
      var w :| 0 <= w < |s.workers| && Busy(s.workers[w]);
      assert Hopeful(s, w, s.workers[w].tail);
    }
  }

  // An op its worker has seen can be finished, unless its stream waits for one left behind;
  // also while a shutdown is under way and other workers are gone.
  lemma SeenIsMovable(s: State, op: Op, pl: Place)
    requires Inv(s) && Seen(s, op, pl) && !Finished(s, op) && !(op.StreamOp? && Stranded(s, op.stream))
    ensures Movable(s)
  {
    StillThere(s, op, pl);
    SeenIsServed(s, op, pl);
    assert RingOk(s.workers[pl.w], MarkedAt(s, pl.w));
    assert Hopeful(s, pl.w, PosOf(s.workers[pl.w], pl.i));
  }

  // An unfinished op that nothing can be done for is in the ring of a worker that is gone,
  // or behind such an op on its stream.
  lemma OnlyLeftBehind(s: State, op: Op, pl: Place)
    requires Inv(s) && !Movable(s) && Placed(s, op, pl) && !Finished(s, op)
    ensures HasSlot(s, pl.w, pl.i)
    ensures s.workers[pl.w].stage == Exited || (op.StreamOp? && Stranded(s, op.stream))
    ensures var p := PosOf(s.workers[pl.w], pl.i); s.workers[pl.w].tail <= p < s.workers[pl.w].head
  {
    StillThere(s, op, pl);
    assert RingOk(s.workers[pl.w], MarkedAt(s, pl.w));
    assert !Hopeful(s, pl.w, PosOf(s.workers[pl.w], pl.i));
  }

  lemma UnfinishedSlot(s: State, w: nat, i: nat, op: Op)
    requires Inv(s) && HasSlot(s, w, i) && Owing(s.workers[w].slots[i]) && SameOp(op, s.workers[w].slots[i].op)
    ensures !Finished(s, op)
  {
    assert LinkAt(s, w, i);
  }

  // And it is never finished: where the strategy has no step, no run finishes anything, not
  // even with new submissions.
  lemma {:induction false} NeverFinished(s: State, steps: seq<Step>, s': State, op: Op, pl: Place)
    requires Inv(s) && QueueInv(s) && !Movable(s) && Placed(s, op, pl) && !Finished(s, op)
    requires BudgetRun(s, steps, s')
    ensures !Finished(s', op)
  {
    OnlyLeftBehind(s, op, pl);
    StillThere(s, op, pl);
    RunKeeps(s, steps, s');
    if s.workers[pl.w].stage == Exited {
      LeftBehindForever(s, steps, s', pl.w);
      assert s'.workers[pl.w].slots[pl.i] == s.workers[pl.w].slots[Ix(PosOf(s.workers[pl.w], pl.i))];
      UnfinishedSlot(s', pl.w, pl.i, op);
    } else {
      StrandedForever(s, steps, s', op.stream);
    }
  }

  lemma {:induction false} StaysSeen(s: State, steps: seq<Step>, s': State, op: Op, pl: Place)
    requires Inv(s) && (Seen(s, op, pl) || Finished(s, op)) && BudgetRun(s, steps, s')
    ensures Seen(s', op, pl) || Finished(s', op)
    decreases |steps|
  {
    if steps != [] {
      WindowFromBudget(s);
      StepKept(s, steps[0]);
      if Finished(s, op) { FinishedStays(s, steps[0], op); } else { SeenKept(s, steps[0], op, pl); }
      StaysSeen(Apply(s, steps[0]), steps[1..], s', op, pl);
    }
  }

  // A worker that has seen an op that is never finished never leaves its loop: a shutdown
  // that joins it does not end.
  lemma {:induction false} NeverLeaves(s: State, steps: seq<Step>, s': State, op: Op, pl: Place)
    requires Inv(s) && QueueInv(s) && !Movable(s) && Seen(s, op, pl) && !Finished(s, op)
    requires BudgetRun(s, steps, s')
    ensures pl.w < |s'.workers| && s'.workers[pl.w].stage != Exited
  {
    NeverFinished(s, steps, s', op, pl);
    StaysSeen(s, steps, s', op, pl);
    RunKeeps(s, steps, s');
    SeenIsServed(s', op, pl);
  }

  // ---------- draining ----------

  // No step brings a worker's loop to its end while no shutdown is asked for.
  lemma LocalRunning(wk: Worker, t: Step)
    requires |wk.slots| == RING && IsLocal(t) && LocalEnabled(wk, t) && wk.stage != Exited
    ensures WorkerStep(wk, t, false).stage != Exited
  {
  }

  ghost predicate Running(s: State) {
    !s.stop && AllPresent(s)
  }

  lemma VisitRunning(s: State, w: nat, n: nat)
    requires WellFormed(s) && Running(s) && SharedEnabled(s, Visit(w, n))
    ensures Running(VisitSlot(s, w, n))
  {
  }

  lemma WorkRunning(s: State, t: Step)
    requires WellFormed(s) && Running(s) && (t.SubmitTail? || t.DmaLand? || t.Release?) && SharedEnabled(s, t)
    ensures Running(ApplyShared(s, t))
  {
  }

  lemma ClaimRunning(s: State, t: Step)
    requires WellFormed(s) && Running(s)
    requires t.ClaimStream? || t.ClaimAsync? || t.ClaimFull? || t.MarkPending? || t.PublishHead?
    requires SharedEnabled(s, t)
    ensures Running(ApplyShared(s, t))
  {
  }

  lemma QueueRunning(s: State, t: Step)
    requires WellFormed(s) && Running(s)
    requires t.EnqWrite? || t.EnqWait? || t.EnqHost? || t.EnqCopy? || t.EnqUser? || t.GpuStep? || t.DmaPart?
    requires SharedEnabled(s, t)
    ensures Running(ApplyShared(s, t))
  {
    NoRingTouched(s, t);
  }

  lemma SharedRunning(s: State, t: Step)
    requires WellFormed(s) && Running(s) && !IsLocal(t) && SharedEnabled(s, t) && !t.StopDriver? && !t.Visit?
    ensures Running(ApplyShared(s, t))
  {
    if t.SubmitTail? || t.DmaLand? || t.Release? {
      WorkRunning(s, t);
    } else if t.ClaimStream? || t.ClaimAsync? || t.ClaimFull? || t.MarkPending? || t.PublishHead? {
      ClaimRunning(s, t);
    } else {
      QueueRunning(s, t);
    }
  }

  lemma LocalStepRunning(s: State, t: Step)
    requires WellFormed(s) && Running(s) && IsLocal(t) && Enabled(s, t)
    ensures Running(Apply(s, t))
  {
    LocalRunning(s.workers[t.w], t);
  }

  lemma RunningKept(s: State, t: Step)
    requires WellFormed(s) && Running(s) && Enabled(s, t) && !t.StopDriver?
    ensures Running(Apply(s, t))
  {
    if IsLocal(t) { LocalStepRunning(s, t); }
    else if t.Visit? { VisitRunning(s, t.w, t.n); }
    else { SharedRunning(s, t); }
  }

  // Steps that bring new work, or ask the workers to leave.
  predicate BringsWork(t: Step) {
    t.ClaimStream? || t.ClaimAsync? || t.ClaimFull? || t.EnqUser? || t.EnqCopy? || t.StopDriver?
  }

  // Steps that belong to the work at hand.
  predicate OldWork(t: Step) {
    !BringsWork(t) && !FailedEnqueue(t)
  }

  lemma LoopIsOldWork(wk: Worker, w: nat, c: Choice)
    requires |wk.slots| == RING
    ensures OldWork(LoopStep(wk, w, c))
  {
  }

  lemma ActiveIsOldWork(wk: Worker, w: nat, c: Choice)
    requires |wk.slots| == RING && Active(wk)
    ensures OldWork(ActiveStep(wk, w, c))
  {
  }

  lemma SubmitIsOldWork(s: State, c: Choice)
    requires s.lock.Locked? && c.ok
    ensures OldWork(SubmitStep(s, c))
  {
  }

  lemma ServeIsOldWork(s: State, at: Spot, c: Choice)
    requires WellFormed(s) && at.w < |s.workers|
    ensures OldWork(ServeStep(s, at, c))
  {
    LoopIsOldWork(s.workers[at.w], at.w, c);
  }

  lemma StrategyBringsNoWork(s: State, c: Choice)
    requires WellFormed(s) && (s.lock.Locked? || FirstHope(s) < |s.workers|) && c.ok
    ensures OldWork(NextStep(s, c))
  {
    var a := First(s.workers, Active);
    if s.lock.Locked? { SubmitIsOldWork(s, c); }
    else if a < |s.workers| { ActiveIsOldWork(s.workers[a], a, c); }
    else { ServeIsOldWork(s, Focus(s), c); }
  }

  ghost predicate Drainable(s: State) {
    Inv(s) && QueueInv(s) && BudgetOk(s)
  }

  ghost predicate Leads(s: State, t: Step, s1: State) {
    WellFormed(s) && Enabled(s, t) && Apply(s, t) == s1
  }

  lemma {:induction false} RunCons(s: State, t: Step, s1: State, rest: seq<Step>, s': State)
    requires Leads(s, t, s1) && BudgetOk(s) && BudgetRun(s1, rest, s') && !FailedEnqueue(t)
    ensures BudgetRun(s, [t] + rest, s') && Failures([t] + rest) == Failures(rest)
  {
    assert ([t] + rest)[1..] == rest;
  }

  lemma StrategyStep(s: State, c: Choice) returns (t: Step, s1: State)
    requires Drainable(s) && Movable(s) && c.ok
    ensures Leads(s, t, s1) && !BringsWork(t) && !FailedEnqueue(t)
    ensures Drainable(s1) && Descends(s, s1) && ServedFrom(s, s1)
  {
    WindowFromBudget(s);
    NoStuckState(s, c);
    t := NextStep(s, c);
    StrategyBringsNoWork(s, c);
    StepKept(s, t);
    QueueKept(s, t);
    AheadGrows(s, t, BURN_BUDGET);
    s1 := Apply(s, t);
    StepServes(s, t);
  }

  // The op is finished, or nothing more can be done for it.
  ghost predicate Settled(s: State, op: Op) {
    Finished(s, op) || (op.StreamOp? && Stranded(s, op.stream))
  }

  // What its worker has seen in s is still seen in s', or finished.
  ghost predicate ServedFrom(s: State, s': State) {
    && (forall op: Op :: Finished(s, op) ==> Finished(s', op))
    && (forall op: Op, pl: Place :: Seen(s, op, pl) ==> Seen(s', op, pl) || Finished(s', op))
  }

  // What its worker has seen in s is settled in s'.
  ghost predicate SeenSettled(s: State, s': State) {
    && (forall op: Op :: Finished(s, op) ==> Settled(s', op))
    && (forall op: Op, pl: Place :: Seen(s, op, pl) ==> Settled(s', op))
  }

  lemma StepServes(s: State, t: Step)
    requires Inv(s) && WindowOk(s) && Enabled(s, t)
    ensures ServedFrom(s, Apply(s, t))
  {
    forall op: Op | Finished(s, op) ensures Finished(Apply(s, t), op) {
      FinishedStays(s, t, op);
    }
    forall op: Op, pl: Place | Seen(s, op, pl) ensures Seen(Apply(s, t), op, pl) || Finished(Apply(s, t), op) {
      SeenKept(s, t, op, pl);
    }
  }

  lemma NothingSeenIsOpen(s: State)
    requires Inv(s) && !Movable(s)
    ensures SeenSettled(s, s)
  {
    forall op: Op, pl: Place | Seen(s, op, pl) ensures Settled(s, op) {
      if !Settled(s, op) { SeenIsMovable(s, op, pl); }
    }
  }

  lemma SettledLater(s: State, s1: State, s': State)
    requires ServedFrom(s, s1) && SeenSettled(s1, s')
    ensures SeenSettled(s, s')
  {
  }

  // The run brings nothing new.
  ghost predicate OldWorkOnly(steps: seq<Step>) {
    forall k :: 0 <= k < |steps| ==> !BringsWork(steps[k])
  }

  lemma OldWorkCons(t: Step, rest: seq<Step>)
    requires !BringsWork(t) && OldWorkOnly(rest)
    ensures OldWorkOnly([t] + rest)
  {
    forall k | 0 <= k < |[t] + rest| ensures !BringsWork(([t] + rest)[k]) {
      if k > 0 { assert ([t] + rest)[k] == rest[k - 1]; }
    }
  }

  // Following the strategy finishes everything that can be finished.
  lemma {:induction false} Drain(s: State, c: Choice) returns (steps: seq<Step>, s': State)
    requires Drainable(s) && c.ok
    ensures BudgetRun(s, steps, s') && Failures(steps) == 0
    ensures OldWorkOnly(steps)
    ensures Drainable(s') && !Movable(s') && SeenSettled(s, s')
    decreases RankOf(s).lock, RankOf(s).waiting, RankOf(s).work, RankOf(s).dist
  {
    if !Movable(s) {
      NothingSeenIsOpen(s);
      return [], s;
    }
    var t, s1 := StrategyStep(s, c);
    var rest;
    rest, s' := Drain(s1, c);
    steps := [t] + rest;
    RunCons(s, t, s1, rest, s');
    OldWorkCons(t, rest);
    SettledLater(s, s1, s');
  }

  // With empty rings every future handed in is completed and every published stream op
  // has let its gate go.
  lemma EmptyMeansDone(s: State)
    requires Inv(s) && !Unfinished(s)
    ensures forall f :: 0 <= f < s.nextFuture ==> f in s.doneFutures
    ensures forall st, q :: 0 <= st < |s.streams| && q in s.streams[st].home ==> s.streams[st].gate >= 2 * q + 1
  {
    forall f | 0 <= f < s.nextFuture ensures f in s.doneFutures {
      if f !in s.doneFutures {
        assert FutureLives(s, s.futureHome[f], f);
        NothingLives(s, s.futureHome[f]);
      }
    }
    forall st, q | 0 <= st < |s.streams| && q in s.streams[st].home ensures s.streams[st].gate >= 2 * q + 1 {
      if s.streams[st].gate <= 2 * q {
        assert LivesAt(s, s.streams[st].home[q], st, q);
        NothingLives(s, s.streams[st].home[q]);
      }
    }
  }

  lemma NothingLives(s: State, pl: Place)
    requires WellFormed(s) && RingInv(s) && !Unfinished(s) && HasSlot(s, pl.w, pl.i)
    ensures !Owing(s.workers[pl.w].slots[pl.i])
  {
    var wk := s.workers[pl.w];
    assert RingOk(wk, MarkedAt(s, pl.w));
    assert PhaseOk(wk, pl.i);
    assert !Busy(wk);
    var p := PosOf(wk, pl.i);
  }

  /**
    From every reachable state, a shutdown under way or not, a run without new work finishes
    every op whose worker has seen it, except on streams that wait for an op left behind; and
    what then remains is in rings of workers that are gone, or on such streams.
   */
  lemma SeenOpsCanFinish(s: State) returns (steps: seq<Step>, s': State)
    requires Reachable(s)
    ensures BudgetRun(s, steps, s') && Failures(steps) == 0 && OldWorkOnly(steps)
    ensures forall op: Op, pl: Place :: Seen(s, op, pl) ==> Settled(s', op)
    ensures WellFormed(s') && !Movable(s')
  {
    ReachableInv(s);
    steps, s' := Drain(s, Choice(0, true, false, true));
  }

  // From every state reached without a shutdown request, the ops accepted so far can all
  // be finished, with no new submission and no help but the device, the GPU streams and
  // the workers.
  lemma EveryOpCanFinish(s: State) returns (steps: seq<Step>, s': State)
    requires Reachable(s) && WellFormed(s) && Running(s)
    ensures BudgetRun(s, steps, s') && Failures(steps) == 0 && OldWorkOnly(steps)
    ensures WellFormed(s') && !Unfinished(s')
    ensures forall f :: 0 <= f < s'.nextFuture ==> f in s'.doneFutures
    ensures forall st, q :: 0 <= st < |s'.streams| && q in s'.streams[st].home ==> s'.streams[st].gate >= 2 * q + 1
  {
    ReachableInv(s);
    steps, s' := Drain(s, Choice(0, true, false, false));
    StaysRunning(s, steps, s');
    if Unfinished(s') { PresentIsMovable(s'); }
    EmptyMeansDone(s');
  }

  lemma {:induction false} StaysRunning(s: State, steps: seq<Step>, s': State)
    requires Running(s) && BudgetRun(s, steps, s') && forall k :: 0 <= k < |steps| ==> !steps[k].StopDriver?
    ensures Running(s')
    decreases |steps|
  {
    if steps != [] {
      RunningKept(s, steps[0]);
      StaysRunning(Apply(s, steps[0]), steps[1..], s');
    }
  }

  // ---------- commands turned away ----------

  // The run without the submissions that were turned away.
  function Answered(steps: seq<Step>): seq<Step> {
    if steps == [] then []
    else (if steps[0].SubmitBusy? then [] else [steps[0]]) + Answered(steps[1..])
  }

  // However often commands are turned away, a run ends as if they had been taken at once:
  // the same states are reached, by the same steps of everybody else.
  lemma {:induction false} TurnedAwayIsNoDetour(s: State, steps: seq<Step>, s': State)
    requires BudgetRun(s, steps, s')
    ensures BudgetRun(s, Answered(steps), s')
    decreases |steps|
  {
    if steps != [] {
      TurnedAwayIsNoDetour(Apply(s, steps[0]), steps[1..], s');
      if !steps[0].SubmitBusy? {
        ConsBudget(s, Answered(steps), Answered(steps[1..]), s');
      } else {
        assert Apply(s, steps[0]) == s;
        assert Answered(steps) == Answered(steps[1..]);
      }
    }
  }
}
