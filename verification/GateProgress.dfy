/**
  No stuck state: whatever is in the rings, the strategy of GateRank has an enabled step
  that lowers the rank, so every op that was accepted can be finished.
 */
module GateProgress {
  import opened Words
  import opened GateModel
  import opened GateInvariant
  import opened GateStreams
  import opened GateWorkers
  import opened GateQueue
  import opened GateShutdown
  import opened GateRank

  // ---------- finishing the submission in progress ----------

  lemma SubmitLowers(s: State, c: Choice)
    requires Inv(s) && s.lock.Locked?
    ensures var t := SubmitStep(s, c);
            !IsLocal(t) && SharedEnabled(s, t) && LockWork(ApplyShared(s, t).lock) < LockWork(s.lock)
  {
  }

  // ---------- a worker in the middle of an op ----------

  lemma StageLowers(wk: Worker, w: nat, stop: bool, t: Step)
    requires PosOk(wk) && IsLocal(t) && LocalEnabled(wk, t)
    requires t == Submit(w) || t == EndStart(w) || t == WriteDone(w) || t == FreeSlot(w)
    ensures WorkerWaits(WorkerStep(wk, t, stop)) == WorkerWaits(wk)
            && WorkerWork(WorkerStep(wk, t, stop)) < WorkerWork(wk)
  {
    var i := Ix(wk.pos);
    var wk' := WorkerStep(wk, t, stop);
    assert wk.slots[i := Current(wk)] == wk.slots;
    SwapSlot(wk, wk', i, wk'.slots[i]);
  }

  lemma StageStepLowers(s: State, w: nat, t: Step)
    requires WellFormed(s) && w < |s.workers| && PosOk(s.workers[w]) && IsLocal(t) && LocalEnabled(s.workers[w], t)
    requires t == Submit(w) || t == EndStart(w) || t == WriteDone(w) || t == FreeSlot(w)
    ensures Lowers(s, t)
  {
    StageLowers(s.workers[w], w, s.stop, t);
    SwapWorker(s, w, WorkerStep(s.workers[w], t, s.stop));
  }

  // What is outstanding belongs to a read in flight, of a known stream if it has a tail.
  lemma OutFacts(s: State, w: nat, i: nat)
    requires Inv(s) && HasSlot(s, w, i) && QueueOk(s.workers[w]) && s.workers[w].stage != Freeing
    requires HasOut(s.workers[w].slots[i])
    ensures var sl := s.workers[w].slots[i];
            sl.state == InFlight && sl.phase == Dispatched && KnownStream(s, sl.op) && BounceKnown(sl)
  {
    assert RingOk(s.workers[w], MarkedAt(s, w));
    assert PhaseOk(s.workers[w], i);
    assert LinkAt(s, w, i);
  }

  lemma CallbackStepLowers(s: State, t: Step)
    requires WellFormed(s) && (t.Callback? || t.CallbackTail?) && Enabled(s, t)
    requires s.workers[t.w].slots[t.i].phase == Dispatched
    ensures Lowers(s, t)
  {
    CallbackLowers(s.workers[t.w], t, s.stop);
    SwapWorker(s, t.w, WorkerStep(s.workers[t.w], t, s.stop));
  }

  // A worker that may poke gets some outstanding command completed.
  lemma DeviceLowers(s: State, w: nat, i: nat, c: Choice)
    requires Inv(s) && QueueInv(s) && HasSlot(s, w, i) && HasOut(s.workers[w].slots[i])
    requires MayPoke(s.workers[w]) || (s.workers[w].slots[i].bounce == OnDevice && s.workers[w].stage != Freeing)
    ensures Lowers(s, DeviceStep(s.workers[w], w, i, c))
  {
    var wk := s.workers[w];
    assert QueueOk(wk);
    OutFacts(s, w, i);
    if wk.slots[i].bounce == OnDevice {
      DmaLowers(s, w, i);
    } else {
      NextCallbackLowers(s, w, i, c);
    }
  }

  lemma NextCallbackLowers(s: State, w: nat, i: nat, c: Choice)
    requires WellFormed(s) && HasSlot(s, w, i) && MayPoke(s.workers[w])
    requires var sl := s.workers[w].slots[i];
             HasOut(sl) && sl.state == InFlight && sl.phase == Dispatched && sl.bounce != OnDevice
    ensures Lowers(s, DeviceStep(s.workers[w], w, i, c))
  {
    CallbackStepLowers(s, DeviceStep(s.workers[w], w, i, c));
  }

  // Inside start_read_op: with a context the command is issued, and without one, or turned
  // away while others are outstanding, one of those completes in the poke.
  lemma IssueLowers(s: State, w: nat, c: Choice)
    requires Inv(s) && QueueInv(s) && HasWorker(s, w, Starting) && Current(s.workers[w]).todo > 0
    ensures Lowers(s, IssueStep(s.workers[w], w, c))
  {
    var wk := s.workers[w];
    var i := First(wk.slots, HasOut);
    assert QueueOk(wk);
    if wk.free == 0 { FullQueueHasWork(wk); }
    if i < RING && (wk.free == 0 || c.busy) {
      DeviceLowers(s, w, i, c);
    } else {
      assert RingOk(wk, MarkedAt(s, w));
      StageStepLowers(s, w, Submit(w));
    }
  }

  lemma ReleaseEnabled(s: State, w: nat)
    requires Inv(s) && HasWorker(s, w, Finishing)
    ensures SharedEnabled(s, Release(w)) && Current(s.workers[w]).phase == Dispatched
  {
    assert RingOk(s.workers[w], MarkedAt(s, w));
    assert LinkAt(s, w, Ix(s.workers[w].pos));
  }

  lemma ReleaseLowers(s: State, w: nat)
    requires WellFormed(s) && SharedEnabled(s, Release(w)) && Current(s.workers[w]).phase == Dispatched
    ensures WaitingOps(ReleaseSlot(s, w)) == WaitingOps(s) && WorkLeft(ReleaseSlot(s, w)) < WorkLeft(s)
  {
    var wk := s.workers[w];
    var sl := Current(wk);
    var wk' := SetSlot(wk, Ix(wk.pos), sl.(phase := Released)).(stage := Freeing);
    SwapSlot(wk, wk', Ix(wk.pos), sl.(phase := Released));
    SwapWorker(s, w, wk');
    ReleaseStreamWork(s, w);
    assert ReleaseSlot(s, w).workers == SetWorker(s, w, wk').workers;
  }

  lemma ReleaseStreamWork(s: State, w: nat)
    requires WellFormed(s) && SharedEnabled(s, Release(w))
    ensures Total(ReleaseSlot(s, w).streams, StreamWork) == Total(s.streams, StreamWork)
  {
    var op := Current(s.workers[w]).op;
    if op.StreamOp? { TotalUpdate(s.streams, StreamWork, op.stream, ReleaseSlot(s, w).streams[op.stream]); }
  }

  ghost predicate Less(s': State, s: State) {
    && s'.lock == s.lock
    && (WaitingOps(s') < WaitingOps(s) || (WaitingOps(s') == WaitingOps(s) && WorkLeft(s') < WorkLeft(s)))
  }

  ghost predicate Lowers(s: State, t: Step)
    requires WellFormed(s)
  {
    Enabled(s, t) && Less(Apply(s, t), s)
  }

  ghost predicate Issues(wk: Worker)
    requires |wk.slots| == RING
  {
    wk.stage == Starting && Current(wk).todo > 0
  }

  lemma StageEnabled(wk: Worker, w: nat, c: Choice) returns (t: Step)
    requires |wk.slots| == RING && Active(wk) && wk.stage != Finishing && !Issues(wk)
    ensures t == ActiveStep(wk, w, c) && IsLocal(t) && LocalEnabled(wk, t)
    ensures t == EndStart(w) || t == WriteDone(w) || t == FreeSlot(w)
  {
    t := ActiveStep(wk, w, c);
  }

  lemma FinishLowers(s: State, w: nat)
    requires Inv(s) && HasWorker(s, w, Finishing)
    ensures Lowers(s, Release(w))
  {
    ReleaseEnabled(s, w);
    ReleaseIsLess(s, w);
  }

  lemma ReleaseIsLess(s: State, w: nat)
    requires WellFormed(s) && SharedEnabled(s, Release(w)) && Current(s.workers[w]).phase == Dispatched
    ensures Lowers(s, Release(w))
  {
    ReleaseLowers(s, w);
    ReleaseLock(s, w);
  }

  lemma ReleaseLock(s: State, w: nat)
    requires WellFormed(s) && SharedEnabled(s, Release(w))
    ensures ReleaseSlot(s, w).lock == s.lock
  {
  }

  lemma StageChangeLowers(s: State, w: nat, c: Choice)
    requires WellFormed(s) && RingInv(s) && w < |s.workers| && Active(s.workers[w])
    requires s.workers[w].stage != Finishing && !Issues(s.workers[w])
    ensures Lowers(s, ActiveStep(s.workers[w], w, c))
  {
    assert RingOk(s.workers[w], MarkedAt(s, w));
    var t := StageEnabled(s.workers[w], w, c);
    StageStepLowers(s, w, t);
  }

  lemma ActiveLowers(s: State, w: nat, c: Choice)
    requires Inv(s) && QueueInv(s) && w < |s.workers| && Active(s.workers[w])
    ensures Lowers(s, ActiveStep(s.workers[w], w, c))
  {
    if s.workers[w].stage == Finishing {
      FinishLowers(s, w);
    } else if Issues(s.workers[w]) {
      IssueLowers(s, w, c);
    } else {
      StageChangeLowers(s, w, c);
    }
  }

  // ---------- the front of a stream ----------

  lemma GpuLowers(s: State, st: nat)
    requires WellFormed(s) && SharedEnabled(s, GpuStep(st))
    ensures Lowers(s, GpuStep(st))
  {
    var gs := s.streams[st];
    var gs' := RunFront(s, st);
    TotalHead(gs.queue, CmdWork);
    if gs.queue[0].HostFn? {
      TotalHead(gs'.queue, CmdWork);
      assert gs'.queue[1..] == gs.queue[1..];
    }
    SwapStream(s, st, gs');
  }

  // ---------- a worker in its loop ----------

  // The worker has moved on in its loop; its ring is as before.
  ghost predicate Moved(wk: Worker, wk': Worker) {
    wk' == wk.(stage := wk'.stage, pos := wk'.pos, seen := wk'.seen, busy := wk'.busy)
  }

  // The moves of a worker that finds nothing to do where it stands.
  ghost predicate Loops(wk: Worker, wk': Worker) {
    && Moved(wk, wk')
    && match wk.stage
       case Load => wk'.stage == Sweep && wk'.pos == wk.tail && wk'.seen == wk.head
       case Sweep =>
         && wk'.seen == wk.seen
         && if wk.pos == wk.seen then wk'.stage == Retire else wk'.stage == Sweep && wk'.pos == wk.pos + 1
       case Retire => wk'.stage == Decide && wk'.seen == wk.seen
       case Decide => wk'.stage == (if wk.busy then Poke else Load) && wk'.seen == wk.seen
       case Poke => wk'.stage == Load && wk'.seen == wk.seen
       case _ => false
  }

  lemma LoopLocal(wk: Worker, w: nat, c: Choice, stop: bool)
    requires PosOk(wk) && !Active(wk) && wk.stage != Exited && wk.head <= wk.tail + RING
    requires IsLocal(LoopStep(wk, w, c))
    ensures var t := LoopStep(wk, w, c);
            && t.w == w && LocalEnabled(wk, t)
            && var wk' := WorkerStep(wk, t, stop);
            if t.RetireOne? then wk' == wk.(tail := wk.tail + 1) && wk.tail < wk.head
            else if t.DecideStep? && stop && !wk.busy then wk' == wk.(stage := Exited)
            else Loops(wk, wk')
  {
    if wk.stage == Sweep { WordEqIsEq(wk.pos, wk.seen); }
    WordEqIsEq(wk.tail, wk.seen);
  }

  lemma ExitLowers(s: State, w: nat)
    requires HasWorker(s, w, Decide)
    ensures Less(SetWorker(s, w, s.workers[w].(stage := Exited)), s)
  {
    SwapWorker(s, w, s.workers[w].(stage := Exited));
  }

  lemma LoopsDist(wk: Worker, wk': Worker, p: nat)
    requires PosOk(wk) && Loops(wk, wk') && wk.tail <= p < wk.head
    ensures wk.stage != Retire ==> DistRetire(wk') < DistRetire(wk)
    ensures wk.stage != Poke && (wk.stage == Decide ==> wk.busy) ==> DistPoke(wk') < DistPoke(wk)
    ensures !(wk.stage == Sweep && wk.pos == p && p < wk.seen) ==> DistVisit(wk', p) < DistVisit(wk, p)
  {
  }

  lemma MovedWork(s: State, w: nat, wk': Worker)
    requires w < |s.workers| && Moved(s.workers[w], wk') && StageWork(wk'.stage) == StageWork(s.workers[w].stage)
    ensures WaitingOps(SetWorker(s, w, wk')) == WaitingOps(s) && WorkLeft(SetWorker(s, w, wk')) == WorkLeft(s)
  {
    SwapWorker(s, w, wk');
  }

  lemma RetireLowers(s: State, w: nat)
    requires w < |s.workers| && s.workers[w].tail < s.workers[w].head
    ensures var s' := SetWorker(s, w, s.workers[w].(tail := s.workers[w].tail + 1));
            WaitingOps(s') == WaitingOps(s) && WorkLeft(s') < WorkLeft(s)
  {
    SwapWorker(s, w, s.workers[w].(tail := s.workers[w].tail + 1));
  }

  lemma RetireOneLowers(s: State, w: nat)
    requires WellFormed(s) && w < |s.workers| && s.workers[w].tail < s.workers[w].head && Enabled(s, RetireOne(w))
    ensures Less(Apply(s, RetireOne(w)), s)
  {
    RetireLowers(s, w);
  }

  lemma DispatchLowers(s: State, w: nat, n: nat)
    requires WellFormed(s) && w < |s.workers| && Current(s.workers[w]).phase == Waiting
    ensures WaitingOps(SetWorker(s, w, Dispatch(s.workers[w], n))) < WaitingOps(s)
  {
    var wk := s.workers[w];
    var wk' := Dispatch(wk, n);
    SwapSlot(wk, wk', Ix(wk.pos), wk'.slots[Ix(wk.pos)]);
    SwapWorker(s, w, wk');
  }

  lemma ReapLowers(s: State, w: nat)
    requires WellFormed(s) && HasWorker(s, w, Sweep)
    ensures var s' := SetWorker(s, w, s.workers[w].(stage := Finishing));
            WaitingOps(s') == WaitingOps(s) && WorkLeft(s') < WorkLeft(s)
  {
    SwapWorker(s, w, s.workers[w].(stage := Finishing));
  }

  ghost predicate Served(s: State, sl: Slot) {
    (sl.state == Pending && !Gated(s, sl)) || (sl.state == InFlight && Quiet(sl))
  }

  lemma VisitPendingLowers(s: State, w: nat, n: nat)
    requires WellFormed(s) && HasWorker(s, w, Sweep)
    requires Current(s.workers[w]).state == Pending && Current(s.workers[w]).phase == Waiting
             && KnownStream(s, Current(s.workers[w]).op)
    ensures if Gated(s, Current(s.workers[w])) then VisitPending(s, w, n)
            == SetWorker(s, w, Advance(s.workers[w]).(busy := true))
            else Less(VisitPending(s, w, n), s)
  {
    DispatchLowers(s, w, n);
    var op := Current(s.workers[w]).op;
    if op.StreamOp? {
      var gs := s.streams[op.stream];
      SwapStream(SetWorker(s, w, Dispatch(s.workers[w], n)), op.stream,
          gs.(last := op.seqNo, log := gs.log + [op.seqNo]));
    }
  }

  lemma VisitInFlightLowers(s: State, w: nat)
    requires WellFormed(s) && HasWorker(s, w, Sweep) && KnownStream(s, Current(s.workers[w]).op)
    ensures if Quiet(Current(s.workers[w])) then Less(VisitInFlight(s, w), s)
            else VisitInFlight(s, w) == SetWorker(s, w, Advance(s.workers[w]))
  {
    ReapLowers(s, w);
    var sl := Current(s.workers[w]);
    if sl.op.StreamOp? {
      SwapStream(SetWorker(s, w, s.workers[w].(stage := Finishing)), sl.op.stream,
          s.streams[sl.op.stream].(descLen := DescLen(sl)));
    }
  }

  lemma VisitEnabled(s: State, w: nat, n: nat)
    requires Inv(s) && HasWorker(s, w, Sweep) && s.workers[w].pos != s.workers[w].seen
    ensures SharedEnabled(s, Visit(w, n))
    ensures Current(s.workers[w]).state == Pending ==> Current(s.workers[w]).phase == Waiting
  {
    assert RingOk(s.workers[w], MarkedAt(s, w));
    WordEqIsEq(s.workers[w].pos, s.workers[w].seen);
    VisitFacts(s, w);
  }

  // A visit either takes the op a step further or passes it by.
  lemma VisitLowers(s: State, w: nat, n: nat)
    requires WellFormed(s) && SharedEnabled(s, Visit(w, n))
    requires Current(s.workers[w]).state == Pending ==> Current(s.workers[w]).phase == Waiting
    ensures if Served(s, Current(s.workers[w])) then Less(VisitSlot(s, w, n), s)
            else Less(VisitSlot(s, w, n), s) || exists b ::
              VisitSlot(s, w, n) == SetWorker(s, w, Advance(s.workers[w]).(busy := b))
  {
    match Current(s.workers[w]).state
    case Free => assert VisitSlot(s, w, n) == SetWorker(s, w, Advance(s.workers[w]).(busy := s.workers[w].busy));
    case Pending => VisitPendingLowers(s, w, n);
    case InFlight =>
      VisitInFlightLowers(s, w);
      assert Advance(s.workers[w]) == Advance(s.workers[w]).(busy := s.workers[w].busy);
  }

  // ---------- serving the op in focus ----------

  ghost predicate Between(s: State, w: nat) {
    w < |s.workers| && !Active(s.workers[w]) && s.workers[w].stage != Exited
  }

  lemma DmaLowers(s: State, w: nat, i: nat)
    requires WellFormed(s) && SharedEnabled(s, DmaLand(w, i)) && s.workers[w].slots[i].phase == Dispatched
    ensures Less(TailLanded(s, w, i), s)
  {
    var wk := s.workers[w];
    var sl := wk.slots[i].(bounce := Landed);
    SwapSlot(wk, SetSlot(wk, i, sl), i, sl);
    SwapWorker(s, w, SetSlot(wk, i, sl));
    SwapStream(SetWorker(s, w, SetSlot(wk, i, sl)), sl.op.stream, TailLanded(s, w, i).streams[sl.op.stream]);
  }

  lemma CallbackLowers(wk: Worker, t: Step, stop: bool)
    requires |wk.slots| == RING && (t.Callback? || t.CallbackTail?) && LocalEnabled(wk, t)
             && wk.slots[t.i].phase == Dispatched
    ensures WorkerWaits(WorkerStep(wk, t, stop)) == WorkerWaits(wk)
            && WorkerWork(WorkerStep(wk, t, stop)) < WorkerWork(wk)
  {
    var wk' := WorkerStep(wk, t, stop);
    SwapSlot(wk, wk', t.i, wk'.slots[t.i]);
  }

  ghost predicate LoopsTo(s: State, w: nat, s': State) {
    w < |s.workers| && exists wk' :: Loops(s.workers[w], wk') && s' == SetWorker(s, w, wk')
  }

  // The worker's next step takes some op further, or brings the worker on in its loop, or
  // is its last.
  lemma LoopServes(s: State, w: nat, c: Choice)
    requires Inv(s) && Between(s, w)
    ensures Enabled(s, LoopStep(s.workers[w], w, c))
    ensures Less(Apply(s, LoopStep(s.workers[w], w, c)), s) || LoopsTo(s, w, Apply(s, LoopStep(s.workers[w], w, c)))
  {
    var wk := s.workers[w];
    var t := LoopStep(wk, w, c);
    assert RingOk(wk, MarkedAt(s, w));
    if IsLocal(t) {
      LoopLocal(wk, w, c, s.stop);
      var wk' := WorkerStep(wk, t, s.stop);
      assert Apply(s, t) == SetWorker(s, w, wk');
      if t.RetireOne? { RetireLowers(s, w); }
      else if wk'.stage == Exited { ExitLowers(s, w); }
    } else {
      VisitEnabled(s, w, c.plan);
      VisitLowers(s, w, c.plan);
      if !Less(VisitSlot(s, w, c.plan), s) {
        var b :| VisitSlot(s, w, c.plan) == SetWorker(s, w, Advance(wk).(busy := b));
        assert Loops(wk, Advance(wk).(busy := b));
      }
    }
  }

  // What the strategy may count on about the op it serves.
  ghost predicate InFocus(s: State, at: Spot)
    requires WellFormed(s)
  {
    && Between(s, at.w)
    && s.workers[at.w].tail <= at.p < s.workers[at.w].head
    && var sl := s.workers[at.w].slots[Ix(at.p)];
    && (sl.state == Free ==> at.p == s.workers[at.w].tail)
    && (sl.state == Pending ==> !Gated(s, sl))
  }

  lemma FreeOldestRetires(wk: Worker, w: nat, c: Choice, marked: bool)
    requires RingOk(wk, marked) && wk.stage == Retire && Busy(wk) && wk.slots[Ix(wk.tail)].state == Free
    ensures LoopStep(wk, w, c) == RetireOne(w)
  {
    assert PhaseOk(wk, Ix(wk.tail));
  }

  // At the stage where the served op is next, the worker's step is the one that counts.
  lemma RetireServes(s: State, w: nat, c: Choice)
    requires WellFormed(s) && RingInv(s) && HasWorker(s, w, Retire) && Busy(s.workers[w])
             && s.workers[w].slots[Ix(s.workers[w].tail)].state == Free
    requires Enabled(s, LoopStep(s.workers[w], w, c))
    ensures Less(Apply(s, LoopStep(s.workers[w], w, c)), s)
  {
    assert RingOk(s.workers[w], MarkedAt(s, w));
    FreeOldestRetires(s.workers[w], w, c, MarkedAt(s, w));
    RetireOneLowers(s, w);
  }

  lemma VisitServes(s: State, w: nat, c: Choice)
    requires Inv(s) && HasWorker(s, w, Sweep) && s.workers[w].pos < s.workers[w].seen
             && Served(s, Current(s.workers[w]))
    ensures Less(Apply(s, LoopStep(s.workers[w], w, c)), s)
    requires Enabled(s, LoopStep(s.workers[w], w, c))
  {
    VisitEnabled(s, w, c.plan);
    VisitLowers(s, w, c.plan);
  }

  lemma NoisyIsBusy(s: State, at: Spot)
    requires Inv(s) && InFocus(s, at)
    ensures s.workers[at.w].slots[Ix(at.p)].state == InFlight && s.workers[at.w].stage == Decide ==>
            s.workers[at.w].busy
  {
    var wk := s.workers[at.w];
    assert RingOk(wk, MarkedAt(s, at.w));
    assert PhaseOk(wk, Ix(at.p));
  }

  ghost predicate Closer(s: State, at: Spot, s': State)
    requires WellFormed(s) && at.w < |s.workers| && s.workers[at.w].tail <= at.p
  {
    exists wk' :: Loops(s.workers[at.w], wk') && s' == SetWorker(s, at.w, wk')
        && SpotDist(SetWorker(s, at.w, wk'), at) < SpotDist(s, at)
  }

  lemma LoopsCloser(s: State, at: Spot, wk': Worker)
    requires WellFormed(s) && RingInv(s) && InFocus(s, at) && Loops(s.workers[at.w], wk')
    requires var wk := s.workers[at.w]; var sl := wk.slots[Ix(at.p)];
             && (sl.state == Free ==> wk.stage != Retire)
             && (sl.state == InFlight && !Quiet(sl) ==> wk.stage != Poke && (wk.stage == Decide ==> wk.busy))
             && (Served(s, sl) ==> !(wk.stage == Sweep && wk.pos == at.p < wk.seen))
    ensures SpotDist(SetWorker(s, at.w, wk'), at) < SpotDist(s, at)
  {
    assert RingOk(s.workers[at.w], MarkedAt(s, at.w));
    LoopsDist(s.workers[at.w], wk', at.p);
  }

  lemma LoopCloser(s: State, at: Spot, c: Choice)
    requires Inv(s) && InFocus(s, at)
    requires var sl := s.workers[at.w].slots[Ix(at.p)];
             !(sl.state == InFlight && !Quiet(sl) && s.workers[at.w].stage == Poke)
    ensures var t := LoopStep(s.workers[at.w], at.w, c);
            Enabled(s, t) && (Less(Apply(s, t), s) || Closer(s, at, Apply(s, t)))
  {
    var wk := s.workers[at.w];
    var t := LoopStep(wk, at.w, c);
    var sl := wk.slots[Ix(at.p)];
    LoopServes(s, at.w, c);
    NoisyIsBusy(s, at);
    if sl.state == Free && wk.stage == Retire { RetireServes(s, at.w, c); }
    if Served(s, sl) && wk.stage == Sweep && wk.pos == at.p < wk.seen { VisitServes(s, at.w, c); }
    if !Less(Apply(s, t), s) {
      var wk' :| Loops(wk, wk') && Apply(s, t) == SetWorker(s, at.w, wk');
      LoopsCloser(s, at, wk');
    }
  }

  lemma ServeLowers(s: State, at: Spot, c: Choice)
    requires Inv(s) && QueueInv(s) && InFocus(s, at)
    ensures var t := ServeStep(s, at, c); Enabled(s, t) && (Less(Apply(s, t), s) || Closer(s, at, Apply(s, t)))
  {
    var sl := s.workers[at.w].slots[Ix(at.p)];
    if sl.state == InFlight && (sl.bounce == OnDevice || (!Quiet(sl) && s.workers[at.w].stage == Poke)) {
      DeviceLowers(s, at.w, Ix(at.p), c);
    } else {
      LoopCloser(s, at, c);
    }
  }

  // ---------- whom to serve ----------

  // A gated op's stream has a command at its front; if that command cannot run, the stream
  // is parked on a published op whose turn has come.
  lemma BlockedFront(s: State, st: nat, w: nat, i: nat)
    requires Inv(s) && WindowOk(s) && s.lock.Unlocked? && HasSlot(s, w, i)
    requires var sl := s.workers[w].slots[i]; sl.phase == Waiting && Gated(s, sl) && sl.op.stream == st
    ensures s.streams[st].queue != []
    ensures !FrontReady(s, st) ==>
      && var gs := s.streams[st];
      && ParkedOn(gs) && gs.gate == 2 * gs.queue[0].q && LivesAt(s, gs.home[gs.queue[0].q], st, gs.queue[0].q)
  {
    var gs := s.streams[st];
    var q := s.workers[w].slots[i].op.seqNo;
    assert LinkAt(s, w, i);
    assert HomeSeqOk(gs, q);
    if !FrontReady(s, st) {
      BlockedQueue(s, st);
    }
  }

  lemma HostReady(s: State, st: nat)
    requires WellFormed(s) && HostInv(s) && st < |s.streams| && s.streams[st].queue != []
    ensures s.streams[st].queue[0].HostFn? ==> FrontReady(s, st)
  {
    var c := s.streams[st].queue[0];
    if c.HostFn? { assert HostOk(s, st, c.w, c.i, c.q); }
  }

  lemma BlockedQueue(s: State, st: nat)
    requires Inv(s) && WindowOk(s) && s.lock.Unlocked? && st < |s.streams| && s.streams[st].queue != []
             && !FrontReady(s, st)
    ensures var gs := s.streams[st];
      ParkedOn(gs) && gs.gate == 2 * gs.queue[0].q && LivesAt(s, gs.home[gs.queue[0].q], st, gs.queue[0].q)
  {
    var gs := s.streams[st];
    var c := gs.queue[0];
    assert CmdOk(gs, c);
    HostReady(s, st);
    ReleaseTestExact(gs, c.q);
    assert WriteGate(c.q) !in gs.queue;
    assert Covered(s, st, c.q);
    assert LivesAt(s, gs.home[c.q], st, c.q);
  }

  lemma LiveSpot(s: State, w: nat, i: nat)
    requires Inv(s) && s.lock.Unlocked? && HasSlot(s, w, i) && s.workers[w].slots[i].state != Free
    ensures var p := PosOf(s.workers[w], i); s.workers[w].tail <= p < s.workers[w].head
  {
    assert RingOk(s.workers[w], MarkedAt(s, w));
  }

  lemma HomeIsServed(s: State, st: nat)
    requires Inv(s) && st < |s.streams| && ParkedOn(s.streams[st]) && !Stranded(s, st)
    requires var gs := s.streams[st];
             gs.gate == 2 * gs.queue[0].q && LivesAt(s, gs.home[gs.queue[0].q], st, gs.queue[0].q)
    requires First(s.workers, Active) == |s.workers|
    ensures Between(s, s.streams[st].home[s.streams[st].queue[0].q].w)
  {
  }

  lemma FocusFacts(s: State)
    requires Inv(s) && WindowOk(s) && InLoop(s) && !StreamMoves(s)
    ensures InFocus(s, Focus(s))
  {
    var at := Target(s);
    assert HasHope(s, at.w) && Hopeful(s, at.w, at.p);
    var wk := s.workers[at.w];
    var sl := Wanted(s);
    assert RingOk(wk, MarkedAt(s, at.w));
    assert PhaseOk(wk, Ix(at.p));
    assert !Active(wk);
    if Gated(s, sl) {
      BlockedFront(s, sl.op.stream, at.w, Ix(at.p));
      HomeIsServed(s, sl.op.stream);
      var gs := s.streams[sl.op.stream];
      LiveSpotStream(s, sl.op.stream, gs.queue[0].q, gs.home[gs.queue[0].q]);
    }
  }

  lemma LiveSpotStream(s: State, st: nat, q: nat, pl: Place)
    requires Inv(s) && WindowOk(s) && s.lock.Unlocked? && st < |s.streams| && LivesAt(s, pl, st, q)
    requires s.streams[st].gate == 2 * q && !Active(s.workers[pl.w])
    ensures var p := PosOf(s.workers[pl.w], pl.i); s.workers[pl.w].tail <= p < s.workers[pl.w].head
    ensures var sl := s.workers[pl.w].slots[pl.i]; sl.state != Free && !Gated(s, sl)
  {
    assert RingOk(s.workers[pl.w], MarkedAt(s, pl.w));
    assert PhaseOk(s.workers[pl.w], pl.i);
    LiveSpot(s, pl.w, pl.i);
    assert LinkAt(s, pl.w, pl.i);
    assert HomeSeqOk(s.streams[st], q);
    OpenTestExact(s.streams[st], q);
  }
}
