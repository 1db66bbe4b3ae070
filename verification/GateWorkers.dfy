/**
  The workers' side: visiting a slot, dispatching an op whose gate has opened, completing
  it and releasing its gate or future. With the submitter's and the streams' steps this
  covers every step; the last lemma says so.
 */
module GateWorkers {
  import opened Common
  import opened Words
  import opened GateModel
  import opened GateInvariant
  import opened GateRing
  import opened GatePreserve
  import opened GateSubmit
  import opened GateStreams

  // ---------- dispatch ----------

  // The current slot is PENDING and waits; nobody else's duty sits in it.
  ghost predicate AtPending(s: State, w: nat) {
    && Inv(s) && w < |s.workers|
    && s.workers[w].stage == Sweep && s.workers[w].pos < s.workers[w].seen
    && Current(s.workers[w]).state == Pending
  }

  lemma VisitFacts(s: State, w: nat)
    requires Inv(s) && HasWorker(s, w, Sweep) && Word(s.workers[w].pos) != Word(s.workers[w].seen)
    ensures s.workers[w].pos < s.workers[w].seen
    ensures Current(s.workers[w]).state == Pending ==> AtPending(s, w) && Current(s.workers[w]).phase == Waiting
    ensures Current(s.workers[w]).state != Free ==>
            Owing(Current(s.workers[w])) && KnownStream(s, Current(s.workers[w]).op)
  {
    var wk := s.workers[w];
    assert RingOk(wk, MarkedAt(s, w));
    assert PhaseOk(wk, Ix(wk.pos));
    assert LinkAt(s, w, Ix(wk.pos));
  }

  // The same ops owe their release, and their streams and futures know them as before.
  ghost predicate SameHomes(s: State, s': State) {
    && WellFormed(s) && WellFormed(s')
    && |s'.workers| == |s.workers| && |s'.streams| == |s.streams|
    && s'.lock == s.lock && s'.futureHome == s.futureHome && s'.doneFutures == s.doneFutures
        && s'.nextFuture == s.nextFuture
    && (forall t :: 0 <= t < |s.streams| ==>
          && s'.streams[t].home == s.streams[t].home && s'.streams[t].gate == s.streams[t].gate
          && s'.streams[t].queue == s.streams[t].queue && s'.streams[t].burned == s.streams[t].burned
          && s'.streams[t].nextSeq == s.streams[t].nextSeq)
    && (forall w :: 0 <= w < |s.workers| ==> s'.workers[w].head == s.workers[w].head)
    && (forall w, i {:trigger s.workers[w].slots[i]} :: 0 <= w < |s.workers| && 0 <= i < RING ==>
          && s'.workers[w].slots[i].op == s.workers[w].slots[i].op
          && (Owing(s'.workers[w].slots[i]) <==> Owing(s.workers[w].slots[i])))
  }

  lemma SameHomesKeep(s: State, s': State)
    requires SameHomes(s, s') && HomeInv(s) && FutureInv(s) && CoverInv(s)
    ensures HomeInv(s') && FutureInv(s') && CoverInv(s')
  {
    forall t, q | 0 <= t < |s'.streams| && q in s'.streams[t].home && s'.streams[t].gate <= 2 * q
      ensures LivesAt(s', s'.streams[t].home[q], t, q)
    {
      assert LivesAt(s, s.streams[t].home[q], t, q);
    }
    forall f | f in s'.futureHome && f !in s'.doneFutures ensures FutureLives(s', s'.futureHome[f], f) {
      assert FutureLives(s, s.futureHome[f], f);
    }
    forall t, q | 0 <= t < |s'.streams| && 1 <= q <= s'.streams[t].nextSeq && s'.streams[t].gate <= 2 * q
      ensures Covered(s', t, q)
    {
      assert Covered(s, t, q);
    }
  }

  lemma SameHomesHosts(s: State, s': State)
    requires SameHomes(s, s') && HostInv(s)
    ensures HostInv(s')
  {
    forall t, j | 0 <= t < |s'.streams| && 0 <= j < |s'.streams[t].queue| && s'.streams[t].queue[j].HostFn?
      ensures HostOk(s', t, s'.streams[t].queue[j].w, s'.streams[t].queue[j].i, s'.streams[t].queue[j].q)
    {
      assert HostOk(s, t, s.streams[t].queue[j].w, s.streams[t].queue[j].i, s.streams[t].queue[j].q);
    }
  }

  // Slots at head are not the current slot, so the held op is not the current one.
  lemma HeldIsElsewhere(s: State, w: nat)
    requires Inv(s) && w < |s.workers| && s.workers[w].pos < s.workers[w].seen && s.workers[w].tail <= s.workers[w].pos
    ensures s.lock.Locked? && s.lock.w == w ==> Ix(s.workers[w].pos) != Ix(s.workers[w].head)
  {
    assert RingOk(s.workers[w], MarkedAt(s, w));
    if s.lock.Locked? && s.lock.w == w { IxApart(s.workers[w].pos, s.workers[w].head); }
  }

  lemma HeldSeqIsLater(s: State, w: nat, op: Op)
    requires WellFormed(s) && StreamInv(s) && LockInv(s) && w < |s.workers|
    requires s.lock.Locked? && s.lock.w == w ==> Ix(s.workers[w].pos) != Ix(s.workers[w].head)
    requires s.lock.Locked? && s.lock.op.StreamOp? && Owing(Current(s.workers[w])) && Current(s.workers[w]).op == op
    requires LinkAt(s, w, Ix(s.workers[w].pos))
    requires op.StreamOp? && op.stream == s.lock.op.stream
    ensures op.seqNo < s.lock.op.seqNo
  {
    assert HomeSeqOk(s.streams[op.stream], op.seqNo);
  }

  lemma DispatchRings(s: State, w: nat, n: nat)
    requires WellFormed(s) && RingInv(s) && HasWorker(s, w, Sweep) && s.workers[w].pos < s.workers[w].seen
    requires Current(s.workers[w]).state == Pending
    ensures RingInv(SetWorker(s, w, Dispatch(s.workers[w], n)))
  {
    var s' := SetWorker(s, w, Dispatch(s.workers[w], n));
    forall v | 0 <= v < |s'.workers| ensures RingOk(s'.workers[v], MarkedAt(s', v)) {
      assert RingOk(s.workers[v], MarkedAt(s, v));
      if v == w { DispatchRing(s.workers[w], MarkedAt(s, w), n); }
    }
  }

  lemma DispatchAsyncLinks(s: State, w: nat, n: nat)
    requires WellFormed(s) && LinkInv(s) && w < |s.workers|
    requires Current(s.workers[w]).phase == Waiting && Current(s.workers[w]).op.AsyncOp?
    ensures LinkInv(SetWorker(s, w, Dispatch(s.workers[w], n)))
  {
    var s' := SetWorker(s, w, Dispatch(s.workers[w], n));
    forall v, i | 0 <= v < |s'.workers| && 0 <= i < RING ensures LinkAt(s', v, i) {
      assert LinkAt(s, v, i);
    }
  }

  lemma DispatchAsyncLock(s: State, w: nat, n: nat)
    requires AtPending(s, w)
    ensures LockInv(SetWorker(s, w, Dispatch(s.workers[w], n)))
  {
    assert RingOk(s.workers[w], MarkedAt(s, w));
    HeldIsElsewhere(s, w);
  }

  lemma DispatchAsyncSame(s: State, w: nat, n: nat)
    requires WellFormed(s) && w < |s.workers| && Current(s.workers[w]).phase == Waiting
    ensures SameHomes(s, SetWorker(s, w, Dispatch(s.workers[w], n)))
  {
  }

  lemma DispatchAsyncKept(s: State, w: nat, n: nat)
    requires AtPending(s, w) && Current(s.workers[w]).phase == Waiting && Current(s.workers[w]).op.AsyncOp?
    ensures Inv(SetWorker(s, w, Dispatch(s.workers[w], n)))
  {
    var s' := SetWorker(s, w, Dispatch(s.workers[w], n));
    DispatchRings(s, w, n);
    DispatchAsyncSame(s, w, n);
    SameHomesKeep(s, s');
    SameHomesHosts(s, s');
    DispatchAsyncLinks(s, w, n);
    DispatchAsyncLock(s, w, n);
  }

  ghost function Noted(gs: Stream, q: nat): Stream {
    gs.(last := q, log := gs.log + [q])
  }

  lemma NotedStream(gs: Stream, q: nat)
    requires StreamOk(gs) && gs.gate == 2 * q && gs.last < q
    ensures StreamOk(Noted(gs, q))
  {
    var gs' := Noted(gs, q);
    forall j | 0 <= j < |gs'.queue| ensures CmdOk(gs', gs'.queue[j]) {
      assert CmdOk(gs, gs.queue[j]);
    }
    forall p | p in gs'.home ensures HomeSeqOk(gs', p) {
      assert HomeSeqOk(gs, p);
    }
  }

  ghost function StreamDispatched(s: State, w: nat, op: Op, n: nat): State
    requires WellFormed(s) && w < |s.workers| && op.StreamOp? && KnownStream(s, op)
  {
    SetStream(SetWorker(s, w, Dispatch(s.workers[w], n)), op.stream, Noted(s.streams[op.stream], op.seqNo))
  }

  lemma DispatchLink(s: State, w: nat, op: Op, n: nat, v: nat, i: nat)
    requires WellFormed(s) && w < |s.workers| && HasSlot(s, v, i)
    requires Current(s.workers[w]).phase == Waiting && Current(s.workers[w]).op == op && op.StreamOp?
             && KnownStream(s, op)
    requires s.streams[op.stream].gate == 2 * op.seqNo
    requires LinkAt(s, w, Ix(s.workers[w].pos)) && LinkAt(s, v, i)
    ensures LinkAt(StreamDispatched(s, w, op, n), v, i)
  {
  }

  lemma DispatchLinks(s: State, w: nat, op: Op, n: nat)
    requires AtPending(s, w) && Current(s.workers[w]).phase == Waiting && Current(s.workers[w]).op == op && op.StreamOp?
    requires KnownStream(s, op) && s.streams[op.stream].gate == 2 * op.seqNo
    ensures LinkInv(StreamDispatched(s, w, op, n))
  {
    var s' := StreamDispatched(s, w, op, n);
    assert LinkAt(s, w, Ix(s.workers[w].pos));
    forall v, i | 0 <= v < |s'.workers| && 0 <= i < RING ensures LinkAt(s', v, i) {
      assert LinkAt(s, v, i);
      DispatchLink(s, w, op, n, v, i);
    }
  }

  lemma DispatchSame(s: State, w: nat, op: Op, n: nat)
    requires WellFormed(s) && w < |s.workers| && Current(s.workers[w]).phase == Waiting
             && Current(s.workers[w]).op == op
    requires op.StreamOp? && KnownStream(s, op)
    ensures SameHomes(s, StreamDispatched(s, w, op, n))
  {
  }

  lemma DispatchStreams(s: State, w: nat, op: Op, n: nat)
    requires WellFormed(s) && StreamInv(s) && w < |s.workers| && op.StreamOp? && KnownStream(s, op)
    requires s.streams[op.stream].gate == 2 * op.seqNo && s.streams[op.stream].last < op.seqNo
    ensures StreamInv(StreamDispatched(s, w, op, n))
  {
    NotedStream(s.streams[op.stream], op.seqNo);
  }

  // The op is taken exactly when the gate stands at its arrival value.
  lemma DispatchStreamKept(s: State, w: nat, op: Op, n: nat)
    requires AtPending(s, w) && WindowOk(s) && Current(s.workers[w]).phase == Waiting && Current(s.workers[w]).op == op
    requires op.StreamOp? && KnownStream(s, op) && GateOpen(s.streams[op.stream], op.seqNo)
    ensures s.streams[op.stream].gate == 2 * op.seqNo && s.streams[op.stream].last < op.seqNo
    ensures Inv(StreamDispatched(s, w, op, n))
  {
    var s' := StreamDispatched(s, w, op, n);
    DispatchDue(s, w, op);
    DispatchRings(s, w, n);
    DispatchStreams(s, w, op, n);
    DispatchSame(s, w, op, n);
    SameHomesKeep(s, s');
    SameHomesHosts(s, s');
    DispatchLinks(s, w, op, n);
    DispatchLock(s, w, op, n);
  }

  lemma DispatchLock(s: State, w: nat, op: Op, n: nat)
    requires AtPending(s, w) && Current(s.workers[w]).phase == Waiting && Current(s.workers[w]).op == op
    requires op.StreamOp? && KnownStream(s, op)
    ensures LockInv(StreamDispatched(s, w, op, n))
  {
    HeldIsElsewhere(s, w);
    if s.lock.Locked? && s.lock.op.StreamOp? && s.lock.op.stream == op.stream {
      HeldSeqIsLater(s, w, op);
      DispatchedHeld(s.streams[op.stream], op.seqNo, s.lock.op.seqNo, s.lock.at,
          Place(s.lock.w, Ix(s.workers[s.lock.w].head)));
    }
  }

  lemma DispatchedHeld(gs: Stream, q: nat, held: nat, at: LockStage, home: Place)
    requires HeldOk(gs, held, at, home) && q < held
    ensures HeldOk(gs.(last := q, log := gs.log + [q]), held, at, home)
  {
  }

  lemma DispatchDue(s: State, w: nat, op: Op)
    requires AtPending(s, w) && WindowOk(s) && Current(s.workers[w]).phase == Waiting && Current(s.workers[w]).op == op
    requires op.StreamOp? && KnownStream(s, op)
    ensures s.streams[op.stream].last < op.seqNo && s.streams[op.stream].gate <= 2 * op.seqNo
    ensures GateOpen(s.streams[op.stream], op.seqNo) <==> s.streams[op.stream].gate == 2 * op.seqNo
  {
    assert LinkAt(s, w, Ix(s.workers[w].pos));
    assert HomeSeqOk(s.streams[op.stream], op.seqNo);
    OpenTestExact(s.streams[op.stream], op.seqNo);
  }

  // ---------- release ----------

  lemma OpenedStream(gs: Stream, q: nat, outcome: map<nat, Option<Tail>>, ledger: Ledger)
    requires StreamOk(gs) && gs.gate == 2 * q && 1 <= q <= gs.nextSeq
    ensures StreamOk(LetGo(gs, q, outcome, ledger))
  {
    var gs' := LetGo(gs, q, outcome, ledger);
    forall j | 0 <= j < |gs'.queue| ensures CmdOk(gs', gs'.queue[j]) {
      assert CmdOk(gs, gs.queue[j]);
    }
    forall p | p in gs'.home ensures HomeSeqOk(gs', p) {
      assert HomeSeqOk(gs, p);
    }
  }

  ghost function ReleasedWorker(wk: Worker): Worker
    requires |wk.slots| == RING
  {
    SetSlot(wk, Ix(wk.pos), Current(wk).(phase := Released)).(stage := Freeing)
  }

  lemma ReleaseHosts(s: State, s': State, w: nat)
    requires WellFormed(s) && HostInv(s) && w < |s.workers| && WellFormed(s')
    requires s'.workers == SetWorker(s, w, ReleasedWorker(s.workers[w])).workers
    requires |s'.streams| == |s.streams| && s'.lock == s.lock
    requires forall t :: 0 <= t < |s.streams| ==>
             s'.streams[t].home == s.streams[t].home && s'.streams[t].queue == s.streams[t].queue
    ensures HostInv(s')
  {
    forall t, j | 0 <= t < |s'.streams| && 0 <= j < |s'.streams[t].queue| && s'.streams[t].queue[j].HostFn?
      ensures HostOk(s', t, s'.streams[t].queue[j].w, s'.streams[t].queue[j].i, s'.streams[t].queue[j].q)
    {
      assert HostOk(s, t, s.streams[t].queue[j].w, s.streams[t].queue[j].i, s.streams[t].queue[j].q);
    }
  }

  ghost function StreamReleased(s: State, w: nat, op: Op, outcome: map<nat, Option<Tail>>, ledger: Ledger): State
    requires WellFormed(s) && w < |s.workers| && op.StreamOp? && KnownStream(s, op)
  {
    SetStream(SetWorker(s, w, ReleasedWorker(s.workers[w])), op.stream,
              LetGo(s.streams[op.stream], op.seqNo, outcome, ledger))
  }

  lemma ReleaseLink(s: State, w: nat, op: Op, outcome: map<nat, Option<Tail>>, ledger: Ledger, v: nat, i: nat)
    requires WellFormed(s) && w < |s.workers| && HasSlot(s, v, i)
    requires Current(s.workers[w]).phase == Dispatched && Current(s.workers[w]).op == op && op.StreamOp?
             && KnownStream(s, op)
    requires LinkAt(s, w, Ix(s.workers[w].pos)) && LinkAt(s, v, i)
    ensures LinkAt(StreamReleased(s, w, op, outcome, ledger), v, i)
  {
  }

  lemma ReleaseHome(s: State, w: nat, op: Op, outcome: map<nat, Option<Tail>>, ledger: Ledger, t: nat, q: nat)
    requires WellFormed(s) && w < |s.workers|
    requires Current(s.workers[w]).phase == Dispatched && Current(s.workers[w]).op == op && op.StreamOp?
             && KnownStream(s, op)
    requires LinkAt(s, w, Ix(s.workers[w].pos))
    requires t < |s.streams| && q in s.streams[t].home
    requires StreamReleased(s, w, op, outcome, ledger).streams[t].gate <= 2 * q
    requires s.streams[t].gate <= 2 * q ==> LivesAt(s, s.streams[t].home[q], t, q)
    ensures LivesAt(StreamReleased(s, w, op, outcome, ledger), s.streams[t].home[q], t, q)
  {
  }

  lemma ReleaseStreamLinks(s: State, w: nat, op: Op, outcome: map<nat, Option<Tail>>, ledger: Ledger)
    requires WellFormed(s) && LinkInv(s) && HomeInv(s) && HasWorker(s, w, Finishing)
    requires Current(s.workers[w]).phase == Dispatched && Current(s.workers[w]).op == op && op.StreamOp?
             && KnownStream(s, op)
    ensures LinkInv(StreamReleased(s, w, op, outcome, ledger)) && HomeInv(StreamReleased(s, w, op, outcome, ledger))
  {
    var s' := StreamReleased(s, w, op, outcome, ledger);
    assert LinkAt(s, w, Ix(s.workers[w].pos));
    forall v, i | 0 <= v < |s'.workers| && 0 <= i < RING ensures LinkAt(s', v, i) {
      assert LinkAt(s, v, i);
      ReleaseLink(s, w, op, outcome, ledger, v, i);
    }
    forall t, q | 0 <= t < |s'.streams| && q in s'.streams[t].home && s'.streams[t].gate <= 2 * q
      ensures LivesAt(s', s'.streams[t].home[q], t, q)
    {
      ReleaseHome(s, w, op, outcome, ledger, t, q);
    }
  }

  lemma ReleaseStreamKept(s: State, w: nat, op: Op, outcome: map<nat, Option<Tail>>, ledger: Ledger)
    requires Inv(s) && HasWorker(s, w, Finishing) && Current(s.workers[w]).op == op && op.StreamOp?
             && KnownStream(s, op)
    ensures s.streams[op.stream].gate == 2 * op.seqNo
    ensures Inv(StreamReleased(s, w, op, outcome, ledger))
  {
    var s' := StreamReleased(s, w, op, outcome, ledger);
    ReleaseFacts(s, w, op);
    ReleaseRings(s, w, op, outcome, ledger);
    OpenedStream(s.streams[op.stream], op.seqNo, outcome, ledger);
    ReleaseStreamLinks(s, w, op, outcome, ledger);
    ReleaseHosts(s, s', w);
    ReleaseRest(s, s', w);
    HeldIsElsewhere(s, w);
    assert LinkAt(s, w, Ix(s.workers[w].pos));
    ReleaseLock(s, w, op, outcome, ledger);
  }

  lemma ReleaseFacts(s: State, w: nat, op: Op)
    requires Inv(s) && HasWorker(s, w, Finishing) && Current(s.workers[w]).op == op && op.StreamOp?
             && KnownStream(s, op)
    ensures Current(s.workers[w]).phase == Dispatched
    ensures s.workers[w].tail <= s.workers[w].pos < s.workers[w].seen
    ensures s.streams[op.stream].gate == 2 * op.seqNo && 1 <= op.seqNo <= s.streams[op.stream].nextSeq
  {
    assert RingOk(s.workers[w], MarkedAt(s, w));
    assert LinkAt(s, w, Ix(s.workers[w].pos));
    assert HomeSeqOk(s.streams[op.stream], op.seqNo);
  }

  lemma ReleaseRings(s: State, w: nat, op: Op, outcome: map<nat, Option<Tail>>, ledger: Ledger)
    requires WellFormed(s) && RingInv(s) && HasWorker(s, w, Finishing) && op.StreamOp? && KnownStream(s, op)
    ensures RingInv(StreamReleased(s, w, op, outcome, ledger))
  {
    var s' := StreamReleased(s, w, op, outcome, ledger);
    forall v | 0 <= v < |s'.workers| ensures RingOk(s'.workers[v], MarkedAt(s', v)) {
      assert RingOk(s.workers[v], MarkedAt(s, v));
      if v == w { ReleaseRing(s.workers[w], MarkedAt(s, w)); }
    }
  }

  lemma ReleaseLock(s: State, w: nat, op: Op, outcome: map<nat, Option<Tail>>, ledger: Ledger)
    requires WellFormed(s) && StreamInv(s) && LockInv(s) && HasWorker(s, w, Finishing)
    requires Current(s.workers[w]).op == op && op.StreamOp? && KnownStream(s, op)
    requires Current(s.workers[w]).phase == Dispatched && s.streams[op.stream].gate == 2 * op.seqNo
    requires s.lock.Locked? && s.lock.w == w ==> Ix(s.workers[w].pos) != Ix(s.workers[w].head)
    requires LinkAt(s, w, Ix(s.workers[w].pos))
    ensures LockInv(StreamReleased(s, w, op, outcome, ledger))
  {
    if s.lock.Locked? && s.lock.op.StreamOp? && s.lock.op.stream == op.stream {
      HeldSeqIsLater(s, w, op);
      OpenedHeld(s.streams[op.stream], op.seqNo, outcome, ledger, s.lock.op.seqNo, s.lock.at,
          Place(s.lock.w, Ix(s.workers[s.lock.w].head)));
    }
  }

  lemma OpenedHeld(gs: Stream, q: nat, outcome: map<nat, Option<Tail>>, ledger: Ledger, held: nat, at: LockStage,
      home: Place)
    requires HeldOk(gs, held, at, home) && gs.gate == 2 * q && q < held
    ensures HeldOk(LetGo(gs, q, outcome, ledger), held, at, home)
  {
  }

  lemma ReleaseRest(s: State, s': State, w: nat)
    requires Inv(s) && HasWorker(s, w, Finishing) && Current(s.workers[w]).op.StreamOp? && WellFormed(s')
    requires s'.workers == SetWorker(s, w, ReleasedWorker(s.workers[w])).workers
    requires |s'.streams| == |s.streams| && s'.lock == s.lock
    requires s'.futureHome == s.futureHome && s'.doneFutures == s.doneFutures && s'.nextFuture == s.nextFuture
    requires forall t :: 0 <= t < |s.streams| ==>
               && s'.streams[t].home == s.streams[t].home && s'.streams[t].burned == s.streams[t].burned
               && s'.streams[t].nextSeq == s.streams[t].nextSeq && s.streams[t].gate <= s'.streams[t].gate
    ensures CoverInv(s') && FutureInv(s')
  {
    forall t, q | 0 <= t < |s'.streams| && 1 <= q <= s'.streams[t].nextSeq && s'.streams[t].gate <= 2 * q
      ensures Covered(s', t, q)
    {
      assert Covered(s, t, q);
    }
    forall f | f in s'.futureHome && f !in s'.doneFutures ensures FutureLives(s', s'.futureHome[f], f) {
      assert FutureLives(s, s.futureHome[f], f);
    }
  }

  lemma CompletedFutures(s: State, w: nat)
    requires WellFormed(s) && FutureInv(s) && HasWorker(s, w, Finishing)
    requires Current(s.workers[w]).op.AsyncOp? && Current(s.workers[w]).phase == Dispatched
    requires LinkAt(s, w, Ix(s.workers[w].pos))
    ensures FutureInv(SetWorker(s, w, ReleasedWorker(s.workers[w]))
                      .(doneFutures := s.doneFutures + [Current(s.workers[w]).op.future]))
  {
    var f0 := Current(s.workers[w]).op.future;
    var s' := SetWorker(s, w, ReleasedWorker(s.workers[w])).(doneFutures := s.doneFutures + [f0]);
    forall f | f in s'.futureHome && f !in s'.doneFutures ensures FutureLives(s', s'.futureHome[f], f) {
      assert f !in s.doneFutures && f != f0;
      assert FutureLives(s, s.futureHome[f], f);
    }
  }

  lemma CompletedLock(s: State, w: nat)
    requires WellFormed(s) && LockInv(s) && HasWorker(s, w, Finishing) && Current(s.workers[w]).op.AsyncOp?
    requires Current(s.workers[w]).phase == Dispatched && LinkAt(s, w, Ix(s.workers[w].pos))
    requires s.lock.Locked? && s.lock.w == w ==> Ix(s.workers[w].pos) != Ix(s.workers[w].head)
    ensures LockInv(SetWorker(s, w, ReleasedWorker(s.workers[w]))
                    .(doneFutures := s.doneFutures + [Current(s.workers[w]).op.future]))
  {
  }

  lemma CompletedRings(s: State, w: nat)
    requires WellFormed(s) && RingInv(s) && HasWorker(s, w, Finishing)
    ensures RingInv(SetWorker(s, w, ReleasedWorker(s.workers[w]))
                    .(doneFutures := s.doneFutures + [Current(s.workers[w]).op.future]))
    requires Current(s.workers[w]).op.AsyncOp?
  {
    var s' := SetWorker(s, w, ReleasedWorker(s.workers[w]))
              .(doneFutures := s.doneFutures + [Current(s.workers[w]).op.future]);
    forall v | 0 <= v < |s'.workers| ensures RingOk(s'.workers[v], MarkedAt(s', v)) {
      assert RingOk(s.workers[v], MarkedAt(s, v));
      if v == w { ReleaseRing(s.workers[w], MarkedAt(s, w)); }
    }
  }

  lemma AsyncFinishing(s: State, w: nat)
    requires Inv(s) && HasWorker(s, w, Finishing) && Current(s.workers[w]).op.AsyncOp?
    ensures Current(s.workers[w]).phase == Dispatched && LinkAt(s, w, Ix(s.workers[w].pos))
    ensures Current(s.workers[w]).op.future !in s.doneFutures
    ensures s.lock.Locked? && s.lock.w == w ==> Ix(s.workers[w].pos) != Ix(s.workers[w].head)
  {
    assert RingOk(s.workers[w], MarkedAt(s, w));
    assert LinkAt(s, w, Ix(s.workers[w].pos));
    HeldIsElsewhere(s, w);
  }

  // The future of the current op is completed, for the first time.
  lemma ReleaseAsyncKept(s: State, w: nat)
    requires Inv(s) && HasWorker(s, w, Finishing) && Current(s.workers[w]).op.AsyncOp?
    ensures Current(s.workers[w]).op.future !in s.doneFutures
    ensures Inv(SetWorker(s, w, ReleasedWorker(s.workers[w]))
                .(doneFutures := s.doneFutures + [Current(s.workers[w]).op.future]))
  {
    var s' := SetWorker(s, w, ReleasedWorker(s.workers[w]))
              .(doneFutures := s.doneFutures + [Current(s.workers[w]).op.future]);
    AsyncFinishing(s, w);
    CompletedRings(s, w);
    ReleaseHosts(s, s', w);
    CoverFrame(s, s');
    ReleaseAsyncLinks(s, w);
    CompletedFutures(s, w);
    CompletedLock(s, w);
  }

  lemma ReleaseAsyncLinks(s: State, w: nat)
    requires Inv(s) && HasWorker(s, w, Finishing) && Current(s.workers[w]).op.AsyncOp?
    ensures var s' := SetWorker(s, w, ReleasedWorker(s.workers[w])).(doneFutures :=
            s.doneFutures + [Current(s.workers[w]).op.future]);
            LinkInv(s') && HomeInv(s')
  {
    var wk := s.workers[w];
    var s' := SetWorker(s, w, ReleasedWorker(wk)).(doneFutures := s.doneFutures + [Current(wk).op.future]);
    assert RingOk(wk, MarkedAt(s, w));
    assert LinkAt(s, w, Ix(wk.pos));
    forall v, i | 0 <= v < |s'.workers| && 0 <= i < RING ensures LinkAt(s', v, i) {
      assert LinkAt(s, v, i);
    }
    forall t, q | 0 <= t < |s'.streams| && q in s'.streams[t].home && s'.streams[t].gate <= 2 * q
      ensures LivesAt(s', s'.streams[t].home[q], t, q)
    {
      assert LivesAt(s, s.streams[t].home[q], t, q);
    }
  }

  // ---------- every step ----------

  // A worker whose ring stays in order and whose duties stay, together with a change of
  // the tail-copy fields of one stream.
  lemma CopyFieldsKept(s: State, w: nat, wk': Worker, st: nat, gs': Stream)
    requires Inv(s) && w < |s.workers| && st < |s.streams|
    requires RingOk(wk', MarkedAt(s, w)) && SameDuties(s.workers[w], wk') && wk'.tail >= s.workers[w].tail
    requires SameGate(s.streams[st], gs')
    ensures Inv(SetStream(SetWorker(s, w, wk'), st, gs'))
  {
    WorkerFrame(s, w, wk');
    StreamFrame(SetWorker(s, w, wk'), st, gs');
  }

  // The worker moves on, its slots as they are.
  lemma PassKept(s: State, w: nat, wk': Worker)
    requires Inv(s) && w < |s.workers| && RingOk(wk', MarkedAt(s, w))
    requires wk' == s.workers[w].(stage := wk'.stage, pos := wk'.pos, busy := wk'.busy)
    ensures Inv(SetWorker(s, w, wk'))
  {
    assert SameDuties(s.workers[w], wk');
    WorkerFrame(s, w, wk');
  }

  lemma VisitPendingKept(s: State, w: nat, n: nat)
    requires AtPending(s, w) && WindowOk(s) && Current(s.workers[w]).phase == Waiting
    requires KnownStream(s, Current(s.workers[w]).op) && RingOk(Advance(s.workers[w]).(busy := true), MarkedAt(s, w))
    ensures Inv(VisitPending(s, w, n))
  {
    var op := Current(s.workers[w]).op;
    if op.AsyncOp? {
      DispatchAsyncKept(s, w, n);
    } else if GateOpen(s.streams[op.stream], op.seqNo) {
      DispatchStreamKept(s, w, op, n);
    } else {
      PassKept(s, w, Advance(s.workers[w]).(busy := true));
    }
  }

  lemma CompleteKept(s: State, w: nat, st: nat, len: nat)
    requires Inv(s) && w < |s.workers| && st < |s.streams| && RingOk(s.workers[w].(stage := Finishing), MarkedAt(s, w))
    ensures Inv(SetStream(SetWorker(s, w, s.workers[w].(stage := Finishing)), st, s.streams[st].(descLen := len)))
  {
    CopyFieldsKept(s, w, s.workers[w].(stage := Finishing), st, s.streams[st].(descLen := len));
  }

  lemma VisitInFlightKept(s: State, w: nat)
    requires Inv(s) && HasWorker(s, w, Sweep) && KnownStream(s, Current(s.workers[w]).op)
    requires RingOk(Advance(s.workers[w]), MarkedAt(s, w))
    requires Quiet(Current(s.workers[w])) ==> RingOk(s.workers[w].(stage := Finishing), MarkedAt(s, w))
    ensures Inv(VisitInFlight(s, w))
  {
    var sl := Current(s.workers[w]);
    if !Quiet(sl) {
      PassKept(s, w, Advance(s.workers[w]));
    } else if sl.op.StreamOp? {
      CompleteKept(s, w, sl.op.stream, DescLen(sl));
    } else {
      PassKept(s, w, s.workers[w].(stage := Finishing));
    }
  }

  lemma VisitKept(s: State, w: nat, n: nat)
    requires Inv(s) && WindowOk(s) && SharedEnabled(s, Visit(w, n))
    ensures Inv(VisitSlot(s, w, n))
  {
    assert RingOk(s.workers[w], MarkedAt(s, w));
    VisitFacts(s, w);
    VisitRing(s.workers[w], MarkedAt(s, w));
    match Current(s.workers[w]).state
    case Free => PassKept(s, w, Advance(s.workers[w]));
    case Pending => VisitPendingKept(s, w, n);
    case InFlight => VisitInFlightKept(s, w);
  }

  lemma ReleaseStreamIs(s: State, w: nat, outcome: map<nat, Option<Tail>>, ledger: Ledger)
    requires WellFormed(s) && SharedEnabled(s, Release(w)) && Current(s.workers[w]).op.StreamOp?
    requires var sl := Current(s.workers[w]); var gs := s.streams[sl.op.stream];
             && outcome == (if sl.op.write then gs.outcome else gs.outcome[sl.op.seqNo := Outcome(sl)])
             && ledger == if sl.op.write then gs.ledger else Settle(gs.ledger, sl.op.seqNo, sl.effort.failed)
    ensures ReleaseSlot(s, w) == StreamReleased(s, w, Current(s.workers[w]).op, outcome, ledger)
  {
  }

  lemma ReleaseKept(s: State, w: nat) returns (s': State)
    requires Inv(s) && SharedEnabled(s, Release(w))
    ensures s' == ReleaseSlot(s, w)
    ensures Inv(s')
  {
    var sl := Current(s.workers[w]);
    match sl.op
    case StreamOp(st, q, write) =>
      var outcome := if write then s.streams[st].outcome else s.streams[st].outcome[q := Outcome(sl)];
      var ledger := if write then s.streams[st].ledger else Settle(s.streams[st].ledger, q, sl.effort.failed);
      ReleaseStreamKept(s, w, sl.op, outcome, ledger);
      ReleaseStreamIs(s, w, outcome, ledger);
      s' := StreamReleased(s, w, sl.op, outcome, ledger);
    case AsyncOp(f, _) =>
      ReleaseAsyncKept(s, w);
      s' := SetWorker(s, w, ReleasedWorker(s.workers[w])).(doneFutures := s.doneFutures + [f]);
  }

  lemma SubmitTailRing(s: State, w: nat, t: Tail) returns (wk': Worker)
    requires WellFormed(s) && RingInv(s) && SharedEnabled(s, SubmitTail(w, t))
    ensures RingOk(wk', MarkedAt(s, w)) && SameDuties(s.workers[w], wk') && wk'.tail == s.workers[w].tail
    ensures TailSubmitted(s, w, t) == SetStream(SetWorker(s, w, wk'), Current(s.workers[w]).op.stream,
                                                AskTail(s.streams[Current(s.workers[w]).op.stream],
                                                        Current(s.workers[w]).op.seqNo, t))
  {
    var wk := s.workers[w];
    var sl := Current(wk).(todo := Current(wk).todo - 1, bounce := OnDevice, tail := Some(t));
    assert RingOk(wk, MarkedAt(s, w));
    wk' := SetSlot(wk, Ix(wk.pos), sl).(free := wk.free - 1);
    CountersRing(wk, Ix(wk.pos), sl, wk.free - 1, MarkedAt(s, w));
  }

  lemma SubmitTailKept(s: State, w: nat, t: Tail)
    requires Inv(s) && SharedEnabled(s, SubmitTail(w, t))
    ensures Inv(TailSubmitted(s, w, t))
  {
    var wk' := SubmitTailRing(s, w, t);
    var st := Current(s.workers[w]).op.stream;
    CopyFieldsKept(s, w, wk', st, AskTail(s.streams[st], Current(s.workers[w]).op.seqNo, t));
  }

  lemma DmaLandRing(s: State, w: nat, i: nat) returns (wk': Worker)
    requires WellFormed(s) && RingInv(s) && SharedEnabled(s, DmaLand(w, i))
    ensures RingOk(wk', MarkedAt(s, w)) && SameDuties(s.workers[w], wk') && wk'.tail == s.workers[w].tail
    ensures var st := s.workers[w].slots[i].op.stream;
            && TailLanded(s, w, i) == SetStream(SetWorker(s, w, wk'), st, TailLanded(s, w, i).streams[st])
            && SameGate(s.streams[st], TailLanded(s, w, i).streams[st])
  {
    var wk := s.workers[w];
    var sl := wk.slots[i].(bounce := Landed);
    assert RingOk(wk, MarkedAt(s, w));
    assert PhaseOk(wk, i);
    assert Active(wk) && Ix(wk.pos) == i ==> wk.slots[i] == Current(wk) && wk.stage == Starting;
    wk' := SetSlot(wk, i, sl);
    CountersRing(wk, i, sl, wk.free, MarkedAt(s, w));
  }

  lemma DmaLandKept(s: State, w: nat, i: nat)
    requires Inv(s) && SharedEnabled(s, DmaLand(w, i))
    ensures Inv(TailLanded(s, w, i))
  {
    var wk' := DmaLandRing(s, w, i);
    var st := s.workers[w].slots[i].op.stream;
    CopyFieldsKept(s, w, wk', st, TailLanded(s, w, i).streams[st]);
  }

  lemma LocalRing(s: State, step: Step) returns (wk': Worker)
    requires WellFormed(s) && RingInv(s) && IsLocal(step) && Enabled(s, step)
    ensures wk' == WorkerStep(s.workers[step.w], step, s.stop)
    ensures RingOk(wk', MarkedAt(s, step.w)) && SameDuties(s.workers[step.w], wk')
    ensures wk'.tail >= s.workers[step.w].tail
  {
    var wk := s.workers[step.w];
    wk' := WorkerStep(wk, step, s.stop);
    assert RingOk(wk, MarkedAt(s, step.w));
    LocalStepRing(wk, step, s.stop, MarkedAt(s, step.w));
    LocalStepDuties(wk, step, s.stop, MarkedAt(s, step.w));
  }

  lemma LocalKept(s: State, step: Step)
    requires Inv(s) && IsLocal(step) && Enabled(s, step)
    ensures Inv(Apply(s, step))
  {
    var wk' := LocalRing(s, step);
    WorkerFrame(s, step.w, wk');
  }

  lemma EnqueueStepKept(s: State, step: Step)
    requires Inv(s) && (step.EnqWrite? || step.EnqWait? || step.EnqHost?) && SharedEnabled(s, step)
    ensures Inv(ApplyShared(s, step))
  {
    var q := s.lock.op.seqNo;
    match step
    case EnqWrite(ok) => if ok { EnqWriteKept(s); } else { BurnKept(s, WriteGate(q), Written); }
    case EnqWait(ok) => if ok { EnqWaitKept(s); } else { BurnKept(s, WaitGate(q), Queued); }
    case EnqHost(ok) =>
      if ok { EnqHostKept(s); } else { BurnKept(s, HostFn(s.lock.w, Ix(s.workers[s.lock.w].head), q), Queued); }
  }

  lemma ClaimStepKept(s: State, step: Step) returns (s': State)
    requires Inv(s) && !IsLocal(step) && SharedEnabled(s, step)
    requires step.ClaimStream? || step.ClaimAsync? || step.ClaimFull?
    ensures s' == ApplyShared(s, step)
    ensures Inv(s')
  {
    match step
    case ClaimStream(st, write) => s' := ClaimStreamKept(s, st, write);
    case ClaimAsync(write) => s' := ClaimAsyncStepKept(s, write);
    case ClaimFull => ClaimFullKept(s); s' := s.(rr := s.rr + 1);
  }

  lemma ClaimAsyncStepKept(s: State, write: bool) returns (s': State)
    requires Inv(s) && SharedEnabled(s, ClaimAsync(write))
    ensures s' == ApplyShared(s, ClaimAsync(write))
    ensures Inv(s')
  {
    ClaimAsyncKept(s, write);
    s' := Claim(s, AsyncOp(s.nextFuture, write)).(nextFuture := s.nextFuture + 1);
  }

  lemma StreamStepKept(s: State, step: Step)
    requires Inv(s) && WindowOk(s) && !IsLocal(step) && SharedEnabled(s, step)
    requires step.EnqCopy? || step.EnqUser? || step.GpuStep? || step.DmaPart? || step.StopDriver?
    ensures Inv(ApplyShared(s, step))
  {
    match step
    case EnqCopy(st, q, ok) =>
      StreamFrame(s, st, PayCopy(s.streams[st], q, ok));
    case EnqUser(st) => StreamFrame(s, st, s.streams[st].(queue := s.streams[st].queue + [User]));
    case GpuStep(st) => GpuStepKept(s, st);
    case DmaPart(w, i, buf) =>
      var st := s.workers[w].slots[i].op.stream;
      StreamFrame(s, st, s.streams[st].(bounceBuf := buf));
    case StopDriver => StopKept(s);
  }

  lemma StopKept(s: State)
    requires Inv(s)
    ensures Inv(s.(stop := true))
  {
    var s' := s.(stop := true);
    SameHomesKeep(s, s');
    SameHomesHosts(s, s');
    forall v, i | 0 <= v < |s'.workers| && 0 <= i < RING ensures LinkAt(s', v, i) {
      assert LinkAt(s, v, i);
    }
    forall v | 0 <= v < |s'.workers| ensures RingOk(s'.workers[v], MarkedAt(s', v)) {
      assert RingOk(s.workers[v], MarkedAt(s, v));
    }
  }

  // While the sequence window holds, no step of any thread breaks the invariant.
  lemma StepKept(s: State, step: Step)
    requires Inv(s) && WindowOk(s) && Enabled(s, step)
    ensures Inv(Apply(s, step))
  {
    if IsLocal(step) {
      LocalKept(s, step);
    } else if step.EnqWrite? || step.EnqWait? || step.EnqHost? {
      EnqueueStepKept(s, step);
    } else if step.Visit? {
      VisitKept(s, step.w, step.n);
    } else if step.Release? {
      var s' := ReleaseKept(s, step.w);
    } else if step.SubmitTail? {
      SubmitTailKept(s, step.w, step.t);
    } else if step.DmaLand? {
      DmaLandKept(s, step.w, step.i);
    } else if step.EnqCopy? || step.EnqUser? || step.GpuStep? || step.DmaPart? || step.StopDriver? {
      StreamStepKept(s, step);
    } else if step.MarkPending? {
      MarkKept(s);
    } else if step.PublishHead? {
      PublishKept(s);
    } else {
      var s' := ClaimStepKept(s, step);
    }
  }
}
