/**
  The submitter's steps under submit_lock after the claim: enqueue the gate commands,
  lose the sequence number when an enqueue fails, publish the op.
 */
module GateSubmit {
  import opened GateModel
  import opened GateInvariant
  import opened GateRing
  import opened GatePreserve

  lemma AppendGateOk(gs: Stream, cmd: Cmd)
    requires StreamOk(gs) && GateCmd(cmd)
    requires forall j :: 0 <= j < |gs.queue| && GateCmd(gs.queue[j]) ==> Val(gs.queue[j]) < Low(cmd)
    requires CmdOk(gs.(queue := gs.queue + [cmd]), cmd)
    ensures StreamOk(gs.(queue := gs.queue + [cmd]))
    ensures forall c :: c in gs.queue ==> c in gs.queue + [cmd]
  {
    var gs' := gs.(queue := gs.queue + [cmd]);
    forall j | 0 <= j < |gs'.queue| ensures CmdOk(gs', gs'.queue[j]) {
      if j < |gs.queue| { assert CmdOk(gs, gs.queue[j]); }
    }
    forall q | q in gs'.home ensures HomeSeqOk(gs', q) {
      assert HomeSeqOk(gs, q);
    }
  }

  lemma EnqueueKept(s: State, cmd: Cmd, next: LockStage)
    requires Inv(s) && s.lock.Locked? && s.lock.op.StreamOp? && s.lock.at != Queued && s.lock.at != Marked
    requires next != Marked && GateCmd(cmd) && s.lock.op.stream < |s.streams|
    requires var gs := s.streams[s.lock.op.stream];
             var gs' := gs.(queue := gs.queue + [cmd]);
             var i := Ix(s.workers[s.lock.w].head);
             && (forall j :: 0 <= j < |gs.queue| && GateCmd(gs.queue[j]) ==> Val(gs.queue[j]) < Low(cmd))
             && CmdOk(gs', cmd)
             && HeldOk(gs', s.lock.op.seqNo, next, Place(s.lock.w, i))
             && (cmd.HostFn? ==> next == Queued && cmd == HostFn(s.lock.w, i, s.lock.op.seqNo))
    ensures Inv(Enqueue(s, true, cmd, next))
  {
    var st := s.lock.op.stream;
    var gs := s.streams[st];
    var s' := Enqueue(s, true, cmd, next);
    AppendGateOk(gs, cmd);
    forall v | 0 <= v < |s'.workers| ensures RingOk(s'.workers[v], MarkedAt(s', v)) {
      assert RingOk(s.workers[v], MarkedAt(s, v));
    }
    EnqueueLinks(s, cmd, next);
    forall t, q | 0 <= t < |s'.streams| && 1 <= q <= s'.streams[t].nextSeq && s'.streams[t].gate <= 2 * q
      ensures Covered(s', t, q)
    {
      assert Covered(s, t, q);
    }
    FutureFrame(s, s');
  }

  lemma EnqueueLinks(s: State, cmd: Cmd, next: LockStage)
    requires WellFormed(s) && LinkInv(s) && HomeInv(s) && HostInv(s) && LockInv(s)
    requires s.lock.Locked? && s.lock.op.StreamOp? && s.lock.at != Queued && s.lock.op.stream < |s.streams|
    requires cmd.HostFn? ==> next == Queued && cmd == HostFn(s.lock.w, Ix(s.workers[s.lock.w].head), s.lock.op.seqNo)
    ensures var s' := Enqueue(s, true, cmd, next); LinkInv(s') && HomeInv(s') && HostInv(s')
  {
    var s' := Enqueue(s, true, cmd, next);
    forall v, i | 0 <= v < |s'.workers| && 0 <= i < RING ensures LinkAt(s', v, i) {
      assert LinkAt(s, v, i);
    }
    forall t, q | 0 <= t < |s'.streams| && q in s'.streams[t].home && s'.streams[t].gate <= 2 * q
      ensures LivesAt(s', s'.streams[t].home[q], t, q)
    {
      assert LivesAt(s, s.streams[t].home[q], t, q);
    }
    forall t, j | 0 <= t < |s'.streams| && 0 <= j < |s'.streams[t].queue| && s'.streams[t].queue[j].HostFn?
      ensures HostOk(s', t, s'.streams[t].queue[j].w, s'.streams[t].queue[j].i, s'.streams[t].queue[j].q)
    {
      if j < |s.streams[t].queue| {
        assert s'.streams[t].queue[j] == s.streams[t].queue[j];
        assert HostOk(s, t, s.streams[t].queue[j].w, s.streams[t].queue[j].i, s.streams[t].queue[j].q);
      }
    }
  }

  // A failed enqueue: the lock is dropped, the sequence number is burned.
  lemma BurnStream(gs: Stream, q0: nat)
    requires StreamOk(gs) && 1 <= q0 <= gs.nextSeq && q0 !in gs.home
    requires forall j :: 0 <= j < |gs.queue| && GateCmd(gs.queue[j]) ==> Val(gs.queue[j]) <= 2 * q0
    ensures StreamOk(gs.(burned := gs.burned + {q0}))
  {
    var gs' := gs.(burned := gs.burned + {q0});
    forall j | 0 <= j < |gs'.queue| ensures CmdOk(gs', gs'.queue[j]) {
      assert CmdOk(gs, gs.queue[j]);
    }
    forall q | q in gs'.home ensures HomeSeqOk(gs', q) {
      assert HomeSeqOk(gs, q);
    }
  }

  lemma BurnKept(s: State, cmd: Cmd, next: LockStage)
    requires Inv(s) && s.lock.Locked? && s.lock.op.StreamOp? && (s.lock.at == Claimed || s.lock.at == Written)
    requires s.lock.op.stream < |s.streams|
    ensures Inv(Enqueue(s, false, cmd, next))
  {
    var st := s.lock.op.stream;
    var gs := s.streams[st];
    var q0 := s.lock.op.seqNo;
    var s' := Enqueue(s, false, cmd, next);
    BurnStream(gs, q0);
    forall v | 0 <= v < |s'.workers| ensures RingOk(s'.workers[v], MarkedAt(s', v)) {
      assert RingOk(s.workers[v], MarkedAt(s, v));
    }
    LockFrameRest(s, s');
    forall t, q | 0 <= t < |s'.streams| && 1 <= q <= s'.streams[t].nextSeq && s'.streams[t].gate <= 2 * q
      ensures Covered(s', t, q)
    {
      assert Covered(s, t, q);
    }
    FutureFrame(s, s');
  }

  lemma EnqWriteKept(s: State)
    requires Inv(s) && SharedEnabled(s, EnqWrite(true))
    ensures Inv(ApplyShared(s, EnqWrite(true)))
  {
    EnqueueKept(s, WriteGate(s.lock.op.seqNo), Written);
  }

  lemma EnqWaitKept(s: State)
    requires Inv(s) && SharedEnabled(s, EnqWait(true))
    ensures Inv(ApplyShared(s, EnqWait(true)))
  {
    var q := s.lock.op.seqNo;
    var gs := s.streams[s.lock.op.stream];
    assert (gs.queue + [WaitGate(q)])[|gs.queue|] == WaitGate(q);
    EnqueueKept(s, WaitGate(q), Queued);
  }

  lemma EnqHostKept(s: State)
    requires Inv(s) && SharedEnabled(s, EnqHost(true))
    ensures Inv(ApplyShared(s, EnqHost(true)))
  {
    var cmd := HostFn(s.lock.w, Ix(s.workers[s.lock.w].head), s.lock.op.seqNo);
    var gs := s.streams[s.lock.op.stream];
    assert (gs.queue + [cmd])[|gs.queue|] == cmd;
    EnqueueKept(s, cmd, Queued);
  }

  lemma MarkRing(wk: Worker)
    requires RingOk(wk, false) && wk.head < wk.tail + RING
    ensures RingOk(SetSlot(wk, Ix(wk.head), wk.slots[Ix(wk.head)].(state := Pending, phase := Waiting)), true)
  {
    var wk' := SetSlot(wk, Ix(wk.head), wk.slots[Ix(wk.head)].(state := Pending, phase := Waiting));
    assert PhaseOk(wk, Ix(wk.head));
    forall i | 0 <= i < RING ensures PhaseOk(wk', i) {
      assert PhaseOk(wk, i);
    }
    forall p | wk.tail <= p < wk.tail + RING && p != wk.head ensures wk'.slots[Ix(p)] == wk.slots[Ix(p)] {
      if p < wk.head { IxApart(p, wk.head); } else { IxApart(wk.head, p); }
    }
  }

  lemma PublishRing(wk: Worker)
    requires RingOk(wk, true)
    ensures RingOk(wk.(head := wk.head + 1), false)
  {
    var wk' := wk.(head := wk.head + 1);
    forall i | 0 <= i < RING ensures PhaseOk(wk', i) {
      assert PhaseOk(wk, i);
    }
  }

  lemma MarkStream(gs: Stream, q: nat, home: Place)
    requires StreamOk(gs) && q >= 1 && HeldOk(gs, q, Queued, home)
    ensures StreamOk(gs.(home := gs.home[q := home]))
  {
    var gs' := gs.(home := gs.home[q := home]);
    forall j | 0 <= j < |gs'.queue| ensures CmdOk(gs', gs'.queue[j]) {
      assert CmdOk(gs, gs.queue[j]);
    }
    forall p | p in gs'.home ensures HomeSeqOk(gs', p) {
      if p != q { assert HomeSeqOk(gs, p); }
    }
  }

  lemma MarkRings(s: State)
    requires WellFormed(s) && RingInv(s) && LockInv(s) && HoldsOp(s, Queued)
    ensures RingInv(Mark(s))
  {
    var s' := Mark(s);
    MarkRing(s.workers[s.lock.w]) by { assert RingOk(s.workers[s.lock.w], MarkedAt(s, s.lock.w)); }
    forall v | 0 <= v < |s'.workers| ensures RingOk(s'.workers[v], MarkedAt(s', v)) {
      assert RingOk(s.workers[v], MarkedAt(s, v));
    }
  }

  // The slot at head is dead until it is marked.
  lemma HeldSlotDead(s: State)
    requires WellFormed(s) && RingInv(s) && LockInv(s) && HoldsOp(s, Queued)
    ensures !Owing(s.workers[s.lock.w].slots[Ix(s.workers[s.lock.w].head)])
  {
    var wk := s.workers[s.lock.w];
    assert RingOk(wk, MarkedAt(s, s.lock.w));
    assert PhaseOk(wk, Ix(wk.head));
  }

  lemma MarkLink(s: State, v: nat, k: nat)
    requires WellFormed(s) && LockInv(s) && HoldsOp(s, Queued) && HasSlot(s, v, k)
    requires LinkAt(s, v, k)
    ensures LinkAt(Mark(s), v, k)
  {
  }

  lemma MarkLinks(s: State)
    requires WellFormed(s) && LinkInv(s) && LockInv(s) && HoldsOp(s, Queued)
    ensures LinkInv(Mark(s))
  {
    var s' := Mark(s);
    forall v, k | 0 <= v < |s'.workers| && 0 <= k < RING ensures LinkAt(s', v, k) {
      assert LinkAt(s, v, k);
      MarkLink(s, v, k);
    }
  }

  lemma MarkHomes(s: State)
    requires WellFormed(s) && HomeInv(s) && LockInv(s) && HoldsOp(s, Queued)
    requires !Owing(s.workers[s.lock.w].slots[Ix(s.workers[s.lock.w].head)])
    ensures HomeInv(Mark(s))
  {
    var s' := Mark(s);
    forall t, q | 0 <= t < |s'.streams| && q in s'.streams[t].home && s'.streams[t].gate <= 2 * q
      ensures LivesAt(s', s'.streams[t].home[q], t, q)
    {
      if q in s.streams[t].home { assert LivesAt(s, s.streams[t].home[q], t, q); }
    }
  }

  lemma MarkHosts(s: State)
    requires WellFormed(s) && HostInv(s) && LockInv(s) && HoldsOp(s, Queued)
    ensures HostInv(Mark(s))
  {
    var s' := Mark(s);
    forall t, j | 0 <= t < |s'.streams| && 0 <= j < |s'.streams[t].queue| && s'.streams[t].queue[j].HostFn?
      ensures HostOk(s', t, s'.streams[t].queue[j].w, s'.streams[t].queue[j].i, s'.streams[t].queue[j].q)
    {
      assert HostOk(s, t, s.streams[t].queue[j].w, s.streams[t].queue[j].i, s.streams[t].queue[j].q);
    }
  }

  lemma MarkStreams(s: State)
    requires WellFormed(s) && StreamInv(s) && LockInv(s) && CoverInv(s) && HoldsOp(s, Queued)
    ensures StreamInv(Mark(s)) && LockInv(Mark(s)) && CoverInv(Mark(s))
  {
    var s' := Mark(s);
    if s.lock.op.StreamOp? {
      MarkStream(s.streams[s.lock.op.stream], s.lock.op.seqNo, Place(s.lock.w, Ix(s.workers[s.lock.w].head)));
    }
    forall t, q | 0 <= t < |s'.streams| && 1 <= q <= s'.streams[t].nextSeq && s'.streams[t].gate <= 2 * q
      ensures Covered(s', t, q)
    {
      assert Covered(s, t, q);
    }
  }

  lemma MarkFutures(s: State)
    requires WellFormed(s) && FutureInv(s) && LockInv(s) && HoldsOp(s, Queued)
    requires !Owing(s.workers[s.lock.w].slots[Ix(s.workers[s.lock.w].head)])
    ensures FutureInv(Mark(s))
  {
    var s' := Mark(s);
    forall f | f in s'.futureHome && f !in s'.doneFutures ensures FutureLives(s', s'.futureHome[f], f) {
      MarkedFuture(s, f);
    }
  }

  lemma MarkedFuture(s: State, f: nat)
    requires WellFormed(s) && FutureInv(s) && LockInv(s) && HoldsOp(s, Queued)
    requires !Owing(s.workers[s.lock.w].slots[Ix(s.workers[s.lock.w].head)])
    requires f in Mark(s).futureHome && f !in s.doneFutures
    ensures FutureLives(Mark(s), Mark(s).futureHome[f], f)
  {
    if f in s.futureHome { assert FutureLives(s, s.futureHome[f], f); }
  }

  // The store of FILE_OP_PENDING into the claimed slot.
  lemma MarkKept(s: State)
    requires Inv(s) && HoldsOp(s, Queued)
    ensures Inv(Mark(s))
  {
    HeldSlotDead(s);
    MarkRings(s);
    MarkLinks(s);
    MarkHomes(s);
    MarkHosts(s);
    MarkStreams(s);
    MarkFutures(s);
  }

  // Publish without the note that a tail copy is still to be enqueued.
  ghost function HeadMoved(s: State): State
    requires WellFormed(s) && HoldsOp(s, Marked)
  {
    SetWorker(s, s.lock.w, s.workers[s.lock.w].(head := s.workers[s.lock.w].head + 1)).(lock := Unlocked)
  }

  lemma PublishRings(s: State)
    requires WellFormed(s) && RingInv(s) && HoldsOp(s, Marked)
    ensures RingInv(HeadMoved(s))
  {
    var s' := HeadMoved(s);
    PublishRing(s.workers[s.lock.w]) by { assert RingOk(s.workers[s.lock.w], MarkedAt(s, s.lock.w)); }
    forall v | 0 <= v < |s'.workers| ensures RingOk(s'.workers[v], MarkedAt(s', v)) {
      assert RingOk(s.workers[v], MarkedAt(s, v));
    }
  }

  lemma PublishLinks(s: State)
    requires WellFormed(s) && LinkInv(s) && HomeInv(s) && HoldsOp(s, Marked)
    ensures LinkInv(HeadMoved(s)) && HomeInv(HeadMoved(s))
  {
    var s' := HeadMoved(s);
    forall v, i | 0 <= v < |s'.workers| && 0 <= i < RING ensures LinkAt(s', v, i) {
      assert LinkAt(s, v, i);
    }
    forall t, q | 0 <= t < |s'.streams| && q in s'.streams[t].home && s'.streams[t].gate <= 2 * q
      ensures LivesAt(s', s'.streams[t].home[q], t, q)
    {
      assert LivesAt(s, s.streams[t].home[q], t, q);
    }
  }

  lemma PublishHosts(s: State)
    requires WellFormed(s) && HostInv(s) && HoldsOp(s, Marked)
    ensures HostInv(HeadMoved(s))
  {
    var s' := HeadMoved(s);
    forall t, j | 0 <= t < |s'.streams| && 0 <= j < |s'.streams[t].queue| && s'.streams[t].queue[j].HostFn?
      ensures HostOk(s', t, s'.streams[t].queue[j].w, s'.streams[t].queue[j].i, s'.streams[t].queue[j].q)
    {
      assert HostOk(s, t, s.streams[t].queue[j].w, s.streams[t].queue[j].i, s.streams[t].queue[j].q);
    }
  }

  lemma PublishCover(s: State)
    requires WellFormed(s) && CoverInv(s) && FutureInv(s) && LockInv(s) && HoldsOp(s, Marked)
    ensures CoverInv(HeadMoved(s)) && FutureInv(HeadMoved(s))
  {
    var s' := HeadMoved(s);
    forall t, q | 0 <= t < |s'.streams| && 1 <= q <= s'.streams[t].nextSeq && s'.streams[t].gate <= 2 * q
      ensures Covered(s', t, q)
    {
      assert Covered(s, t, q);
    }
    forall f | f in s'.futureHome && f !in s'.doneFutures ensures FutureLives(s', s'.futureHome[f], f) {
      assert FutureLives(s, s.futureHome[f], f);
    }
  }

  lemma HeadMovedKept(s: State)
    requires Inv(s) && HoldsOp(s, Marked)
    ensures Inv(HeadMoved(s))
  {
    PublishRings(s);
    PublishLinks(s);
    PublishHosts(s);
    PublishCover(s);
  }

  lemma OwedKept(s: State, st: nat, q: nat)
    requires Inv(s) && st < |s.streams|
    ensures Inv(SetStream(s, st, s.streams[st].(owed := s.streams[st].owed + {q})))
  {
    StreamFrame(s, st, s.streams[st].(owed := s.streams[st].owed + {q}));
  }

  // The store of queue_head + 1 and the unlock.
  lemma PublishKept(s: State)
    requires Inv(s) && HoldsOp(s, Marked)
    ensures Inv(Publish(s))
  {
    HeadMovedKept(s);
    if s.lock.op.StreamOp? && !s.lock.op.write && !s.alignedOnly {
      OwedKept(HeadMoved(s), s.lock.op.stream, s.lock.op.seqNo);
    }
  }
}
