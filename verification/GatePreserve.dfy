/**
  Every step of every thread, of the device and of the GPU streams keeps the invariant.
 */
module GatePreserve {
  import opened Words
  import opened GateModel
  import opened GateInvariant
  import opened GateRing

  // ---------- steps that leave the protocol state alone ----------

  lemma WorkerFrame(s: State, w: nat, wk': Worker)
    requires Inv(s) && w < |s.workers|
    requires RingOk(wk', MarkedAt(s, w)) && SameDuties(s.workers[w], wk')
    requires wk'.tail >= s.workers[w].tail
    ensures Inv(SetWorker(s, w, wk'))
  {
    var s' := SetWorker(s, w, wk');
    WorkerFrameLinks(s, w, wk');
    HostFrame(s, s');
    CoverFrame(s, s');
    forall f | f in s'.futureHome && f !in s'.doneFutures ensures FutureLives(s', s'.futureHome[f], f) {
      assert FutureLives(s, s.futureHome[f], f);
    }
  }

  lemma WorkerFrameLinks(s: State, w: nat, wk': Worker)
    requires WellFormed(s) && LinkInv(s) && HomeInv(s) && w < |s.workers|
    requires SameDuties(s.workers[w], wk')
    ensures LinkInv(SetWorker(s, w, wk')) && HomeInv(SetWorker(s, w, wk'))
  {
    var s' := SetWorker(s, w, wk');
    forall v, i | 0 <= v < |s'.workers| && 0 <= i < RING ensures LinkAt(s', v, i) {
      assert LinkAt(s, v, i);
    }
    forall st, q | 0 <= st < |s'.streams| && q in s'.streams[st].home && s'.streams[st].gate <= 2 * q
      ensures LivesAt(s', s'.streams[st].home[q], st, q)
    {
      assert LivesAt(s, s.streams[st].home[q], st, q);
    }
  }

  // Coverage speaks of gates, homes, burned numbers and the held op only.
  lemma CoverFrame(s: State, s': State)
    requires CoverInv(s) && s'.lock == s.lock && |s'.streams| == |s.streams|
    requires forall t :: 0 <= t < |s.streams| ==> SameGate(s.streams[t], s'.streams[t])
    ensures CoverInv(s')
  {
    forall st, q | 0 <= st < |s'.streams| && 1 <= q <= s'.streams[st].nextSeq && s'.streams[st].gate <= 2 * q
      ensures Covered(s', st, q)
    {
      assert Covered(s, st, q);
    }
  }

  // Host callbacks keep seeing their op while ops, homes, queues and the held slot stay.
  lemma HostFrame(s: State, s': State)
    requires WellFormed(s) && WellFormed(s') && HostInv(s)
    requires |s'.workers| == |s.workers| && s'.streams == s.streams
    requires s'.lock == s.lock
    requires forall w :: 0 <= w < |s.workers| ==> s'.workers[w].head == s.workers[w].head
    requires forall w, i {:trigger s.workers[w].slots[i]} :: 0 <= w < |s.workers| && 0 <= i < RING ==>
             s'.workers[w].slots[i].op == s.workers[w].slots[i].op
    ensures HostInv(s')
  {
    forall st, j | 0 <= st < |s'.streams| && 0 <= j < |s'.streams[st].queue| && s'.streams[st].queue[j].HostFn?
      ensures HostOk(s', st, s'.streams[st].queue[j].w, s'.streams[st].queue[j].i, s'.streams[st].queue[j].q)
    {
      assert HostOk(s, st, s.streams[st].queue[j].w, s.streams[st].queue[j].i, s.streams[st].queue[j].q);
    }
  }

  // Only the fields of the tail copy, or the queue's tail end, differ.
  ghost predicate SameGate(gs: Stream, gs': Stream) {
    && gs'.gate == gs.gate && gs'.nextSeq == gs.nextSeq && gs'.home == gs.home && gs'.burned == gs.burned
    && gs'.last == gs.last && gs'.log == gs.log
    && (gs'.queue == gs.queue || gs'.queue == gs.queue + [User] || (exists q :: gs'.queue == gs.queue + [Copy(q)]))
  }

  lemma SameGateKeeps(gs: Stream, gs': Stream)
    requires SameGate(gs, gs') && StreamOk(gs)
    ensures StreamOk(gs')
    ensures forall q, home :: HasWait(gs, q, home) ==> HasWait(gs', q, home)
    ensures forall c :: c in gs.queue ==> c in gs'.queue
  {
    forall c | c in gs.queue ensures c in gs'.queue {
      var j :| 0 <= j < |gs.queue| && gs.queue[j] == c;
      assert gs'.queue[j] == c;
    }
    forall j | 0 <= j < |gs'.queue| ensures CmdOk(gs', gs'.queue[j]) {
      if j < |gs.queue| { assert CmdOk(gs, gs.queue[j]); }
    }
    forall q | q in gs'.home ensures HomeSeqOk(gs', q) {
      assert HomeSeqOk(gs, q);
    }
  }

  lemma StreamFrame(s: State, st: nat, gs': Stream)
    requires Inv(s) && st < |s.streams| && SameGate(s.streams[st], gs')
    ensures Inv(SetStream(s, st, gs'))
  {
    var s' := SetStream(s, st, gs');
    SameGateKeeps(s.streams[st], gs');
    assert StreamInv(s');
    StreamFrameLinks(s, st, gs');
    StreamFrameHosts(s, st, gs');
    CoverFrame(s, s');
    LockFrame(s, s');
    forall f | f in s'.futureHome && f !in s'.doneFutures ensures FutureLives(s', s'.futureHome[f], f) {
      assert FutureLives(s, s.futureHome[f], f);
    }
  }

  lemma StreamFrameLinks(s: State, st: nat, gs': Stream)
    requires WellFormed(s) && LinkInv(s) && HomeInv(s) && st < |s.streams| && SameGate(s.streams[st], gs')
    ensures LinkInv(SetStream(s, st, gs')) && HomeInv(SetStream(s, st, gs'))
  {
    var s' := SetStream(s, st, gs');
    forall v, i | 0 <= v < |s'.workers| && 0 <= i < RING ensures LinkAt(s', v, i) {
      assert LinkAt(s, v, i);
    }
    forall t, q | 0 <= t < |s'.streams| && q in s'.streams[t].home && s'.streams[t].gate <= 2 * q
      ensures LivesAt(s', s'.streams[t].home[q], t, q)
    {
      assert LivesAt(s, s.streams[t].home[q], t, q);
    }
  }

  lemma StreamFrameHosts(s: State, st: nat, gs': Stream)
    requires WellFormed(s) && HostInv(s) && st < |s.streams| && SameGate(s.streams[st], gs')
    ensures HostInv(SetStream(s, st, gs'))
  {
    var s' := SetStream(s, st, gs');
    forall t, j | 0 <= t < |s'.streams| && 0 <= j < |s'.streams[t].queue| && s'.streams[t].queue[j].HostFn?
      ensures HostOk(s', t, s'.streams[t].queue[j].w, s'.streams[t].queue[j].i, s'.streams[t].queue[j].q)
    {
      assert j < |s.streams[t].queue|;
      assert s'.streams[t].queue[j] == s.streams[t].queue[j];
      assert HostOk(s, t, s.streams[t].queue[j].w, s.streams[t].queue[j].i, s.streams[t].queue[j].q);
    }
  }

  lemma LockFrame(s: State, s': State)
    requires WellFormed(s) && LockInv(s)
    requires s' == s.(streams := s'.streams) && |s'.streams| == |s.streams|
    requires forall t :: 0 <= t < |s.streams| ==> SameGate(s.streams[t], s'.streams[t]) && StreamOk(s.streams[t])
    ensures LockInv(s')
  {
    if s.lock.Locked? && s.lock.op.StreamOp? {
      var gs, gs' := s.streams[s.lock.op.stream], s'.streams[s.lock.op.stream];
      SameGateKeeps(gs, gs');
      forall j | 0 <= j < |gs'.queue| && GateCmd(gs'.queue[j]) ensures j < |gs.queue| && gs.queue[j] == gs'.queue[j] {
      }
    }
  }

  // ---------- submission ----------

  lemma RoomIsRoom(wk: Worker)
    requires wk.tail <= wk.head <= wk.tail + RING
    ensures RingHasRoom(wk) <==> wk.head < wk.tail + RING
  {
    WordSubIsDistance(wk.head, wk.tail);
  }

  // A claim never lands on a live op: its slot is FREE and no callback refers to it.
  lemma ClaimedSlotIsDead(s: State, w: nat)
    requires Inv(s) && w < |s.workers| && s.lock.Unlocked? && RingHasRoom(s.workers[w])
    ensures s.workers[w].head < s.workers[w].tail + RING
    ensures s.workers[w].slots[Ix(s.workers[w].head)].state == Free
    ensures !Owing(s.workers[w].slots[Ix(s.workers[w].head)])
    ensures forall st, j {:trigger s.streams[st].queue[j]} ::
            0 <= st < |s.streams| && 0 <= j < |s.streams[st].queue| && s.streams[st].queue[j].HostFn? ==>
              !(s.streams[st].queue[j].w == w && s.streams[st].queue[j].i == Ix(s.workers[w].head))
  {
    var wk := s.workers[w];
    assert RingOk(wk, MarkedAt(s, w));
    RoomIsRoom(wk);
    assert PhaseOk(wk, Ix(wk.head));
    forall st, j | 0 <= st < |s.streams| && 0 <= j < |s.streams[st].queue| && s.streams[st].queue[j].HostFn?
      ensures !(s.streams[st].queue[j].w == w && s.streams[st].queue[j].i == Ix(s.workers[w].head))
    {
      var c := s.streams[st].queue[j];
      assert HostOk(s, st, c.w, c.i, c.q);
      assert CmdOk(s.streams[st], c);
      assert LivesAt(s, s.streams[st].home[c.q], st, c.q);
    }
  }

  lemma FieldsRing(wk: Worker, op: Op)
    requires RingOk(wk, false) && wk.head < wk.tail + RING
    ensures RingOk(SetSlot(wk, Ix(wk.head), wk.slots[Ix(wk.head)].(op := op)), false)
  {
    var wk' := SetSlot(wk, Ix(wk.head), wk.slots[Ix(wk.head)].(op := op));
    assert PhaseOk(wk, Ix(wk.head));
    forall i | 0 <= i < RING ensures PhaseOk(wk', i) {
      assert PhaseOk(wk, i);
    }
  }

  // The op's fields stored in the claimed slot.
  ghost function FieldsWritten(s: State, w: nat, op: Op): State
    requires w < |s.workers| && |s.workers[w].slots| == RING
  {
    var wk := s.workers[w];
    SetWorker(s, w, SetSlot(wk, Ix(wk.head), wk.slots[Ix(wk.head)].(op := op)))
  }

  lemma FieldsLinks(s: State, w: nat, op: Op)
    requires WellFormed(s) && LinkInv(s) && HomeInv(s) && w < |s.workers|
    requires !Owing(s.workers[w].slots[Ix(s.workers[w].head)])
    ensures LinkInv(FieldsWritten(s, w, op)) && HomeInv(FieldsWritten(s, w, op))
  {
    var s' := FieldsWritten(s, w, op);
    forall v, k | 0 <= v < |s'.workers| && 0 <= k < RING ensures LinkAt(s', v, k) {
      assert LinkAt(s, v, k);
    }
    forall st, q | 0 <= st < |s'.streams| && q in s'.streams[st].home && s'.streams[st].gate <= 2 * q
      ensures LivesAt(s', s'.streams[st].home[q], st, q)
    {
      assert LivesAt(s, s.streams[st].home[q], st, q);
    }
  }

  lemma FieldsHosts(s: State, w: nat, op: Op)
    requires WellFormed(s) && HostInv(s) && w < |s.workers| && s.lock.Unlocked?
    requires forall st, j {:trigger s.streams[st].queue[j]} ::
               0 <= st < |s.streams| && 0 <= j < |s.streams[st].queue| && s.streams[st].queue[j].HostFn? ==>
               !(s.streams[st].queue[j].w == w && s.streams[st].queue[j].i == Ix(s.workers[w].head))
    ensures HostInv(FieldsWritten(s, w, op))
  {
    var s' := FieldsWritten(s, w, op);
    forall st, j | 0 <= st < |s'.streams| && 0 <= j < |s'.streams[st].queue| && s'.streams[st].queue[j].HostFn?
      ensures HostOk(s', st, s'.streams[st].queue[j].w, s'.streams[st].queue[j].i, s'.streams[st].queue[j].q)
    {
      assert HostOk(s, st, s.streams[st].queue[j].w, s.streams[st].queue[j].i, s.streams[st].queue[j].q);
    }
  }

  lemma FieldsKept(s: State, w: nat, op: Op)
    requires Inv(s) && w < |s.workers| && s.lock.Unlocked? && RingHasRoom(s.workers[w])
    ensures Inv(FieldsWritten(s, w, op))
  {
    var s' := FieldsWritten(s, w, op);
    ClaimedSlotIsDead(s, w);
    assert RingOk(s.workers[w], false);
    FieldsRing(s.workers[w], op);
    FieldsLinks(s, w, op);
    FieldsHosts(s, w, op);
    CoverFrame(s, s');
    forall f | f in s'.futureHome && f !in s'.doneFutures ensures FutureLives(s', s'.futureHome[f], f) {
      assert FutureLives(s, s.futureHome[f], f);
    }
  }

  // Everything but the lock, the round-robin cursor and the counters of claims.
  lemma LockFrameRest(s: State, s': State)
    requires WellFormed(s) && WellFormed(s') && s'.workers == s.workers && |s'.streams| == |s.streams|
    requires LinkInv(s) && HomeInv(s) && HostInv(s)
    requires s.lock.Locked? ==> s.lock.at != Queued
    requires s'.futureHome == s.futureHome && s'.doneFutures == s.doneFutures
    requires forall t :: 0 <= t < |s.streams| ==>
               && s'.streams[t].gate == s.streams[t].gate && s'.streams[t].home == s.streams[t].home
               && s'.streams[t].last == s.streams[t].last
               && (s'.streams[t].queue == s.streams[t].queue)
    ensures LinkInv(s') && HomeInv(s') && HostInv(s')
  {
    forall v, i | 0 <= v < |s'.workers| && 0 <= i < RING ensures LinkAt(s', v, i) {
      assert LinkAt(s, v, i);
    }
    forall t, q | 0 <= t < |s'.streams| && q in s'.streams[t].home && s'.streams[t].gate <= 2 * q
      ensures LivesAt(s', s'.streams[t].home[q], t, q)
    {
      assert LivesAt(s, s.streams[t].home[q], t, q);
    }
    forall t, j | 0 <= t < |s'.streams| && 0 <= j < |s'.streams[t].queue| && s'.streams[t].queue[j].HostFn?
      ensures HostOk(s', t, s'.streams[t].queue[j].w, s'.streams[t].queue[j].i, s'.streams[t].queue[j].q)
    {
      assert HostOk(s, t, s.streams[t].queue[j].w, s.streams[t].queue[j].i, s.streams[t].queue[j].q);
    }
  }

  ghost function SeqTaken(s: State, w: nat, st: nat, write: bool): State
    requires st < |s.streams|
  {
    var gs := s.streams[st];
    SetStream(s, st, TakeNumber(gs, write))
    .(rr := s.rr + 1, lock := Locked(w, StreamOp(st, gs.nextSeq + 1, write), Claimed))
  }

  lemma TakeSeqStream(gs: Stream, write: bool)
    requires StreamOk(gs)
    ensures StreamOk(TakeNumber(gs, write))
    ensures forall j :: 0 <= j < |gs.queue| && GateCmd(gs.queue[j]) ==> Val(gs.queue[j]) < 2 * gs.nextSeq + 2
    ensures gs.nextSeq + 1 !in gs.home && gs.nextSeq + 1 !in gs.burned
  {
    var gs' := TakeNumber(gs, write);
    forall j | 0 <= j < |gs'.queue|
      ensures CmdOk(gs', gs'.queue[j]) && (GateCmd(gs.queue[j]) ==> Val(gs.queue[j]) < 2 * gs.nextSeq + 2)
    {
      assert CmdOk(gs, gs.queue[j]);
    }
    forall q | q in gs'.home ensures HomeSeqOk(gs', q) && q <= gs.nextSeq {
      assert HomeSeqOk(gs, q);
    }
  }

  lemma TakeSeq(s: State, w: nat, st: nat, write: bool)
    requires Inv(s) && w < |s.workers| && st < |s.streams| && s.lock.Unlocked?
    requires s.workers[w].head < s.workers[w].tail + RING
    requires s.workers[w].slots[Ix(s.workers[w].head)].op == StreamOp(st, s.streams[st].nextSeq + 1, write)
    ensures Inv(SeqTaken(s, w, st, write))
  {
    var gs := s.streams[st];
    var gs' := TakeNumber(gs, write);
    var s' := SeqTaken(s, w, st, write);
    TakeSeqStream(gs, write);
    LockFrameRest(s, s');
    forall w' | 0 <= w' < |s'.workers| ensures RingOk(s'.workers[w'], MarkedAt(s', w')) {
      assert RingOk(s.workers[w'], MarkedAt(s, w'));
    }
    forall t, q | 0 <= t < |s'.streams| && 1 <= q <= s'.streams[t].nextSeq && s'.streams[t].gate <= 2 * q
      ensures Covered(s', t, q)
    {
      if t != st || q <= gs.nextSeq { assert Covered(s, t, q); }
    }
    assert HeldOk(gs', gs'.nextSeq, Claimed, Place(w, Ix(s.workers[w].head)));
    FutureFrame(s, s');
  }

  lemma FutureFrame(s: State, s': State)
    requires WellFormed(s) && WellFormed(s') && FutureInv(s)
    requires s'.workers == s.workers && s'.futureHome == s.futureHome && s'.doneFutures == s.doneFutures
    requires s'.nextFuture == s.nextFuture
    requires s.lock.Locked? && s.lock.op.AsyncOp? ==> s'.lock.Locked? && s'.lock.op == s.lock.op
    ensures FutureInv(s')
  {
    forall f | f in s'.futureHome && f !in s'.doneFutures ensures FutureLives(s', s'.futureHome[f], f) {
      assert FutureLives(s, s.futureHome[f], f);
    }
  }

  lemma ClaimStreamKept(s: State, st: nat, write: bool) returns (s': State)
    requires Inv(s) && s.lock.Unlocked? && st < |s.streams| && RingHasRoom(s.workers[Routed(s)])
    ensures s' == SetStream(Claim(s, StreamOp(st, s.streams[st].nextSeq + 1, write)), st,
                            TakeNumber(s.streams[st], write))
    ensures Inv(s')
  {
    var w := Routed(s);
    var op := StreamOp(st, s.streams[st].nextSeq + 1, write);
    FieldsKept(s, w, op);
    ClaimedSlotIsDead(s, w);
    TakeSeq(FieldsWritten(s, w, op), w, st, write);
    s' := SeqTaken(FieldsWritten(s, w, op), w, st, write);
  }

  lemma ClaimAsyncKept(s: State, write: bool)
    requires Inv(s) && s.lock.Unlocked? && RingHasRoom(s.workers[Routed(s)])
    ensures Inv(Claim(s, AsyncOp(s.nextFuture, write)).(nextFuture := s.nextFuture + 1))
  {
    var w := Routed(s);
    var op := AsyncOp(s.nextFuture, write);
    FieldsKept(s, w, op);
    ClaimedSlotIsDead(s, w);
    var s1 := FieldsWritten(s, w, op);
    TakeFuture(s1, w, write);
    assert Claim(s, op).(nextFuture := s.nextFuture + 1) ==
           s1.(rr := s1.rr + 1, lock := Locked(w, op, Queued), nextFuture := s1.nextFuture + 1);
  }

  lemma TakeFuture(s: State, w: nat, write: bool)
    requires Inv(s) && w < |s.workers| && s.lock.Unlocked?
    requires s.workers[w].head < s.workers[w].tail + RING
    requires s.workers[w].slots[Ix(s.workers[w].head)].op == AsyncOp(s.nextFuture, write)
    ensures Inv(s.(rr := s.rr + 1, lock := Locked(w, AsyncOp(s.nextFuture, write), Queued),
            nextFuture := s.nextFuture + 1))
  {
    var s' := s.(rr := s.rr + 1, lock := Locked(w, AsyncOp(s.nextFuture, write), Queued),
        nextFuture := s.nextFuture + 1);
    LockFrameRest(s, s');
    forall v | 0 <= v < |s'.workers| ensures RingOk(s'.workers[v], MarkedAt(s', v)) {
      assert RingOk(s.workers[v], MarkedAt(s, v));
    }
    forall t, q | 0 <= t < |s'.streams| && 1 <= q <= s'.streams[t].nextSeq && s'.streams[t].gate <= 2 * q
      ensures Covered(s', t, q)
    {
      assert Covered(s, t, q);
    }
    forall f | f in s'.futureHome && f !in s'.doneFutures ensures FutureLives(s', s'.futureHome[f], f) {
      assert FutureLives(s, s.futureHome[f], f);
    }
  }

  lemma ClaimFullKept(s: State)
    requires Inv(s) && s.lock.Unlocked?
    ensures Inv(s.(rr := s.rr + 1))
  {
    var s' := s.(rr := s.rr + 1);
    LockFrameRest(s, s');
    CoverFrame(s, s');
    FutureFrame(s, s');
    forall v | 0 <= v < |s'.workers| ensures RingOk(s'.workers[v], MarkedAt(s', v)) {
      assert RingOk(s.workers[v], MarkedAt(s, v));
    }
  }
}
