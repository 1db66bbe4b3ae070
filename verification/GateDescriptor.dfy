/**
  What a stream's descriptor and bounce buffer hold at any moment, whoever submits: the tail
  of the read released last, except where a read in flight has begun to replace it.
 */
module GateDescriptor {
  import opened Common
  import opened GateModel
  import opened GateInvariant
  import GatePreserve
  import opened GateSubmit
  import opened GateWorkers
  import opened GateTail

  // Read k has been released after every other.
  ghost predicate IsLast(gs: Stream, k: nat) {
    k in gs.outcome && forall j :: j in gs.outcome ==> j <= k
  }

  // The tail the read released last has left to its copy; none before the first.
  ghost predicate Latest(gs: Stream, o: Option<Tail>) {
    (gs.outcome == map[] && o == None) || exists k: nat :: IsLast(gs, k) && gs.outcome[k] == o
  }

  function LenOf(o: Option<Tail>): nat {
    match o
    case None => 0
    case Some(t) => |t.data|
  }

  // A read of the stream is between dispatch and release, in slot i of worker w.
  ghost predicate ReadsHere(s: State, w: nat, i: nat, st: nat) {
    && w < |s.workers| && i < |s.workers[w].slots|
    && Reading(s.workers[w].slots[i]) && s.workers[w].slots[i].op.stream == st
  }

  ghost predicate NoRead(s: State, st: nat) {
    forall w: nat, i: nat :: !ReadsHere(s, w, i, st)
  }

  // Until the read in flight is found complete the length is its predecessor's; until it
  // requests its tail so is all the rest.
  ghost predicate BeforeFinish(gs: Stream, wk: Worker, i: nat, o: Option<Tail>) {
    i < |wk.slots| && !FinishingAt(wk, i) ==>
      gs.descLen == LenOf(o) && (wk.slots[i].tail.None? ==> Holds(gs, o))
  }

  ghost predicate DescOk(s: State, st: nat, o: Option<Tail>)
    requires st < |s.streams|
  {
    && (o.Some? ==> o.value.data != [])
    && (NoRead(s, st) ==> Holds(s.streams[st], o))
    && (forall w: nat, i: nat :: ReadsHere(s, w, i, st) ==> BeforeFinish(s.streams[st], s.workers[w], i, o))
  }

  ghost predicate DescInv(s: State) {
    forall st: nat, o: Option<Tail> :: st < |s.streams| && Latest(s.streams[st], o) ==> DescOk(s, st, o)
  }

  lemma InitDesc(s: State)
    requires Init(s)
    ensures DescInv(s)
  {
    forall st: nat, o: Option<Tail> | st < |s.streams| && Latest(s.streams[st], o) ensures DescOk(s, st, o) {
      assert InitStream(s.streams[st]);
      forall w: nat, i: nat ensures !ReadsHere(s, w, i, st) {
        if w < |s.workers| && i < |s.workers[w].slots| { assert InitWorker(s.workers[w])
            && InitSlot(s.workers[w].slots[i]); }
      }
    }
  }

  // ---------- frames ----------

  ghost predicate ReaderKept(wk: Worker, wk': Worker, i: nat)
    requires i < |wk.slots| && i < |wk'.slots|
  {
    var sl, sl' := wk.slots[i], wk'.slots[i];
    && (Reading(sl') <==> Reading(sl))
    && (Reading(sl) ==>
          sl'.op.stream == sl.op.stream && sl'.tail == sl.tail && (FinishingAt(wk', i) <==> FinishingAt(wk, i)))
  }

  ghost predicate ReadersKept(wk: Worker, wk': Worker) {
    |wk'.slots| == |wk.slots| && forall i :: 0 <= i < |wk.slots| ==> ReaderKept(wk, wk', i)
  }

  ghost predicate SameReaders(s: State, s': State) {
    |s'.workers| == |s.workers| && forall w :: 0 <= w < |s.workers| ==> ReadersKept(s.workers[w], s'.workers[w])
  }

  ghost predicate SameDesc(gs: Stream, gs': Stream) {
    gs'.descDst == gs.descDst && gs'.descLen == gs.descLen && gs'.bounceBuf == gs.bounceBuf && gs'.outcome == gs.outcome
  }

  lemma ReaderSame(s: State, s': State, w: nat, i: nat, st: nat)
    requires SameReaders(s, s')
    ensures ReadsHere(s', w, i, st) <==> ReadsHere(s, w, i, st)
  {
    if w < |s.workers| && i < |s.workers[w].slots| {
      assert ReadersKept(s.workers[w], s'.workers[w]);
      assert ReaderKept(s.workers[w], s'.workers[w], i);
    }
  }

  lemma DescKept(s: State, s': State, st: nat, o: Option<Tail>)
    requires SameReaders(s, s') && |s'.streams| == |s.streams| && st < |s.streams|
    requires SameDesc(s.streams[st], s'.streams[st]) && DescOk(s, st, o)
    ensures DescOk(s', st, o)
  {
    forall w: nat, i: nat ensures ReadsHere(s', w, i, st) <==> ReadsHere(s, w, i, st) {
      ReaderSame(s, s', w, i, st);
    }
    forall w: nat, i: nat | ReadsHere(s', w, i, st) ensures BeforeFinish(s'.streams[st], s'.workers[w], i, o) {
      assert ReadsHere(s, w, i, st);
      assert ReadersKept(s.workers[w], s'.workers[w]);
      assert ReaderKept(s.workers[w], s'.workers[w], i);
    }
    if NoRead(s', st) {
      assert NoRead(s, st) by {
        forall w: nat, i: nat ensures !ReadsHere(s, w, i, st) { assert !ReadsHere(s', w, i, st); }
      }
    }
  }

  lemma DescFrame(s: State, s': State)
    requires SameReaders(s, s') && |s'.streams| == |s.streams| && DescInv(s)
    requires forall st :: 0 <= st < |s.streams| ==> SameDesc(s.streams[st], s'.streams[st])
    ensures DescInv(s')
  {
    forall st: nat, o: Option<Tail> | st < |s'.streams| && Latest(s'.streams[st], o) ensures DescOk(s', st, o) {
      assert Latest(s.streams[st], o);
      DescKept(s, s', st, o);
    }
  }

  lemma OneReadersKept(s: State, s': State, w: nat)
    requires w < |s.workers| && |s'.workers| == |s.workers| && ReadersKept(s.workers[w], s'.workers[w])
    requires forall v :: 0 <= v < |s.workers| && v != w ==> s'.workers[v] == s.workers[v]
    ensures SameReaders(s, s')
  {
  }

  // ---------- steps that change no descriptor ----------

  lemma LocalReaders(wk: Worker, step: Step, stop: bool, marked: bool)
    requires RingOk(wk, marked) && IsLocal(step) && LocalEnabled(wk, step)
    ensures ReadersKept(wk, WorkerStep(wk, step, stop))
  {
    forall i | 0 <= i < RING ensures ReaderKept(wk, WorkerStep(wk, step, stop), i) {
      assert PhaseOk(wk, i);
    }
  }

  lemma WorkerDesc(s: State, w: nat, wk': Worker)
    requires w < |s.workers| && DescInv(s) && ReadersKept(s.workers[w], wk')
    ensures DescInv(SetWorker(s, w, wk'))
  {
    OneReadersKept(s, SetWorker(s, w, wk'), w);
    DescFrame(s, SetWorker(s, w, wk'));
  }

  lemma LocalDesc(s: State, step: Step)
    requires WellFormed(s) && RingInv(s) && DescInv(s) && IsLocal(step) && Enabled(s, step)
    ensures DescInv(Apply(s, step))
  {
    var wk := s.workers[step.w];
    assert RingOk(wk, MarkedAt(s, step.w));
    LocalReaders(wk, step, s.stop, MarkedAt(s, step.w));
    WorkerDesc(s, step.w, WorkerStep(wk, step, s.stop));
  }

  // A slot that holds no read before or after.
  lemma HeadReaders(wk: Worker, wk': Worker, i: nat)
    requires i < |wk.slots| == |wk'.slots| && wk'.slots == wk.slots[i := wk'.slots[i]] && wk'.stage == wk.stage
             && wk'.pos == wk.pos
    requires !Reading(wk.slots[i]) && !Reading(wk'.slots[i])
    ensures ReadersKept(wk, wk')
  {
  }

  lemma ClaimReaders(s: State, op: Op)
    requires Inv(s) && s.lock.Unlocked? && RingHasRoom(s.workers[Routed(s)])
    ensures SameReaders(s, Claim(s, op))
  {
    var w := Routed(s);
    GatePreserve.ClaimedSlotIsDead(s, w);
    HeadReaders(s.workers[w], Claim(s, op).workers[w], Ix(s.workers[w].head));
    OneReadersKept(s, Claim(s, op), w);
  }

  lemma MarkReaders(s: State)
    requires Inv(s) && SharedEnabled(s, MarkPending)
    ensures SameReaders(s, Mark(s))
  {
    HeldSlotDead(s);
    HeadReaders(s.workers[s.lock.w], Mark(s).workers[s.lock.w], Ix(s.workers[s.lock.w].head));
    OneReadersKept(s, Mark(s), s.lock.w);
  }

  // A state whose workers and descriptors are those after a claim or a mark.
  lemma AlikeDesc(s: State, s1: State, s': State)
    requires DescInv(s) && SameReaders(s, s1) && s'.workers == s1.workers && |s'.streams| == |s.streams|
    requires forall st :: 0 <= st < |s.streams| ==> SameDesc(s.streams[st], s'.streams[st])
    ensures DescInv(s')
  {
    DescFrame(s, s');
  }

  lemma ClaimStreamIs(s: State, st: nat, write: bool)
    requires WellFormed(s) && SharedEnabled(s, ClaimStream(st, write))
    ensures var s' := ApplyShared(s, ClaimStream(st, write));
            && s'.workers == Claim(s, StreamOp(st, s.streams[st].nextSeq + 1, write)).workers
            && forall t :: 0 <= t < |s.streams| ==> SameDesc(s.streams[t], s'.streams[t])
  {
  }

  lemma ClaimStreamDesc(s: State, st: nat, write: bool)
    requires Inv(s) && DescInv(s) && SharedEnabled(s, ClaimStream(st, write))
    ensures DescInv(ApplyShared(s, ClaimStream(st, write)))
  {
    var op := StreamOp(st, s.streams[st].nextSeq + 1, write);
    ClaimReaders(s, op);
    ClaimStreamIs(s, st, write);
    AlikeDesc(s, Claim(s, op), ApplyShared(s, ClaimStream(st, write)));
  }

  lemma ClaimAsyncDesc(s: State, write: bool)
    requires Inv(s) && DescInv(s) && SharedEnabled(s, ClaimAsync(write))
    ensures DescInv(ApplyShared(s, ClaimAsync(write)))
  {
    ClaimReaders(s, AsyncOp(s.nextFuture, write));
    AlikeDesc(s, Claim(s, AsyncOp(s.nextFuture, write)), ApplyShared(s, ClaimAsync(write)));
  }

  lemma MarkSameDesc(s: State, st: nat)
    requires WellFormed(s) && SharedEnabled(s, MarkPending) && st < |s.streams|
    ensures SameDesc(s.streams[st], Mark(s).streams[st])
  {
  }

  lemma MarkDesc(s: State)
    requires Inv(s) && DescInv(s) && SharedEnabled(s, MarkPending)
    ensures DescInv(Mark(s))
  {
    MarkReaders(s);
    forall st | 0 <= st < |s.streams| ensures SameDesc(s.streams[st], Mark(s).streams[st]) {
      MarkSameDesc(s, st);
    }
    DescFrame(s, Mark(s));
  }

  lemma PublishDesc(s: State)
    requires WellFormed(s) && DescInv(s) && SharedEnabled(s, PublishHead)
    ensures DescInv(Publish(s))
  {
    var s' := Publish(s);
    forall w | 0 <= w < |s.workers| ensures ReadersKept(s.workers[w], s'.workers[w]) {
    }
    forall st | 0 <= st < |s.streams| ensures SameDesc(s.streams[st], s'.streams[st]) {
    }
    DescFrame(s, s');
  }

  lemma SubmitDesc(s: State, step: Step)
    requires Inv(s) && DescInv(s)
    requires step.ClaimStream? || step.ClaimAsync? || step.MarkPending? || step.PublishHead?
    requires SharedEnabled(s, step)
    ensures DescInv(ApplyShared(s, step))
  {
    match step
    case MarkPending => MarkDesc(s);
    case PublishHead => PublishDesc(s);
    case ClaimStream(st, write) => ClaimStreamDesc(s, st, write);
    case ClaimAsync(write) => ClaimAsyncDesc(s, write);
  }

  lemma EnqueuedSameDesc(s: State, ok: bool, cmd: Cmd, next: LockStage, st: nat)
    requires s.lock.Locked? && s.lock.op.StreamOp? && s.lock.op.stream < |s.streams| && st < |s.streams|
    ensures SameDesc(s.streams[st], Enqueue(s, ok, cmd, next).streams[st])
  {
  }

  lemma EnqueueSameDesc(s: State, step: Step, st: nat)
    requires WellFormed(s) && st < |s.streams|
    requires (step.EnqWrite? || step.EnqWait? || step.EnqHost?) && SharedEnabled(s, step)
    ensures SameDesc(s.streams[st], ApplyShared(s, step).streams[st])
  {
    var q := s.lock.op.seqNo;
    match step
    case EnqWrite(ok) => EnqueuedSameDesc(s, ok, WriteGate(q), Written, st);
    case EnqWait(ok) => EnqueuedSameDesc(s, ok, WaitGate(q), Queued, st);
    case EnqHost(ok) =>
      EnqueuedSameDesc(s, ok, HostFn(s.lock.w, Ix(s.workers[s.lock.w].head), q), Queued, st);
  }

  lemma FrontSameDesc(s: State, st: nat)
    requires WellFormed(s) && SharedEnabled(s, GpuStep(st))
    ensures SameDesc(s.streams[st], RunFront(s, st))
  {
  }

  // Steps that change queues only.
  ghost predicate OfQueues(step: Step) {
    step.EnqWrite? || step.EnqWait? || step.EnqHost? || step.EnqCopy? || step.EnqUser? || step.GpuStep?
    || step.StopDriver? || step.ClaimFull?
  }

  lemma QueueSameDesc(s: State, step: Step, st: nat)
    requires WellFormed(s) && st < |s.streams| && OfQueues(step) && SharedEnabled(s, step)
    ensures SameDesc(s.streams[st], ApplyShared(s, step).streams[st])
  {
    if step.EnqWrite? || step.EnqWait? || step.EnqHost? {
      EnqueueSameDesc(s, step, st);
    } else if step.GpuStep? {
      FrontSameDesc(s, step.st);
    }
  }

  lemma QueueSameWorkers(s: State, step: Step)
    requires WellFormed(s) && OfQueues(step) && SharedEnabled(s, step)
    ensures ApplyShared(s, step).workers == s.workers
  {
  }

  lemma QueueDesc(s: State, step: Step)
    requires WellFormed(s) && DescInv(s) && OfQueues(step) && SharedEnabled(s, step)
    ensures DescInv(ApplyShared(s, step))
  {
    var s' := ApplyShared(s, step);
    QueueSameWorkers(s, step);
    forall st | 0 <= st < |s.streams| ensures SameDesc(s.streams[st], s'.streams[st]) {
      QueueSameDesc(s, step, st);
    }
    forall w | 0 <= w < |s.workers| ensures ReadersKept(s.workers[w], s'.workers[w]) {
    }
    DescFrame(s, s');
  }

  // ---------- the read in flight ----------

  lemma OwnerReads(s: State, w: nat, i: nat)
    requires Inv(s) && HasSlot(s, w, i) && Reading(s.workers[w].slots[i])
    ensures forall v: nat, j: nat :: ReadsHere(s, v, j, s.workers[w].slots[i].op.stream) ==> v == w && j == i
  {
    OwnerAlone(s, w, i);
    forall v: nat, j: nat | ReadsHere(s, v, j, s.workers[w].slots[i].op.stream) ensures v == w && j == i {
      assert SharesStream(s.workers[v].slots[j], s.workers[w].slots[i].op.stream);
    }
  }

  lemma OwnerOtherReaders(s: State, w: nat, i: nat, wk': Worker, gs': Stream, v: nat, j: nat, t: nat)
    requires WellFormed(s) && OwnerChange(s, w, i, wk', gs') && t != s.workers[w].slots[i].op.stream
    ensures var s' := OwnerStep(s, w, wk', s.workers[w].slots[i].op.stream, gs');
            && (ReadsHere(s', v, j, t) <==> ReadsHere(s, v, j, t))
            && (ReadsHere(s, v, j, t) ==>
                  && s'.workers[v].slots[j] == s.workers[v].slots[j]
                  && (FinishingAt(s'.workers[v], j) <==> FinishingAt(s.workers[v], j)))
  {
  }

  lemma OwnerOtherDesc(s: State, w: nat, i: nat, wk': Worker, gs': Stream, t: nat, o: Option<Tail>)
    requires WellFormed(s) && OwnerChange(s, w, i, wk', gs') && t != s.workers[w].slots[i].op.stream
    requires t < |s.streams| && DescOk(s, t, o)
    ensures DescOk(OwnerStep(s, w, wk', s.workers[w].slots[i].op.stream, gs'), t, o)
  {
    var s' := OwnerStep(s, w, wk', s.workers[w].slots[i].op.stream, gs');
    forall v: nat, j: nat
      ensures ReadsHere(s', v, j, t) <==> ReadsHere(s, v, j, t)
      ensures ReadsHere(s, v, j, t) ==> BeforeFinish(s'.streams[t], s'.workers[v], j, o)
    {
      OwnerOtherReaders(s, w, i, wk', gs', v, j, t);
    }
  }

  lemma OwnerStepDesc(s: State, w: nat, i: nat, wk': Worker, gs': Stream)
    requires Inv(s) && DescInv(s) && OwnerChange(s, w, i, wk', gs')
    ensures DescInv(OwnerStep(s, w, wk', s.workers[w].slots[i].op.stream, gs'))
  {
    var st := s.workers[w].slots[i].op.stream;
    var s' := OwnerStep(s, w, wk', st, gs');
    OwnerReads(s, w, i);
    forall t: nat, o: Option<Tail> | t < |s'.streams| && Latest(s'.streams[t], o) ensures DescOk(s', t, o) {
      assert Latest(s.streams[t], o);
      if t != st {
        OwnerOtherDesc(s, w, i, wk', gs', t, o);
      } else {
        assert ReadsHere(s, w, i, st) && ReadsHere(s', w, i, st);
        assert BeforeFinish(s.streams[st], s.workers[w], i, o);
        forall v: nat, j: nat | ReadsHere(s', v, j, st) ensures v == w && j == i {
          if v != w || j != i { assert ReadsHere(s, v, j, st); }
        }
      }
    }
  }

  lemma SubmitTailDesc(s: State, w: nat, t: Tail)
    requires Inv(s) && DescInv(s) && SharedEnabled(s, SubmitTail(w, t))
    ensures DescInv(TailSubmitted(s, w, t))
  {
    var wk', gs' := SubmitTailOwner(s, w, t);
    OwnerStepDesc(s, w, Ix(s.workers[w].pos), wk', gs');
  }

  lemma DmaDesc(s: State, w: nat, i: nat, landed: bool, buf: seq<byte>)
    requires Inv(s) && TailSlots(s) && DescInv(s) && BouncePending(s, w, i)
    requires |buf| == |s.streams[s.workers[w].slots[i].op.stream].bounceBuf|
    requires landed ==> var t := s.workers[w].slots[i].tail;
             t.Some? && |t.value.data| <= |buf| && buf[..|t.value.data|] == t.value.data
    ensures var sl := s.workers[w].slots[i];
            DescInv(OwnerStep(s, w, DmaWrote(s, w, i, landed),
                              sl.op.stream, s.streams[sl.op.stream].(bounceBuf := buf)))
  {
    DmaOwner(s, w, i, landed, buf);
    OwnerStepDesc(s, w, i, DmaWrote(s, w, i, landed), s.streams[s.workers[w].slots[i].op.stream].(bounceBuf := buf));
  }

  lemma DmaPartDesc(s: State, w: nat, i: nat, buf: seq<byte>)
    requires Inv(s) && TailSlots(s) && DescInv(s) && SharedEnabled(s, DmaPart(w, i, buf))
    ensures DescInv(ApplyShared(s, DmaPart(w, i, buf)))
  {
    DmaDesc(s, w, i, false, buf);
    assert DmaWrote(s, w, i, false) == s.workers[w];
    assert SetWorker(s, w, s.workers[w]) == s;
  }

  lemma DmaLandDesc(s: State, w: nat, i: nat)
    requires Inv(s) && TailSlots(s) && DescInv(s) && SharedEnabled(s, DmaLand(w, i))
    ensures DescInv(TailLanded(s, w, i))
  {
    var sl := s.workers[w].slots[i];
    var data := sl.tail.value.data;
    assert RingOk(s.workers[w], MarkedAt(s, w));
    assert PhaseOk(s.workers[w], i);
    assert TailSlotAt(s, w, i);
    DmaDesc(s, w, i, true, data + s.streams[sl.op.stream].bounceBuf[|data|..]);
  }

  // ---------- dispatch ----------

  // The worker passes an op by, or goes to complete one that is no stream read.
  lemma PassDesc(s: State, w: nat, wk': Worker)
    requires WellFormed(s) && DescInv(s) && HasWorker(s, w, Sweep) && wk'.slots == s.workers[w].slots
    requires wk'.stage == Sweep
             || (wk'.stage == Finishing && wk'.pos == s.workers[w].pos && !Reading(Current(s.workers[w])))
    ensures DescInv(SetWorker(s, w, wk'))
  {
    WorkerDesc(s, w, wk');
  }

  lemma ReaderAtGate(s: State, v: nat, j: nat, st: nat)
    requires WellFormed(s) && LinkInv(s) && ReadsHere(s, v, j, st)
    ensures st < |s.streams|
    ensures var gs, q := s.streams[st], s.workers[v].slots[j].op.seqNo;
            gs.gate == 2 * q && q in gs.home && gs.home[q] == Place(v, j)
  {
    assert LinkAt(s, v, j);
  }

  // A stream whose gate has come to a waiting op has no read in flight.
  lemma NobodyReads(s: State, w: nat, i: nat)
    requires Inv(s) && HasSlot(s, w, i) && s.workers[w].slots[i].phase == Waiting
    requires var op := s.workers[w].slots[i].op;
             op.StreamOp? && KnownStream(s, op) && s.streams[op.stream].gate == 2 * op.seqNo
    ensures NoRead(s, s.workers[w].slots[i].op.stream)
  {
    var op := s.workers[w].slots[i].op;
    assert LinkAt(s, w, i);
    forall v: nat, j: nat ensures !ReadsHere(s, v, j, op.stream) {
      if ReadsHere(s, v, j, op.stream) { ReaderAtGate(s, v, j, op.stream); }
    }
  }

  lemma DispatchReaders(wk: Worker, n: nat, j: nat)
    requires |wk.slots| == RING && j < RING && wk.stage == Sweep
    requires Current(wk).state == Pending && Current(wk).phase == Waiting
    requires j != Ix(wk.pos) || Current(wk).op.AsyncOp? || Current(wk).op.write
    ensures ReaderKept(wk, Dispatch(wk, n), j)
  {
  }

  lemma DispatchAsyncDesc(s: State, w: nat, n: nat, s': State)
    requires WellFormed(s) && DescInv(s) && HasWorker(s, w, Sweep)
    requires Current(s.workers[w]).state == Pending && Current(s.workers[w]).phase == Waiting
    requires Current(s.workers[w]).op.AsyncOp? || Current(s.workers[w]).op.write
    requires s'.workers == SetWorker(s, w, Dispatch(s.workers[w], n)).workers && |s'.streams| == |s.streams|
    requires forall t :: 0 <= t < |s.streams| ==> SameDesc(s.streams[t], s'.streams[t])
    ensures DescInv(s')
  {
    forall j | 0 <= j < RING ensures ReaderKept(s.workers[w], Dispatch(s.workers[w], n), j) {
      DispatchReaders(s.workers[w], n, j);
    }
    OneReadersKept(s, s', w);
    DescFrame(s, s');
  }

  lemma DispatchReadDesc(s: State, w: nat, n: nat, s': State)
    requires Inv(s) && DescInv(s) && HasWorker(s, w, Sweep) && Current(s.workers[w]).phase == Waiting
    requires var op := Current(s.workers[w]).op;
             op.StreamOp? && !op.write && KnownStream(s, op) && s.streams[op.stream].gate == 2 * op.seqNo
    requires s'.workers == SetWorker(s, w, Dispatch(s.workers[w], n)).workers && |s'.streams| == |s.streams|
    requires forall t :: 0 <= t < |s.streams| ==> SameDesc(s.streams[t], s'.streams[t])
    ensures DescInv(s')
  {
    var st := Current(s.workers[w]).op.stream;
    NobodyReads(s, w, Ix(s.workers[w].pos));
    forall t: nat, o: Option<Tail> | t < |s'.streams| && Latest(s'.streams[t], o) ensures DescOk(s', t, o) {
      assert Latest(s.streams[t], o);
      assert DescOk(s, t, o);
      DispatchedDesc(s, w, n, s', t, o);
    }
  }

  lemma DispatchedReader(s: State, w: nat, n: nat, s': State, t: nat, v: nat, j: nat)
    requires WellFormed(s) && HasWorker(s, w, Sweep) && Current(s.workers[w]).phase == Waiting
    requires Current(s.workers[w]).op.StreamOp? && !Current(s.workers[w]).op.write
    requires s'.workers == SetWorker(s, w, Dispatch(s.workers[w], n)).workers
    ensures if v == w && j == Ix(s.workers[w].pos) then
              ReadsHere(s', v, j, t) ==> t == Current(s.workers[w]).op.stream && s'.workers[v].slots[j].tail == None
            else
              && (ReadsHere(s', v, j, t) <==> ReadsHere(s, v, j, t))
              && (ReadsHere(s, v, j, t) ==>
                    && s'.workers[v].slots[j] == s.workers[v].slots[j]
                    && (FinishingAt(s'.workers[v], j) <==> FinishingAt(s.workers[v], j)))
    ensures ReadsHere(s', w, Ix(s.workers[w].pos), Current(s.workers[w]).op.stream)
    ensures !ReadsHere(s, w, Ix(s.workers[w].pos), t)
  {
  }

  lemma DispatchedDesc(s: State, w: nat, n: nat, s': State, t: nat, o: Option<Tail>)
    requires WellFormed(s) && HasWorker(s, w, Sweep) && Current(s.workers[w]).phase == Waiting
    requires Current(s.workers[w]).op.StreamOp? && !Current(s.workers[w]).op.write
    requires s'.workers == SetWorker(s, w, Dispatch(s.workers[w], n)).workers && |s'.streams| == |s.streams|
    requires t < |s.streams| && SameDesc(s.streams[t], s'.streams[t]) && DescOk(s, t, o)
    requires t == Current(s.workers[w]).op.stream ==> NoRead(s, t)
    ensures DescOk(s', t, o)
  {
    var i := Ix(s.workers[w].pos);
    forall v: nat, j: nat | ReadsHere(s', v, j, t) ensures BeforeFinish(s'.streams[t], s'.workers[v], j, o) {
      DispatchedReader(s, w, n, s', t, v, j);
    }
    if NoRead(s', t) {
      forall v: nat, j: nat ensures !ReadsHere(s, v, j, t) {
        DispatchedReader(s, w, n, s', t, v, j);
        assert !ReadsHere(s', v, j, t);
      }
    }
  }

  lemma VisitPendingDesc(s: State, w: nat, n: nat)
    requires AtPending(s, w) && WindowOk(s) && DescInv(s) && Current(s.workers[w]).phase == Waiting
    requires KnownStream(s, Current(s.workers[w]).op)
    ensures DescInv(VisitPending(s, w, n))
  {
    var op := Current(s.workers[w]).op;
    var s' := VisitPending(s, w, n);
    if op.AsyncOp? {
      DispatchAsyncDesc(s, w, n, s');
    } else if !GateOpen(s.streams[op.stream], op.seqNo) {
      PassDesc(s, w, Advance(s.workers[w]).(busy := true));
    } else if op.write {
      DispatchAsyncDesc(s, w, n, s');
    } else {
      DispatchDue(s, w, op);
      DispatchReadDesc(s, w, n, s');
    }
  }

  lemma VisitInFlightDesc(s: State, w: nat)
    requires Inv(s) && TailSlots(s) && DescInv(s) && HasWorker(s, w, Sweep)
    requires Current(s.workers[w]).state == InFlight && Owing(Current(s.workers[w]))
    requires KnownStream(s, Current(s.workers[w]).op)
    ensures DescInv(VisitInFlight(s, w))
  {
    var wk := s.workers[w];
    assert RingOk(wk, MarkedAt(s, w));
    assert PhaseOk(wk, Ix(wk.pos));
    if !Quiet(Current(wk)) || Current(wk).op.AsyncOp? {
      PassDesc(s, w, if Quiet(Current(wk)) then wk.(stage := Finishing) else Advance(wk));
    } else {
      CompleteOwner(s, w);
      var sl := Current(wk);
      OwnerStepDesc(s, w, Ix(wk.pos), wk.(stage := Finishing), s.streams[sl.op.stream].(descLen := DescLen(sl)));
    }
  }

  lemma VisitDesc(s: State, w: nat, n: nat)
    requires Inv(s) && WindowOk(s) && TailSlots(s) && DescInv(s) && SharedEnabled(s, Visit(w, n))
    ensures DescInv(VisitSlot(s, w, n))
  {
    VisitFacts(s, w);
    match Current(s.workers[w]).state
    case Free => PassDesc(s, w, Advance(s.workers[w]));
    case Pending => VisitPendingDesc(s, w, n);
    case InFlight => VisitInFlightDesc(s, w);
  }

  // ---------- release ----------

  // What the released read leaves in the descriptor is its outcome.
  lemma ReleasedHolds(s: State, w: nat)
    requires WellFormed(s) && RingInv(s) && TailSlots(s) && SharedEnabled(s, Release(w))
             && Reading(Current(s.workers[w]))
    ensures Holds(s.streams[Current(s.workers[w]).op.stream], Outcome(Current(s.workers[w])))
  {
    var wk := s.workers[w];
    assert RingOk(wk, MarkedAt(s, w));
    assert TailSlotAt(s, w, Ix(wk.pos));
  }

  lemma ReleasedIsLast(gs: Stream, q: nat, o: Option<Tail>, gs': Stream)
    requires OutcomeOk(gs) && gs.gate == 2 * q && gs'.outcome == gs.outcome[q := o]
    ensures forall l :: Latest(gs', l) ==> l == o
  {
    assert q in gs'.outcome;
    forall k: nat | IsLast(gs', k) ensures k == q {
      assert k in gs.outcome || k == q;
    }
  }

  lemma ReleaseReaders(s: State, w: nat, v: nat, j: nat, t: nat)
    requires WellFormed(s) && SharedEnabled(s, Release(w))
    ensures var s' := ReleaseSlot(s, w);
            if v == w && j == Ix(s.workers[w].pos) then !ReadsHere(s', v, j, t)
            else
              && (ReadsHere(s', v, j, t) <==> ReadsHere(s, v, j, t))
              && (ReadsHere(s, v, j, t) ==>
                    && s'.workers[v].slots[j] == s.workers[v].slots[j]
                    && (FinishingAt(s'.workers[v], j) <==> FinishingAt(s.workers[v], j)))
  {
  }

  lemma ReleaseOtherDesc(s: State, w: nat, t: nat, o: Option<Tail>)
    requires WellFormed(s) && SharedEnabled(s, Release(w)) && t < |s.streams| && DescOk(s, t, o)
    requires SameDesc(s.streams[t], ReleaseSlot(s, w).streams[t])
    requires !ReadsHere(s, w, Ix(s.workers[w].pos), t)
    ensures DescOk(ReleaseSlot(s, w), t, o)
  {
    var s' := ReleaseSlot(s, w);
    forall v: nat, j: nat
      ensures ReadsHere(s', v, j, t) <==> ReadsHere(s, v, j, t)
      ensures ReadsHere(s', v, j, t) ==> BeforeFinish(s'.streams[t], s'.workers[v], j, o)
    {
      ReleaseReaders(s, w, v, j, t);
    }
  }

  lemma ReleaseReadDesc(s: State, w: nat)
    requires Inv(s) && TailInv(s) && SharedEnabled(s, Release(w)) && Reading(Current(s.workers[w]))
    ensures var s', st := ReleaseSlot(s, w), Current(s.workers[w]).op.stream;
            forall o: Option<Tail> :: Latest(s'.streams[st], o) ==> DescOk(s', st, o)
  {
    var s', sl := ReleaseSlot(s, w), Current(s.workers[w]);
    var st := sl.op.stream;
    assert RingOk(s.workers[w], MarkedAt(s, w));
    assert PhaseOk(s.workers[w], Ix(s.workers[w].pos));
    ReleaseFacts(s, w, sl.op);
    assert TailStream(s, st);
    ReleasedHolds(s, w);
    ReleasedIsLast(s.streams[st], sl.op.seqNo, Outcome(sl), s'.streams[st]);
    OwnerReads(s, w, Ix(s.workers[w].pos));
    forall v: nat, j: nat ensures !ReadsHere(s', v, j, st) {
      ReleaseReaders(s, w, v, j, st);
    }
  }

  lemma ReleaseSame(s: State, w: nat, t: nat)
    requires WellFormed(s) && SharedEnabled(s, Release(w)) && t < |s.streams|
    requires var op := Current(s.workers[w]).op; op.AsyncOp? || op.write || op.stream != t
    ensures SameDesc(s.streams[t], ReleaseSlot(s, w).streams[t])
  {
  }

  lemma ReleaseDesc(s: State, w: nat)
    requires Inv(s) && TailInv(s) && DescInv(s) && SharedEnabled(s, Release(w))
    ensures DescInv(ReleaseSlot(s, w))
  {
    var s', sl := ReleaseSlot(s, w), Current(s.workers[w]);
    assert RingOk(s.workers[w], MarkedAt(s, w));
    assert PhaseOk(s.workers[w], Ix(s.workers[w].pos));
    forall t: nat, o: Option<Tail> | t < |s'.streams| && Latest(s'.streams[t], o) ensures DescOk(s', t, o) {
      if Reading(sl) && sl.op.stream == t {
        ReleaseReadDesc(s, w);
      } else {
        ReleaseSame(s, w, t);
        assert Latest(s.streams[t], o);
        ReleaseOtherDesc(s, w, t, o);
      }
    }
  }

  // ---------- every step ----------

  // No step of anybody, with however many threads submitting, breaks this account of the
  // descriptor.
  lemma StepDesc(s: State, step: Step)
    requires Inv(s) && WindowOk(s) && TailInv(s) && DescInv(s) && Enabled(s, step)
    ensures DescInv(Apply(s, step))
  {
    if IsLocal(step) {
      LocalDesc(s, step);
    } else if step.ClaimStream? || step.ClaimAsync? || step.MarkPending? || step.PublishHead? {
      SubmitDesc(s, step);
    } else if step.Visit? || step.SubmitTail? || step.DmaPart? || step.DmaLand? || step.Release? {
      WorkDesc(s, step);
    } else {
      QueueDesc(s, step);
    }
  }

  lemma WorkDesc(s: State, step: Step)
    requires Inv(s) && WindowOk(s) && TailInv(s) && DescInv(s)
    requires step.Visit? || step.SubmitTail? || step.DmaPart? || step.DmaLand? || step.Release?
    requires SharedEnabled(s, step)
    ensures DescInv(ApplyShared(s, step))
  {
    match step
    case Visit(w, n) => VisitDesc(s, w, n);
    case SubmitTail(w, t) => SubmitTailDesc(s, w, t);
    case DmaPart(w, i, buf) => DmaPartDesc(s, w, i, buf);
    case DmaLand(w, i) => DmaLandDesc(s, w, i);
    case Release(w) => ReleaseDesc(s, w);
  }
}
