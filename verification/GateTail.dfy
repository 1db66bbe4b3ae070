/**
  The tail copy. A stream has a single bounce buffer and a single copy descriptor, filled
  by whichever read is in flight and consumed by a kernel enqueued after submit_lock is
  dropped. This module follows what the read in flight has put there, and that a copy comes
  to the front of its stream behind its own read's release, whoever submits.
 */
module GateTail {
  import opened Common
  import opened GateModel
  import opened GateInvariant
  import opened GateRing
  import opened GateSubmit
  import opened GateStreams
  import opened GateWorkers

  // The copy of read q is still to run.
  ghost predicate Due(gs: Stream, q: nat) {
    q in gs.owed || Copy(q) in gs.queue
  }

  // The descriptor and the bounce buffer hold this tail.
  ghost predicate Holds(gs: Stream, o: Option<Tail>) {
    match o
    case None => gs.descLen == 0
    case Some(t) =>
      && 0 < |t.data| <= |gs.bounceBuf|
      && gs.descDst == t.dst && gs.descLen == |t.data| && gs.bounceBuf[..|t.data|] == t.data
  }

  // Gate commands of an op and of its predecessors stand before its copy.
  ghost predicate CopyOrder(queue: seq<Cmd>) {
    forall a, b :: 0 <= a < b < |queue| ==> MayPrecede(queue[a], queue[b])
  }

  ghost predicate MayPrecede(c: Cmd, d: Cmd) {
    c.Copy? && GateCmd(d) ==> 2 * c.q + 1 < Low(d)
  }

  // Until its gate is let go a due read is in its slot; from then on its outcome is known.
  ghost predicate DueOk(s: State, st: nat, q: nat)
    requires WellFormed(s) && st < |s.streams|
  {
    var gs := s.streams[st];
    && q in gs.home && q <= gs.nextSeq
    && (gs.gate <= 2 * q ==>
          HasSlot(s, gs.home[q].w, gs.home[q].i) && !s.workers[gs.home[q].w].slots[gs.home[q].i].op.write)
    && (gs.gate > 2 * q ==> q in gs.outcome)
  }

  ghost predicate OutcomeOk(gs: Stream) {
    forall q :: q in gs.outcome ==> 2 * q + 1 <= gs.gate && q in gs.home && q in gs.readSeqs
  }

  // A copy is owed, queued or done, and done only when its read is.
  ghost predicate CopiesOk(gs: Stream) {
    && (forall q :: q in gs.copied ==> q in gs.outcome)
    && (forall q :: q in gs.owed ==> Copy(q) !in gs.queue && q !in gs.copied)
  }

  // An op still in its slot is a write, or its number was taken for a read.
  ghost predicate HomeKind(s: State, st: nat, q: nat)
    requires WellFormed(s) && st < |s.streams|
  {
    var gs := s.streams[st];
    q in gs.home && gs.gate <= 2 * q ==>
      HasSlot(s, gs.home[q].w, gs.home[q].i)
      && (s.workers[gs.home[q].w].slots[gs.home[q].i].op.write || q in gs.readSeqs)
  }

  ghost predicate HeldKind(s: State, st: nat, q: nat)
    requires st < |s.streams|
  {
    HeldSeq(s, st, q) ==>
      && (s.lock.op.write || q in s.streams[st].readSeqs)
      && forall p: nat :: Due(s.streams[st], p) ==> p < q
  }

  ghost predicate ReadsOk(gs: Stream) {
    forall r :: r in gs.readSeqs ==> r <= gs.nextSeq
  }

  ghost predicate TailStream(s: State, st: nat)
    requires WellFormed(s) && st < |s.streams|
  {
    var gs := s.streams[st];
    && CopyOrder(gs.queue)
    && (forall q :: Due(gs, q) ==> DueOk(s, st, q))
    && ReadsOk(gs)
    && (forall q :: HomeKind(s, st, q))
    && (forall q :: HeldKind(s, st, q))
    && OutcomeOk(gs)
    && CopiesOk(gs)
  }

  // What a read in flight has put into its stream's descriptor and buffer so far.
  ghost predicate TailSlot(gs: Stream, sl: Slot) {
    && (sl.bounce == NoBounce <==> sl.tail.None?)
    && (sl.tail.Some? ==> 0 < |sl.tail.value.data| <= |gs.bounceBuf| && gs.descDst == sl.tail.value.dst)
    && (sl.bounce == Landed || (sl.bounce == Reaped && !sl.err) ==>
          sl.tail.Some? && gs.bounceBuf[..|sl.tail.value.data|] == sl.tail.value.data)
  }

  ghost predicate TailSlotIn(gs: Stream, wk: Worker, i: nat)
    requires i < |wk.slots|
  {
    && TailSlot(gs, wk.slots[i])
    && (wk.stage == Finishing && Ix(wk.pos) == i ==> gs.descLen == DescLen(wk.slots[i]))
  }

  ghost predicate Reading(sl: Slot) {
    sl.state == InFlight && sl.phase == Dispatched && sl.op.StreamOp?
  }

  ghost predicate TailSlotAt(s: State, w: nat, i: nat)
    requires WellFormed(s) && HasSlot(s, w, i)
  {
    var sl := s.workers[w].slots[i];
    Reading(sl) && KnownStream(s, sl.op) ==> TailSlotIn(s.streams[sl.op.stream], s.workers[w], i)
  }

  ghost predicate TailSlots(s: State)
    requires WellFormed(s)
  {
    forall w, i {:trigger s.workers[w].slots[i]} :: 0 <= w < |s.workers| && 0 <= i < RING ==> TailSlotAt(s, w, i)
  }

  ghost predicate TailStreams(s: State)
    requires WellFormed(s)
  {
    forall st :: 0 <= st < |s.streams| ==> TailStream(s, st)
  }

  ghost predicate TailInv(s: State) {
    WellFormed(s) && TailStreams(s) && TailSlots(s)
  }

  lemma InitTail(s: State)
    requires Init(s)
    ensures TailInv(s)
  {
    forall st | 0 <= st < |s.streams| ensures TailStream(s, st) {
      assert InitStream(s.streams[st]);
      assert forall q :: !Due(s.streams[st], q);
      assert forall q :: HomeKind(s, st, q) && HeldKind(s, st, q);
    }
    forall w, i | 0 <= w < |s.workers| && 0 <= i < RING ensures TailSlotAt(s, w, i) {
      assert InitWorker(s.workers[w]);
    }
  }

  // ---------- frames ----------

  // Gate and history are untouched.
  ghost predicate SameTail(gs: Stream, gs': Stream) {
    && gs'.gate == gs.gate && gs'.outcome == gs.outcome && gs'.copied == gs.copied
    && (forall q :: q in gs.home ==> q in gs'.home && gs'.home[q] == gs.home[q])
    && gs.nextSeq <= gs'.nextSeq && gs'.readSeqs == gs.readSeqs
  }

  // Nothing a stream's copies depend on has changed in the slots.
  ghost predicate SameOps(s: State, s': State) {
    && WellFormed(s) && WellFormed(s') && |s'.workers| == |s.workers|
    && forall w, i {:trigger s.workers[w].slots[i]} ::
      0 <= w < |s.workers| && 0 <= i < RING && Owing(s.workers[w].slots[i]) ==>
         s'.workers[w].slots[i].op == s.workers[w].slots[i].op
  }

  lemma DueKept(s: State, s': State, st: nat, q: nat)
    requires WellFormed(s) && HomeInv(s) && SameOps(s, s') && |s'.streams| == |s.streams| && st < |s.streams|
    requires SameTail(s.streams[st], s'.streams[st]) && DueOk(s, st, q)
    ensures DueOk(s', st, q)
  {
    var gs := s.streams[st];
    if gs.gate <= 2 * q { assert LivesAt(s, s.streams[st].home[q], st, q); }
  }

  lemma HomeKindKept(s: State, s': State, st: nat, q: nat)
    requires WellFormed(s) && HomeInv(s) && SameOps(s, s') && |s'.streams| == |s.streams| && st < |s.streams|
    requires s.streams[st].gate <= s'.streams[st].gate && s.streams[st].readSeqs <= s'.streams[st].readSeqs
    requires q in s.streams[st].home && q in s'.streams[st].home && s'.streams[st].home[q] == s.streams[st].home[q]
    requires HomeKind(s, st, q)
    ensures HomeKind(s', st, q)
  {
    if s.streams[st].gate <= 2 * q { assert LivesAt(s, s.streams[st].home[q], st, q); }
  }

  // The queue and the owed copies are the same too.
  lemma TailStreamKept(s: State, s': State, st: nat)
    requires WellFormed(s) && HomeInv(s) && SameOps(s, s') && |s'.streams| == |s.streams| && st < |s.streams|
    requires TailStream(s, st)
    requires SameTail(s.streams[st], s'.streams[st])
    requires s'.streams[st].queue == s.streams[st].queue && s'.streams[st].owed == s.streams[st].owed
    requires s'.streams[st].nextSeq == s.streams[st].nextSeq
    requires forall q :: q in s'.streams[st].home && q !in s.streams[st].home ==> HomeKind(s', st, q)
    requires forall q :: HeldSeq(s', st, q) ==> HeldSeq(s, st, q) && s'.lock.op == s.lock.op
    ensures TailStream(s', st)
  {
    forall q | Due(s'.streams[st], q) ensures DueOk(s', st, q) {
      assert Due(s.streams[st], q);
      DueKept(s, s', st, q);
    }
    assert forall p: nat :: Due(s'.streams[st], p) ==> Due(s.streams[st], p);
    forall q ensures HomeKind(s', st, q) {
      assert HomeKind(s, st, q);
      if q in s.streams[st].home { HomeKindKept(s, s', st, q); }
    }
    forall q ensures HeldKind(s', st, q) {
      assert HeldKind(s, st, q);
    }
  }

  // ---------- workers ----------

  lemma LocalStreamsTail(s: State, w: nat, wk': Worker)
    requires Inv(s) && TailStreams(s) && w < |s.workers| && SameDuties(s.workers[w], wk')
    ensures TailStreams(SetWorker(s, w, wk'))
  {
    var s' := SetWorker(s, w, wk');
    forall st | 0 <= st < |s'.streams| ensures TailStream(s', st) {
      TailStreamKept(s, s', st);
    }
  }

  lemma LocalSlotsTail(s: State, step: Step)
    requires WellFormed(s) && RingInv(s) && TailSlots(s) && IsLocal(step) && Enabled(s, step)
    ensures TailSlots(Apply(s, step))
  {
    var w := step.w;
    var s' := Apply(s, step);
    assert RingOk(s.workers[w], MarkedAt(s, w));
    forall v, i | 0 <= v < |s'.workers| && 0 <= i < RING ensures TailSlotAt(s', v, i) {
      assert TailSlotAt(s, v, i);
      if v == w && Reading(s'.workers[w].slots[i]) && KnownStream(s, s'.workers[w].slots[i].op) {
        LocalSlotTail(s.streams[s'.workers[w].slots[i].op.stream], s.workers[w], step, s.stop, MarkedAt(s, w), i);
      }
    }
  }

  lemma LocalStepStreams(s: State, step: Step) returns (wk': Worker)
    requires Inv(s) && TailStreams(s) && IsLocal(step) && Enabled(s, step)
    ensures wk' == WorkerStep(s.workers[step.w], step, s.stop)
    ensures TailStreams(SetWorker(s, step.w, wk'))
  {
    assert RingOk(s.workers[step.w], MarkedAt(s, step.w));
    LocalStepDuties(s.workers[step.w], step, s.stop, MarkedAt(s, step.w));
    wk' := WorkerStep(s.workers[step.w], step, s.stop);
    LocalStreamsTail(s, step.w, wk');
  }

  // A local step of a worker.
  lemma LocalTail(s: State, step: Step)
    requires Inv(s) && TailInv(s) && IsLocal(step) && Enabled(s, step)
    ensures TailInv(Apply(s, step))
  {
    var wk' := LocalStepStreams(s, step);
    LocalSlotsTail(s, step);
    assert Apply(s, step) == SetWorker(s, step.w, wk');
  }

  lemma LocalSlotTail(gs: Stream, wk: Worker, step: Step, stop: bool, marked: bool, i: nat)
    requires RingOk(wk, marked) && IsLocal(step) && LocalEnabled(wk, step) && i < RING
    requires Reading(WorkerStep(wk, step, stop).slots[i])
    requires Reading(wk.slots[i]) ==> TailSlotIn(gs, wk, i)
    ensures TailSlotIn(gs, WorkerStep(wk, step, stop), i)
  {
    assert PhaseOk(wk, i);
  }

  ghost predicate SharesStream(sl: Slot, st: nat) {
    sl.phase == Dispatched && sl.op.StreamOp? && sl.op.stream == st
  }

  // The read in flight at (w, i) is the only op of its stream between dispatch and release,
  // and the gate stands at its arrival value.
  lemma OwnerAlone(s: State, w: nat, i: nat)
    requires Inv(s) && HasSlot(s, w, i)
    requires s.workers[w].slots[i].phase == Dispatched && s.workers[w].slots[i].op.StreamOp?
    ensures KnownStream(s, s.workers[w].slots[i].op)
    ensures s.streams[s.workers[w].slots[i].op.stream].gate == 2 * s.workers[w].slots[i].op.seqNo
    ensures forall v, j {:trigger s.workers[v].slots[j]} ::
              (0 <= v < |s.workers| && 0 <= j < RING && SharesStream(s.workers[v].slots[j],
                  s.workers[w].slots[i].op.stream))
              ==> v == w && j == i
  {
    assert LinkAt(s, w, i);
    forall v, j | 0 <= v < |s.workers| && 0 <= j < RING && SharesStream(s.workers[v].slots[j],
        s.workers[w].slots[i].op.stream)
      ensures v == w && j == i
    {
      assert LinkAt(s, v, j);
    }
  }

  // The owner of a stream's descriptor changes it (and perhaps its own slot).
  ghost function OwnerStep(s: State, w: nat, wk': Worker, st: nat, gs': Stream): State
    requires w < |s.workers| && st < |s.streams|
  {
    SetStream(SetWorker(s, w, wk'), st, gs')
  }

  // The worker stands at slot i of a read it has found complete.
  ghost predicate FinishingAt(wk: Worker, i: nat) {
    wk.stage == Finishing && Ix(wk.pos) == i
  }

  // A read in flight requests its tail, gets some of it, or has its length recorded.
  ghost predicate OwnerChange(s: State, w: nat, i: nat, wk': Worker, gs': Stream)
    requires WellFormed(s)
  {
    && HasSlot(s, w, i) && Reading(s.workers[w].slots[i]) && KnownStream(s, s.workers[w].slots[i].op)
    && var wk, sl := s.workers[w], s.workers[w].slots[i];
    && var gs := s.streams[sl.op.stream];
    && gs' == gs.(descDst := gs'.descDst, descLen := gs'.descLen, bounceBuf := gs'.bounceBuf, ledger := gs'.ledger)
    && |wk'.slots| == RING && wk'.slots[i].op == sl.op
    && wk' == wk.(slots := wk.slots[i := wk'.slots[i]], stage := wk'.stage, free := wk'.free)
    && (wk'.stage == wk.stage || Ix(wk'.pos) == i)
    && Reading(wk'.slots[i]) && TailSlotIn(gs', wk', i)
    && (FinishingAt(wk', i)
        || (gs'.descLen == gs.descLen && wk'.slots[i].tail.Some? && !FinishingAt(wk, i)))
  }

  lemma OwnerStepTail(s: State, w: nat, i: nat, wk': Worker, gs': Stream)
    requires Inv(s) && TailInv(s) && OwnerChange(s, w, i, wk', gs')
    ensures TailInv(OwnerStep(s, w, wk', s.workers[w].slots[i].op.stream, gs'))
  {
    var st := s.workers[w].slots[i].op.stream;
    var s' := OwnerStep(s, w, wk', st, gs');
    OwnerAlone(s, w, i);
    forall t | 0 <= t < |s'.streams| ensures TailStream(s', t) {
      TailStreamKept(s, s', t);
    }
    forall v, j | 0 <= v < |s'.workers| && 0 <= j < RING ensures TailSlotAt(s', v, j) {
      assert TailSlotAt(s, v, j);
    }
  }

  lemma SubmitTailOwner(s: State, w: nat, t: Tail) returns (wk': Worker, gs': Stream)
    requires WellFormed(s) && RingInv(s) && SharedEnabled(s, SubmitTail(w, t))
    ensures OwnerChange(s, w, Ix(s.workers[w].pos), wk', gs')
    ensures TailSubmitted(s, w, t) == OwnerStep(s, w, wk', Current(s.workers[w]).op.stream, gs')
  {
    var wk := s.workers[w];
    var sl := Current(wk);
    assert RingOk(wk, MarkedAt(s, w));
    wk' := SetSlot(wk, Ix(wk.pos), sl.(todo := sl.todo - 1, bounce := OnDevice, tail := Some(t)))
           .(free := wk.free - 1);
    gs' := AskTail(s.streams[sl.op.stream], sl.op.seqNo, t);
  }

  lemma SubmitTailTail(s: State, w: nat, t: Tail)
    requires Inv(s) && TailInv(s) && SharedEnabled(s, SubmitTail(w, t))
    ensures TailInv(TailSubmitted(s, w, t))
  {
    var wk', gs' := SubmitTailOwner(s, w, t);
    OwnerStepTail(s, w, Ix(s.workers[w].pos), wk', gs');
  }

  // The device has written to the bounce buffer, all of the block or some of it.
  ghost function DmaWrote(s: State, w: nat, i: nat, landed: bool): Worker
    requires WellFormed(s) && HasSlot(s, w, i)
  {
    var sl := s.workers[w].slots[i];
    SetSlot(s.workers[w], i, if landed then sl.(bounce := Landed) else sl)
  }

  lemma DmaOwner(s: State, w: nat, i: nat, landed: bool, buf: seq<byte>)
    requires WellFormed(s) && RingInv(s) && TailSlots(s) && BouncePending(s, w, i)
    requires |buf| == |s.streams[s.workers[w].slots[i].op.stream].bounceBuf|
    requires landed ==> var t := s.workers[w].slots[i].tail;
             t.Some? && |t.value.data| <= |buf| && buf[..|t.value.data|] == t.value.data
    ensures OwnerChange(s, w, i, DmaWrote(s, w, i, landed),
            s.streams[s.workers[w].slots[i].op.stream].(bounceBuf := buf))
  {
    var wk := s.workers[w];
    assert RingOk(wk, MarkedAt(s, w));
    assert PhaseOk(wk, i);
    assert TailSlotAt(s, w, i);
  }

  lemma DmaTail(s: State, w: nat, i: nat, landed: bool, buf: seq<byte>)
    requires Inv(s) && TailInv(s) && BouncePending(s, w, i)
    requires |buf| == |s.streams[s.workers[w].slots[i].op.stream].bounceBuf|
    requires landed ==> var t := s.workers[w].slots[i].tail;
             t.Some? && |t.value.data| <= |buf| && buf[..|t.value.data|] == t.value.data
    ensures var sl := s.workers[w].slots[i];
            TailInv(OwnerStep(s, w, DmaWrote(s, w, i, landed),
                              sl.op.stream, s.streams[sl.op.stream].(bounceBuf := buf)))
  {
    DmaOwner(s, w, i, landed, buf);
    OwnerStepTail(s, w, i, DmaWrote(s, w, i, landed), s.streams[s.workers[w].slots[i].op.stream].(bounceBuf := buf));
  }

  lemma DmaPartTail(s: State, w: nat, i: nat, buf: seq<byte>)
    requires Inv(s) && TailInv(s) && SharedEnabled(s, DmaPart(w, i, buf))
    ensures TailInv(ApplyShared(s, DmaPart(w, i, buf)))
  {
    var sl := s.workers[w].slots[i];
    DmaTail(s, w, i, false, buf);
    assert SetSlot(s.workers[w], i, sl) == s.workers[w];
    assert SetWorker(s, w, s.workers[w]) == s;
  }

  lemma DmaLandTail(s: State, w: nat, i: nat)
    requires Inv(s) && TailInv(s) && SharedEnabled(s, DmaLand(w, i))
    ensures TailInv(TailLanded(s, w, i))
  {
    var sl := s.workers[w].slots[i];
    var data := sl.tail.value.data;
    var gs := s.streams[sl.op.stream];
    assert RingOk(s.workers[w], MarkedAt(s, w));
    assert PhaseOk(s.workers[w], i);
    assert TailSlotAt(s, w, i);
    DmaTail(s, w, i, true, data + gs.bounceBuf[|data|..]);
  }

  lemma VisitTail(s: State, w: nat, n: nat)
    requires Inv(s) && WindowOk(s) && TailInv(s) && SharedEnabled(s, Visit(w, n))
    ensures TailInv(VisitSlot(s, w, n))
  {
    VisitFacts(s, w);
    match Current(s.workers[w]).state
    case Free => AdvanceTail(s, w, false);
    case Pending => VisitPendingTail(s, w, n);
    case InFlight => VisitInFlightTail(s, w);
  }

  lemma AdvanceTail(s: State, w: nat, gated: bool)
    requires Inv(s) && TailInv(s) && HasWorker(s, w, Sweep)
    ensures TailInv(SetWorker(s, w, Advance(s.workers[w]).(busy := if gated then true else s.workers[w].busy)))
  {
    var s' := SetWorker(s, w, Advance(s.workers[w]).(busy := if gated then true else s.workers[w].busy));
    forall st | 0 <= st < |s'.streams| ensures TailStream(s', st) {
      TailStreamKept(s, s', st);
    }
    forall v, i | 0 <= v < |s'.workers| && 0 <= i < RING ensures TailSlotAt(s', v, i) {
      assert TailSlotAt(s, v, i);
    }
  }

  lemma VisitPendingTail(s: State, w: nat, n: nat)
    requires AtPending(s, w) && WindowOk(s) && TailInv(s) && Current(s.workers[w]).phase == Waiting
    requires KnownStream(s, Current(s.workers[w]).op)
    ensures TailInv(VisitPending(s, w, n))
  {
    var op := Current(s.workers[w]).op;
    if op.StreamOp? && !GateOpen(s.streams[op.stream], op.seqNo) {
      AdvanceTail(s, w, true);
    } else {
      DispatchTail(s, w, n, VisitPending(s, w, n));
    }
  }

  lemma DispatchTail(s: State, w: nat, n: nat, s': State)
    requires AtPending(s, w) && TailInv(s) && WellFormed(s')
    requires s'.workers == SetWorker(s, w, Dispatch(s.workers[w], n)).workers && |s'.streams| == |s.streams|
             && s'.lock == s.lock
    requires forall t :: 0 <= t < |s.streams| ==>
             s'.streams[t] == s.streams[t].(last := s'.streams[t].last, log := s'.streams[t].log)
    ensures TailInv(s')
  {
    forall st | 0 <= st < |s'.streams| ensures TailStream(s', st) {
      TailStreamKept(s, s', st);
    }
    forall v, i | 0 <= v < |s'.workers| && 0 <= i < RING ensures TailSlotAt(s', v, i) {
      assert TailSlotAt(s, v, i);
    }
  }

  // The worker finds a stream read complete and records the length of its tail.
  lemma CompleteOwner(s: State, w: nat)
    requires WellFormed(s) && RingInv(s) && TailSlots(s) && HasWorker(s, w, Sweep)
    requires Reading(Current(s.workers[w])) && KnownStream(s, Current(s.workers[w]).op)
    ensures var sl := Current(s.workers[w]);
            OwnerChange(s, w, Ix(s.workers[w].pos), s.workers[w].(stage := Finishing),
                        s.streams[sl.op.stream].(descLen := DescLen(sl)))
  {
    var wk := s.workers[w];
    assert wk.slots == wk.slots[Ix(wk.pos) := wk.slots[Ix(wk.pos)]];
    assert TailSlotAt(s, w, Ix(wk.pos));
  }

  lemma VisitInFlightTail(s: State, w: nat)
    requires Inv(s) && TailInv(s) && HasWorker(s, w, Sweep) && s.workers[w].pos < s.workers[w].seen
    requires Current(s.workers[w]).state == InFlight && Owing(Current(s.workers[w]))
             && KnownStream(s, Current(s.workers[w]).op)
    ensures TailInv(VisitInFlight(s, w))
  {
    var wk := s.workers[w];
    var sl := Current(wk);
    assert RingOk(wk, MarkedAt(s, w));
    assert PhaseOk(wk, Ix(wk.pos));
    if !Quiet(sl) {
      AdvanceTail(s, w, false);
    } else if sl.op.StreamOp? {
      CompleteOwner(s, w);
      OwnerStepTail(s, w, Ix(wk.pos), wk.(stage := Finishing), s.streams[sl.op.stream].(descLen := DescLen(sl)));
    } else {
      FinishAsyncTail(s, w);
    }
  }

  lemma FinishAsyncTail(s: State, w: nat)
    requires Inv(s) && TailInv(s) && HasWorker(s, w, Sweep) && Current(s.workers[w]).op.AsyncOp?
    ensures TailInv(SetWorker(s, w, s.workers[w].(stage := Finishing)))
  {
    var s' := SetWorker(s, w, s.workers[w].(stage := Finishing));
    forall st | 0 <= st < |s'.streams| ensures TailStream(s', st) {
      TailStreamKept(s, s', st);
    }
    forall v, i | 0 <= v < |s'.workers| && 0 <= i < RING ensures TailSlotAt(s', v, i) {
      assert TailSlotAt(s, v, i);
    }
  }

  // ---------- release: the descriptor is handed to the copy ----------

  lemma ReleaseTail(s: State, w: nat)
    requires Inv(s) && TailInv(s) && SharedEnabled(s, Release(w))
    ensures TailInv(ReleaseSlot(s, w))
  {
    var s' := ReleaseSlot(s, w);
    ReleaseSlotsTail(s, w);
    forall st | 0 <= st < |s'.streams| ensures TailStream(s', st) {
      if Current(s.workers[w]).op.StreamOp? && Current(s.workers[w]).op.stream == st {
        ReleaseStreamTail(s, w, st);
      } else {
        ReleaseOtherTail(s, w, st);
      }
    }
  }

  lemma ReleaseOtherTail(s: State, w: nat, st: nat)
    requires WellFormed(s) && HomeInv(s) && SharedEnabled(s, Release(w)) && st < |s.streams| && TailStream(s, st)
    requires !(Current(s.workers[w]).op.StreamOp? && Current(s.workers[w]).op.stream == st)
    ensures TailStream(ReleaseSlot(s, w), st)
  {
    TailStreamKept(s, ReleaseSlot(s, w), st);
  }

  lemma ReleaseSlotsTail(s: State, w: nat)
    requires Inv(s) && TailSlots(s) && SharedEnabled(s, Release(w))
    ensures TailSlots(ReleaseSlot(s, w))
  {
    var s' := ReleaseSlot(s, w);
    var wk := s.workers[w];
    assert RingOk(wk, MarkedAt(s, w));
    if Current(wk).op.StreamOp? { OwnerAlone(s, w, Ix(wk.pos)); }
    forall v, i | 0 <= v < |s'.workers| && 0 <= i < RING ensures TailSlotAt(s', v, i) {
      assert TailSlotAt(s, v, i);
      ReleaseSlotTail(s, w, v, i);
    }
  }

  lemma ReleaseSlotTail(s: State, w: nat, v: nat, i: nat)
    requires WellFormed(s) && SharedEnabled(s, Release(w)) && HasSlot(s, v, i) && TailSlotAt(s, v, i)
    requires Current(s.workers[w]).op.StreamOp? && SharesStream(s.workers[v].slots[i],
             Current(s.workers[w]).op.stream) ==>
               v == w && i == Ix(s.workers[w].pos)
    ensures TailSlotAt(ReleaseSlot(s, w), v, i)
  {
  }

  lemma ReleaseStreamTail(s: State, w: nat, st: nat)
    requires Inv(s) && SharedEnabled(s, Release(w)) && st < |s.streams| && TailStream(s, st)
    requires Current(s.workers[w]).op.StreamOp? && Current(s.workers[w]).op.stream == st
    ensures TailStream(ReleaseSlot(s, w), st)
  {
    var wk := s.workers[w];
    var sl := Current(wk);
    var q := sl.op.seqNo;
    var gs, s' := s.streams[st], ReleaseSlot(s, w);
    var gs' := s'.streams[st];
    ReleaseFacts(s, w, sl.op);
    assert LinkAt(s, w, Ix(wk.pos)) && HomeKind(s, st, q);
    forall p | Due(gs', p) ensures DueOk(s', st, p) {
      assert Due(gs, p);
      ReleaseDue(s, w, st, p);
    }
    forall p ensures HomeKind(s', st, p) {
      assert HomeKind(s, st, p);
      if p in gs.home { HomeKindKept(s, s', st, p); }
    }
    forall p ensures HeldKind(s', st, p) {
      assert HeldKind(s, st, p);
      assert forall r: nat :: Due(gs', r) ==> Due(gs, r);
    }
  }

  // The released read has its outcome now; later ones are in their slots.
  lemma ReleaseDue(s: State, w: nat, st: nat, p: nat)
    requires Inv(s) && SharedEnabled(s, Release(w)) && st < |s.streams| && DueOk(s, st, p)
    requires Current(s.workers[w]).op.StreamOp? && Current(s.workers[w]).op.stream == st
    requires Current(s.workers[w]).phase == Dispatched && s.streams[st].gate == 2 * Current(s.workers[w]).op.seqNo
    ensures DueOk(ReleaseSlot(s, w), st, p)
  {
    assert LinkAt(s, w, Ix(s.workers[w].pos));
    if p != Current(s.workers[w]).op.seqNo && s.streams[st].gate <= 2 * p {
      assert LivesAt(s, s.streams[st].home[p], st, p);
    }
  }

  // ---------- submission ----------

  lemma SlotsTail(s: State, s': State)
    requires WellFormed(s) && WellFormed(s') && TailSlots(s) && |s'.workers| == |s.workers|
             && |s'.streams| == |s.streams|
    requires forall w, i {:trigger s.workers[w].slots[i]} ::
             0 <= w < |s.workers| && 0 <= i < RING && Reading(s'.workers[w].slots[i]) ==>
               s'.workers[w].slots[i] == s.workers[w].slots[i]
    requires forall w :: 0 <= w < |s.workers| ==>
             s'.workers[w].stage == s.workers[w].stage && s'.workers[w].pos == s.workers[w].pos
    requires forall st :: 0 <= st < |s.streams| ==>
               && s'.streams[st].descDst == s.streams[st].descDst && s'.streams[st].descLen == s.streams[st].descLen
               && s'.streams[st].bounceBuf == s.streams[st].bounceBuf
    ensures TailSlots(s')
  {
    forall w, i | 0 <= w < |s'.workers| && 0 <= i < RING ensures TailSlotAt(s', w, i) {
      assert TailSlotAt(s, w, i);
    }
  }

  // The state after a claim, however it was called for.
  ghost predicate Claimed1(s: State, s': State, op: Op) {
    && WellFormed(s) && |s'.streams| == |s.streams|
    && s'.workers == Claim(s, op).workers && s'.lock == Claim(s, op).lock
    && forall st :: 0 <= st < |s.streams| && !(op.StreamOp? && op.stream == st) ==> s'.streams[st] == s.streams[st]
  }

  lemma ClaimTail(s: State, s': State, op: Op)
    requires Inv(s) && TailInv(s) && s.lock.Unlocked? && RingHasRoom(s.workers[Routed(s)]) && Claimed1(s, s', op)
    requires op.StreamOp? ==>
               && op.stream < |s.streams|
               && op.seqNo == s.streams[op.stream].nextSeq + 1
               && s'.streams[op.stream] == TakeNumber(s.streams[op.stream], op.write)
    ensures TailInv(s')
  {
    var w := Routed(s);
    GatePreserve.ClaimedSlotIsDead(s, w);
    forall st | 0 <= st < |s'.streams| ensures TailStream(s', st) {
      if op.StreamOp? && op.stream == st {
        ClaimStreamTail(s, s', st, op.write);
      } else {
        TailStreamKept(s, s', st);
      }
    }
    ClaimSlotsTail(s, s', op);
  }

  lemma ClaimSlotsTail(s: State, s': State, op: Op)
    requires WellFormed(s) && TailSlots(s) && Claimed1(s, s', op)
    requires s.workers[Routed(s)].slots[Ix(s.workers[Routed(s)].head)].state == Free
    requires op.StreamOp? && op.stream < |s.streams| ==>
             s'.streams[op.stream] == TakeNumber(s.streams[op.stream], op.write)
    ensures TailSlots(s')
  {
    SlotsTail(s, s');
  }

  // Neither the round-robin cursor nor the stop flag matters to the copies.
  lemma CursorTail(s: State, s': State)
    requires Inv(s) && TailInv(s) && s' == s.(rr := s'.rr, stop := s'.stop)
    ensures TailInv(s')
  {
    forall st | 0 <= st < |s'.streams| ensures TailStream(s', st) {
      TailStreamKept(s, s', st);
    }
    SlotsTail(s, s');
  }

  lemma ClaimDue(s: State, s': State, st: nat, write: bool, q: nat)
    requires WellFormed(s) && HomeInv(s) && SameOps(s, s') && |s'.streams| == |s.streams| && st < |s.streams|
    requires StreamOk(s.streams[st]) && DueOk(s, st, q)
    requires s'.streams[st] == TakeNumber(s.streams[st], write)
    ensures DueOk(s', st, q)
  {
    var gs := s.streams[st];
    if gs.gate <= 2 * q { assert LivesAt(s, s.streams[st].home[q], st, q); }
  }

  lemma ClaimStreamTail(s: State, s': State, st: nat, write: bool)
    requires WellFormed(s) && HomeInv(s) && SameOps(s, s') && |s'.streams| == |s.streams| && st < |s.streams|
             && TailStream(s, st)
    requires StreamOk(s.streams[st])
    requires s'.streams[st] == TakeNumber(s.streams[st], write)
    requires s'.lock.Locked? && s'.lock.op == StreamOp(st, s.streams[st].nextSeq + 1, write)
    ensures TailStream(s', st)
  {
    var gs, gs' := s.streams[st], s'.streams[st];
    forall q: nat | Due(gs', q) ensures DueOk(s', st, q) && q <= gs.nextSeq {
      assert Due(gs, q);
      assert DueOk(s, st, q);
      ClaimDue(s, s', st, write, q);
    }
    forall q ensures HomeKind(s', st, q) {
      assert HomeKind(s, st, q);
      if q in gs.home { HomeKindKept(s, s', st, q); }
    }
    forall q ensures HeldKind(s', st, q) {
    }
  }

  // Gate commands of the held op go behind every copy of earlier reads.
  lemma AppendOrder(gs: Stream, cmd: Cmd, q: nat)
    requires CopyOrder(gs.queue) && (cmd.User? || (GateCmd(cmd) && Low(cmd) >= 2 * q))
    requires GateCmd(cmd) ==> forall p: nat :: Copy(p) in gs.queue ==> p < q
    ensures CopyOrder(gs.queue + [cmd])
    ensures forall p :: Copy(p) in gs.queue + [cmd] <==> Copy(p) in gs.queue
  {
    var queue' := gs.queue + [cmd];
    forall a, b | 0 <= a < b < |queue'|
      ensures MayPrecede(queue'[a], queue'[b])
    {
      assert queue'[a] == gs.queue[a];
      if b < |gs.queue| { assert queue'[b] == gs.queue[b]; }
      else if queue'[a].Copy? && GateCmd(cmd) { assert Copy(queue'[a].q) in gs.queue; }
    }
  }

  lemma EnqueueTail(s: State, ok: bool, cmd: Cmd, next: LockStage)
    requires Inv(s) && TailInv(s) && s.lock.Locked? && s.lock.op.StreamOp? && s.lock.op.stream < |s.streams|
    requires GateCmd(cmd) && Low(cmd) >= 2 * s.lock.op.seqNo
    ensures TailInv(Enqueue(s, ok, cmd, next))
  {
    var s' := Enqueue(s, ok, cmd, next);
    var st0 := s.lock.op.stream;
    assert HeldSeq(s, st0, s.lock.op.seqNo);
    assert TailStream(s, st0);
    assert HeldKind(s, st0, s.lock.op.seqNo);
    assert forall p :: Copy(p) in s.streams[st0].queue ==> Due(s.streams[st0], p);
    AppendOrder(s.streams[st0], cmd, s.lock.op.seqNo);
    forall st | 0 <= st < |s'.streams| ensures TailStream(s', st) {
      if st == st0 && ok {
        AppendedTail(s, s', st);
      } else {
        TailStreamKept(s, s', st);
      }
    }
    SlotsTail(s, s');
  }

  // A command that is no copy was added to the queue.
  lemma AppendedTail(s: State, s': State, st: nat)
    requires WellFormed(s) && HomeInv(s) && SameOps(s, s') && |s'.streams| == |s.streams| && st < |s.streams|
             && TailStream(s, st)
    requires s'.streams[st] == s.streams[st].(queue := s'.streams[st].queue)
    requires CopyOrder(s'.streams[st].queue)
    requires forall p :: Copy(p) in s'.streams[st].queue <==> Copy(p) in s.streams[st].queue
    requires forall q :: HeldSeq(s', st, q) ==> HeldSeq(s, st, q) && s'.lock.op == s.lock.op
    ensures TailStream(s', st)
  {
    assert forall q :: Due(s'.streams[st], q) <==> Due(s.streams[st], q);
    forall q | Due(s'.streams[st], q) ensures DueOk(s', st, q) {
      DueKept(s, s', st, q);
    }
    forall q ensures HomeKind(s', st, q) {
      assert HomeKind(s, st, q);
      if q in s.streams[st].home { HomeKindKept(s, s', st, q); }
    }
    forall q ensures HeldKind(s', st, q) {
      assert HeldKind(s, st, q);
    }
  }

  lemma MarkStreamsTail(s: State)
    requires Inv(s) && TailStreams(s) && HoldsOp(s, Queued)
    requires !Owing(s.workers[s.lock.w].slots[Ix(s.workers[s.lock.w].head)])
    ensures TailStreams(Mark(s))
  {
    var s' := Mark(s);
    forall st | 0 <= st < |s'.streams| ensures TailStream(s', st) {
      MarkStreamTail(s, st);
    }
  }

  lemma MarkStreamTail(s: State, st: nat)
    requires WellFormed(s) && HomeInv(s) && LockInv(s) && HoldsOp(s, Queued) && st < |s.streams| && TailStream(s, st)
    requires !Owing(s.workers[s.lock.w].slots[Ix(s.workers[s.lock.w].head)])
    ensures TailStream(Mark(s), st)
  {
    var s' := Mark(s);
    forall q | q in s'.streams[st].home && q !in s.streams[st].home ensures HomeKind(s', st, q) {
      assert HeldKind(s, st, q);
    }
    TailStreamKept(s, s', st);
  }

  lemma MarkTail(s: State)
    requires Inv(s) && TailInv(s) && HoldsOp(s, Queued)
    ensures TailInv(Mark(s))
  {
    HeldSlotDead(s);
    MarkStreamsTail(s);
    MarkSlotsTail(s);
  }

  lemma MarkSlotsTail(s: State)
    requires WellFormed(s) && TailSlots(s) && LockInv(s) && HoldsOp(s, Queued)
    ensures TailSlots(Mark(s))
  {
    SlotsTail(s, Mark(s));
  }

  lemma PublishTail(s: State)
    requires Inv(s) && TailInv(s) && HoldsOp(s, Marked)
    ensures TailInv(Publish(s))
  {
    var s' := Publish(s);
    forall st | 0 <= st < |s'.streams| ensures TailStream(s', st) {
      if s.lock.op.StreamOp? && s.lock.op.stream == st && !s.lock.op.write && !s.alignedOnly {
        PublishStreamTail(s, st);
      } else {
        PublishOtherTail(s, st);
      }
    }
    PublishSlotsTail(s);
  }

  lemma PublishOtherTail(s: State, st: nat)
    requires Inv(s) && HoldsOp(s, Marked) && st < |s.streams| && TailStream(s, st)
    requires !(s.lock.op.StreamOp? && s.lock.op.stream == st && !s.lock.op.write && !s.alignedOnly)
    ensures TailStream(Publish(s), st)
  {
    TailStreamKept(s, Publish(s), st);
  }

  lemma PublishSlotsTail(s: State)
    requires WellFormed(s) && TailSlots(s) && HoldsOp(s, Marked)
    ensures TailSlots(Publish(s))
  {
    SlotsTail(s, Publish(s));
  }

  lemma OweCopies(gs: Stream, q: nat)
    requires CopiesOk(gs) && OutcomeOk(gs) && gs.gate <= 2 * q && forall p: nat :: Due(gs, p) ==> p < q
    ensures CopiesOk(gs.(owed := gs.owed + {q}))
  {
    assert q !in gs.outcome && !Due(gs, q);
  }

  // From now on the thread owes the read's copy.
  lemma PublishStreamTail(s: State, st: nat)
    requires Inv(s) && HoldsOp(s, Marked) && st < |s.streams| && TailStream(s, st)
    requires s.lock.op.StreamOp? && s.lock.op.stream == st && !s.lock.op.write && !s.alignedOnly
    ensures TailStream(Publish(s), st)
  {
    var s' := Publish(s);
    var q0 := s.lock.op.seqNo;
    assert HeldSeq(s, st, q0);
    assert RingOk(s.workers[s.lock.w], true);
    assert LinkAt(s, s.lock.w, Ix(s.workers[s.lock.w].head));
    assert HeldKind(s, st, q0);
    OweCopies(s.streams[st], q0);
    forall q | Due(s'.streams[st], q) ensures DueOk(s', st, q) {
      if q != q0 {
        assert Due(s.streams[st], q);
        DueKept(s, s', st, q);
      }
    }
    forall q ensures HomeKind(s', st, q) {
      assert HomeKind(s, st, q);
      if q in s.streams[st].home { HomeKindKept(s, s', st, q); }
    }
  }

  lemma EnqCopyTail(s: State, st: nat, q: nat, ok: bool)
    requires Inv(s) && TailInv(s) && SharedEnabled(s, EnqCopy(st, q, ok))
    ensures TailInv(ApplyShared(s, EnqCopy(st, q, ok)))
  {
    var s' := ApplyShared(s, EnqCopy(st, q, ok));
    forall t | 0 <= t < |s'.streams| ensures TailStream(s', t) {
      if t == st {
        CopyQueued(s, st, q, ok);
      } else {
        TailStreamKept(s, s', t);
      }
    }
    SlotsTail(s, s');
  }

  lemma CopyAppendOrder(gs: Stream, q: nat)
    requires CopyOrder(gs.queue)
    ensures CopyOrder(gs.queue + [Copy(q)])
  {
    var queue' := gs.queue + [Copy(q)];
    forall a, b | 0 <= a < b < |queue'|
      ensures MayPrecede(queue'[a], queue'[b])
    {
      assert queue'[a] == gs.queue[a];
      if b < |gs.queue| { assert queue'[b] == gs.queue[b]; }
    }
  }

  lemma CopyQueued(s: State, st: nat, q: nat, ok: bool)
    requires WellFormed(s) && HomeInv(s) && StreamInv(s) && LockInv(s) && st < |s.streams|
             && q in s.streams[st].owed && TailStream(s, st)
    ensures TailStream(SetStream(s, st, PayCopy(s.streams[st], q, ok)), st)
  {
    var gs := s.streams[st];
    var gs' := PayCopy(gs, q, ok);
    var s' := SetStream(s, st, gs');
    CopyAppendOrder(gs, q);
    forall p | Due(gs', p) ensures Due(gs, p) && DueOk(s', st, p) {
      CopiesBefore(gs, q, p);
      DueKept(s, s', st, p);
    }
    forall p ensures HomeKind(s', st, p) {
      assert HomeKind(s, st, p);
    }
    forall p ensures HeldKind(s', st, p) {
      assert HeldKind(s, st, p);
    }
  }

  lemma CopiesBefore(gs: Stream, q: nat, p: nat)
    requires q in gs.owed && (p in gs.owed - {q} || Copy(p) in gs.queue || Copy(p) in gs.queue + [Copy(q)])
    ensures Due(gs, p)
  {
    if Copy(p) in gs.queue + [Copy(q)] && p != q {
      var j :| 0 <= j < |gs.queue + [Copy(q)]| && (gs.queue + [Copy(q)])[j] == Copy(p);
      assert gs.queue[j] == Copy(p);
    }
  }

  // ---------- the streams ----------

  lemma AfterFrontOrder(gs: Stream)
    requires CopyOrder(gs.queue) && gs.queue != []
    ensures CopyOrder(AfterFront(gs).queue)
  {
    var queue' := AfterFront(gs).queue;
    var d := if gs.queue[0].HostFn? then 0 else 1;
    forall a, b | 0 <= a < b < |queue'|
      ensures MayPrecede(queue'[a], queue'[b])
    {
      assert queue'[b] == gs.queue[b + d];
      assert MayPrecede(gs.queue[a + d], gs.queue[b + d]);
      if a > 0 || d == 1 { assert queue'[a] == gs.queue[a + d]; }
    }
  }

  lemma AfterFrontCopies(gs: Stream, p: nat)
    requires gs.queue != [] && Copy(p) in AfterFront(gs).queue
    ensures Copy(p) in gs.queue
  {
    var queue' := AfterFront(gs).queue;
    var j :| 0 <= j < |queue'| && queue'[j] == Copy(p);
    assert gs.queue[if gs.queue[0].HostFn? then j else j + 1] == Copy(p);
  }

  ghost predicate Arrives(gs: Stream) {
    gs.queue != [] && (gs.queue[0].WriteGate? || gs.queue[0].HostFn?)
  }

  // The next arrival of a stream is not beyond an op that waits for its own.
  lemma WaitIsAhead(gs: Stream, q: nat, home: Place)
    requires GateSorted(gs.queue) && Arrives(gs) && HasWait(gs, q, home)
    ensures gs.queue[0].q <= q
  {
    var j :| 0 <= j < |gs.queue| && (gs.queue[j] == WaitGate(q) || gs.queue[j] == Park(q)
        || gs.queue[j] == HostFn(home.w, home.i, q));
    if j > 0 { assert Val(gs.queue[0]) < Low(gs.queue[j]); }
  }

  lemma ArrivalNotBeyond(s: State, st: nat, q: nat)
    requires Inv(s) && st < |s.streams| && Arrives(s.streams[st])
    requires 1 <= q <= s.streams[st].nextSeq && q !in s.streams[st].burned && s.streams[st].gate <= 2 * q
    ensures s.streams[st].queue[0].q <= q
  {
    var gs := s.streams[st];
    assert Covered(s, st, q);
    if q in gs.home {
      assert HomeSeqOk(gs, q);
      WaitIsAhead(gs, q, gs.home[q]);
    } else {
      HeldNotBeyond(gs, q, s.lock.at, Place(s.lock.w, Ix(s.workers[s.lock.w].head)));
    }
  }

  lemma HeldNotBeyond(gs: Stream, q: nat, at: LockStage, home: Place)
    requires GateSorted(gs.queue) && Arrives(gs) && HeldOk(gs, q, at, home) && q !in gs.home
    ensures gs.queue[0].q <= q
  {
    assert GateCmd(gs.queue[0]);
    if at == Queued { WaitIsAhead(gs, q, home); }
  }

  lemma NoWaitBehindCopy(gs: Stream, q: nat, home: Place)
    requires CopyOrder(gs.queue) && gs.queue != [] && gs.queue[0] == Copy(q)
    ensures !HasWait(gs, q, home)
  {
    forall j | 0 <= j < |gs.queue|
      ensures gs.queue[j] != WaitGate(q) && gs.queue[j] != Park(q) && gs.queue[j] != HostFn(home.w, home.i, q)
    {
      if j > 0 { assert MayPrecede(gs.queue[0], gs.queue[j]); }
    }
  }

  // The kernel runs behind its read's gate.
  lemma CopyBehindGate(s: State, st: nat)
    requires WellFormed(s) && st < |s.streams| && StreamOk(s.streams[st]) && TailStream(s, st)
    requires s.streams[st].queue != [] && s.streams[st].queue[0].Copy?
    ensures var q := s.streams[st].queue[0].q; s.streams[st].gate > 2 * q && DueOk(s, st, q)
  {
    var gs := s.streams[st];
    var q := gs.queue[0].q;
    assert gs.queue[0] == Copy(q);
    assert Due(gs, q);
    assert DueOk(s, st, q);
    assert HomeSeqOk(gs, q);
    if gs.gate <= 2 * q { NoWaitBehindCopy(gs, q, gs.home[q]); }
  }

  lemma FrontCopies(s: State, st: nat)
    requires WellFormed(s) && SharedEnabled(s, GpuStep(st)) && StreamOk(s.streams[st]) && TailStream(s, st)
    requires RunFront(s, st).queue == AfterFront(s.streams[st]).queue
    ensures CopiesOk(RunFront(s, st))
  {
    var gs := s.streams[st];
    if gs.queue[0].Copy? { CopyBehindGate(s, st); }
    forall q | q in gs.owed ensures Copy(q) !in AfterFront(gs).queue {
      if Copy(q) in AfterFront(gs).queue { AfterFrontCopies(gs, q); }
    }
  }

  lemma GpuDue(s: State, st: nat, q: nat)
    requires Inv(s) && WindowOk(s) && SharedEnabled(s, GpuStep(st)) && TailStream(s, st) && Due(RunFront(s, st), q)
    ensures Due(s.streams[st], q) && DueOk(SetStream(s, st, RunFront(s, st)), st, q)
  {
    var gs := s.streams[st];
    RunFrontIs(s, st);
    FrontReadyIsDue(s, st);
    FrontCmds(gs);
    assert Due(AfterFront(gs), q);
    if q !in gs.owed { AfterFrontCopies(gs, q); }
    assert Due(gs, q);
    assert DueOk(s, st, q);
    assert HomeSeqOk(gs, q);
    if Arrives(gs) && gs.gate <= 2 * q { ArrivalNotBeyond(s, st, q); }
  }

  lemma GpuStreamTail(s: State, st: nat)
    requires Inv(s) && WindowOk(s) && SharedEnabled(s, GpuStep(st)) && TailStream(s, st)
    ensures TailStream(SetStream(s, st, RunFront(s, st)), st)
  {
    var gs, gs' := s.streams[st], RunFront(s, st);
    var s' := SetStream(s, st, gs');
    forall q: nat | Due(gs', q) ensures Due(gs, q) && DueOk(s', st, q) {
      GpuDue(s, st, q);
    }
    RunFrontIs(s, st);
    FrontReadyIsDue(s, st);
    FrontCmds(gs);
    AfterFrontOrder(gs);
    FrontCopies(s, st);
    forall q ensures HomeKind(s', st, q) {
      assert HomeKind(s, st, q);
      if q in gs.home { HomeKindKept(s, s', st, q); }
    }
    forall q ensures HeldKind(s', st, q) {
      assert HeldKind(s, st, q);
    }
  }

  lemma GpuTail(s: State, st: nat)
    requires Inv(s) && WindowOk(s) && TailInv(s) && SharedEnabled(s, GpuStep(st))
    ensures TailInv(SetStream(s, st, RunFront(s, st)))
  {
    var s' := SetStream(s, st, RunFront(s, st));
    forall t | 0 <= t < |s'.streams| ensures TailStream(s', t) {
      if t == st { GpuStreamTail(s, st); } else { TailStreamKept(s, s', t); }
    }
    RunFrontIs(s, st);
    SlotsTail(s, s');
  }

  lemma EnqUserTail(s: State, st: nat)
    requires Inv(s) && TailInv(s) && st < |s.streams|
    ensures TailInv(SetStream(s, st, s.streams[st].(queue := s.streams[st].queue + [User])))
  {
    var s' := SetStream(s, st, s.streams[st].(queue := s.streams[st].queue + [User]));
    assert TailStream(s, st);
    AppendOrder(s.streams[st], User, 0);
    forall t | 0 <= t < |s'.streams| ensures TailStream(s', t) {
      if t == st { AppendedTail(s, s', t); } else { TailStreamKept(s, s', t); }
    }
    SlotsTail(s, s');
  }

  // ---------- every step ----------

  lemma StreamClaimTail(s: State, st: nat, write: bool)
    requires Inv(s) && TailInv(s) && SharedEnabled(s, ClaimStream(st, write))
    ensures TailInv(ApplyShared(s, ClaimStream(st, write)))
  {
    ClaimTail(s, ApplyShared(s, ClaimStream(st, write)), StreamOp(st, s.streams[st].nextSeq + 1, write));
  }

  lemma SubmitStepTail(s: State, step: Step)
    requires Inv(s) && TailInv(s) && !IsLocal(step) && SharedEnabled(s, step)
    requires step.ClaimStream? || step.ClaimAsync? || step.ClaimFull?
    ensures TailInv(ApplyShared(s, step))
  {
    match step
    case ClaimStream(st, write) => StreamClaimTail(s, st, write);
    case ClaimAsync(write) => ClaimTail(s, ApplyShared(s, step), AsyncOp(s.nextFuture, write));
    case ClaimFull => CursorTail(s, s.(rr := s.rr + 1));
  }

  lemma EnqueueStepTail(s: State, step: Step)
    requires Inv(s) && TailInv(s) && (step.EnqWrite? || step.EnqWait? || step.EnqHost?) && SharedEnabled(s, step)
    ensures TailInv(ApplyShared(s, step))
  {
    var q := s.lock.op.seqNo;
    match step
    case EnqWrite(ok) => EnqueueTail(s, ok, WriteGate(q), Written);
    case EnqWait(ok) => EnqueueTail(s, ok, WaitGate(q), Queued);
    case EnqHost(ok) => EnqueueTail(s, ok, HostFn(s.lock.w, Ix(s.workers[s.lock.w].head), q), Queued);
  }

  lemma StepTail(s: State, step: Step)
    requires Inv(s) && WindowOk(s) && TailInv(s) && Enabled(s, step)
    ensures TailInv(Apply(s, step))
  {
    if IsLocal(step) {
      LocalTail(s, step);
    } else if step.EnqWrite? || step.EnqWait? || step.EnqHost? {
      EnqueueStepTail(s, step);
    } else if step.ClaimStream? || step.ClaimAsync? || step.ClaimFull? {
      SubmitStepTail(s, step);
    } else {
      OtherStepTail(s, step);
    }
  }

  lemma OtherStepTail(s: State, step: Step)
    requires Inv(s) && WindowOk(s) && TailInv(s) && !IsLocal(step) && SharedEnabled(s, step)
    requires !(step.EnqWrite? || step.EnqWait? || step.EnqHost? || step.ClaimStream? || step.ClaimAsync?
             || step.ClaimFull?)
    ensures TailInv(ApplyShared(s, step))
  {
    match step
    case MarkPending => MarkTail(s);
    case PublishHead => PublishTail(s);
    case EnqCopy(st, q, ok) => EnqCopyTail(s, st, q, ok);
    case EnqUser(st) => EnqUserTail(s, st);
    case GpuStep(st) => GpuTail(s, st);
    case Visit(w, n) => VisitTail(s, w, n);
    case SubmitTail(w, t) => SubmitTailTail(s, w, t);
    case DmaPart(w, i, buf) => DmaPartTail(s, w, i, buf);
    case DmaLand(w, i) => DmaLandTail(s, w, i);
    case Release(w) => ReleaseTail(s, w);
    case StopDriver => CursorTail(s, s.(stop := true));
  }
}
