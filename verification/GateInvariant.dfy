/**
  The inductive invariant of the gate protocol. Rings, streams and the lock each have a
  local invariant; a published op and its stream know each other through the history
  map home, which makes "two ops of a stream never share a sequence number" a function.
 */
module GateInvariant {
  import opened Words
  import opened GateModel

  ghost predicate Owing(sl: Slot) {
    sl.phase == Waiting || sl.phase == Dispatched
  }

  ghost predicate Quiet(sl: Slot) {
    sl.out == 0 && sl.bounce != OnDevice && sl.bounce != Landed
  }

  ghost predicate Active(wk: Worker) {
    wk.stage == Starting || wk.stage == Writing || wk.stage == Finishing || wk.stage == Freeing
  }

  ghost predicate CurrentOk(wk: Worker)
    requires |wk.slots| == RING
  {
    var sl := Current(wk);
    match wk.stage
    case Starting => sl.state == InFlight && sl.phase == Dispatched && !sl.op.write
    case Writing => sl.state == Pending && sl.phase == Dispatched && sl.op.write
    case Finishing => sl.state != Free && sl.phase == Dispatched && (sl.state == InFlight ==> Quiet(sl))
    case Freeing => sl.state != Free && sl.phase == Released && (sl.state == InFlight ==> Quiet(sl))
    case Decide => !wk.busy ==> wk.tail == wk.seen
    case Exited => wk.tail == wk.seen
    case _ => true
  }

  ghost predicate PosOk(wk: Worker) {
    && |wk.slots| == RING
    && wk.tail <= wk.seen <= wk.head
    && ((wk.stage == Sweep || Active(wk)) ==> wk.tail <= wk.pos <= wk.seen)
    && (Active(wk) ==> wk.pos < wk.seen)
    && CurrentOk(wk)
  }

  // Only a stream read with a tail has a block on its way to the stream's bounce buffer.
  ghost predicate BounceKnown(sl: Slot) {
    sl.bounce == OnDevice || sl.bounce == Landed ==> sl.tail.Some? && sl.op.StreamOp?
  }

  // State and phase of a slot agree, except where the worker stands between two stores.
  ghost predicate PhaseOk(wk: Worker, i: nat)
    requires i < |wk.slots|
  {
    var sl := wk.slots[i];
    && (sl.state == Free <==> sl.phase == Idle)
    && (sl.phase == Waiting ==> sl.state == Pending)
    && (sl.phase == Released ==> wk.stage == Freeing && Ix(wk.pos) == i)
    && (sl.state == Pending && sl.phase != Waiting ==>
          Active(wk) && Ix(wk.pos) == i && sl.op.write)
    && (sl.state == InFlight ==> sl.phase != Waiting && !sl.op.write && BounceKnown(sl))
  }

  // The ring: at most RING live positions, everything outside [tail, head) FREE, and
  // everything the worker has not yet seen still PENDING. With the lock in stage Marked
  // the slot at head is already PENDING but not yet published.
  ghost predicate RingOk(wk: Worker, marked: bool) {
    && PosOk(wk)
    && wk.head <= wk.tail + RING
    && (marked ==> wk.head < wk.tail + RING && wk.slots[Ix(wk.head)].phase == Waiting)
    && (forall p :: wk.head + (if marked then 1 else 0) <= p < wk.tail + RING ==> wk.slots[Ix(p)].state == Free)
    && (forall p :: wk.seen <= p < wk.head ==> wk.slots[Ix(p)].phase == Waiting)
    && (forall i :: 0 <= i < RING ==> PhaseOk(wk, i))
  }

  ghost predicate MarkedAt(s: State, w: nat) {
    s.lock.Locked? && s.lock.w == w && s.lock.at == Marked
  }

  ghost predicate RingInv(s: State)
    requires WellFormed(s)
  {
    forall w :: 0 <= w < |s.workers| ==> RingOk(s.workers[w], MarkedAt(s, w))
  }

  ghost predicate GateCmd(c: Cmd) {
    !c.User? && !c.Copy?
  }

  // The gate value a command stands for; a host callback stands for 2q and then 2q + 1.
  function Val(c: Cmd): nat {
    match c
    case WriteGate(q) => 2 * q
    case HostFn(_, _, q) => 2 * q + 1
    case WaitGate(q) => 2 * q + 1
    case Park(q) => 2 * q + 1
    case _ => 0
  }

  function Low(c: Cmd): nat {
    if c.HostFn? then 2 * c.q else Val(c)
  }

  ghost predicate GateSorted(queue: seq<Cmd>) {
    forall a, b :: 0 <= a < b < |queue| && GateCmd(queue[a]) && GateCmd(queue[b]) ==> Val(queue[a]) < Low(queue[b])
  }

  ghost predicate CmdOk(gs: Stream, c: Cmd) {
    match c
    case WriteGate(q) => 1 <= q <= gs.nextSeq && gs.gate < 2 * q
    case HostFn(_, _, q) => 1 <= q <= gs.nextSeq && gs.gate < 2 * q && q !in gs.burned
    case WaitGate(q) => 1 <= q <= gs.nextSeq && gs.gate <= 2 * q + 1
        && (gs.gate >= 2 * q || WriteGate(q) in gs.queue) && q !in gs.burned
    case Park(q) => 1 <= q <= gs.nextSeq && 2 * q <= gs.gate <= 2 * q + 1 && q !in gs.burned
    case _ => true
  }

  // The stream is still to be parked on op q.
  ghost predicate HasWait(gs: Stream, q: nat, home: Place) {
    WaitGate(q) in gs.queue || Park(q) in gs.queue || HostFn(home.w, home.i, q) in gs.queue
  }

  ghost predicate HomeSeqOk(gs: Stream, q: nat)
    requires q in gs.home
  {
    && 1 <= q <= gs.nextSeq
    && q !in gs.burned
    && (gs.gate <= 2 * q ==> HasWait(gs, q, gs.home[q]))
  }

  ghost predicate LogOk(gs: Stream) {
    && (gs.log == [] ==> gs.last == 0)
    && (gs.log != [] ==> gs.last == gs.log[|gs.log| - 1])
    && (forall a, b :: 0 <= a < b < |gs.log| ==> gs.log[a] < gs.log[b])
  }

  ghost predicate StreamOk(gs: Stream) {
    && GateSorted(gs.queue)
    && (forall j :: 0 <= j < |gs.queue| ==> CmdOk(gs, gs.queue[j]))
    && gs.gate <= 2 * gs.nextSeq + 1
    && 2 * gs.last <= gs.gate
    && (forall q :: q in gs.home ==> HomeSeqOk(gs, q))
    && (forall q :: q in gs.burned ==> 1 <= q <= gs.nextSeq)
    && LogOk(gs)
  }

  ghost predicate StreamInv(s: State) {
    forall st :: 0 <= st < |s.streams| ==> StreamOk(s.streams[st])
  }

  ghost predicate LinkOk(gs: Stream, home: Place, sl: Slot)
    requires sl.op.StreamOp?
  {
    var q := sl.op.seqNo;
    && q in gs.home && gs.home[q] == home
    && gs.gate <= 2 * q
    && (sl.phase == Dispatched ==> gs.gate == 2 * q && gs.last == q)
    && (sl.phase == Waiting ==> gs.last < q)
  }

  ghost predicate LinkAt(s: State, w: nat, i: nat)
    requires WellFormed(s) && HasSlot(s, w, i)
  {
    var sl := s.workers[w].slots[i];
    Owing(sl) ==>
      match sl.op
      case StreamOp(st, _, _) => st < |s.streams| && LinkOk(s.streams[st], Place(w, i), sl)
      case AsyncOp(f, _) => f in s.futureHome && s.futureHome[f] == Place(w, i) && f !in s.doneFutures
  }

  // Every op that still owes its release is known to its stream (or future) under its slot.
  ghost predicate LinkInv(s: State)
    requires WellFormed(s)
  {
    forall w, i {:trigger s.workers[w].slots[i]} :: 0 <= w < |s.workers| && 0 <= i < RING ==> LinkAt(s, w, i)
  }

  ghost predicate LivesAt(s: State, pl: Place, st: nat, q: nat)
    requires WellFormed(s)
  {
    && HasSlot(s, pl.w, pl.i)
    && var sl := s.workers[pl.w].slots[pl.i];
    && Owing(sl) && sl.op.StreamOp? && sl.op.stream == st && sl.op.seqNo == q
  }

  // Every published op whose gate has not passed is still in its slot.
  ghost predicate HomeInv(s: State)
    requires WellFormed(s)
  {
    forall st, q {:trigger s.streams[st].home[q]} ::
      0 <= st < |s.streams| && q in s.streams[st].home && s.streams[st].gate <= 2 * q ==>
      LivesAt(s, s.streams[st].home[q], st, q)
  }

  ghost predicate HeldSeq(s: State, st: nat, q: nat) {
    s.lock.Locked? && s.lock.op.StreamOp? && s.lock.op.stream == st && s.lock.op.seqNo == q
  }

  // The slot a queued host callback will read still holds the op it was launched for.
  ghost predicate HostOk(s: State, st: nat, w: nat, i: nat, q: nat)
    requires WellFormed(s) && st < |s.streams|
  {
    && HasSlot(s, w, i)
    && var sl := s.workers[w].slots[i];
    && sl.op.StreamOp? && sl.op.stream == st && sl.op.seqNo == q
    && ((q in s.streams[st].home && s.streams[st].home[q] == Place(w, i))
        || (HeldSeq(s, st, q) && s.lock.at == Queued && s.lock.w == w && i == Ix(s.workers[w].head)))
  }

  ghost predicate HostInv(s: State)
    requires WellFormed(s)
  {
    forall st, j {:trigger s.streams[st].queue[j]} ::
      0 <= st < |s.streams| && 0 <= j < |s.streams[st].queue| && s.streams[st].queue[j].HostFn? ==>
      HostOk(s, st, s.streams[st].queue[j].w, s.streams[st].queue[j].i, s.streams[st].queue[j].q)
  }

  // What the stream knows of the op whose submission holds the lock.
  ghost predicate HeldOk(gs: Stream, q: nat, at: LockStage, home: Place) {
    && q == gs.nextSeq
    && (at != Marked ==> gs.gate <= 2 * q && gs.last < q && q !in gs.home && q !in gs.burned)
    && match at
       case Claimed => gs.gate < 2 * q && forall j :: 0 <= j < |gs.queue| && GateCmd(gs.queue[j]) ==>
           Val(gs.queue[j]) < 2 * q
       case Written => (gs.gate >= 2 * q || WriteGate(q) in gs.queue)
                       && forall j :: 0 <= j < |gs.queue| && GateCmd(gs.queue[j]) ==> Val(gs.queue[j]) <= 2 * q
       case Queued => HasWait(gs, q, home)
       case Marked => q in gs.home && gs.home[q] == home
  }

  ghost predicate LockInv(s: State)
    requires WellFormed(s)
  {
    s.lock.Locked? ==>
      && s.lock.w < |s.workers|
      && var wk := s.workers[s.lock.w];
      && var i := Ix(wk.head);
      && wk.head < wk.tail + RING
      && wk.slots[i].op == s.lock.op
      && match s.lock.op
         case StreamOp(st, q, _) =>
           st < |s.streams| && q >= 1 && HeldOk(s.streams[st], q, s.lock.at, Place(s.lock.w, i))
         case AsyncOp(f, _) =>
           && (s.lock.at == Queued || s.lock.at == Marked)
           && f < s.nextFuture && f !in s.doneFutures
           && (s.lock.at == Queued ==> f !in s.futureHome)
           && (s.lock.at == Marked ==> f in s.futureHome && s.futureHome[f] == Place(s.lock.w, i))
  }

  // No sequence number is lost: one whose gate has not passed is published, burned or held.
  ghost predicate CoverInv(s: State) {
    forall st, q :: 0 <= st < |s.streams| && 1 <= q <= s.streams[st].nextSeq && s.streams[st].gate <= 2 * q ==>
      Covered(s, st, q)
  }

  ghost predicate Covered(s: State, st: nat, q: nat)
    requires st < |s.streams|
  {
    q in s.streams[st].home || q in s.streams[st].burned || HeldSeq(s, st, q)
  }

  ghost predicate FutureLives(s: State, pl: Place, f: nat)
    requires WellFormed(s)
  {
    && HasSlot(s, pl.w, pl.i)
    && var sl := s.workers[pl.w].slots[pl.i];
    && Owing(sl) && sl.op.AsyncOp? && sl.op.future == f
  }

  // Every future handed in is completed, waiting in its slot, or being submitted; none twice.
  ghost predicate FutureInv(s: State)
    requires WellFormed(s)
  {
    && (forall f :: f in s.futureHome ==> f < s.nextFuture)
    && (forall a, b :: 0 <= a < b < |s.doneFutures| ==> s.doneFutures[a] != s.doneFutures[b])
    && (forall f :: f in s.doneFutures ==> f in s.futureHome)
    && (forall f :: f in s.futureHome && f !in s.doneFutures ==> FutureLives(s, s.futureHome[f], f))
    && (forall f :: 0 <= f < s.nextFuture && f !in s.futureHome ==>
          s.lock.Locked? && s.lock.op.AsyncOp? && s.lock.op.future == f)
  }

  ghost predicate Inv(s: State) {
    && WellFormed(s)
    && RingInv(s)
    && StreamInv(s)
    && LinkInv(s)
    && HomeInv(s)
    && HostInv(s)
    && LockInv(s)
    && CoverInv(s)
    && FutureInv(s)
  }

  // The one assumption on sequence numbers: on every stream, those not yet passed by the
  // gate span less than half the 32-bit number circle. GateRuns.WindowFromBudget derives it.
  ghost predicate WindowOk(s: State) {
    forall st :: 0 <= st < |s.streams| ==> 2 * s.streams[st].nextSeq + 1 - s.streams[st].gate <= HALF
  }

  lemma InitInv(s: State)
    requires Init(s)
    ensures Inv(s) && WindowOk(s)
  {
    forall w | 0 <= w < |s.workers| ensures RingOk(s.workers[w], MarkedAt(s, w)) {
      assert InitWorker(s.workers[w]);
    }
    forall w, i | 0 <= w < |s.workers| && 0 <= i < RING ensures LinkAt(s, w, i) {
      assert InitWorker(s.workers[w]);
    }
    forall st | 0 <= st < |s.streams| ensures StreamOk(s.streams[st]) && s.streams[st].home == map[]
        && s.streams[st].nextSeq == 0 {
      assert InitStream(s.streams[st]);
    }
    forall st, j | 0 <= st < |s.streams| && 0 <= j < |s.streams[st].queue| ensures s.streams[st].queue[j].User? {
      assert InitStream(s.streams[st]);
    }
  }
}
