/**
  The stream gate protocol of the aisio engine as a step system: submitting threads
  under submit_lock, I/O workers sweeping their rings, the device, and in-order GPU
  streams, all interleaved one atomic access at a time.

  Counters are kept unbounded; every test a step makes is made on their 32-bit words.
  The fields marked "history" record what happened and are never tested by a step.
 */
module GateModel {
  import opened Common
  import opened Words

  const RING: nat := 1024          // FILE_OP_QUEUE_SIZE
  const MAX_THREADS: nat := 15     // MAX_IO_THREADS

  // The tail span of a stream read: where it goes and the bytes the device delivers.
  datatype Tail = Tail(dst: nat, data: seq<byte>)

  datatype Op =
    | StreamOp(stream: nat, seqNo: nat, write: bool)
    | AsyncOp(future: nat, write: bool)

  datatype OpState = Free | Pending | InFlight

  // history: where an op is in its life; Waiting and Dispatched ops still owe their release.
  datatype Phase = Idle | Waiting | Dispatched | Released

  datatype Bounce = NoBounce | OnDevice | Landed | Reaped

  // history, of the read in flight in a slot: whether a command failed or could not be
  // issued, how many it was to issue, and how many have called back.
  datatype Effort = Effort(failed: bool, planned: nat, called: nat)

  function Called(e: Effort, bad: bool): Effort {
    Effort(e.failed || bad, e.planned, e.called + 1)
  }

  // One file_op. todo: commands start_read_op has still to submit; out: submitted
  // commands whose callback has not run (the stream's tail bounce is kept apart).
  datatype Slot = Slot(state: OpState, op: Op, todo: nat, out: nat, bounce: Bounce,
                       tail: Option<Tail>, err: bool, phase: Phase,
                       effort: Effort)

  // Where a worker thread stands in io_thread_main.
  datatype Stage = Load | Sweep | Starting | Writing | Finishing | Freeing | Retire | Decide | Poke | Exited

  // depth: command contexts of the worker's device queue; free: those not in use.
  datatype Worker = Worker(slots: seq<Slot>, head: nat, tail: nat,
                           stage: Stage, pos: nat, seen: nat, busy: bool,
                           depth: nat, free: nat)

  // Commands on a GPU stream. User stands for any work of the application.
  datatype Cmd =
    | User
    | WriteGate(q: nat)                     // stream_write_value32(2q)
    | WaitGate(q: nat)                      // stream_wait_value32_geq(2q + 1)
    | HostFn(w: nat, i: nat, q: nat)        // launch_host_func(park_gate_cb, slot i of worker w)
    | Park(q: nat)                          // park_gate_cb after its store of 2q
    | Copy(q: nat)                          // copy_stream

  // asked: the tails the reads requested; failed: the released reads of which a command
  // failed; lost: the reads whose copy could not be enqueued.
  datatype Ledger = Ledger(asked: map<nat, Tail>, failed: set<nat>, lost: set<nat>)

  datatype Place = Place(w: nat, i: nat)

  datatype Stream = Stream(
    gate: nat, nextSeq: nat, queue: seq<Cmd>,
    descDst: nat, descLen: nat, bounceBuf: seq<byte>,
    owed: set<nat>,                         // reads submitted whose copy is not enqueued yet
    home: map<nat, Place>,                  // history: the slot each published op was given
    burned: set<nat>,                       // history: sequence numbers lost to failed enqueues
    last: nat,                              // history: sequence number dispatched last (0: none)
    log: seq<nat>,                          // history: sequence numbers in dispatch order
    outcome: map<nat, Option<Tail>>,        // history: the tail each released read left to the copy
    copied: map<nat, Option<Tail>>,         // history: what each copy that ran did copy
    readSeqs: set<nat>,                     // history: sequence numbers taken for reads
    ledger: Ledger)                         // history

  datatype LockStage = Claimed | Written | Queued | Marked

  datatype Lock = Unlocked | Locked(w: nat, op: Op, at: LockStage)

  datatype State = State(
    workers: seq<Worker>, streams: seq<Stream>, lock: Lock, rr: nat, stop: bool,
    alignedOnly: bool,
    nextFuture: nat,                        // history: futures handed in so far
    futureHome: map<nat, Place>,            // history
    doneFutures: seq<nat>)                  // history: futures completed, in order

  datatype Step =
    | ClaimStream(st: nat, write: bool)
    | ClaimAsync(write: bool)
    | ClaimFull
    | EnqWrite(ok: bool)
    | EnqWait(ok: bool)
    | EnqHost(ok: bool)
    | MarkPending
    | PublishHead
    | EnqCopy(st: nat, q: nat, ok: bool)
    | EnqUser(st: nat)
    | GpuStep(st: nat)
    | LoadHead(w: nat)
    | Visit(w: nat, n: nat)
    | Submit(w: nat)
    | SubmitTail(w: nat, t: Tail)
    | SubmitBusy(w: nat)
    | SubmitFail(w: nat)
    | EndStart(w: nat)
    | Callback(w: nat, i: nat, bad: bool)
    | CallbackTail(w: nat, i: nat, bad: bool)
    | DmaPart(w: nat, i: nat, buf: seq<byte>)
    | DmaLand(w: nat, i: nat)
    | WriteDone(w: nat)
    | Release(w: nat)
    | FreeSlot(w: nat)
    | SweepEnd(w: nat)
    | RetireOne(w: nat)
    | RetireEnd(w: nat)
    | DecideStep(w: nat)
    | PokeEnd(w: nat)
    | StopDriver

  function Ix(p: nat): (i: nat)
    ensures i < RING
  {
    p % RING
  }

  predicate WellFormed(s: State) {
    && 0 < |s.workers| <= MAX_THREADS
    && forall w :: 0 <= w < |s.workers| ==> |s.workers[w].slots| == RING
  }

  // route_op
  function Routed(s: State): (w: nat)
    requires |s.workers| > 0
    ensures w < |s.workers|
  {
    Word(s.rr) % |s.workers|
  }

  predicate RingHasRoom(wk: Worker) {
    WordSub(Word(wk.head), Word(wk.tail)) < RING
  }

  // poll_stream_pending lets the op through, on the words it compares.
  predicate GateOpen(gs: Stream, q: nat) {
    !CyclicBefore(Word(gs.gate), Word(2 * q))
  }

  // GEQ wait (device or host callback): the stream may go on.
  predicate GateReleased(gs: Stream, q: nat) {
    !CyclicBefore(Word(gs.gate), Word(2 * q + 1))
  }

  function Current(wk: Worker): Slot
    requires |wk.slots| == RING
  {
    wk.slots[Ix(wk.pos)]
  }

  predicate HasWorker(s: State, w: nat, stage: Stage) {
    w < |s.workers| && s.workers[w].stage == stage
  }

  predicate HasSlot(s: State, w: nat, i: nat) {
    w < |s.workers| && i < RING
  }

  // Callbacks run inside xnvme_queue_poke, in the worker's loop or while it submits.
  predicate MayPoke(wk: Worker) {
    wk.stage == Poke || wk.stage == Starting
  }

  predicate KnownStream(s: State, op: Op) {
    op.StreamOp? ==> op.stream < |s.streams|
  }

  // The device may write the bounce buffer for this read.
  predicate BouncePending(s: State, w: nat, i: nat)
    requires WellFormed(s)
  {
    && HasSlot(s, w, i)
    && var sl := s.workers[w].slots[i];
    && sl.state == InFlight && sl.bounce == OnDevice && sl.op.StreamOp? && KnownStream(s, sl.op)
  }

  predicate HoldsOp(s: State, at: LockStage) {
    s.lock.Locked? && s.lock.at == at && s.lock.w < |s.workers| && KnownStream(s, s.lock.op)
  }

  predicate HoldsStreamOp(s: State, at: LockStage) {
    HoldsOp(s, at) && s.lock.op.StreamOp?
  }

  // Steps of a worker thread (or of the device on its commands) that touch only that worker.
  predicate IsLocal(step: Step) {
    step.LoadHead? || step.Submit? || step.SubmitBusy? || step.SubmitFail? || step.EndStart? || step.Callback?
        || step.CallbackTail?
    || step.WriteDone? || step.FreeSlot? || step.SweepEnd? || step.RetireOne? || step.RetireEnd?
    || step.DecideStep? || step.PokeEnd?
  }

  // start_read_op has a command to issue and has got a context for it; without one it pokes.
  predicate MaySubmit(wk: Worker)
    requires |wk.slots| == RING
  {
    wk.stage == Starting && Current(wk).todo > 0 && wk.free > 0
  }

  predicate LocalEnabled(wk: Worker, step: Step)
    requires |wk.slots| == RING && IsLocal(step)
  {
    match step
    case LoadHead(_) => wk.stage == Load
    case Submit(_) => MaySubmit(wk)
    case SubmitBusy(_) => MaySubmit(wk)
    case SubmitFail(_) => wk.stage == Starting && Current(wk).todo > 0   // a request may be rejected without a context
    case EndStart(_) => wk.stage == Starting && Current(wk).todo == 0
    case Callback(_, i, _) =>
      MayPoke(wk) && i < RING && wk.slots[i].state == InFlight && wk.slots[i].out > 0
    case CallbackTail(_, i, bad) =>
      && MayPoke(wk) && i < RING && wk.slots[i].state == InFlight
      && (wk.slots[i].bounce == Landed || (bad && wk.slots[i].bounce == OnDevice))
    case WriteDone(_) => wk.stage == Writing
    case FreeSlot(_) => wk.stage == Freeing
    case SweepEnd(_) => wk.stage == Sweep && Word(wk.pos) == Word(wk.seen)
    case RetireOne(_) =>
      wk.stage == Retire && Word(wk.tail) != Word(wk.seen) && wk.slots[Ix(wk.tail)].state == Free
    case RetireEnd(_) =>
      wk.stage == Retire && (Word(wk.tail) == Word(wk.seen) || wk.slots[Ix(wk.tail)].state != Free)
    case DecideStep(_) => wk.stage == Decide
    case PokeEnd(_) => wk.stage == Poke
  }

  // The front command of a GPU stream may execute.
  predicate FrontReady(s: State, st: nat)
    requires WellFormed(s) && st < |s.streams| && s.streams[st].queue != []
  {
    match s.streams[st].queue[0]
    case WaitGate(q) => GateReleased(s.streams[st], q)
    case Park(q) => GateReleased(s.streams[st], q)
    case HostFn(w, i, _) => HasSlot(s, w, i) && s.workers[w].slots[i].op.StreamOp?
    case _ => true
  }

  predicate SharedEnabled(s: State, step: Step)
    requires WellFormed(s) && !IsLocal(step)
  {
    match step
    case ClaimStream(st, _) =>
      s.lock.Unlocked? && st < |s.streams| && RingHasRoom(s.workers[Routed(s)])
    case ClaimAsync(_) =>
      s.lock.Unlocked? && RingHasRoom(s.workers[Routed(s)])
    case ClaimFull =>
      s.lock.Unlocked? && !RingHasRoom(s.workers[Routed(s)])
    case EnqWrite(_) => !s.alignedOnly && HoldsStreamOp(s, Claimed)
    case EnqWait(_) => HoldsStreamOp(s, Written)
    case EnqHost(_) => s.alignedOnly && HoldsStreamOp(s, Claimed)
    case MarkPending => HoldsOp(s, Queued)
    case PublishHead => HoldsOp(s, Marked)
    case EnqCopy(st, q, _) => st < |s.streams| && q in s.streams[st].owed
    case EnqUser(st) => st < |s.streams|
    case GpuStep(st) => st < |s.streams| && s.streams[st].queue != [] && FrontReady(s, st)
    case Visit(w, _) =>
      && HasWorker(s, w, Sweep)
      && Word(s.workers[w].pos) != Word(s.workers[w].seen)
      && (Current(s.workers[w]).state != Free ==> KnownStream(s, Current(s.workers[w]).op))
    case SubmitTail(w, t) =>
      && w < |s.workers| && MaySubmit(s.workers[w]) && !s.alignedOnly
      && var sl := Current(s.workers[w]);
      && sl.tail.None? && sl.op.StreamOp? && KnownStream(s, sl.op)
      && 0 < |t.data| <= |s.streams[sl.op.stream].bounceBuf|
    case DmaPart(w, i, buf) =>
      && BouncePending(s, w, i)
      && |buf| == |s.streams[s.workers[w].slots[i].op.stream].bounceBuf|
    case DmaLand(w, i) =>
      BouncePending(s, w, i) && s.workers[w].slots[i].tail.Some?
    case Release(w) => HasWorker(s, w, Finishing) && KnownStream(s, Current(s.workers[w]).op)
    case StopDriver => true
  }

  predicate Enabled(s: State, step: Step)
    requires WellFormed(s)
  {
    if IsLocal(step) then step.w < |s.workers| && LocalEnabled(s.workers[step.w], step)
    else SharedEnabled(s, step)
  }

  function SetWorker(s: State, w: nat, wk: Worker): (r: State)
    requires w < |s.workers|
    ensures |r.workers| == |s.workers| && |r.streams| == |s.streams|
  {
    s.(workers := s.workers[w := wk])
  }

  function SetStream(s: State, st: nat, gs: Stream): (r: State)
    requires st < |s.streams|
    ensures |r.workers| == |s.workers| && |r.streams| == |s.streams|
  {
    s.(streams := s.streams[st := gs])
  }

  function SetSlot(wk: Worker, i: nat, sl: Slot): Worker
    requires i < |wk.slots|
  {
    wk.(slots := wk.slots[i := sl])
  }

  function Advance(wk: Worker): Worker {
    wk.(stage := Sweep, pos := wk.pos + 1)
  }

  // claim_slot_locked hands out slot head & MASK of the routed worker and the op's
  // fields are written into it; for a stream op the sequence number is taken too.
  function Claim(s: State, op: Op): (r: State)
    requires WellFormed(s)
    ensures |r.workers| == |s.workers| && |r.streams| == |s.streams|
  {
    var w := Routed(s);
    var wk := s.workers[w];
    var i := Ix(wk.head);
    SetWorker(s, w, SetSlot(wk, i, wk.slots[i].(op := op)))
    .(rr := s.rr + 1, lock := Locked(w, op, if op.StreamOp? then Claimed else Queued))
  }

  function TakeNumber(gs: Stream, write: bool): Stream {
    gs.(nextSeq := gs.nextSeq + 1, readSeqs := if write then gs.readSeqs else gs.readSeqs + {gs.nextSeq + 1})
  }

  // An enqueue on the stream under submit_lock: on failure the lock is dropped and the
  // sequence number stays consumed.
  function Enqueue(s: State, ok: bool, cmd: Cmd, next: LockStage): (r: State)
    requires s.lock.Locked? && s.lock.op.StreamOp? && s.lock.op.stream < |s.streams|
    ensures |r.workers| == |s.workers| && |r.streams| == |s.streams|
  {
    var st := s.lock.op.stream;
    var gs := s.streams[st];
    if ok then
      SetStream(s, st, gs.(queue := gs.queue + [cmd])).(lock := s.lock.(at := next))
    else
      SetStream(s, st, gs.(burned := gs.burned + {s.lock.op.seqNo})).(lock := Unlocked)
  }

  function Mark(s: State): (r: State)
    requires WellFormed(s) && SharedEnabled(s, MarkPending)
    ensures |r.workers| == |s.workers| && |r.streams| == |s.streams|
  {
    var w := s.lock.w;
    var wk := s.workers[w];
    var i := Ix(wk.head);
    var s1 := SetWorker(s, w, SetSlot(wk, i, wk.slots[i].(state := Pending, phase := Waiting)))
              .(lock := s.lock.(at := Marked));
    match s.lock.op
    case StreamOp(st, q, _) => SetStream(s1, st, s.streams[st].(home := s.streams[st].home[q := Place(w, i)]))
    case AsyncOp(f, _) => s1.(futureHome := s.futureHome[f := Place(w, i)])
  }

  function Publish(s: State): (r: State)
    requires WellFormed(s) && SharedEnabled(s, PublishHead)
    ensures |r.workers| == |s.workers| && |r.streams| == |s.streams|
  {
    var w := s.lock.w;
    var s1 := SetWorker(s, w, s.workers[w].(head := s.workers[w].head + 1)).(lock := Unlocked);
    match s.lock.op
    case StreamOp(st, q, write) =>
      if write || s.alignedOnly then s1
      else SetStream(s1, st, s.streams[st].(owed := s.streams[st].owed + {q}))
    case AsyncOp(_, _) => s1
  }

  function Prefix(bytes: seq<byte>, n: nat): (r: seq<byte>)
    ensures |r| <= n
    ensures n <= |bytes| ==> r == bytes[..n]
    ensures |bytes| <= n ==> r == bytes
  {
    if n <= |bytes| then bytes[..n] else bytes
  }

  // The command at the front of a GPU stream executes.
  function RunFront(s: State, st: nat): Stream
    requires WellFormed(s) && SharedEnabled(s, GpuStep(st))
  {
    var gs := s.streams[st];
    var rest := gs.queue[1..];
    match gs.queue[0]
    case User => gs.(queue := rest)
    case WriteGate(q) => gs.(queue := rest, gate := 2 * q)
    case WaitGate(_) => gs.(queue := rest)
    case HostFn(w, i, _) =>
      // the callback takes the sequence number out of the op it was given
      var q := s.workers[w].slots[i].op.seqNo;
      gs.(queue := [Park(q)] + rest, gate := 2 * q)
    case Park(_) => gs.(queue := rest)
    case Copy(q) =>
      var c := if gs.descLen == 0 then None else Some(Tail(gs.descDst, Prefix(gs.bounceBuf, gs.descLen)));
      gs.(queue := rest, copied := gs.copied[q := c])
  }

  // dispatch_pending: a write is carried out at once, a read is put in flight and started.
  function Dispatch(wk: Worker, n: nat): Worker
    requires |wk.slots| == RING
  {
    var sl := Current(wk);
    if sl.op.write then
      SetSlot(wk, Ix(wk.pos), sl.(phase := Dispatched)).(stage := Writing)
    else
      SetSlot(wk, Ix(wk.pos),
              sl.(state := InFlight, phase := Dispatched, todo := n, out := 0,
                  bounce := NoBounce, tail := None, err := false, effort := Effort(false, n, 0))).(stage := Starting)
  }

  // A PENDING op is dispatched, unless its stream's gate is still closed.
  function VisitPending(s: State, w: nat, n: nat): (r: State)
    requires WellFormed(s) && HasWorker(s, w, Sweep) && KnownStream(s, Current(s.workers[w]).op)
    ensures |r.workers| == |s.workers| && |r.streams| == |s.streams|
  {
    var wk := s.workers[w];
    match Current(wk).op
    case AsyncOp(_, _) => SetWorker(s, w, Dispatch(wk, n))
    case StreamOp(st, q, _) =>
      var gs := s.streams[st];
      if GateOpen(gs, q) then
        SetStream(SetWorker(s, w, Dispatch(wk, n)), st, gs.(last := q, log := gs.log + [q]))
      else
        SetWorker(s, w, Advance(wk).(busy := true))
  }

  // reap_in_flight: a read whose commands have all come back is completed.
  function VisitInFlight(s: State, w: nat): (r: State)
    requires WellFormed(s) && HasWorker(s, w, Sweep) && KnownStream(s, Current(s.workers[w]).op)
    ensures |r.workers| == |s.workers| && |r.streams| == |s.streams|
  {
    var wk := s.workers[w];
    var sl := Current(wk);
    if sl.out > 0 || sl.bounce == OnDevice || sl.bounce == Landed then
      SetWorker(s, w, Advance(wk))
    else if sl.op.StreamOp? then
      var gs := s.streams[sl.op.stream];
      SetStream(SetWorker(s, w, wk.(stage := Finishing)), sl.op.stream, gs.(descLen := DescLen(sl)))
    else
      SetWorker(s, w, wk.(stage := Finishing))
  }

  // One iteration of the sweep over [queue_tail, head).
  function VisitSlot(s: State, w: nat, n: nat): (r: State)
    requires WellFormed(s) && SharedEnabled(s, Visit(w, n))
    ensures |r.workers| == |s.workers| && |r.streams| == |s.streams|
  {
    match Current(s.workers[w]).state
    case Free => SetWorker(s, w, Advance(s.workers[w]))
    case Pending => VisitPending(s, w, n)
    case InFlight => VisitInFlight(s, w)
  }

  // tail_bytes of complete_read_op
  function DescLen(sl: Slot): nat {
    if sl.err || sl.tail.None? then 0 else |sl.tail.value.data|
  }

  function Outcome(sl: Slot): Option<Tail> {
    if sl.err then None else sl.tail
  }

  // The gate of q is let go.
  function LetGo(gs: Stream, q: nat, outcome: map<nat, Option<Tail>>, ledger: Ledger): Stream {
    gs.(gate := 2 * q + 1, outcome := outcome, ledger := ledger)
  }

  function Settle(l: Ledger, q: nat, failed: bool): Ledger {
    if failed then l.(failed := l.failed + {q}) else l
  }

  function ReleaseSlot(s: State, w: nat): (r: State)
    requires WellFormed(s) && SharedEnabled(s, Release(w))
    ensures |r.workers| == |s.workers| && |r.streams| == |s.streams|
  {
    var wk := s.workers[w];
    var sl := Current(wk);
    var s1 := SetWorker(s, w, SetSlot(wk, Ix(wk.pos), sl.(phase := Released)).(stage := Freeing));
    match sl.op
    case StreamOp(st, q, write) =>
      var gs := s.streams[st];
      SetStream(s1, st, LetGo(gs, q, if write then gs.outcome else gs.outcome[q := Outcome(sl)],
                              if write then gs.ledger else Settle(gs.ledger, q, sl.effort.failed)))
    case AsyncOp(f, _) => s1.(doneFutures := s.doneFutures + [f])
  }

  function WorkerStep(wk: Worker, step: Step, stop: bool): Worker
    requires |wk.slots| == RING && IsLocal(step) && LocalEnabled(wk, step)
  {
    var i := Ix(wk.pos);
    var sl := Current(wk);
    match step
    case LoadHead(_) => wk.(stage := Sweep, pos := wk.tail, seen := wk.head, busy := false)
    case Submit(_) => SetSlot(wk, i, sl.(todo := sl.todo - 1, out := sl.out + 1)).(free := wk.free - 1)
    case SubmitBusy(_) => wk    // -EBUSY: the context is given back, the queue poked, the command tried again
    case SubmitFail(_) => SetSlot(wk, i, sl.(todo := 0, err := true, effort := sl.effort.(failed := true)))
    case EndStart(_) => Advance(wk)
    case Callback(_, j, bad) =>
      SetSlot(wk, j, wk.slots[j].(out := wk.slots[j].out - 1, err := wk.slots[j].err || bad,
                                  effort := Called(wk.slots[j].effort, bad))).(free := wk.free + 1)
    case CallbackTail(_, j, bad) =>
      SetSlot(wk, j, wk.slots[j].(bounce := Reaped, err := wk.slots[j].err || bad,
                                  effort := Called(wk.slots[j].effort, bad))).(free := wk.free + 1)
    case WriteDone(_) => wk.(stage := Finishing)
    case FreeSlot(_) => Advance(SetSlot(wk, i, sl.(state := Free, phase := Idle)))
    case SweepEnd(_) => wk.(stage := Retire)
    case RetireOne(_) => wk.(tail := wk.tail + 1)
    case RetireEnd(_) => wk.(stage := Decide, busy := wk.busy || Word(wk.tail) != Word(wk.seen))
    case DecideStep(_) =>
      wk.(stage := if stop && !wk.busy then Exited else if wk.busy then Poke else Load)
    case PokeEnd(_) => wk.(stage := Load)
  }

  function AskTail(gs: Stream, q: nat, t: Tail): Stream {
    gs.(descDst := t.dst, ledger := gs.ledger.(asked := gs.ledger.asked[q := t]))
  }

  // submit_stream_bounce: the block is requested and the descriptor's addresses stored.
  function TailSubmitted(s: State, w: nat, t: Tail): (r: State)
    requires WellFormed(s) && SharedEnabled(s, SubmitTail(w, t))
    ensures |r.workers| == |s.workers| && |r.streams| == |s.streams|
  {
    var wk := s.workers[w];
    var sl := Current(wk);
    var gs := s.streams[sl.op.stream];
    var sl' := sl.(todo := sl.todo - 1, bounce := OnDevice, tail := Some(t));
    SetStream(SetWorker(s, w, SetSlot(wk, Ix(wk.pos), sl').(free := wk.free - 1)), sl.op.stream,
              AskTail(gs, sl.op.seqNo, t))
  }

  // The device has put the whole span into the stream's bounce buffer.
  function TailLanded(s: State, w: nat, i: nat): (r: State)
    requires WellFormed(s) && SharedEnabled(s, DmaLand(w, i))
    ensures |r.workers| == |s.workers| && |r.streams| == |s.streams|
  {
    var wk := s.workers[w];
    var sl := wk.slots[i];
    var gs := s.streams[sl.op.stream];
    var data := sl.tail.value.data;
    SetStream(SetWorker(s, w, SetSlot(wk, i, sl.(bounce := Landed))), sl.op.stream,
              gs.(bounceBuf := Prefix(data, |gs.bounceBuf|) + gs.bounceBuf[|Prefix(data, |gs.bounceBuf|)|..]))
  }

  // The thread that owes the copy of q enqueues it, or fails to.
  function PayCopy(gs: Stream, q: nat, ok: bool): Stream {
    if ok then gs.(owed := gs.owed - {q}, queue := gs.queue + [Copy(q)])
    else gs.(owed := gs.owed - {q}, ledger := gs.ledger.(lost := gs.ledger.lost + {q}))
  }

  function ApplyShared(s: State, step: Step): (r: State)
    requires WellFormed(s) && !IsLocal(step) && SharedEnabled(s, step)
    ensures |r.workers| == |s.workers| && |r.streams| == |s.streams|
  {
    match step
    case ClaimStream(st, write) =>
      var gs := s.streams[st];
      SetStream(Claim(s, StreamOp(st, gs.nextSeq + 1, write)), st, TakeNumber(gs, write))
    case ClaimAsync(write) =>
      Claim(s, AsyncOp(s.nextFuture, write)).(nextFuture := s.nextFuture + 1)
    case ClaimFull => s.(rr := s.rr + 1)
    case EnqWrite(ok) => Enqueue(s, ok, WriteGate(s.lock.op.seqNo), Written)
    case EnqWait(ok) => Enqueue(s, ok, WaitGate(s.lock.op.seqNo), Queued)
    case EnqHost(ok) =>
      Enqueue(s, ok, HostFn(s.lock.w, Ix(s.workers[s.lock.w].head), s.lock.op.seqNo), Queued)
    case MarkPending => Mark(s)
    case PublishHead => Publish(s)
    case EnqCopy(st, q, ok) =>
      SetStream(s, st, PayCopy(s.streams[st], q, ok))
    case EnqUser(st) =>
      var gs := s.streams[st];
      SetStream(s, st, gs.(queue := gs.queue + [User]))
    case GpuStep(st) => SetStream(s, st, RunFront(s, st))
    case Visit(w, n) => VisitSlot(s, w, n)
    case SubmitTail(w, t) => TailSubmitted(s, w, t)
    case DmaPart(w, i, buf) =>
      var sl := s.workers[w].slots[i];
      SetStream(s, sl.op.stream, s.streams[sl.op.stream].(bounceBuf := buf))
    case DmaLand(w, i) => TailLanded(s, w, i)
    case Release(w) => ReleaseSlot(s, w)
    case StopDriver => s.(stop := true)
  }

  function Apply(s: State, step: Step): (r: State)
    requires WellFormed(s) && Enabled(s, step)
    ensures |r.workers| == |s.workers| && |r.streams| == |s.streams|
  {
    if IsLocal(step) then SetWorker(s, step.w, WorkerStep(s.workers[step.w], step, s.stop))
    else ApplyShared(s, step)
  }

  // The state workers_setup and stream registration leave: empty rings, gates at zero.
  ghost predicate Init(s: State) {
    && WellFormed(s)
    && s.lock.Unlocked? && s.rr == 0 && !s.stop && s.nextFuture == 0
    && s.futureHome == map[] && s.doneFutures == []
    && (forall w :: 0 <= w < |s.workers| ==> InitWorker(s.workers[w]))
    && (forall st :: 0 <= st < |s.streams| ==> InitStream(s.streams[st]))
  }

  ghost predicate InitWorker(wk: Worker) {
    && wk.head == 0 && wk.tail == 0 && wk.stage == Load && wk.pos == 0 && wk.seen == 0
    && wk.free == wk.depth > 0
    && forall i :: 0 <= i < |wk.slots| ==> InitSlot(wk.slots[i])
  }

  ghost predicate InitSlot(sl: Slot) {
    sl.state == Free && sl.phase == Idle && sl.out == 0 && sl.bounce == NoBounce
  }

  ghost predicate InitStream(gs: Stream) {
    && gs.gate == 0 && gs.nextSeq == 0 && (forall j :: 0 <= j < |gs.queue| ==> gs.queue[j] == User)
    && gs.descLen == 0 && gs.owed == {} && gs.home == map[] && gs.burned == {}
    && gs.last == 0 && gs.log == [] && gs.outcome == map[] && gs.copied == map[] && gs.readSeqs == {}
    && gs.ledger == Ledger(map[], {}, {})
  }
}
