/**
  A strategy that always has a step to take while some op can be finished, and the
  well-founded rank that step lowers. The strategy never submits new work: it finishes
  the submission in progress, lets the device and the GPU streams carry out what they
  have accepted, and lets the workers run their loops.
 */
module GateRank {
  import opened GateModel
  import opened GateInvariant
  import opened GateQueue
  import opened GateShutdown

  // ---------- the rank ----------

  datatype Rank = Rank(lock: nat, waiting: nat, work: nat, dist: nat)

  ghost predicate Below(a: Rank, b: Rank) {
    || a.lock < b.lock
    || (a.lock == b.lock && a.waiting < b.waiting)
    || (a.lock == b.lock && a.waiting == b.waiting && a.work < b.work)
    || (a.lock == b.lock && a.waiting == b.waiting && a.work == b.work && a.dist < b.dist)
  }

  function LockWork(lock: Lock): nat {
    match lock
    case Unlocked => 0
    case Locked(_, _, at) =>
      match at
      case Marked => 1
      case Queued => 2
      case Written => 3
      case Claimed => 4
  }

  function SlotWaits(sl: Slot): nat {
    if sl.phase == Waiting then 1 else 0
  }

  // What a dispatched op has ahead of it; a submission counts more than its completion.
  function SlotWork(sl: Slot): nat {
    match sl.phase
    case Dispatched => 10 + 3 * sl.todo + sl.out + (if sl.bounce == OnDevice then 2
        else if sl.bounce == Landed then 1 else 0)
    case Released => 5
    case _ => 0
  }

  function StageWork(stage: Stage): nat {
    match stage
    case Starting => 4
    case Writing => 4
    case Finishing => 2
    case Freeing => 1
    case Exited => 0
    case _ => 3
  }

  function CmdWork(c: Cmd): nat {
    if c.HostFn? then 2 else 1
  }

  ghost function WorkerWaits(wk: Worker): nat {
    Total(wk.slots, SlotWaits)
  }

  ghost function WorkerWork(wk: Worker): nat {
    StageWork(wk.stage) + (if wk.tail <= wk.head then wk.head - wk.tail else 0) + Total(wk.slots, SlotWork)
  }

  ghost function StreamWork(gs: Stream): nat {
    Total(gs.queue, CmdWork)
  }

  ghost function WaitingOps(s: State): nat {
    Total(s.workers, WorkerWaits)
  }

  ghost function WorkLeft(s: State): nat {
    Total(s.workers, WorkerWork) + Total(s.streams, StreamWork)
  }

  lemma SwapWorker(s: State, w: nat, wk': Worker)
    requires w < |s.workers|
    ensures WaitingOps(SetWorker(s, w, wk')) + WorkerWaits(s.workers[w]) == WaitingOps(s) + WorkerWaits(wk')
    ensures WorkLeft(SetWorker(s, w, wk')) + WorkerWork(s.workers[w]) == WorkLeft(s) + WorkerWork(wk')
  {
    TotalUpdate(s.workers, WorkerWaits, w, wk');
    TotalUpdate(s.workers, WorkerWork, w, wk');
  }

  lemma SwapStream(s: State, st: nat, gs': Stream)
    requires st < |s.streams|
    ensures WaitingOps(SetStream(s, st, gs')) == WaitingOps(s)
    ensures WorkLeft(SetStream(s, st, gs')) + StreamWork(s.streams[st]) == WorkLeft(s) + StreamWork(gs')
  {
    TotalUpdate(s.streams, StreamWork, st, gs');
  }

  lemma SwapSlot(wk: Worker, wk': Worker, i: nat, sl: Slot)
    requires i < |wk.slots| && wk'.slots == wk.slots[i := sl] && wk'.head == wk.head && wk'.tail == wk.tail
    ensures WorkerWaits(wk') + SlotWaits(wk.slots[i]) == WorkerWaits(wk) + SlotWaits(sl)
    ensures WorkerWork(wk') + SlotWork(wk.slots[i]) + StageWork(wk.stage) == WorkerWork(wk) + SlotWork(sl)
            + StageWork(wk'.stage)
  {
    TotalUpdate(wk.slots, SlotWaits, i, sl);
    TotalUpdate(wk.slots, SlotWork, i, sl);
  }

  // ---------- the strategy ----------

  // What the strategy does not decide: how many commands a read is cut into, whether an
  // enqueue succeeds, whether a completion carries an error, and whether the device turns
  // commands away (EBUSY) as long as it has others to complete.
  datatype Choice = Choice(plan: nat, ok: bool, bad: bool, busy: bool)

  ghost predicate Busy(wk: Worker) {
    wk.tail < wk.head
  }

  // An op is unfinished: being submitted, or still in some ring's window.
  ghost predicate Unfinished(s: State) {
    s.lock.Locked? || exists w :: 0 <= w < |s.workers| && Busy(s.workers[w])
  }

  // A ring position of a worker.
  datatype Spot = Spot(w: nat, p: nat)

  // The op waits for one that was left behind.
  ghost predicate Hopeless(s: State, sl: Slot) {
    Gated(s, sl) && Stranded(s, sl.op.stream)
  }

  // An op, or a freed slot to retire, that a worker still in its loop can be brought to serve.
  ghost predicate Hopeful(s: State, w: nat, p: nat) {
    && w < |s.workers| && |s.workers[w].slots| == RING
    && s.workers[w].stage != Exited && s.workers[w].tail <= p < s.workers[w].head
    && (p == s.workers[w].tail || s.workers[w].slots[Ix(p)].state != Free)
    && !Hopeless(s, s.workers[w].slots[Ix(p)])
  }

  // Something can still be finished: a submission, or an op a worker can be brought to serve.
  ghost predicate Movable(s: State) {
    s.lock.Locked? || exists w: nat, p: nat :: Hopeful(s, w, p)
  }

  // The least number in [lo, hi) that satisfies p, or hi.
  ghost function Least(lo: nat, hi: nat, p: nat -> bool): (r: nat)
    ensures r <= hi && (r < hi ==> lo <= r && p(r))
    ensures forall i :: lo <= i < r ==> !p(i)
    decreases hi - lo
  {
    if lo >= hi then hi else if p(lo) then lo else Least(lo + 1, hi, p)
  }

  ghost function HopefulIn(s: State, w: nat): nat -> bool {
    (p: nat) => Hopeful(s, w, p)
  }

  ghost function HopeAt(s: State, w: nat): nat
    requires w < |s.workers|
  {
    Least(s.workers[w].tail, s.workers[w].head, HopefulIn(s, w))
  }

  ghost predicate HasHope(s: State, w: nat) {
    w < |s.workers| && HopeAt(s, w) < s.workers[w].head
  }

  ghost function WithHope(s: State): nat -> bool {
    (w: nat) => HasHope(s, w)
  }

  ghost function FirstHope(s: State): nat {
    Least(0, |s.workers|, WithHope(s))
  }

  // The op the strategy wants finished.
  ghost function Target(s: State): Spot
    requires FirstHope(s) < |s.workers|
  {
    Spot(FirstHope(s), HopeAt(s, FirstHope(s)))
  }

  ghost function Wanted(s: State): Slot
    requires WellFormed(s) && FirstHope(s) < |s.workers|
  {
    s.workers[Target(s).w].slots[Ix(Target(s).p)]
  }

  // The wanted op waits behind commands its stream can carry out.
  ghost predicate StreamMoves(s: State)
    requires WellFormed(s) && FirstHope(s) < |s.workers|
  {
    var sl := Wanted(s);
    Gated(s, sl) && s.streams[sl.op.stream].queue != [] && FrontReady(s, sl.op.stream)
  }

  // The op to serve: the wanted one, or the one its stream is parked on.
  ghost function Focus(s: State): Spot
    requires WellFormed(s) && FirstHope(s) < |s.workers|
  {
    var sl := Wanted(s);
    if Gated(s, sl) && ParkedOn(s.streams[sl.op.stream])
       && s.streams[sl.op.stream].home[s.streams[sl.op.stream].queue[0].q].w < |s.workers| then
      var gs := s.streams[sl.op.stream];
      var pl := gs.home[gs.queue[0].q];
      Spot(pl.w, PosOf(s.workers[pl.w], pl.i))
    else
      Target(s)
  }

  // What the device does next about an op that has commands outstanding.
  ghost function DeviceStep(wk: Worker, w: nat, i: nat, c: Choice): Step
    requires |wk.slots| == RING && i < RING
  {
    if wk.slots[i].bounce == OnDevice then DmaLand(w, i)
    else if wk.slots[i].out > 0 then Callback(w, i, c.bad)
    else CallbackTail(w, i, c.bad)
  }

  // A worker that has a command to issue and no context for it, or is turned away, pokes its
  // queue: some command outstanding there completes.
  ghost function IssueStep(wk: Worker, w: nat, c: Choice): Step
    requires |wk.slots| == RING
  {
    var i := First(wk.slots, HasOut);
    if i < RING && (wk.free == 0 || c.busy) then DeviceStep(wk, w, i, c) else Submit(w)
  }

  ghost function ActiveStep(wk: Worker, w: nat, c: Choice): Step
    requires |wk.slots| == RING && Active(wk)
  {
    match wk.stage
    case Starting => if Current(wk).todo > 0 then IssueStep(wk, w, c) else EndStart(w)
    case Writing => WriteDone(w)
    case Finishing => Release(w)
    case Freeing => FreeSlot(w)
  }

  // The next step of a worker that is between ops.
  ghost function LoopStep(wk: Worker, w: nat, c: Choice): Step
    requires |wk.slots| == RING
  {
    match wk.stage
    case Sweep => if wk.pos != wk.seen then Visit(w, c.plan) else SweepEnd(w)
    case Retire => if wk.tail != wk.seen && wk.slots[Ix(wk.tail)].state == Free then RetireOne(w) else RetireEnd(w)
    case Decide => DecideStep(w)
    case Poke => PokeEnd(w)
    case _ => LoadHead(w)
  }

  ghost function ServeStep(s: State, at: Spot, c: Choice): Step
    requires WellFormed(s) && at.w < |s.workers|
  {
    var wk := s.workers[at.w];
    var i := Ix(at.p);
    var sl := wk.slots[i];
    if sl.state == InFlight && (sl.bounce == OnDevice || (!Quiet(sl) && wk.stage == Poke))
        then DeviceStep(wk, at.w, i, c)
    else LoopStep(wk, at.w, c)
  }

  ghost function SubmitStep(s: State, c: Choice): Step
    requires s.lock.Locked?
  {
    match s.lock.at
    case Claimed => if s.alignedOnly then EnqHost(c.ok) else EnqWrite(c.ok)
    case Written => EnqWait(c.ok)
    case Queued => MarkPending
    case Marked => PublishHead
  }

  ghost predicate InLoop(s: State) {
    s.lock.Unlocked? && First(s.workers, Active) == |s.workers| && FirstHope(s) < |s.workers|
  }

  ghost function NextStep(s: State, c: Choice): Step
    requires WellFormed(s) && (s.lock.Locked? || FirstHope(s) < |s.workers|)
  {
    var a := First(s.workers, Active);
    if s.lock.Locked? then SubmitStep(s, c)
    else if a < |s.workers| then ActiveStep(s.workers[a], a, c)
    else if StreamMoves(s) then GpuStep(Wanted(s).op.stream)
    else ServeStep(s, Focus(s), c)
  }

  // ---------- how far the serving worker is from the step that counts ----------

  ghost function DistRetire(wk: Worker): nat {
    var sweep := (if wk.pos <= wk.seen then wk.seen - wk.pos else 0) + 1;
    var load := (if wk.tail <= wk.head then wk.head - wk.tail else 0) + 2;
    match wk.stage
    case Retire => 0
    case Sweep => sweep
    case Poke => load + 1
    case Decide => load + 2
    case _ => load
  }

  ghost function DistPoke(wk: Worker): nat {
    match wk.stage
    case Poke => 0
    case Decide => 1
    case Retire => 2
    case Sweep => (if wk.pos <= wk.seen then wk.seen - wk.pos else 0) + 3
    case _ => (if wk.tail <= wk.head then wk.head - wk.tail else 0) + 4
  }

  ghost function DistVisit(wk: Worker, p: nat): nat
    requires wk.tail <= p
  {
    if wk.stage == Sweep && wk.pos <= p < wk.seen then p - wk.pos
    else 1 + (p - wk.tail) +
         match wk.stage
         case Poke => 1
         case Decide => 2
         case Retire => 3
         case Sweep => (if wk.pos <= wk.seen then wk.seen - wk.pos else 0) + 4
         case _ => 0
  }

  ghost function SpotDist(s: State, at: Spot): nat
    requires WellFormed(s) && at.w < |s.workers| && s.workers[at.w].tail <= at.p
  {
    var wk := s.workers[at.w];
    var sl := wk.slots[Ix(at.p)];
    if sl.state == Free then DistRetire(wk)
    else if sl.state == InFlight && !Quiet(sl) then DistPoke(wk)
    else DistVisit(wk, at.p)
  }

  ghost function Dist(s: State): nat
    requires WellFormed(s)
  {
    if InLoop(s) then SpotDist(s, Focus(s)) else 0
  }

  ghost function RankOf(s: State): Rank
    requires WellFormed(s)
  {
    Rank(LockWork(s.lock), WaitingOps(s), WorkLeft(s), Dist(s))
  }
}
