/**
  The state of one read in flight, the invariant it keeps, and what a completion or an
  accepted submission does to it.
 */
module ReadState {
  import opened Common
  import opened ReadPlan

  // What a request is given to work with: geometry, file map, range, where the destination
  // starts in the buffer, and the device's contents.
  datatype Request = Request(c: Config, exts: seq<Extent>, start: nat, size: nat, base: nat, disk: nat -> byte)

  datatype BounceSlot = BounceSlot(dst: nat, src: nat, n: nat)
  datatype BounceCmd = BounceCmd(slot: nat, slba: nat)

  // struct ds_bounce_copy; the source is always the stream's bounce buffer.
  datatype Descriptor = Descriptor(dst: nat, n: nat)

  function DiskBytes(disk: nat -> byte, at: nat, n: nat): (r: seq<byte>)
    ensures |r| == n && forall j :: 0 <= j < n ==> r[j] == disk(at + j)
  {
    seq(n, j requires 0 <= j < n => disk(at + j))
  }

  ghost predicate Ok(r: Request, p: Piece) {
    PieceOk(r.c, r.exts, r.start, r.size, p)
  }

  // The bytes of the piece are in the destination.
  ghost predicate Landed(r: Request, mem: seq<byte>, p: Piece) {
    forall x: nat :: Within(r.c, p, x) ==> r.base + x < |mem| && mem[r.base + x] == r.disk(Src(r.c, p) + x - p.at)
  }

  // Memory position x belongs to the destination of some issued command.
  ghost predicate Touched(r: Request, issued: seq<Piece>, x: int) {
    r.base <= x && Hits(r.c, issued, x - r.base)
  }

  // Nothing but the destinations of issued commands has been written.
  ghost predicate MemOk(r: Request, issued: seq<Piece>, mem: seq<byte>, mem0: seq<byte>) {
    && |mem| == |mem0| && r.base + r.size <= |mem0|
    && forall x :: 0 <= x < |mem| && !Touched(r, issued, x) ==> mem[x] == mem0[x]
  }

  // The bounce slots describe the bounced commands, one each.
  ghost predicate SlotsOk(r: Request, issued: seq<Piece>, slots: seq<Piece>, bounces: seq<BounceSlot>, room: nat) {
    && |slots| == |bounces| == Bounces(issued) && |bounces| <= (if r.c.stream then 1 else BOUNCE_SLOTS)
    && (bounces != [] || r.c.stream || room != 0 ==> room == Bytes(r.c, if r.c.stream then 1 else BOUNCE_SLOTS))
    && (forall k :: 0 <= k < |slots| ==> SlotOk(r, issued, slots[k], k, bounces[k]))
    && (forall p :: p in issued && p.Bounce? ==> p in slots)
  }

  ghost predicate SlotOk(r: Request, issued: seq<Piece>, p: Piece, k: nat, b: BounceSlot) {
    p.Bounce? && p in issued && b == BounceSlot(r.base + p.at, Bytes(r.c, k) + p.srcOff, p.n)
  }

  // What is outstanding on the device was issued.
  ghost predicate OutOk(issued: seq<Piece>, slots: seq<Piece>, chunksOut: seq<Piece>, bouncesOut: seq<BounceCmd>) {
    && (forall p :: p in chunksOut ==> p in issued && p.Chunk?)
    && (forall b :: b in bouncesOut ==> b.slot < |slots| && slots[b.slot].Bounce? && b.slba == slots[b.slot].slba)
  }

  // Every direct command has arrived or is outstanding.
  ghost predicate ChunksIn(r: Request, issued: seq<Piece>, chunksOut: seq<Piece>, mem: seq<byte>) {
    forall p :: p in issued && p.Chunk? && p !in chunksOut ==> Landed(r, mem, p)
  }

  ghost predicate SlotFilled(r: Request, buf: seq<byte>, k: nat, slba: nat) {
    var at := Bytes(r.c, k);
    at + r.c.lba <= |buf| && buf[at..at + r.c.lba] == DiskBytes(r.disk, Bytes(r.c, slba), r.c.lba)
  }

  // Every bounce slot is filled or its command is outstanding.
  ghost predicate SlotsIn(r: Request, slots: seq<Piece>, bouncesOut: seq<BounceCmd>, buf: seq<byte>) {
    forall k :: 0 <= k < |slots| && slots[k].Bounce? && BounceCmd(k, slots[k].slba) !in bouncesOut ==>
      SlotFilled(r, buf, k, slots[k].slba)
  }

  ghost predicate AllOk(r: Request, issued: seq<Piece>) {
    forall p :: p in issued ==> Ok(r, p)
  }

  function Without<T>(xs: seq<T>, k: nat): (ys: seq<T>)
    requires k < |xs|
    ensures |ys| == |xs| - 1
  {
    xs[..k] + xs[k + 1..]
  }

  // The fields of a read op and of the device that works on it.
  datatype Engine = Engine(
    mem: seq<byte>, mem0: seq<byte>, bounceBuf: seq<byte>,
    chunksRemaining: int, bouncesOutstanding: int, bytesAcc: nat, err: nat,
    bounces: seq<BounceSlot>, desc: Descriptor,
    chunksOut: seq<Piece>, bouncesOut: seq<BounceCmd>, faulty: bool,
    issued: seq<Piece>, slots: seq<Piece>)

  // The counters of the op are the commands outstanding on the device.
  ghost predicate Counters(e: Engine) {
    e.chunksRemaining == |e.chunksOut| && e.bouncesOutstanding == |e.bouncesOut|
  }

  // While no error is noted, what has been issued is on its way or has arrived.
  ghost predicate Arrived(r: Request, e: Engine) {
    && ChunksIn(r, e.issued, e.chunksOut, e.mem)
    && SlotsIn(r, e.slots, e.bouncesOut, e.bounceBuf)
    && e.bytesAcc + Total(r.c, e.chunksOut) == Total(r.c, e.issued)
  }

  // One thing that happens to a read in flight.
  datatype Move =
    | TurnedAway                             // -EBUSY, or no context: everything is as before
    | SendChunk(p: Piece)
    | SendBounce(p: Piece)
    | FinishChunk(k: nat, bad: bool, junk: nat -> byte)
    | FinishBounce(k: nat, bad: bool, junk: nat -> byte)
    | NoteError(code: nat, fault: bool)      // a failed submission, or a check of the program's own
    | Allocate(buf: seq<byte>)
    | Describe(desc: Descriptor)

  ghost predicate Makes(r: Request, a: Engine, m: Move, b: Engine) {
    match m
    case TurnedAway => b == a
    case SendChunk(p) => p.Chunk? && Ok(r, p) && b == ChunkSent(a, p)
    case SendBounce(p) =>
      && p.Bounce? && Ok(r, p)
      && |a.bounces| < (if r.c.stream then 1 else BOUNCE_SLOTS)
      && |a.bounceBuf| == Bytes(r.c, if r.c.stream then 1 else BOUNCE_SLOTS)
      && b == BounceSent(r, a, p)
    case FinishChunk(k, bad, junk) =>
      && k < |a.chunksOut| && r.base + a.chunksOut[k].at + Len(r.c, a.chunksOut[k]) <= |a.mem|
      && b == ChunkDone(r, a, k, bad, junk)
    case FinishBounce(k, bad, junk) =>
      && k < |a.bouncesOut| && Bytes(r.c, a.bouncesOut[k].slot) + r.c.lba <= |a.bounceBuf|
      && b == BounceDone(r, a, k, bad, junk)
    case NoteError(code, fault) => code != 0 && b == a.(err := code, faulty := a.faulty || fault)
    case Allocate(buf) =>
      && r.c.lba > 0 && a.bounceBuf == [] && !r.c.stream && |buf| == Bytes(r.c, BOUNCE_SLOTS)
      && b == a.(bounceBuf := buf)
    case Describe(desc) => b == a.(desc := desc)
  }

  ghost predicate Moves(r: Request, a: Engine, b: Engine) {
    exists m: Move :: Makes(r, a, m, b)
  }

  // The states of a run, from dispatch on.
  ghost predicate History(r: Request, states: seq<Engine>) {
    && states != [] && Fresh(r, states[0])
    && forall i :: 0 < i < |states| ==> Moves(r, states[i - 1], states[i])
  }

  ghost predicate Reached(r: Request, e: Engine) {
    exists states :: History(r, states) && states[|states| - 1] == e
  }

  lemma ReachedMore(r: Request, a: Engine, m: Move, b: Engine)
    requires Reached(r, a) && Makes(r, a, m, b)
    ensures Reached(r, b)
  {
    var states :| History(r, states) && states[|states| - 1] == a;
    var longer := states + [b];
    forall i | 0 < i < |longer| ensures Moves(r, longer[i - 1], longer[i]) {
      if i < |states| { assert Moves(r, states[i - 1], states[i]); }
    }
    assert History(r, longer);
  }

  // The clauses of the invariant.
  datatype Clause = Counting | Memory | Slots | Outstanding | Pieces | Arrival | Fault | Past

  ghost predicate Holding(r: Request, e: Engine, c: Clause) {
    match c
    case Counting => Counters(e)
    case Memory => MemOk(r, e.issued, e.mem, e.mem0)
    case Slots => SlotsOk(r, e.issued, e.slots, e.bounces, |e.bounceBuf|)
    case Outstanding => OutOk(e.issued, e.slots, e.chunksOut, e.bouncesOut)
    case Pieces => AllOk(r, e.issued)
    case Arrival => e.err == 0 ==> Arrived(r, e)
    case Fault => e.faulty ==> e.err != 0
    case Past => Reached(r, e)
  }

  // The invariant; stated clause by clause so that a proof opens it only where it looks inside.
  ghost predicate EngineOk(r: Request, e: Engine) {
    forall c: Clause :: Holding(r, e, c)
  }

  ghost predicate EngineFacts(r: Request, e: Engine) {
    && Counters(e)
    && MemOk(r, e.issued, e.mem, e.mem0)
    && SlotsOk(r, e.issued, e.slots, e.bounces, |e.bounceBuf|)
    && OutOk(e.issued, e.slots, e.chunksOut, e.bouncesOut)
    && AllOk(r, e.issued)
    && (e.err == 0 ==> Arrived(r, e))
    && (e.faulty ==> e.err != 0)
    && Reached(r, e)
  }

  lemma Open(r: Request, e: Engine)
    requires EngineOk(r, e)
    ensures EngineFacts(r, e)
  {
    assert Holding(r, e, Counting) && Holding(r, e, Memory) && Holding(r, e, Slots) && Holding(r, e, Outstanding);
    assert Holding(r, e, Pieces) && Holding(r, e, Arrival) && Holding(r, e, Fault) && Holding(r, e, Past);
  }

  lemma Close(r: Request, e: Engine)
    requires EngineFacts(r, e)
    ensures EngineOk(r, e)
  {
  }

  // ---------- lemmas about pieces and memory ----------

  lemma DataLands(r: Request, mem: seq<byte>, p: Piece)
    requires Ok(r, p) && r.base + r.size <= |mem|
    ensures Landed(r, Splice(mem, r.base + p.at, DiskBytes(r.disk, Src(r.c, p), Len(r.c, p))), p)
  {
  }

  // Two pieces that share a position want the same byte there.
  lemma LandedStays(r: Request, mem: seq<byte>, p: Piece, q: Piece)
    requires Ok(r, p) && Ok(r, q) && r.base + r.size <= |mem| && Landed(r, mem, q)
    ensures Landed(r, Splice(mem, r.base + p.at, DiskBytes(r.disk, Src(r.c, p), Len(r.c, p))), q)
  {
    var m := Splice(mem, r.base + p.at, DiskBytes(r.disk, Src(r.c, p), Len(r.c, p)));
    forall x: nat | Within(r.c, q, x) ensures m[r.base + x] == r.disk(Src(r.c, q) + x - q.at) {
      if Within(r.c, p, x) {
        assert Some(Src(r.c, p) + x - p.at) == Addr(r.c, r.exts, r.start + x) == Some(Src(r.c, q) + x - q.at);
      }
    }
  }

  lemma HitsMore(c: Config, ps: seq<Piece>, p: Piece, x: nat)
    ensures Hits(c, ps + [p], x) <==> Hits(c, ps, x) || Within(c, p, x)
  {
    var qs := ps + [p];
    if Hits(c, ps, x) {
      var k :| 0 <= k < |ps| && Within(c, ps[k], x);
      assert Within(c, qs[k], x);
    }
    if Within(c, p, x) { assert Within(c, qs[|ps|], x); }
  }

  lemma {:induction false} TotalWithout(c: Config, ps: seq<Piece>, k: nat)
    requires k < |ps|
    ensures Total(c, Without(ps, k)) + Len(c, ps[k]) == Total(c, ps)
  {
    TotalJoin(c, ps[..k], ps[k + 1..]);
    TotalJoin(c, ps[..k], ps[k..]);
    assert ps == ps[..k] + ps[k..] && ps[k..][1..] == ps[k + 1..];
  }

  lemma {:induction false} TotalMore(c: Config, ps: seq<Piece>, p: Piece)
    ensures Total(c, ps + [p]) == Total(c, ps) + Len(c, p)
  {
    TotalJoin(c, ps, [p]);
    assert Total(c, [p][1..]) == 0;
  }

  lemma {:induction false} BouncesMore(ps: seq<Piece>, p: Piece)
    ensures Bounces(ps + [p]) == Bounces(ps) + if p.Bounce? then 1 else 0
  {
    BouncesJoin(ps, [p]);
    assert Bounces([p][1..]) == 0;
  }

  lemma ChunkKeepsMem(r: Request, issued: seq<Piece>, mem: seq<byte>, mem0: seq<byte>, p: Piece, data: seq<byte>)
    requires MemOk(r, issued, mem, mem0) && p in issued && Ok(r, p) && |data| == Len(r.c, p)
    ensures MemOk(r, issued, Splice(mem, r.base + p.at, data), mem0)
  {
    var m := Splice(mem, r.base + p.at, data);
    forall x | 0 <= x < |m| && !Touched(r, issued, x) ensures m[x] == mem0[x] {
      if r.base <= x { assert !Within(r.c, p, x - r.base); }
    }
  }

  lemma ChunkArrives(r: Request, issued: seq<Piece>, out: seq<Piece>, k: nat, mem: seq<byte>, p: Piece, mem': seq<byte>)
    requires AllOk(r, issued) && k < |out| && p == out[k] && p in issued && Ok(r, p) && r.base + r.size <= |mem|
    requires mem' == Splice(mem, r.base + p.at, DiskBytes(r.disk, Src(r.c, p), Len(r.c, p)))
    requires ChunksIn(r, issued, out, mem)
    ensures ChunksIn(r, issued, Without(out, k), mem')
  {
    forall q | q in issued && q.Chunk? && q !in Without(out, k) ensures Landed(r, mem', q) {
      if q == p {
        DataLands(r, mem, p);
      } else {
        NotWithout(out, k, q);
        LandedStays(r, mem, p, q);
      }
    }
  }

  lemma NotWithout<T>(xs: seq<T>, k: nat, x: T)
    requires k < |xs| && x !in Without(xs, k) && x != xs[k]
    ensures x !in xs
  {
    assert xs == xs[..k] + [xs[k]] + xs[k + 1..];
  }

  lemma {:induction false} OtherSlot(r: Request, buf: seq<byte>, k: nat, j: nat, data: seq<byte>)
    requires k < BOUNCE_SLOTS && j < BOUNCE_SLOTS && k != j && |data| == r.c.lba
    requires Bytes(r.c, k) + r.c.lba <= |buf| && Bytes(r.c, j) + r.c.lba <= |buf|
    ensures var buf' := Splice(buf, Bytes(r.c, k), data);
            buf'[Bytes(r.c, j)..Bytes(r.c, j) + r.c.lba] == buf[Bytes(r.c, j)..Bytes(r.c, j) + r.c.lba]
  {
  }

  lemma {:induction false} SlotRoom(r: Request, issued: seq<Piece>, slots: seq<Piece>, bounces: seq<BounceSlot>,
      room: nat, k: nat)
    requires SlotsOk(r, issued, slots, bounces, room) && k < |slots|
    ensures k < BOUNCE_SLOTS && Bytes(r.c, k) + r.c.lba <= room
  {
  }

  lemma BounceArrives(r: Request, slots: seq<Piece>, out: seq<BounceCmd>, k: nat, buf: seq<byte>)
    requires SlotsIn(r, slots, out, buf) && k < |out| && |slots| <= BOUNCE_SLOTS
    requires out[k].slot < |slots| && slots[out[k].slot].Bounce? && out[k].slba == slots[out[k].slot].slba
    requires forall j :: 0 <= j < |slots| ==> Bytes(r.c, j) + r.c.lba <= |buf|
    ensures SlotsIn(r, slots, Without(out, k),
                    Splice(buf, Bytes(r.c, out[k].slot), DiskBytes(r.disk, Bytes(r.c, out[k].slba), r.c.lba)))
  {
    var b := out[k];
    var data := DiskBytes(r.disk, Bytes(r.c, b.slba), r.c.lba);
    var buf' := Splice(buf, Bytes(r.c, b.slot), data);
    forall j | 0 <= j < |slots| && slots[j].Bounce? && BounceCmd(j, slots[j].slba) !in Without(out, k)
      ensures SlotFilled(r, buf', j, slots[j].slba)
    {
      if j == b.slot {
        assert buf'[Bytes(r.c, j)..Bytes(r.c, j) + r.c.lba] == data;
      } else {
        NotWithout(out, k, BounceCmd(j, slots[j].slba));
        OtherSlot(r, buf, b.slot, j, data);
      }
    }
  }

  // The stream's descriptor names the destination of its one bounced command.
  ghost predicate DescOk(r: Request, e: Engine) {
    r.c.stream && e.bounces != [] ==> e.desc.dst == e.bounces[0].dst
  }

  // Only completions have happened between a and b.
  ghost predicate Poked(a: Engine, b: Engine) {
    && b.mem0 == a.mem0 && b.bounces == a.bounces && b.issued == a.issued && b.slots == a.slots && b.desc == a.desc
    && |b.bounceBuf| == |a.bounceBuf|
    && |b.chunksOut| + |b.bouncesOut| <= |a.chunksOut| + |a.bouncesOut|
    && (a.err != 0 ==> b.err != 0)
    && (!b.faulty ==> !a.faulty && b.err == a.err)
  }

  // Between a and b the plan has been carried out; or, if not ok, some of it. With nothing
  // failing outside the program it is carried out up to its own error.
  ghost predicate Sent(a: Engine, b: Engine, plan: Plan, ok: bool) {
    && b.mem0 == a.mem0
    && (ok ==> plan.err == 0 && b.issued == a.issued + plan.pieces)
    && (!ok ==> b.err != 0 && b.issued <= a.issued + plan.pieces)
    && (a.err != 0 ==> b.err != 0)
    && (!b.faulty ==>
          && !a.faulty && b.issued == a.issued + plan.pieces
          && ok == (plan.err == 0) && b.err == (if ok then a.err else plan.err))
  }

  // On the way from a through the plan full: rest is still to be carried out.
  ghost predicate OnCourse(a: Engine, b: Engine, full: Plan, rest: Plan) {
    && b.mem0 == a.mem0 && a.issued + full.pieces == b.issued + rest.pieces && full.err == rest.err
    && (a.err != 0 ==> b.err != 0) && (!b.faulty ==> !a.faulty && b.err == a.err)
  }

  lemma CourseStarts(a: Engine, full: Plan)
    ensures OnCourse(a, a, full, full)
  {
  }

  lemma CourseSent(a: Engine, b: Engine, d: Engine, full: Plan, p: Plan, rest: Plan)
    requires OnCourse(a, b, full, Plan(p.pieces + rest.pieces, rest.err)) && Sent(b, d, p, true)
    ensures OnCourse(a, d, full, rest)
  {
    assert b.issued + (p.pieces + rest.pieces) == b.issued + p.pieces + rest.pieces;
  }

  // A part fails: with its own error, which is the plan's, or because of a fault.
  lemma CourseFails(a: Engine, b: Engine, d: Engine, full: Plan, p: Plan, rest: Plan)
    requires OnCourse(a, b, full, rest) && Sent(b, d, p, false)
    requires if p.err != 0 then rest == p else p.pieces <= rest.pieces
    ensures Sent(a, d, full, false)
  {
    assert b.issued + p.pieces <= b.issued + rest.pieces;
    assert p.err == 0 ==> d.faulty;
  }

  // Two parts, one after the other, are the whole.
  lemma BothSent(a: Engine, b: Engine, d: Engine, p: Plan, q: Plan, ok: bool)
    requires Sent(a, b, p, true) && Sent(b, d, q, ok)
    ensures Sent(a, d, Plan(p.pieces + q.pieces, q.err), ok)
  {
    assert a.issued + p.pieces + q.pieces == a.issued + (p.pieces + q.pieces);
  }

  // The first part fails: with its own error the whole stops there, else by a fault.
  lemma FirstFails(a: Engine, b: Engine, p: Plan, full: Plan)
    requires Sent(a, b, p, false) && if p.err != 0 then full == p else p.pieces <= full.pieces
    ensures Sent(a, b, full, false)
  {
    assert a.issued + p.pieces <= a.issued + full.pieces;
    assert p.err == 0 ==> b.faulty;
  }

  lemma CourseDone(a: Engine, b: Engine, full: Plan)
    requires OnCourse(a, b, full, Plan([], 0))
    ensures Sent(a, b, full, true)
  {
    assert b.issued + [] == b.issued;
  }

  ghost predicate SameRoom(a: Engine, b: Engine) {
    |b.bounceBuf| == |a.bounceBuf|
  }

  // What one attempt to bounce p comes to, on an empty or an occupied slot.
  ghost function OnePlan(err: nat, p: Piece): Plan {
    if err != 0 then Plan([], err) else Plan([p], 0)
  }

  // What the tail of a span comes to; there may be none.
  ghost function TailPlan(c: Config, nb: nat, at: nat, slba: nat, n: nat): Plan {
    if n == 0 then Plan([], 0) else OnePlan(PartialErr(c, nb, 0, n), Bounce(at, slba, 0, n))
  }

  lemma NothingSent(a: Engine)
    ensures Sent(a, a, Plan([], 0), true)
  {
  }

  lemma BounceIssued(r: Request, a: Engine, b: Engine, p: Piece)
    requires Poked(a, b) && p.Bounce?
    ensures Sent(a, BounceSent(r, b, p), Plan([p], 0), true)
    ensures Sent(a, Broken(b), Plan([p], 0), false)
  {
  }

  lemma Rejected(a: Engine, code: nat)
    requires code != 0
    ensures Sent(a, a.(err := code), Plan([], code), false)
  {
  }

  // On the way from a through the direct commands all: rest is still to be issued.
  ghost predicate Midway(r: Request, a: Engine, b: Engine, all: seq<Piece>, rest: seq<Piece>) {
    && b.mem0 == a.mem0 && b.bounces == a.bounces && b.desc == a.desc && |b.bounceBuf| == |a.bounceBuf|
    && a.issued + all == b.issued + rest && AllOk(r, rest)
    && (a.err != 0 ==> b.err != 0) && (!b.faulty ==> !a.faulty && b.err == a.err)
  }

  lemma MidwayPoked(r: Request, a: Engine, b: Engine, d: Engine, all: seq<Piece>, rest: seq<Piece>)
    requires Midway(r, a, b, all, rest) && Poked(b, d)
    ensures Midway(r, a, d, all, rest)
  {
  }

  lemma MidwaySent(r: Request, a: Engine, b: Engine, all: seq<Piece>, rest: seq<Piece>)
    requires Midway(r, a, b, all, rest) && rest != []
    ensures Midway(r, a, ChunkSent(b, rest[0]), all, rest[1..])
  {
    assert b.issued + rest == b.issued + [rest[0]] + rest[1..];
  }

  lemma MidwayBroken(r: Request, a: Engine, b: Engine, all: seq<Piece>, rest: seq<Piece>)
    requires Midway(r, a, b, all, rest)
    ensures Sent(a, Broken(b), Plan(all, 0), false)
  {
  }

  lemma MidwayDone(r: Request, a: Engine, b: Engine, all: seq<Piece>)
    requires Midway(r, a, b, all, [])
    ensures Sent(a, b, Plan(all, 0), true)
  {
    assert b.issued + [] == b.issued;
  }

  // ---------- completions and submissions ----------

  // chunk_cb on the k-th outstanding chunk; bad: the device reports an error, having left
  // anything in the chunk's range.
  ghost function ChunkDone(r: Request, e: Engine, k: nat, bad: bool, junk: nat -> byte): Engine
    requires k < |e.chunksOut| && r.base + e.chunksOut[k].at + Len(r.c, e.chunksOut[k]) <= |e.mem|
  {
    var p := e.chunksOut[k];
    var data := if bad then DiskBytes(junk, 0, Len(r.c, p)) else DiskBytes(r.disk, Src(r.c, p), Len(r.c, p));
    e.(mem := Splice(e.mem, r.base + p.at, data),
       chunksOut := Without(e.chunksOut, k), chunksRemaining := e.chunksRemaining - 1,
       bytesAcc := if bad then e.bytesAcc else e.bytesAcc + Len(r.c, p),
       err := if bad then DEVICE_DRIVER_ERROR else e.err, faulty := e.faulty || bad)
  }

  lemma ChunkFits(r: Request, e: Engine, k: nat)
    requires EngineOk(r, e) && k < |e.chunksOut|
    ensures e.chunksOut[k].Chunk? && r.base + e.chunksOut[k].at + Len(r.c, e.chunksOut[k]) <= |e.mem|
  {
    Open(r, e);
    assert Ok(r, e.chunksOut[k]);
  }

  lemma ChunkOut(issued: seq<Piece>, slots: seq<Piece>, out: seq<Piece>, bouncesOut: seq<BounceCmd>, k: nat)
    requires OutOk(issued, slots, out, bouncesOut) && k < |out|
    ensures OutOk(issued, slots, Without(out, k), bouncesOut)
  {
    forall p | p in Without(out, k) ensures p in out {
    }
  }

  lemma ChunkDoneKept(r: Request, e: Engine, k: nat, bad: bool, junk: nat -> byte)
    requires EngineOk(r, e) && k < |e.chunksOut| && r.base + e.chunksOut[k].at + Len(r.c, e.chunksOut[k]) <= |e.mem|
    ensures EngineOk(r, ChunkDone(r, e, k, bad, junk))
  {
    Open(r, e);
    var p := e.chunksOut[k];
    assert Ok(r, p);
    var data := if bad then DiskBytes(junk, 0, Len(r.c, p)) else DiskBytes(r.disk, Src(r.c, p), Len(r.c, p));
    ChunkKeepsMem(r, e.issued, e.mem, e.mem0, p, data);
    TotalWithout(r.c, e.chunksOut, k);
    var e' := ChunkDone(r, e, k, bad, junk);
    if e.err == 0 && !bad { ChunkArrives(r, e.issued, e.chunksOut, k, e.mem, p, e'.mem); }
    ReachedMore(r, e, FinishChunk(k, bad, junk), e');
    ChunkOut(e.issued, e.slots, e.chunksOut, e.bouncesOut, k);
    assert Counters(e');
    assert e'.err == 0 ==> Arrived(r, e');
    Close(r, e');
  }

  ghost function BounceDone(r: Request, e: Engine, k: nat, bad: bool, junk: nat -> byte): Engine
    requires k < |e.bouncesOut| && Bytes(r.c, e.bouncesOut[k].slot) + r.c.lba <= |e.bounceBuf|
  {
    var b := e.bouncesOut[k];
    var data := if bad then DiskBytes(junk, 0, r.c.lba) else DiskBytes(r.disk, Bytes(r.c, b.slba), r.c.lba);
    e.(bounceBuf := Splice(e.bounceBuf, Bytes(r.c, b.slot), data),
       bouncesOut := Without(e.bouncesOut, k), bouncesOutstanding := e.bouncesOutstanding - 1,
       err := if bad && e.err == 0 then DEVICE_DRIVER_ERROR else e.err, faulty := e.faulty || bad)
  }

  lemma BounceFits(r: Request, e: Engine, k: nat)
    requires EngineOk(r, e) && k < |e.bouncesOut|
    ensures Bytes(r.c, e.bouncesOut[k].slot) + r.c.lba <= |e.bounceBuf|
  {
    Open(r, e);
    SlotRoom(r, e.issued, e.slots, e.bounces, |e.bounceBuf|, e.bouncesOut[k].slot);
  }

  lemma BounceDoneKept(r: Request, e: Engine, k: nat, bad: bool, junk: nat -> byte)
    requires EngineOk(r, e) && k < |e.bouncesOut| && Bytes(r.c, e.bouncesOut[k].slot) + r.c.lba <= |e.bounceBuf|
    ensures EngineOk(r, BounceDone(r, e, k, bad, junk))
  {
    Open(r, e);
    if e.err == 0 && !bad {
      forall j | 0 <= j < |e.slots| ensures Bytes(r.c, j) + r.c.lba <= |e.bounceBuf| {
        SlotRoom(r, e.issued, e.slots, e.bounces, |e.bounceBuf|, j);
      }
      BounceArrives(r, e.slots, e.bouncesOut, k, e.bounceBuf);
    }
    ReachedMore(r, e, FinishBounce(k, bad, junk), BounceDone(r, e, k, bad, junk));
    Close(r, BounceDone(r, e, k, bad, junk));
  }

  // A direct command is accepted.
  ghost function ChunkSent(e: Engine, p: Piece): Engine {
    e.(chunksOut := e.chunksOut + [p], chunksRemaining := e.chunksRemaining + 1, issued := e.issued + [p])
  }

  lemma IssuedMem(r: Request, issued: seq<Piece>, mem: seq<byte>, mem0: seq<byte>, p: Piece)
    requires MemOk(r, issued, mem, mem0)
    ensures MemOk(r, issued + [p], mem, mem0)
  {
    forall x | 0 <= x < |mem| && !Touched(r, issued + [p], x) ensures mem[x] == mem0[x] {
      if r.base <= x { HitsMore(r.c, issued, p, x - r.base); }
    }
  }

  lemma ChunkSentKept(r: Request, e: Engine, p: Piece)
    requires EngineOk(r, e) && p.Chunk? && Ok(r, p)
    ensures EngineOk(r, ChunkSent(e, p))
  {
    Open(r, e);
    IssuedMem(r, e.issued, e.mem, e.mem0, p);
    TotalMore(r.c, e.chunksOut, p);
    TotalMore(r.c, e.issued, p);
    BouncesMore(e.issued, p);
    ReachedMore(r, e, SendChunk(p), ChunkSent(e, p));
    Close(r, ChunkSent(e, p));
  }

  // A bounced command is accepted; the slot is described and its bytes counted at once.
  ghost function BounceSent(r: Request, e: Engine, p: Piece): Engine
    requires p.Bounce?
  {
    var k := |e.bounces|;
    e.(bouncesOut := e.bouncesOut + [BounceCmd(k, p.slba)], bouncesOutstanding := e.bouncesOutstanding + 1,
       bounces := e.bounces + [BounceSlot(r.base + p.at, Bytes(r.c, k) + p.srcOff, p.n)],
       bytesAcc := e.bytesAcc + p.n, issued := e.issued + [p], slots := e.slots + [p])
  }

  lemma SlotOkMore(r: Request, issued: seq<Piece>, p: Piece, q: Piece, k: nat, b: BounceSlot)
    requires SlotOk(r, issued, q, k, b)
    ensures SlotOk(r, issued + [p], q, k, b)
  {
  }

  lemma {:induction false} BounceSentSlots(r: Request, issued: seq<Piece>, slots: seq<Piece>,
      bounces: seq<BounceSlot>, room: nat, p: Piece, b: BounceSlot)
    requires SlotsOk(r, issued, slots, bounces, room) && p.Bounce?
    requires |bounces| < (if r.c.stream then 1 else BOUNCE_SLOTS)
             && room == Bytes(r.c, if r.c.stream then 1 else BOUNCE_SLOTS)
    requires b == BounceSlot(r.base + p.at, Bytes(r.c, |bounces|) + p.srcOff, p.n)
    ensures SlotsOk(r, issued + [p], slots + [p], bounces + [b], room)
  {
    BouncesMore(issued, p);
    var issued', slots', bounces' := issued + [p], slots + [p], bounces + [b];
    forall k: nat | k < |slots'| ensures SlotOk(r, issued', slots'[k], k, bounces'[k]) {
      if k < |slots| { SlotOkMore(r, issued, p, slots[k], k, bounces[k]); }
    }
  }

  // The slot of a command just sent is not filled, and need not be.
  lemma BounceAwaited(r: Request, slots: seq<Piece>, out: seq<BounceCmd>, buf: seq<byte>, p: Piece)
    requires SlotsIn(r, slots, out, buf) && p.Bounce?
    ensures SlotsIn(r, slots + [p], out + [BounceCmd(|slots|, p.slba)], buf)
  {
    var slots', out' := slots + [p], out + [BounceCmd(|slots|, p.slba)];
    assert out'[|out|] == BounceCmd(|slots|, p.slba) && slots'[|slots|] == p;
    forall k | 0 <= k < |slots'| && slots'[k].Bounce? && BounceCmd(k, slots'[k].slba) !in out'
      ensures k < |slots| && slots'[k] == slots[k] && BounceCmd(k, slots[k].slba) !in out
    {
    }
  }

  lemma BounceSentOut(issued: seq<Piece>, slots: seq<Piece>, chunksOut: seq<Piece>, out: seq<BounceCmd>, p: Piece)
    requires OutOk(issued, slots, chunksOut, out) && p.Bounce? && |slots| < BOUNCE_SLOTS
    ensures OutOk(issued + [p], slots + [p], chunksOut, out + [BounceCmd(|slots|, p.slba)])
  {
  }

  lemma BounceSentArrived(r: Request, e: Engine, p: Piece, e': Engine)
    requires Arrived(r, e) && p.Bounce? && |e.slots| == |e.bounces| && e' == BounceSent(r, e, p)
    ensures Arrived(r, e')
  {
    TotalMore(r.c, e.issued, p);
    BounceAwaited(r, e.slots, e.bouncesOut, e.bounceBuf, p);
  }

  lemma BounceSentKept(r: Request, e: Engine, p: Piece)
    requires EngineOk(r, e) && p.Bounce? && Ok(r, p)
    requires |e.bounces| < (if r.c.stream then 1 else BOUNCE_SLOTS)
             && |e.bounceBuf| == Bytes(r.c, if r.c.stream then 1 else BOUNCE_SLOTS)
    ensures EngineOk(r, BounceSent(r, e, p))
  {
    Open(r, e);
    IssuedMem(r, e.issued, e.mem, e.mem0, p);
    BounceSentOut(e.issued, e.slots, e.chunksOut, e.bouncesOut, p);
    var e' := BounceSent(r, e, p);
    if e.err == 0 { BounceSentArrived(r, e, p, e'); }
    var b := e'.bounces[|e.bounces|];
    BounceSentSlots(r, e.issued, e.slots, e.bounces, |e.bounceBuf|, p, b);
    assert e'.bounces == e.bounces + [b];
    ReachedMore(r, e, SendBounce(p), e');
    Close(r, e');
  }

  lemma RoomOk(r: Request, e: Engine)
    requires EngineOk(r, e)
    ensures r.c.stream || e.bounceBuf != [] ==> |e.bounceBuf| == Bytes(r.c, if r.c.stream then 1 else BOUNCE_SLOTS)
  {
    Open(r, e);
  }

  lemma DescKept(r: Request, e: Engine, desc: Descriptor)
    requires EngineOk(r, e)
    ensures EngineOk(r, e.(desc := desc))
  {
    Open(r, e);
    ReachedMore(r, e, Describe(desc), e.(desc := desc));
    Close(r, e.(desc := desc));
  }

  // An error is noted, by the program's own check or because something failed.
  ghost function Broken(e: Engine): Engine {
    e.(err := DEVICE_DRIVER_ERROR, faulty := true)
  }

  lemma ErrorKept(r: Request, e: Engine, code: nat, fault: bool)
    requires EngineOk(r, e) && code != 0
    ensures EngineOk(r, e.(err := code, faulty := e.faulty || fault))
  {
    Open(r, e);
    ReachedMore(r, e, NoteError(code, fault), e.(err := code, faulty := e.faulty || fault));
    Close(r, e.(err := code, faulty := e.faulty || fault));
  }

  // The host bounce buffer is allocated before its first use.
  lemma AllocKept(r: Request, e: Engine, buf: seq<byte>)
    requires EngineOk(r, e) && r.c.lba > 0 && e.bounceBuf == [] && !r.c.stream && |buf| == Bytes(r.c, BOUNCE_SLOTS)
    ensures EngineOk(r, e.(bounceBuf := buf))
  {
    Open(r, e);
    assert Bytes(r.c, BOUNCE_SLOTS) == Bytes(r.c, 1) + r.c.lba;
    assert e.bounces == [];
    ReachedMore(r, e, Allocate(buf), e.(bounceBuf := buf));
    Close(r, e.(bounceBuf := buf));
  }

  // ---------- completion ----------

  // The destination holds, at every mapped position, the device byte of its file offset.
  ghost predicate ReadsFile(r: Request, mem: seq<byte>) {
    forall x: nat :: ReadsByte(r, mem, x)
  }

  ghost predicate ReadsByte(r: Request, mem: seq<byte>, x: nat) {
    x < r.size && Mapped(r.exts, r.start + x) ==>
      && r.base + x < |mem| && Addr(r.c, r.exts, r.start + x).Some?
      && mem[r.base + x] == r.disk(Addr(r.c, r.exts, r.start + x).value)
  }

  ghost predicate Wanted(r: Request, x: int) {
    r.base <= x < r.base + r.size && Mapped(r.exts, r.start + (x - r.base))
  }

  // Everything but the mapped destination bytes is as it was.
  ghost predicate OthersKept(r: Request, mem: seq<byte>, mem0: seq<byte>) {
    |mem| == |mem0| && forall x :: 0 <= x < |mem| && !Wanted(r, x) ==> mem[x] == mem0[x]
  }

  lemma OnlyWanted(r: Request, issued: seq<Piece>, mem: seq<byte>, mem0: seq<byte>)
    requires MemOk(r, issued, mem, mem0) && AllOk(r, issued) && Sorted(r.exts)
    ensures OthersKept(r, mem, mem0)
  {
    forall x | 0 <= x < |mem| && !Wanted(r, x) ensures mem[x] == mem0[x] {
      if Touched(r, issued, x) {
        var y: nat := x - r.base;
        var k :| 0 <= k < |issued| && Within(r.c, issued[k], y);
        assert Ok(r, issued[k]);
        MappedIffAddr(r.c, r.exts, r.start + y);
      }
    }
  }

  lemma {:induction false} SlotData(r: Request, buf: seq<byte>, k: nat, p: Piece)
    requires p.Bounce? && Ok(r, p) && SlotFilled(r, buf, k, p.slba)
    ensures var at := Bytes(r.c, k) + p.srcOff;
            at + p.n <= |buf| && buf[at..at + p.n] == DiskBytes(r.disk, Src(r.c, p), Len(r.c, p))
  {
    var base, at := Bytes(r.c, k), Bytes(r.c, k) + p.srcOff;
    var block := DiskBytes(r.disk, Bytes(r.c, p.slba), r.c.lba);
    var got, want := buf[at..at + p.n], DiskBytes(r.disk, Src(r.c, p), Len(r.c, p));
    forall j | 0 <= j < p.n ensures got[j] == want[j] {
      assert buf[base..base + r.c.lba][p.srcOff + j] == block[p.srcOff + j];
    }
    assert got == want;
  }

  // Direct commands and the first k bounced ones are in the destination.
  ghost predicate CopiedTo(r: Request, issued: seq<Piece>, slots: seq<Piece>, k: nat, mem: seq<byte>) {
    && (forall p :: p in issued && p.Chunk? ==> Landed(r, mem, p))
    && (forall i :: 0 <= i < k && i < |slots| ==> Landed(r, mem, slots[i]))
  }

  lemma CopySlot(r: Request, issued: seq<Piece>, slots: seq<Piece>, k: nat, mem: seq<byte>)
    requires AllOk(r, issued) && r.base + r.size <= |mem| && k < |slots| && (forall i :: 0 <= i < |slots| ==>
             slots[i] in issued)
    requires CopiedTo(r, issued, slots, k, mem)
    ensures slots[k].at + Len(r.c, slots[k]) <= r.size
    ensures CopiedTo(r, issued, slots, k + 1, Splice(mem, r.base + slots[k].at,
            DiskBytes(r.disk, Src(r.c, slots[k]), Len(r.c, slots[k]))))
  {
    var p := slots[k];
    assert Ok(r, p);
    var m := Splice(mem, r.base + p.at, DiskBytes(r.disk, Src(r.c, p), Len(r.c, p)));
    DataLands(r, mem, p);
    forall q | q in issued && q.Chunk? ensures Landed(r, m, q) { LandedStays(r, mem, p, q); }
    forall i | 0 <= i < k + 1 && i < |slots| ensures Landed(r, m, slots[i]) {
      if i < k { assert Ok(r, slots[i]); LandedStays(r, mem, p, slots[i]); }
    }
  }

  ghost function PlanOf(r: Request): Plan {
    ReadPlanOf(r.c, r.exts, r.start, r.size)
  }

  // With every command of an accepted plan in place, the file has been read.
  lemma AllCopied(r: Request, issued: seq<Piece>, slots: seq<Piece>, mem: seq<byte>)
    requires Sorted(r.exts) && issued == PlanOf(r).pieces && PlanOf(r).err == 0
    requires forall p :: p in issued && p.Bounce? ==> p in slots
    requires CopiedTo(r, issued, slots, |slots|, mem)
    ensures ReadsFile(r, mem)
  {
    PlanIsTheFileMap(r.c, r.exts, r.start, r.size);
    forall x: nat ensures ReadsByte(r, mem, x) {
      if x < r.size && Mapped(r.exts, r.start + x) { ByteCopied(r, issued, slots, mem, x); }
    }
  }

  lemma ByteCopied(r: Request, issued: seq<Piece>, slots: seq<Piece>, mem: seq<byte>, x: nat)
    requires AllOk(r, issued) && Hits(r.c, issued, x)
    requires forall p :: p in issued && p.Bounce? ==> p in slots
    requires CopiedTo(r, issued, slots, |slots|, mem)
    ensures ReadsByte(r, mem, x)
  {
    var k :| 0 <= k < |issued| && Within(r.c, issued[k], x);
    assert Ok(r, issued[k]);
    assert Landed(r, mem, issued[k]);
  }

  // ---------- whole requests ----------

  // The op as dispatch_pending leaves it, with nothing of it on the device.
  ghost predicate Fresh(r: Request, e: Engine) {
    && e.mem0 == e.mem && r.base + r.size <= |e.mem|
    && e.chunksRemaining == 0 && e.bouncesOutstanding == 0 && e.bytesAcc == 0 && e.err == 0 && !e.faulty
    && e.bounces == [] && e.chunksOut == [] && e.bouncesOut == [] && e.issued == [] && e.slots == []
    && (r.c.stream || e.bounceBuf != [] ==> |e.bounceBuf| == Bytes(r.c, if r.c.stream then 1 else BOUNCE_SLOTS))
  }

  lemma FreshOk(r: Request, e: Engine)
    requires Fresh(r, e)
    ensures EngineOk(r, e)
  {
    assert History(r, [e]);
    Close(r, e);
  }

  // ---------- every run of the engine ----------

  // Whatever the device accepts, turns away, fails and completes, in whatever order: along a
  // whole run the counters are the commands outstanding, and the invariant holds.
  lemma {:induction false} EveryRunCounts(r: Request, states: seq<Engine>)
    requires History(r, states)
    ensures forall i :: 0 <= i < |states| ==> Counters(states[i]) && EngineOk(r, states[i])
  {
    var n := |states| - 1;
    if n == 0 {
      FreshOk(r, states[0]);
    } else {
      var before := states[..n];
      assert before[n - 1] == states[n - 1];
      EveryRunCounts(r, before);
      assert Moves(r, states[n - 1], states[n]);
      var m: Move :| Makes(r, states[n - 1], m, states[n]);
      MoveKept(r, states[n - 1], m, states[n]);
      forall i | 0 <= i < n ensures Counters(states[i]) && EngineOk(r, states[i]) { assert before[i] == states[i]; }
    }
    Open(r, states[n]);
  }

  lemma MoveKept(r: Request, a: Engine, m: Move, b: Engine)
    requires EngineOk(r, a) && Makes(r, a, m, b)
    ensures EngineOk(r, b)
  {
    match m
    case TurnedAway =>
    case SendChunk(p) => ChunkSentKept(r, a, p);
    case SendBounce(p) => BounceSentKept(r, a, p);
    case FinishChunk(k, bad, junk) => ChunkDoneKept(r, a, k, bad, junk);
    case FinishBounce(k, bad, junk) => BounceDoneKept(r, a, k, bad, junk);
    case NoteError(code, fault) => ErrorKept(r, a, code, fault);
    case Allocate(buf) => AllocKept(r, a, buf);
    case Describe(desc) => DescKept(r, a, desc);
  }

  // In every state a run reaches: the read may be completed, by the counters, exactly when
  // the device has none of its commands; and then, without an error, every direct command
  // has put its bytes in place and every bounced one has filled its slot.
  lemma CountersTell(r: Request, e: Engine)
    requires Reached(r, e)
    ensures Counters(e)
    ensures e.chunksRemaining == 0 && e.bouncesOutstanding == 0 <==> e.chunksOut == [] && e.bouncesOut == []
    ensures e.chunksRemaining == 0 && e.bouncesOutstanding == 0 && e.err == 0 ==>
              && (forall p :: p in e.issued && p.Chunk? ==> Landed(r, e.mem, p))
              && (forall k :: 0 <= k < |e.slots| && e.slots[k].Bounce? ==>
                  SlotFilled(r, e.bounceBuf, k, e.slots[k].slba))
              && e.bytesAcc == Total(r.c, e.issued)
  {
    var states :| History(r, states) && states[|states| - 1] == e;
    EveryRunCounts(r, states);
    Open(r, e);
  }

  // Nothing is outstanding any more.
  ghost predicate Settled(r: Request, e: Engine) {
    EngineOk(r, e) && e.chunksRemaining == 0 && e.bouncesOutstanding == 0
  }

  lemma SettledFacts(r: Request, e: Engine)
    requires Settled(r, e) && Sorted(r.exts)
    ensures e.chunksOut == [] && e.bouncesOut == [] && OthersKept(r, e.mem, e.mem0)
    ensures AllOk(r, e.issued) && MemOk(r, e.issued, e.mem, e.mem0)
    ensures SlotsOk(r, e.issued, e.slots, e.bounces, |e.bounceBuf|)
    ensures e.err == 0 ==> CopiedTo(r, e.issued, e.slots, 0, e.mem) && e.bytesAcc == Total(r.c, e.issued)
    ensures e.err == 0 ==> forall k :: 0 <= k < |e.slots| ==> SlotFilled(r, e.bounceBuf, k, e.slots[k].slba)
    ensures e.faulty ==> e.err != 0
  {
    Open(r, e);
    OnlyWanted(r, e.issued, e.mem, e.mem0);
  }

  // What one bounce copy writes is what its command was to bring.
  lemma BounceCopy(r: Request, issued: seq<Piece>, slots: seq<Piece>, bounces: seq<BounceSlot>, k: nat,
      mem: seq<byte>, mem0: seq<byte>, buf: seq<byte>)
    requires AllOk(r, issued) && SlotsOk(r, issued, slots, bounces, |buf|) && k < |slots|
    requires SlotFilled(r, buf, k, slots[k].slba) && MemOk(r, issued, mem, mem0) && CopiedTo(r, issued, slots, k, mem)
    ensures bounces[k].src + bounces[k].n <= |buf| && bounces[k].dst + bounces[k].n <= |mem|
    ensures var m := Splice(mem, bounces[k].dst, buf[bounces[k].src..bounces[k].src + bounces[k].n]);
            CopiedTo(r, issued, slots, k + 1, m) && MemOk(r, issued, m, mem0)
  {
    var p := slots[k];
    var data := DiskBytes(r.disk, Src(r.c, p), Len(r.c, p));
    assert SlotOk(r, issued, p, k, bounces[k]);
    assert Ok(r, p);
    SlotData(r, buf, k, p);
    assert buf[bounces[k].src..bounces[k].src + bounces[k].n] == data;
    forall i | 0 <= i < |slots| ensures slots[i] in issued { assert SlotOk(r, issued, slots[i], i, bounces[i]); }
    CopySlot(r, issued, slots, k, mem);
    ChunkKeepsMem(r, issued, mem, mem0, p, data);
  }

  // The destination after the first k bounce copies.
  ghost function CopiedMem(e: Engine, k: nat): (m: seq<byte>)
    requires k <= |e.bounces|
    ensures |m| == |e.mem|
  {
    if k == 0 then e.mem
    else
      var m, b := CopiedMem(e, k - 1), e.bounces[k - 1];
      if b.src + b.n <= |e.bounceBuf| && b.dst + b.n <= |m| then Splice(m, b.dst, e.bounceBuf[b.src..b.src + b.n])
          else m
  }

  ghost predicate SlotFits(r: Request, e: Engine, k: nat) {
    k < |e.bounces| && e.bounces[k].src + e.bounces[k].n <= |e.bounceBuf|
        && e.bounces[k].dst + e.bounces[k].n <= |e.mem|
  }

  ghost predicate CopiesFit(r: Request, e: Engine) {
    forall k :: 0 <= k < |e.bounces| ==> SlotFits(r, e, k)
  }

  lemma CopiesStep(r: Request, e: Engine, k: nat)
    requires AllOk(r, e.issued) && SlotsOk(r, e.issued, e.slots, e.bounces, |e.bounceBuf|) && k < |e.bounces|
    requires SlotFilled(r, e.bounceBuf, k, e.slots[k].slba)
    requires MemOk(r, e.issued, CopiedMem(e, k), e.mem0) && CopiedTo(r, e.issued, e.slots, k, CopiedMem(e, k))
    ensures MemOk(r, e.issued, CopiedMem(e, k + 1), e.mem0)
            && CopiedTo(r, e.issued, e.slots, k + 1, CopiedMem(e, k + 1))
    ensures SlotFits(r, e, k)
  {
    BounceCopy(r, e.issued, e.slots, e.bounces, k, CopiedMem(e, k), e.mem0, e.bounceBuf);
    assert CopiedMem(e, k + 1) ==
           Splice(CopiedMem(e, k), e.bounces[k].dst, e.bounceBuf[e.bounces[k].src..e.bounces[k].src + e.bounces[k].n]);
  }

  lemma {:induction false} CopiesLand(r: Request, e: Engine, k: nat)
    requires AllOk(r, e.issued) && SlotsOk(r, e.issued, e.slots, e.bounces, |e.bounceBuf|) && k <= |e.bounces|
    requires forall i :: 0 <= i < |e.slots| ==> SlotFilled(r, e.bounceBuf, i, e.slots[i].slba)
    requires MemOk(r, e.issued, e.mem, e.mem0) && CopiedTo(r, e.issued, e.slots, 0, e.mem)
    ensures MemOk(r, e.issued, CopiedMem(e, k), e.mem0) && CopiedTo(r, e.issued, e.slots, k, CopiedMem(e, k))
    ensures forall i :: 0 <= i < k ==> SlotFits(r, e, i)
  {
    if k > 0 {
      CopiesLand(r, e, k - 1);
      CopiesStep(r, e, k - 1);
    }
  }

  lemma {:induction false} CopiesAreRight(r: Request, e: Engine)
    requires Settled(r, e) && Sorted(r.exts) && e.err == 0
    ensures CopiesFit(r, e)
    ensures CopiedTo(r, e.issued, e.slots, |e.slots|, CopiedMem(e, |e.bounces|))
    ensures forall k :: 0 <= k <= |e.bounces| ==> OthersKept(r, CopiedMem(e, k), e.mem0)
  {
    SettledFacts(r, e);
    CopiesLand(r, e, |e.bounces|);
    forall k | 0 <= k <= |e.bounces| ensures OthersKept(r, CopiedMem(e, k), e.mem0) {
      CopiesLand(r, e, k);
      OnlyWanted(r, e.issued, CopiedMem(e, k), e.mem0);
    }
  }

  // What complete_read_op finds when the plan was carried out and no error noted.
  lemma {:induction false} CompletesWell(r: Request, e: Engine)
    requires Settled(r, e) && Sorted(r.exts) && e.err == 0 && e.issued == PlanOf(r).pieces && PlanOf(r).err == 0
    ensures CopiesFit(r, e) && ReadsFile(r, CopiedMem(e, |e.bounces|))
    ensures forall k :: 0 <= k <= |e.bounces| ==> OthersKept(r, CopiedMem(e, k), e.mem0)
    ensures e.bytesAcc == MappedCount(r.exts, r.start, r.start + r.size) && !e.faulty
  {
    SettledFacts(r, e);
    CopiesAreRight(r, e);
    PlanCounts(r);
    AllCopied(r, e.issued, e.slots, CopiedMem(e, |e.bounces|));
  }

  lemma PlanCounts(r: Request)
    requires Sorted(r.exts)
    ensures AllOk(r, PlanOf(r).pieces)
    ensures PlanOf(r).err == 0 ==> Total(r.c, PlanOf(r).pieces) == MappedCount(r.exts, r.start, r.start + r.size)
  {
    PlanIsTheFileMap(r.c, r.exts, r.start, r.size);
  }

  // A stream read's one bounce is what the descriptor hands to the copy kernel.
  ghost predicate KernelReady(r: Request, e: Engine) {
    var d := e.desc;
    && d.n <= |e.bounceBuf| && (d.n > 0 ==> d.dst + d.n <= |e.mem|)
    && var m := if d.n == 0 then e.mem else Splice(e.mem, d.dst, e.bounceBuf[..d.n]);
    && OthersKept(r, m, e.mem0) && ReadsFile(r, m)
  }

  lemma StreamTail(r: Request, e: Engine, desc: Descriptor)
    requires Settled(r, e) && Sorted(r.exts) && r.c.stream && DescOk(r, e) && e.err == 0
    requires e.issued == PlanOf(r).pieces && PlanOf(r).err == 0
    requires desc == e.desc.(n := if e.bounces == [] then 0 else e.bounces[0].n)
    ensures KernelReady(r, e.(desc := desc))
  {
    SettledFacts(r, e);
    if e.bounces == [] {
      AllCopied(r, e.issued, e.slots, e.mem);
    } else {
      StreamPlanNoOffset(r);
      TailCopied(r, e, e.bounces[0]);
    }
  }

  // What complete_read_op finds for a stream op.
  lemma StreamCompletes(r: Request, e: Engine, desc: Descriptor)
    requires Settled(r, e) && Sorted(r.exts) && r.c.stream && DescOk(r, e)
    requires e.err == 0 ==> e.issued == PlanOf(r).pieces && PlanOf(r).err == 0
    requires desc == e.desc.(n := if e.err != 0 || e.bounces == [] then 0 else e.bounces[0].n)
    ensures OthersKept(r, e.mem, e.mem0)
    ensures e.err == 0 ==> KernelReady(r, e.(desc := desc))
    ensures e.err == 0 ==> e.bytesAcc == MappedCount(r.exts, r.start, r.start + r.size)
  {
    SettledFacts(r, e);
    if e.err == 0 {
      PlanCounts(r);
      StreamTail(r, e, desc);
    }
  }

  lemma TailCopied(r: Request, e: Engine, b: BounceSlot)
    requires Sorted(r.exts) && AllOk(r, e.issued) && MemOk(r, e.issued, e.mem, e.mem0)
    requires SlotsOk(r, e.issued, e.slots, e.bounces, |e.bounceBuf|) && |e.bounces| == 1 && b == e.bounces[0]
    requires SlotFilled(r, e.bounceBuf, 0, e.slots[0].slba) && CopiedTo(r, e.issued, e.slots, 0, e.mem)
    requires e.issued == PlanOf(r).pieces && PlanOf(r).err == 0
    requires forall p :: p in e.issued && p.Bounce? ==> p.srcOff == 0
    ensures b.n <= |e.bounceBuf| && b.dst + b.n <= |e.mem|
    ensures var m := Splice(e.mem, b.dst, e.bounceBuf[..b.n]);
            OthersKept(r, m, e.mem0) && ReadsFile(r, m) && (b.n == 0 ==> m == e.mem)
  {
    assert SlotOk(r, e.issued, e.slots[0], 0, b);
    BounceCopy(r, e.issued, e.slots, e.bounces, 0, e.mem, e.mem0, e.bounceBuf);
    var m := Splice(e.mem, b.dst, e.bounceBuf[..b.n]);
    assert e.bounceBuf[b.src..b.src + b.n] == e.bounceBuf[..b.n];
    AllCopied(r, e.issued, e.slots, m);
    OnlyWanted(r, e.issued, m, e.mem0);
  }

  // No bounce of a stream read starts inside its LBA.
  lemma StreamPlanNoOffset(r: Request)
    requires r.c.stream && PlanOf(r).err == 0
    ensures forall p :: p in PlanOf(r).pieces && p.Bounce? ==> p.srcOff == 0
  {
    if Ready(r.c) { WalkNoOffset(r.c, r.exts, 0, r.start, r.start + r.size, 0); }
  }

  lemma {:induction false} WalkNoOffset(c: Config, exts: seq<Extent>, i: nat, start: nat, end: nat, nb: nat)
    requires Ready(c) && i <= |exts| && c.stream && WalkPlan(c, exts, i, start, end, nb).err == 0
    ensures forall p :: p in WalkPlan(c, exts, i, start, end, nb).pieces && p.Bounce? ==> p.srcOff == 0
    decreases |exts| - i
  {
    if i < |exts| && exts[i].start < end {
      var lo, hi := SpanLo(exts[i], start), SpanHi(exts[i], end);
      if lo >= hi {
        WalkNoOffset(c, exts, i + 1, start, end, nb);
      } else {
        var span := SpanPlan(c, exts[i], start, lo, hi, nb);
        SpanNoOffset(c, exts[i], start, lo, hi, nb);
        WalkNoOffset(c, exts, i + 1, start, end, nb + Bounces(span.pieces));
      }
    }
  }

  lemma SpanNoOffset(c: Config, e: Extent, start: nat, lo: nat, hi: nat, nb: nat)
    requires Ready(c) && start <= lo < hi && e.start <= lo && c.stream && SpanPlan(c, e, start, lo, hi, nb).err == 0
    ensures forall p :: p in SpanPlan(c, e, start, lo, hi, nb).pieces && p.Bounce? ==> p.srcOff == 0
  {
    var off := lo - e.start;
    if Off(c, off) == 0 {
      BodyNoOffset(c, lo - start, e.slba + Lbas(c, off), hi - lo, nb);
    }
  }

  lemma BodyNoOffset(c: Config, at: nat, slba: nat, remaining: nat, nb: nat)
    requires Ready(c)
    ensures forall p :: p in BodyPlan(c, at, slba, remaining, nb).pieces && p.Bounce? ==> p.srcOff == 0
  {
    MiddleChunks(c, at, slba, Lbas(c, remaining));
  }
}
