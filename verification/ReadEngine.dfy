/**
  The read engine: start_read_op and its helpers issue the commands, completions arrive in
  any order whenever the queue is poked, a submission may be turned away (EBUSY, no
  context), and complete_read_op assembles the result.

  The device is the part that is not under the program's control. What it answers is left
  open; that it turns a submission away, or lets a poke pass without a completion, only
  finitely often is the field patience. A command's bytes reach memory when it completes;
  a failed one may leave anything in the range it was given.
 */
module ReadEngine {
  import opened Common
  import opened ReadPlan
  import opened ReadState
  import ReadBounds
  import BounceKernel

  datatype Answer = Accepted | Busy | Refused

  class ReadOp {
    const r: Request
    ghost const mem0: seq<byte>          // the buffer before the request
    var mem: seq<byte>                   // the GPU buffer
    var bounceBuf: seq<byte>             // the op's or the stream's bounce slots; [] = not allocated
    var chunksRemaining: int
    var bouncesOutstanding: int
    var bytesAcc: nat
    var err: nat
    var bounces: seq<BounceSlot>         // bounces[..n_bounces]
    var desc: Descriptor
    // the device
    var chunksOut: seq<Piece>            // commands accepted and not completed
    var bouncesOut: seq<BounceCmd>
    var patience: nat
    var faulty: bool                     // something outside the program has failed
    // history
    ghost var issued: seq<Piece>         // commands accepted, in order
    ghost var slots: seq<Piece>          // the commands behind the bounce slots

    ghost function State(): Engine
      reads this
    {
      Engine(mem, mem0, bounceBuf, chunksRemaining, bouncesOutstanding, bytesAcc, err, bounces, desc,
             chunksOut, bouncesOut, faulty, issued, slots)
    }

    ghost predicate Valid()
      reads this
    {
      EngineOk(r, State())
    }

    // A read about to be started, over a buffer that takes the whole request. A stream op
    // works with its stream's bounce block, an async op may have its own from earlier.
    constructor (r: Request, mem: seq<byte>, bounceBuf: seq<byte>, patience: nat)
      requires r.base + r.size <= |mem|
      requires r.c.stream || bounceBuf != [] ==> |bounceBuf| == Bytes(r.c, if r.c.stream then 1 else BOUNCE_SLOTS)
      ensures this.r == r && this.mem == mem && Fresh(r, State())
    {
      this.r := r;
      this.mem0 := mem;
      this.mem := mem;
      this.bounceBuf := bounceBuf;
      this.chunksRemaining := 0;
      this.bouncesOutstanding := 0;
      this.bytesAcc := 0;
      this.err := 0;
      this.bounces := [];
      this.desc := Descriptor(0, 0);
      this.chunksOut := [];
      this.bouncesOut := [];
      this.patience := patience;
      this.faulty := false;
      this.issued := [];
      this.slots := [];
    }

    // ---------- completions ----------

    // chunk_cb
    method ChunkCb(k: nat, bad: bool, junk: nat -> byte)
      requires Valid() && k < |chunksOut|
      requires r.base + chunksOut[k].at + Len(r.c, chunksOut[k]) <= |mem| && chunksOut[k].Chunk?
      modifies this`mem, this`bytesAcc, this`err, this`chunksRemaining, this`chunksOut, this`faulty
      ensures State() == ChunkDone(r, old(State()), k, bad, junk)
      ensures Valid()
    {
      ghost var s1 := ChunkDone(r, State(), k, bad, junk);
      ChunkDoneKept(r, State(), k, bad, junk);
      var p := chunksOut[k];
      // the device: the command's bytes, or an error and whatever it left
      mem := Splice(mem, r.base + p.at, if bad then DiskBytes(junk, 0, Len(r.c, p))
          else DiskBytes(r.disk, Src(r.c, p), Len(r.c, p)));
      chunksOut := Without(chunksOut, k);
      faulty := faulty || bad;
      // the callback
      if bad {
        err := DEVICE_DRIVER_ERROR;
      } else {
        bytesAcc := bytesAcc + Bytes(r.c, p.nlb + 1);
      }
      chunksRemaining := chunksRemaining - 1;
      assert State() == s1;
    }

    // bounce_cb
    method BounceCb(k: nat, bad: bool, junk: nat -> byte)
      requires Valid() && k < |bouncesOut|
      requires Bytes(r.c, bouncesOut[k].slot) + r.c.lba <= |bounceBuf|
      modifies this`bounceBuf, this`err, this`bouncesOutstanding, this`bouncesOut, this`faulty
      ensures State() == BounceDone(r, old(State()), k, bad, junk)
      ensures Valid()
    {
      ghost var s1 := BounceDone(r, State(), k, bad, junk);
      BounceDoneKept(r, State(), k, bad, junk);
      var b := bouncesOut[k];
      bounceBuf := Splice(bounceBuf, Bytes(r.c, b.slot), if bad then DiskBytes(junk, 0, r.c.lba)
          else DiskBytes(r.disk, Bytes(r.c, b.slba), r.c.lba));
      bouncesOut := Without(bouncesOut, k);
      faulty := faulty || bad;
      if bad && err == 0 {
        err := DEVICE_DRIVER_ERROR;
      }
      bouncesOutstanding := bouncesOutstanding - 1;
      assert State() == s1;
    }

    // xnvme_queue_poke: any of the outstanding commands complete, in any order. A poke with
    // commands outstanding that completes none uses up patience.
    method Poke()
      requires Valid()
      modifies this`mem, this`bounceBuf, this`bytesAcc, this`err, this`chunksRemaining, this`bouncesOutstanding,
               this`chunksOut, this`bouncesOut, this`faulty, this`patience
      ensures Valid() && Poked(old(State()), State()) && patience <= old(patience)
      ensures old(|chunksOut| + |bouncesOut|) > 0 ==>
                patience < old(patience) || |chunksOut| + |bouncesOut| < old(|chunksOut| + |bouncesOut|)
    {
      if patience > 0 {
        var idle: bool := *;
        if idle {
          patience := patience - 1;
          return;
        }
      }
      var more := true;
      while more && |chunksOut| + |bouncesOut| > 0
        invariant Valid() && Poked(old(State()), State()) && patience == old(patience)
        invariant !more ==> |chunksOut| + |bouncesOut| < old(|chunksOut| + |bouncesOut|)
        decreases |chunksOut| + |bouncesOut|
      {
        var chunk: bool, k: nat, bad: bool, junk: nat -> byte := *, *, *, *;
        if chunksOut != [] && (chunk || bouncesOut == []) {
          k := k % |chunksOut|;
          ChunkFits(r, State(), k);
          ChunkCb(k, bad, junk);
        } else {
          k := k % |bouncesOut|;
          BounceFits(r, State(), k);
          BounceCb(k, bad, junk);
        }
        more := *;
      }
    }

    // ---------- submission ----------

    // xnvme_queue_get_cmd_ctx, poked until it yields a context
    method GetCtx()
      requires Valid()
      modifies this`mem, this`bounceBuf, this`bytesAcc, this`err, this`chunksRemaining, this`bouncesOutstanding,
               this`chunksOut, this`bouncesOut, this`faulty, this`patience
      ensures Valid() && Poked(old(State()), State()) && patience <= old(patience)
    {
      var none: bool := *;
      while none && patience > 0
        invariant Valid() && Poked(old(State()), State()) && patience <= old(patience)
        decreases patience
      {
        patience := patience - 1;
        Poke();
        none := *;
      }
    }

    // xnvme_nvm_read: taken, turned away with EBUSY, or failed
    method Ask() returns (a: Answer)
      modifies this`patience
      ensures patience <= old(patience) && (a == Busy ==> patience < old(patience))
    {
      var busy: bool, refused: bool := *, *;
      if busy && patience > 0 {
        patience := patience - 1;
        return Busy;
      }
      return if refused then Refused else Accepted;
    }

    // One attempt to issue a chunk.
    method IssueChunk(p: Piece) returns (a: Answer)
      requires Valid() && p.Chunk? && Ok(r, p)
      modifies this`chunksRemaining, this`chunksOut, this`issued, this`err, this`faulty, this`patience
      ensures a == Accepted ==> State() == ChunkSent(old(State()), p)
      ensures a == Busy ==> State() == old(State()) && patience < old(patience)
      ensures a == Refused ==> State() == Broken(old(State()))
      ensures Valid() && patience <= old(patience)
    {
      ghost var s0 := State();
      chunksRemaining := chunksRemaining + 1;
      a := Ask();
      if a == Busy {
        chunksRemaining := chunksRemaining - 1;
        assert State() == s0;
      } else if a == Refused {
        chunksRemaining := chunksRemaining - 1;
        faulty := true;
        err := DEVICE_DRIVER_ERROR;
        assert State() == Broken(s0);
        ErrorKept(r, s0, DEVICE_DRIVER_ERROR, true);
      } else {
        chunksOut := chunksOut + [p];
        issued := issued + [p];
        assert State() == ChunkSent(s0, p);
        ChunkSentKept(r, s0, p);
      }
    }

    method SubmitReadMiddle(at: nat, slba: nat, middleLbas: nat) returns (ok: bool)
      requires Valid() && Ready(r.c) && AllOk(r, Middle(r.c, at, slba, middleLbas))
      modifies this
      ensures Valid() && Sent(old(State()), State(), Plan(Middle(r.c, at, slba, middleLbas), 0), ok)
      ensures bounces == old(bounces) && desc == old(desc) && |bounceBuf| == old(|bounceBuf|)
              && patience <= old(patience)
    {
      ghost var e0 := State();
      ghost var all := Middle(r.c, at, slba, middleLbas);
      var maxChunkLbas := Lbas(r.c, r.c.mdts);
      var lbasDone := 0;
      ghost var rest := MiddleFrom(r.c, at, slba, middleLbas, 0);
      while lbasDone < middleLbas
        invariant lbasDone <= middleLbas && Valid() && patience <= old(patience)
        invariant rest == MiddleFrom(r.c, at, slba, middleLbas, lbasDone)
        invariant Midway(r, e0, State(), all, rest)
        decreases middleLbas - lbasDone, patience
      {
        var chunkLbas := Min(middleLbas - lbasDone, maxChunkLbas);
        chunkLbas := Min(chunkLbas, MAX_NLB);
        ghost var e1 := State();
        GetCtx();
        MidwayPoked(r, e0, e1, State(), all, rest);
        var p := Chunk(at + Bytes(r.c, lbasDone), slba + lbasDone, Word16(chunkLbas - 1));
        MiddleNext(r.c, at, slba, middleLbas, lbasDone, chunkLbas, p, rest);
        ghost var e2 := State();
        var answer := IssueChunk(p);
        if answer == Busy {
          Poke();
          MidwayPoked(r, e0, e2, State(), all, rest);
          continue;
        }
        if answer == Refused {
          MidwayBroken(r, e0, e2, all, rest);
          return false;
        }
        MidwaySent(r, e0, e2, all, rest);
        rest := rest[1..];
        lbasDone := lbasDone + chunkLbas;
      }
      MidwayDone(r, e0, State(), all);
      return true;
    }

    // The slot of an accepted command is filled in.
    method NoteBounce(p: Piece)
      requires p.Bounce?
      modifies this`bouncesOutstanding, this`bouncesOut, this`bounces, this`slots, this`bytesAcc, this`issued
      ensures State() == BounceSent(r, old(State()), p)
    {
      var slot := |bounces|;
      bouncesOut := bouncesOut + [BounceCmd(slot, p.slba)];
      bounces := bounces + [BounceSlot(r.base + p.at, Bytes(r.c, slot) + p.srcOff, p.n)];
      bouncesOutstanding := bouncesOutstanding + 1;
      bytesAcc := bytesAcc + p.n;
      issued := issued + [p];
      slots := slots + [p];
    }

    // One attempt to issue a bounced command.
    method AttemptBounce(p: Piece) returns (a: Answer)
      requires Valid() && p.Bounce? && Ok(r, p)
      requires |bounces| < (if r.c.stream then 1 else BOUNCE_SLOTS)
               && |bounceBuf| == Bytes(r.c, if r.c.stream then 1 else BOUNCE_SLOTS)
      modifies this`bouncesOutstanding, this`bouncesOut, this`bounces, this`slots, this`bytesAcc, this`issued,
          this`err, this`faulty, this`patience
      ensures a == Accepted ==> State() == BounceSent(r, old(State()), p)
      ensures a == Busy ==> State() == old(State()) && patience < old(patience)
      ensures a == Refused ==> State() == Broken(old(State()))
      ensures Valid() && patience <= old(patience)
    {
      ghost var s0 := State();
      a := Ask();
      if a == Refused {
        ErrorKept(r, s0, DEVICE_DRIVER_ERROR, true);
        faulty := true;
        err := DEVICE_DRIVER_ERROR;
        assert State() == Broken(s0);
      } else if a == Accepted {
        BounceSentKept(r, s0, p);
        NoteBounce(p);
      }
    }

    // The attempts to issue a bounced command, until it is taken or fails.
    method IssueBounce(p: Piece) returns (ok: bool)
      requires Valid() && p.Bounce? && Ok(r, p)
      requires |bounces| < (if r.c.stream then 1 else BOUNCE_SLOTS)
               && |bounceBuf| == Bytes(r.c, if r.c.stream then 1 else BOUNCE_SLOTS)
      modifies this
      ensures Valid() && Sent(old(State()), State(), Plan([p], 0), ok)
      ensures bounces == old(bounces) + if ok then [BounceSlot(r.base + p.at, Bytes(r.c, old(|bounces|)) + p.srcOff,
              p.n)] else []
      ensures SameRoom(old(State()), State()) && desc == old(desc) && patience <= old(patience)
    {
      ghost var e0 := State();
      while true
        invariant Valid() && patience <= old(patience) && Poked(e0, State())
        decreases patience
      {
        GetCtx();
        BounceIssued(r, e0, State(), p);
        var answer := AttemptBounce(p);
        if answer != Busy {
          return answer == Accepted;
        }
        Poke();
      }
    }

    method SubmitBounceRead(at: nat, slba: nat, srcOff: nat, n: nat) returns (ok: bool)
      requires Valid() && (r.c.stream ==>
               bounces == []) && |bounceBuf| == Bytes(r.c, if r.c.stream then 1 else BOUNCE_SLOTS)
      requires |bounces| < BOUNCE_SLOTS && srcOff + n <= r.c.lba ==> Ok(r, Bounce(at, slba, srcOff, n))
      modifies this
      ensures Valid()
      ensures Sent(old(State()), State(), OnePlan(if old(|bounces|) >= BOUNCE_SLOTS
              || srcOff + n > r.c.lba then INTERNAL_ERROR else 0, Bounce(at, slba, srcOff, n)), ok)
      ensures ok ==> bounces == old(bounces) + [BounceSlot(r.base + at, Bytes(r.c, old(|bounces|)) + srcOff, n)]
      ensures !ok ==> bounces == old(bounces)
      ensures SameRoom(old(State()), State()) && desc == old(desc) && patience <= old(patience)
    {
      ghost var e0 := State();
      var p := Bounce(at, slba, srcOff, n);
      if |bounces| >= BOUNCE_SLOTS || srcOff + n > r.c.lba {
        err := INTERNAL_ERROR;
        assert State() == e0.(err := INTERNAL_ERROR);
        Rejected(e0, INTERNAL_ERROR);
        ErrorKept(r, e0, INTERNAL_ERROR, false);
        return false;
      }
      ok := IssueBounce(p);
    }

    method SubmitStreamBounce(at: nat, slba: nat, n: nat) returns (ok: bool)
      requires Valid() && DescOk(r, State()) && r.c.stream
      requires PartialErr(r.c, |bounces|, 0, n) == 0 ==> Ok(r, Bounce(at, slba, 0, n))
      requires !r.c.alignedOnly
      modifies this
      ensures Valid() && DescOk(r, State())
      ensures Sent(old(State()), State(), OnePlan(PartialErr(r.c, old(|bounces|), 0, n), Bounce(at, slba, 0, n)), ok)
      ensures (ok ==> |bounces| == old(|bounces|) + 1) && patience <= old(patience)
    {
      ghost var e0 := State();
      if bounces != [] {
        err := INTERNAL_ERROR;
        assert State() == e0.(err := INTERNAL_ERROR);
        Rejected(e0, INTERNAL_ERROR);
        ErrorKept(r, e0, INTERNAL_ERROR, false);
        return false;
      }
      RoomOk(r, e0);
      ok := SubmitBounceRead(at, slba, 0, n);
      if !ok {
        return;
      }
      DescKept(r, State(), desc.(dst := r.base + at));
      desc := desc.(dst := r.base + at);
    }

    method SubmitHostBounce(at: nat, slba: nat, srcOff: nat, n: nat) returns (ok: bool)
      requires Valid() && r.c.lba > 0 && !r.c.stream && !r.c.alignedOnly
      requires PartialErr(r.c, |bounces|, srcOff, n) == 0 ==> Ok(r, Bounce(at, slba, srcOff, n))
      modifies this
      ensures Valid()
      ensures Sent(old(State()), State(), OnePlan(PartialErr(r.c, old(|bounces|), srcOff, n),
              Bounce(at, slba, srcOff, n)), ok)
      ensures (ok ==> |bounces| == old(|bounces|) + 1) && patience <= old(patience)
    {
      ghost var e0 := State();
      if bounceBuf == [] {
        var noMemory: bool, junk: nat -> byte := *, *;
        if noMemory {
          faulty := true;
          err := INTERNAL_ERROR;
          assert State() == e0.(err := INTERNAL_ERROR, faulty := true);
          ErrorKept(r, e0, INTERNAL_ERROR, true);
          return false;
        }
        bounceBuf := DiskBytes(junk, 0, Bytes(r.c, BOUNCE_SLOTS));
        AllocKept(r, e0, bounceBuf);
        assert State() == e0.(bounceBuf := bounceBuf);
      } else {
        RoomOk(r, e0);
      }
      ok := SubmitBounceRead(at, slba, srcOff, n);
    }

    method SubmitPartial(at: nat, slba: nat, srcOff: nat, n: nat) returns (ok: bool)
      requires Valid() && r.c.lba > 0 && DescOk(r, State())
      requires PartialErr(r.c, |bounces|, srcOff, n) == 0 ==> Ok(r, Bounce(at, slba, srcOff, n))
      modifies this
      ensures Valid() && DescOk(r, State())
      ensures Sent(old(State()), State(), OnePlan(PartialErr(r.c, old(|bounces|), srcOff, n),
              Bounce(at, slba, srcOff, n)), ok)
      ensures (ok ==> |bounces| == old(|bounces|) + 1) && patience <= old(patience)
    {
      ghost var e0 := State();
      if r.c.alignedOnly || (r.c.stream && srcOff != 0) {
        err := INVALID_VALUE;
        assert State() == e0.(err := INVALID_VALUE);
        Rejected(e0, INVALID_VALUE);
        ErrorKept(r, e0, INVALID_VALUE, false);
        return false;
      }
      if r.c.stream {
        ok := SubmitStreamBounce(at, slba, n);
      } else {
        ok := SubmitHostBounce(at, slba, srcOff, n);
      }
    }

    method SubmitWhole(at: nat, slba: nat, middleLbas: nat) returns (ok: bool)
      requires Valid() && DescOk(r, State()) && Ready(r.c) && AllOk(r, Middle(r.c, at, slba, middleLbas))
      modifies this
      ensures Valid() && DescOk(r, State()) && patience <= old(patience) && bounces == old(bounces)
      ensures Sent(old(State()), State(), Plan(Middle(r.c, at, slba, middleLbas), 0), ok)
    {
      ok := true;
      if middleLbas != 0 {
        ok := SubmitReadMiddle(at, slba, middleLbas);
      } else {
        NothingSent(State());
      }
    }

    method SubmitTail(at: nat, slba: nat, tailBytes: nat) returns (ok: bool)
      requires Valid() && DescOk(r, State()) && Ready(r.c)
               && AllOk(r, TailPlan(r.c, |bounces|, at, slba, tailBytes).pieces)
      modifies this
      ensures Valid() && DescOk(r, State()) && patience <= old(patience)
      ensures Sent(old(State()), State(), TailPlan(r.c, old(|bounces|), at, slba, tailBytes), ok)
    {
      ok := true;
      if tailBytes != 0 {
        assert PartialErr(r.c, |bounces|, 0, tailBytes) == 0 ==>
            TailPlan(r.c, |bounces|, at, slba, tailBytes).pieces[0] == Bounce(at, slba, 0, tailBytes);
        ok := SubmitPartial(at, slba, 0, tailBytes);
      } else {
        NothingSent(State());
      }
    }

    // What is left of a span from an LBA boundary on: whole LBAs, then the tail.
    method SubmitBody(at: nat, slba: nat, remaining: nat, ghost plan: Plan) returns (ok: bool)
      requires Valid() && DescOk(r, State()) && Ready(r.c)
      requires plan == BodyPlan(r.c, at, slba, remaining, |bounces|) && AllOk(r, plan.pieces)
      modifies this
      ensures Valid() && DescOk(r, State()) && patience <= old(patience)
      ensures Sent(old(State()), State(), plan, ok)
    {
      ghost var e0 := State();
      var tailBytes := Off(r.c, remaining);
      var middleLbas := Lbas(r.c, remaining - tailBytes);
      ghost var middle, end := BodySplit(r, at, slba, remaining, |bounces|);
      ok := SubmitWhole(at, slba, middleLbas);
      ghost var e1 := State();
      if !ok {
        FirstFails(e0, e1, middle, plan);
        return;
      }
      ok := SubmitTail(at + Bytes(r.c, middleLbas), slba + middleLbas, tailBytes);
      BothSent(e0, e1, State(), middle, end, ok);
    }

    // The part of the request that lies in extent e.
    method SubmitSpan(e: Extent, spanStart: nat, spanEnd: nat, ghost plan: Plan) returns (ok: bool)
      requires Valid() && DescOk(r, State()) && Ready(r.c) && e.start <= spanStart && r.start <= spanStart < spanEnd
      requires plan == SpanPlan(r.c, e, r.start, spanStart, spanEnd, |bounces|) && AllOk(r, plan.pieces)
      modifies this
      ensures Valid() && DescOk(r, State()) && patience <= old(patience)
      ensures Sent(old(State()), State(), plan, ok)
    {
      var offInExt := spanStart - e.start;
      var at := spanStart - r.start;
      var curSlba := e.slba + Lbas(r.c, offInExt);
      var remaining := spanEnd - spanStart;
      var headOff := Off(r.c, offInExt);
      if headOff == 0 {
        ok := SubmitBody(at, curSlba, remaining, plan);
      } else {
        ok := SubmitHeaded(at, curSlba, headOff, remaining, plan);
      }
    }

    // A span that starts inside an LBA.
    method SubmitHeaded(at: nat, slba: nat, headOff: nat, remaining: nat, ghost plan: Plan) returns (ok: bool)
      requires Valid() && DescOk(r, State()) && Ready(r.c) && 0 < headOff < r.c.lba
      requires plan == HeadedPlan(r.c, at, slba, headOff, remaining, |bounces|) && AllOk(r, plan.pieces)
      modifies this
      ensures Valid() && DescOk(r, State()) && patience <= old(patience)
      ensures Sent(old(State()), State(), plan, ok)
    {
      ghost var e0 := State();
      var headBytes := r.c.lba - headOff;
      if headBytes > remaining {
        headBytes := remaining;
      }
      if remaining - headBytes >= r.c.lba && headBytes % PRP_ALIGN != 0 {
        err := INVALID_VALUE;
        assert State() == e0.(err := INVALID_VALUE);
        Rejected(e0, INVALID_VALUE);
        ErrorKept(r, e0, INVALID_VALUE, false);
        return false;
      }
      ghost var head, body := HeadedSplit(r, at, slba, headOff, remaining, |bounces|);
      ok := SubmitPartial(at, slba, headOff, headBytes);
      if !ok {
        FirstFails(e0, State(), head, plan);
        return;
      }
      ghost var e1 := State();
      ok := SubmitBody(at + headBytes, slba + 1, remaining - headBytes, body);
      BothSent(e0, e1, State(), head, body, ok);
    }

    // One extent of the walk; e0, full: the state at its start and the whole plan,
    // walk and rest: what is left of the plan before and after.
    method VisitExtent(i: nat, reqEnd: nat, ghost e0: Engine, ghost full: Plan, ghost walk: Plan)
        returns (ok: bool, ghost rest: Plan)
      requires Valid() && DescOk(r, State()) && Ready(r.c) && i < |r.exts|
               && r.exts[i].start < reqEnd == r.start + r.size
      requires walk == WalkPlan(r.c, r.exts, i, r.start, reqEnd, |bounces|) && AllOk(r, walk.pieces)
               && OnCourse(e0, State(), full, walk)
      modifies this
      ensures Valid() && DescOk(r, State())
      ensures ok ==> rest == WalkPlan(r.c, r.exts, i + 1, r.start, reqEnd, |bounces|) && AllOk(r,
              rest.pieces) && OnCourse(e0, State(), full, rest)
      ensures !ok ==> Sent(e0, State(), full, false)
    {
      var e := r.exts[i];
      var spanStart := Max(r.start, e.start);
      var spanEnd := Min(reqEnd, e.start + e.len);
      if spanStart >= spanEnd {
        WalkSkips(r, i, |bounces|, walk);
        return true, walk;
      }
      ok, rest := VisitSpan(i, spanStart, spanEnd, e0, full, walk);
    }

    // The part of the request in extent i is not empty.
    method VisitSpan(i: nat, spanStart: nat, spanEnd: nat, ghost e0: Engine, ghost full: Plan, ghost walk: Plan)
        returns (ok: bool, ghost rest: Plan)
      requires Valid() && DescOk(r, State()) && Ready(r.c) && i < |r.exts| && r.exts[i].start < r.start + r.size
      requires SpanLo(r.exts[i], r.start) == spanStart < spanEnd == SpanHi(r.exts[i], r.start + r.size)
      requires walk == WalkPlan(r.c, r.exts, i, r.start, r.start + r.size, |bounces|)
      requires AllOk(r, walk.pieces) && OnCourse(e0, State(), full, walk)
      modifies this
      ensures Valid() && DescOk(r, State())
      ensures ok ==> rest == WalkPlan(r.c, r.exts, i + 1, r.start, r.start + r.size, |bounces|)
      ensures ok ==> AllOk(r, rest.pieces) && OnCourse(e0, State(), full, rest)
      ensures !ok ==> Sent(e0, State(), full, false)
    {
      ghost var e1 := State();
      ghost var nb := |bounces|;
      ghost var span;
      span, rest := WalkSplit(r, i, nb, walk);
      ok := SubmitSpan(r.exts[i], spanStart, spanEnd, span);
      WalkOn(e0, e1, State(), full, walk, span, rest, ok);
      if ok {
        SlotsGrow(r, e1, State(), span);
        assert |bounces| == nb + Bounces(span.pieces);
      }
    }

    // The loop of start_read_op over the extents.
    method WalkExtents(ghost full: Plan) returns (ok: bool)
      requires Valid() && DescOk(r, State()) && Ready(r.c)
      requires full == WalkPlan(r.c, r.exts, 0, r.start, r.start + r.size, |bounces|) && AllOk(r, full.pieces)
      modifies this
      ensures Valid() && DescOk(r, State()) && Sent(old(State()), State(), full, ok)
    {
      ghost var e0 := State();
      var reqEnd := r.start + r.size;
      CourseStarts(e0, full);
      ghost var walk := full;
      var i := 0;
      while i < |r.exts| && r.exts[i].start < reqEnd
        invariant i <= |r.exts| && Valid() && DescOk(r, State())
        invariant walk == WalkPlan(r.c, r.exts, i, r.start, reqEnd, |bounces|)
        invariant OnCourse(e0, State(), full, walk) && AllOk(r, walk.pieces)
      {
        ok, walk := VisitExtent(i, reqEnd, e0, full, walk);
        if !ok {
          return;
        }
        i := i + 1;
      }
      CourseDone(e0, State(), full);
      return true;
    }

    // start_read_op; ok: the plan was carried out to its end
    method StartReadOp() returns (ok: bool)
      requires Valid() && DescOk(r, State()) && issued == [] && bounces == [] && Sorted(r.exts)
      modifies this
      ensures Valid() && DescOk(r, State()) && Sent(old(State()), State(), PlanOf(r), ok)
    {
      ghost var e0 := State();
      PlanIsTheFileMap(r.c, r.exts, r.start, r.size);
      if r.c.lba == 0 || Lbas(r.c, r.c.mdts) == 0 || r.size > UINT64_MAX - r.start {
        err := if r.c.lba == 0 then INTERNAL_ERROR else INVALID_VALUE;
        assert State() == e0.(err := err);
        Rejected(e0, err);
        ErrorKept(r, e0, err, false);
        return false;
      }
      var noExtents: bool := *;
      if noExtents {
        faulty := true;
        err := FS_SETUP_ERROR;
        assert State() == e0.(err := FS_SETUP_ERROR, faulty := true);
        ErrorKept(r, e0, FS_SETUP_ERROR, true);
        return false;
      }
      ok := WalkExtents(PlanOf(r));
    }

    // run_bounce_copies
    method RunBounceCopies() returns (ok: bool)
      requires CopiesFit(r, State())
      modifies this`mem, this`faulty
      ensures ok ==> mem == CopiedMem(old(State()), |bounces|)
      ensures exists k :: 0 <= k <= |bounces| && mem == CopiedMem(old(State()), k)
      ensures faulty == (old(faulty) || !ok)
    {
      ghost var e0 := State();
      var i := 0;
      while i < |bounces|
        invariant i <= |bounces| && faulty == old(faulty) && mem == CopiedMem(e0, i)
      {
        assert SlotFits(r, e0, i);
        var b := bounces[i];
        var failed: bool := *;
        if failed {
          faulty := true;
          return false;
        }
        mem := Splice(mem, b.dst, bounceBuf[b.src..b.src + b.n]);
        i := i + 1;
      }
      return true;
    }

    // complete_read_op for an async op: the bounce copies, then the result
    method CompleteAsync() returns (n: int)
      requires Settled(r, State()) && Sorted(r.exts) && !r.c.stream
      requires err == 0 ==> issued == PlanOf(r).pieces && PlanOf(r).err == 0
      modifies this`mem, this`faulty
      ensures OthersKept(r, mem, mem0)
      ensures n >= 0 <==> err == 0 && !faulty
      ensures n >= 0 ==> ReadsFile(r, mem) && n == MappedCount(r.exts, r.start, r.start + r.size)
      ensures n < 0 ==> n == 0 - if err != 0 then err else DEVICE_DRIVER_ERROR
      ensures old(faulty) ==> faulty
    {
      if err != 0 {
        SettledFacts(r, State());
        return 0 - err;
      }
      n := bytesAcc;
      var ok := FinishCopies();
      if !ok {
        n := 0 - DEVICE_DRIVER_ERROR;
      }
    }

    // The bounce copies of a read whose commands have all succeeded.
    method FinishCopies() returns (ok: bool)
      requires Settled(r, State()) && Sorted(r.exts) && !r.c.stream && err == 0
      requires issued == PlanOf(r).pieces && PlanOf(r).err == 0
      modifies this`mem, this`faulty
      ensures OthersKept(r, mem, mem0) && faulty == (old(faulty) || !ok)
      ensures !old(faulty) && bytesAcc == MappedCount(r.exts, r.start, r.start + r.size)
      ensures ok ==> ReadsFile(r, mem)
    {
      CompletesWell(r, State());
      ok := RunBounceCopies();
    }

    // complete_read_op for a stream op: the result and the tail's length for the copy kernel
    method CompleteStream() returns (n: int)
      requires Settled(r, State()) && DescOk(r, State()) && Sorted(r.exts) && r.c.stream
      requires err == 0 ==> issued == PlanOf(r).pieces && PlanOf(r).err == 0
      modifies this`desc
      ensures OthersKept(r, mem, mem0)
      ensures n >= 0 <==> err == 0
      ensures n >= 0 ==> KernelReady(r, State()) && n == MappedCount(r.exts, r.start, r.start + r.size)
      ensures n < 0 ==> n == 0 - err && desc.n == 0
    {
      ghost var e0 := State();
      n := if err != 0 then 0 - err else bytesAcc;
      var tailBytes := if err != 0 || bounces == [] then 0 else bounces[0].n;
      ghost var d := desc.(n := tailBytes);
      StreamCompletes(r, e0, d);
      desc := desc.(n := tailBytes);
      assert State() == e0.(desc := d);
    }

    // The worker starts the read and polls until nothing is outstanding.
    method RunCommands()
      requires Fresh(r, State()) && Sorted(r.exts)
      modifies this
      ensures Settled(r, State()) && DescOk(r, State())
      ensures err == 0 ==> issued == PlanOf(r).pieces && PlanOf(r).err == 0
      ensures !faulty ==> err == PlanOf(r).err
      ensures issued <= PlanOf(r).pieces
    {
      ghost var e0 := State();
      FreshOk(r, e0);
      var _ := StartReadOp();
      assert [] + PlanOf(r).pieces == PlanOf(r).pieces;
      ghost var e1 := State();
      while chunksRemaining != 0 || bouncesOutstanding != 0
        invariant Valid() && Poked(e1, State())
        decreases patience, |chunksOut| + |bouncesOut|
      {
        Open(r, State());
        Poke();
      }
    }

    /**
      A whole read: whatever the extents, the request, the order of completions and the
      finitely many times a submission is turned away, a read that ends without error has
      put at every mapped position of the destination the device byte of its file offset,
      and returns how many those are; no other byte is ever written; nothing of the read is
      left on the device. It ends without error exactly when the extents allow the request in
      the device's mode and nothing failed outside the program, and a rejection is reported with its code.
     */
    method AsyncRead() returns (n: int)
      requires Fresh(r, State()) && Sorted(r.exts) && !r.c.stream
      modifies this
      ensures chunksOut == [] && bouncesOut == []
      ensures OthersKept(r, mem, old(mem))
      ensures n >= 0 <==> ReadBounds.Allowed(r.c, r.exts, r.start, r.size) && !faulty
      ensures n >= 0 ==> ReadsFile(r, mem) && n == MappedCount(r.exts, r.start, r.start + r.size)
      ensures n < 0 ==> n == 0 - if err != 0 then err else DEVICE_DRIVER_ERROR
      ensures n < 0 && !faulty ==> n == 0 - PlanOf(r).err
    {
      RunCommands();
      ReadBounds.AllowedIff(r.c, r.exts, r.start, r.size);
      SettledFacts(r, State());
      n := CompleteAsync();
    }

    // The same for a stream read, whose bounced tail is left to the copy kernel that runs on
    // the stream behind the gate.
    method StreamRead() returns (n: int)
      requires Fresh(r, State()) && Sorted(r.exts) && r.c.stream
      modifies this
      ensures chunksOut == [] && bouncesOut == []
      ensures OthersKept(r, mem, old(mem))
      ensures n >= 0 <==> ReadBounds.Allowed(r.c, r.exts, r.start, r.size) && !faulty
      ensures n >= 0 ==> KernelReady(r, State()) && n == MappedCount(r.exts, r.start, r.start + r.size)
      ensures n < 0 ==> desc.n == 0
      ensures n < 0 && !faulty ==> n == 0 - PlanOf(r).err
    {
      RunCommands();
      ReadBounds.AllowedIff(r.c, r.exts, r.start, r.size);
      SettledFacts(r, State());
      n := CompleteStream();
    }

    // The stream's copy kernel, reading the descriptor once the gate is open: however its
    // threads interleave, it completes the read.
    method RunKernel()
      requires KernelReady(r, State())
      modifies this`mem
      ensures OthersKept(r, mem, mem0) && ReadsFile(r, mem)
    {
      if desc.n > 0 {
        var gpu := new byte[|mem|](i requires 0 <= i < |mem| reads this => mem[i]);
        assert gpu[..] == mem;
        BounceKernel.CopyKernel(gpu, desc.dst, bounceBuf[..desc.n]);
        mem := gpu[..];
      }
    }
  }

  // The chunks of the middle behind the first done LBAs.
  ghost function MiddleFrom(c: Config, at: nat, slba: nat, total: nat, done: nat): seq<Piece>
    requires Ready(c) && done <= total
  {
    Middle(c, at + Bytes(c, done), slba + done, total - done)
  }

  // The next chunk of the loop is the next one of the plan.
  lemma MiddleNext(c: Config, at: nat, slba: nat, total: nat, done: nat, k: nat, p: Piece, rest: seq<Piece>)
    requires Ready(c) && done < total && k == Min(Min(total - done, Lbas(c, c.mdts)), MAX_NLB)
    requires p == Chunk(at + Bytes(c, done), slba + done, Word16(k - 1)) && rest == MiddleFrom(c, at, slba, total, done)
    ensures 0 < k && done + k <= total && rest != [] && rest[0] == p
    ensures rest[1..] == MiddleFrom(c, at, slba, total, done + k)
  {
    BytesAdd(c, done, k);
    assert rest[1..] == Middle(c, at + Bytes(c, done) + Bytes(c, k), slba + done + k, total - done - k);
  }

  lemma BodySplit(r: Request, at: nat, slba: nat, remaining: nat, nb: nat) returns (middle: Plan, end: Plan)
    requires Ready(r.c) && AllOk(r, BodyPlan(r.c, at, slba, remaining, nb).pieces)
    ensures var lbas, tail := Lbas(r.c, remaining), Off(r.c, remaining);
            && lbas == Lbas(r.c, remaining - tail)
            && middle == Plan(Middle(r.c, at, slba, lbas), 0)
            && end == TailPlan(r.c, nb, at + Bytes(r.c, lbas), slba + lbas, tail)
    ensures BodyPlan(r.c, at, slba, remaining, nb) == Plan(middle.pieces + end.pieces, end.err)
    ensures AllOk(r, middle.pieces) && AllOk(r, end.pieces)
  {
    var lbas, tail := Lbas(r.c, remaining), Off(r.c, remaining);
    LbasWhole(r.c, remaining);
    middle := Plan(Middle(r.c, at, slba, lbas), 0);
    end := TailPlan(r.c, nb, at + Bytes(r.c, lbas), slba + lbas, tail);
    assert middle.pieces + [] == middle.pieces;
    assert BodyPlan(r.c, at, slba, remaining, nb).pieces == middle.pieces + end.pieces;
  }

  lemma HeadedSplit(r: Request, at: nat, slba: nat, headOff: nat, remaining: nat, nb: nat)
      returns (head: Plan, body: Plan)
    requires Ready(r.c) && 0 < headOff < r.c.lba && AllOk(r, HeadedPlan(r.c, at, slba, headOff, remaining, nb).pieces)
    requires var n := HeadBytes(r.c, headOff, remaining); !(remaining - n >= r.c.lba && n % PRP_ALIGN != 0)
    ensures var n := HeadBytes(r.c, headOff, remaining);
            && head == OnePlan(PartialErr(r.c, nb, headOff, n), Bounce(at, slba, headOff, n))
            && body == BodyPlan(r.c, at + n, slba + 1, remaining - n, nb + 1)
    ensures head.err != 0 ==> HeadedPlan(r.c, at, slba, headOff, remaining, nb) == head
    ensures head.err == 0 ==> HeadedPlan(r.c, at, slba, headOff, remaining, nb) == Plan(head.pieces + body.pieces,
            body.err)
    ensures head.err == 0 ==> Ok(r, head.pieces[0]) && AllOk(r, body.pieces)
  {
    var n := HeadBytes(r.c, headOff, remaining);
    head := OnePlan(PartialErr(r.c, nb, headOff, n), Bounce(at, slba, headOff, n));
    body := BodyPlan(r.c, at + n, slba + 1, remaining - n, nb + 1);
    if head.err == 0 && PartialErr(r.c, nb, headOff, n) == 0 {
      assert head.pieces[0] in HeadedPlan(r.c, at, slba, headOff, remaining, nb).pieces;
    }
  }

  // The plan of the walk is the plan of the next span, then that of the rest.
  ghost predicate Splits(walk: Plan, span: Plan, rest: Plan) {
    walk == if span.err != 0 then span else Plan(span.pieces + rest.pieces, rest.err)
  }

  lemma WalkSkips(r: Request, i: nat, nb: nat, walk: Plan)
    requires Ready(r.c) && i < |r.exts| && r.exts[i].start < r.start + r.size
    requires SpanLo(r.exts[i], r.start) >= SpanHi(r.exts[i], r.start + r.size)
    requires walk == WalkPlan(r.c, r.exts, i, r.start, r.start + r.size, nb)
    ensures walk == WalkPlan(r.c, r.exts, i + 1, r.start, r.start + r.size, nb)
  {
  }

  lemma WalkSplit(r: Request, i: nat, nb: nat, walk: Plan) returns (span: Plan, rest: Plan)
    requires Ready(r.c) && i < |r.exts| && r.exts[i].start < r.start + r.size
    requires SpanLo(r.exts[i], r.start) < SpanHi(r.exts[i], r.start + r.size)
    requires walk == WalkPlan(r.c, r.exts, i, r.start, r.start + r.size, nb) && AllOk(r, walk.pieces)
    ensures span == SpanPlan(r.c, r.exts[i], r.start, SpanLo(r.exts[i], r.start),
            SpanHi(r.exts[i], r.start + r.size), nb)
    ensures rest == WalkPlan(r.c, r.exts, i + 1, r.start, r.start + r.size, nb + Bounces(span.pieces))
    ensures Splits(walk, span, rest) && AllOk(r, span.pieces) && (span.err == 0 ==> AllOk(r, rest.pieces))
  {
    span := SpanPlan(r.c, r.exts[i], r.start, SpanLo(r.exts[i], r.start), SpanHi(r.exts[i], r.start + r.size), nb);
    rest := WalkPlan(r.c, r.exts, i + 1, r.start, r.start + r.size, nb + Bounces(span.pieces));
  }

  lemma WalkOn(a: Engine, b: Engine, d: Engine, full: Plan, walk: Plan, span: Plan, rest: Plan, ok: bool)
    requires OnCourse(a, b, full, walk) && Splits(walk, span, rest) && Sent(b, d, span, ok)
    ensures ok ==> span.err == 0 && OnCourse(a, d, full, rest)
    ensures !ok ==> Sent(a, d, full, false)
  {
    if ok { CourseSent(a, b, d, full, span, rest); } else { CourseFails(a, b, d, full, span, walk); }
  }

  lemma SlotsGrow(r: Request, a: Engine, b: Engine, p: Plan)
    requires EngineOk(r, a) && EngineOk(r, b) && Sent(a, b, p, true)
    ensures |b.bounces| == |a.bounces| + Bounces(p.pieces)
  {
    SlotCount(r, a);
    SlotCount(r, b);
    BouncesJoin(a.issued, p.pieces);
  }

  lemma SlotCount(r: Request, e: Engine)
    requires EngineOk(r, e)
    ensures |e.bounces| == Bounces(e.issued)
  {
    Open(r, e);
  }
}
