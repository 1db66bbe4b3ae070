/**
  The host reference backend's read, and its agreement with the aisio engine on a file
  without holes.
 */
module RefBackend {
  import opened Common
  import opened PosixFile
  import opened DirectIo
  import opened ReadState
  import ReadPlan
  import opened ReadEngine

  const INTERNAL_ERROR: int := 5030

  // direct_aligned: address, size and offset are all multiples of the alignment
  predicate DirectAligned(address: nat, size: nat, off: int) {
    address % ALIGN == 0 && size % ALIGN == 0 && off % ALIGN == 0
  }

  /**
    ref_async_submit for a read: one pread when everything is aligned, the bounced read
    otherwise. The bounced read fails only if a call failed, the one pread also if it is
    interrupted. A result is a prefix of what the file holds; the whole of it on the bounced
    path, and on the direct path exactly when its one pread was not cut short.
   */
  method RefRead(fd: File, dst: array<byte>, address: nat, size: nat, off: int) returns (result: int)
    requires size <= dst.Length
    modifies fd`patience, fd`cuts, fd`errors, dst
    ensures result < 0 ==> result == -INTERNAL_ERROR && dst[..] == old(dst[..])
    ensures result < 0 <==> fd.errors != old(fd.errors)
                            || (address % ALIGN == size % ALIGN == off % ALIGN == 0 && fd.patience < old(fd.patience))
    ensures result >= 0 ==> result <= size && dst[result..] == old(dst[result..])
    ensures result >= 0 && size > 0 ==> off >= 0 && dst[..result] <= PosixRead(fd.content, off, size)
    ensures result >= 0 && size > 0 && (address % ALIGN != 0 || size % ALIGN != 0 || off % ALIGN != 0) ==>
            dst[..result] == PosixRead(fd.content, off, size)
    ensures result >= 0 && size > 0 && address % ALIGN == size % ALIGN == off % ALIGN == 0 ==>
              (dst[..result] == PosixRead(fd.content, off, size) <==> fd.cuts == old(fd.cuts))
    ensures result == 0 && size > 0 ==> off >= |fd.content|
  {
    if DirectAligned(address, size, off) {
      var r, data := fd.Pread(off, size);
      if !r.Done? {
        return -INTERNAL_ERROR;
      }
      Store(dst, 0, data);
      assert dst[..|data|] == dst[0..|data|];
      return |data|;
    }
    result := DirectPread(fd, dst, size, off);
    if result < 0 {
      result := -INTERNAL_ERROR;
    }
  }

  // The extents map exactly the bytes of the file, and the device holds them.
  ghost predicate HoleFreeFile(r: Request, content: seq<byte>) {
    && (forall o: nat :: ReadPlan.Mapped(r.exts, o) <==> o < |content|)
    && (forall o: nat :: o < |content| ==> HoldsByte(r, content, o))
  }

  ghost predicate HoldsByte(r: Request, content: seq<byte>, o: nat)
    requires o < |content|
  {
    var a := ReadPlan.Addr(r.c, r.exts, o);
    a.Some? && r.disk(a.value) == content[o]
  }

  lemma CountIsLength(r: Request, content: seq<byte>)
    requires HoleFreeFile(r, content)
    ensures ReadPlan.MappedCount(r.exts, r.start, r.start + r.size) == |PosixRead(content, r.start, r.size)|
  {
    var stop := Min(r.start + r.size, |content|);
    forall o: nat ensures ReadPlan.MappedFrom(r.exts, 0, o) <==> o < |content| {
      assert ReadPlan.Mapped(r.exts, o) <==> o < |content|;
    }
    assert ReadPlan.MappedIn(r.exts, 0, r.start, r.start + r.size) == ReadPlan.Range(r.start, stop);
  }

  /**
    What a read of the engine that ends without error leaves (see ReadOp.AsyncRead) is what
    pread delivers: the same count, the same bytes, and nothing else touched. With RefRead
    this is the agreement of the two backends, whichever branch the reference takes.
   */
  lemma AgreesWithPread(r: Request, content: seq<byte>, mem: seq<byte>, mem0: seq<byte>, n: int)
    requires HoleFreeFile(r, content) && r.base + r.size <= |mem|
    requires ReadsFile(r, mem) && OthersKept(r, mem, mem0)
    requires n == ReadPlan.MappedCount(r.exts, r.start, r.start + r.size)
    ensures n == |PosixRead(content, r.start, r.size)| && 0 <= n <= r.size
    ensures mem[r.base..r.base + n] == PosixRead(content, r.start, r.size)
    ensures mem[..r.base] == mem0[..r.base] && mem[r.base + n..] == mem0[r.base + n..]
  {
    CountIsLength(r, content);
    var want := PosixRead(content, r.start, r.size);
    forall x: nat | x < n ensures mem[r.base + x] == want[x] {
      assert ReadPlan.Mapped(r.exts, r.start + x);
      assert ReadsByte(r, mem, x);
      assert HoldsByte(r, content, r.start + x);
    }
    forall x | 0 <= x < |mem| && !(r.base <= x < r.base + n) ensures mem[x] == mem0[x] {
      if r.base <= x < r.base + r.size {
        var o: nat := r.start + (x - r.base);
        assert ReadPlan.Mapped(r.exts, o) <==> o < |content|;
      }
      assert !Wanted(r, x);
    }
  }

  lemma PrefixIsAll(got: seq<byte>, want: seq<byte>)
    requires got <= want
    ensures |got| == |want| <==> got == want
  {
  }

  // The same read on both backends: same count and same bytes on the bounced branch, and on
  // the aligned one exactly when its pread was not cut short.
  method ReadBoth(op: ReadOp, fd: File, dst: array<byte>, address: nat) returns (n: int, k: int)
    requires Fresh(op.r, op.State()) && ReadPlan.Sorted(op.r.exts) && !op.r.c.stream
    requires HoleFreeFile(op.r, fd.content) && 0 < op.r.size <= dst.Length
    modifies op, fd`patience, fd`cuts, fd`errors, dst
    ensures n >= 0 ==> n == |PosixRead(fd.content, op.r.start, op.r.size)| && op.r.base + n <= |op.mem|
    ensures n >= 0 && k >= 0 ==> k <= n && dst[..k] <= op.mem[op.r.base..op.r.base + n] && (k == 0 ==> n == 0)
    ensures n >= 0 && k >= 0 ==>
              (k == n && dst[..k] == op.mem[op.r.base..op.r.base + n]
               <==> (DirectAligned(address, op.r.size, op.r.start) ==> fd.cuts == old(fd.cuts)))
  {
    ghost var before := op.mem;
    ghost var want := PosixRead(fd.content, op.r.start, op.r.size);
    n := op.AsyncRead();
    if n >= 0 {
      AgreesWithPread(op.r, fd.content, op.mem, before, n);
      assert op.mem[op.r.base..op.r.base + n] == want;
    }
    k := RefRead(fd, dst, address, op.r.size, op.r.start);
    if k >= 0 { PrefixIsAll(dst[..k], want); }
  }

  // ---------- an aligned read cut short ----------

  // A file of one aligned block, mapped by one extent of one LBA, read whole.
  function OneBlock(): Request {
    Request(ReadPlan.Config(ALIGN, ALIGN, false, false), [ReadPlan.Extent(0, 0, ALIGN)], 0, ALIGN, 0, (_: nat) => 1)
  }

  function Ones(n: nat): (content: seq<byte>)
    ensures |content| == n && forall i :: 0 <= i < n ==> content[i] == 1
  {
    seq(n, _ => 1)
  }

  lemma OneBlockMapped()
    ensures HoleFreeFile(OneBlock(), Ones(ALIGN))
  {
    var r := OneBlock();
    forall o: nat ensures ReadPlan.Mapped(r.exts, o) <==> o < ALIGN {
      if o < ALIGN { assert ReadPlan.Holds(r.exts[0], o); }
    }
    forall o: nat | o < ALIGN ensures HoldsByte(r, Ones(ALIGN), o) {
      ReadPlan.AddrFromHolder(r.c, r.exts, 0, 0, o);
    }
  }

  lemma OneBlockAccepted()
    ensures PlanOf(OneBlock()).err == 0
  {
    var c, e := OneBlock().c, OneBlock().exts[0];
    assert ReadPlan.Off(c, 0) == 0 && ReadPlan.Off(c, ALIGN) == 0;
    assert ReadPlan.SpanPlan(c, e, 0, 0, ALIGN, 0).err == 0;
    var nb := ReadPlan.Bounces(ReadPlan.SpanPlan(c, e, 0, 0, ALIGN, 0).pieces);
    assert ReadPlan.WalkPlan(c, [e], 1, 0, ALIGN, nb).err == 0;
  }

  // The two backends do differ: the engine accepts the read and delivers the whole block,
  // while a pread that delivers its first half ends the reference's read.
  lemma CutAlignedReadDiffers(half: seq<byte>)
    requires half == Ones(ALIGN)[..ALIGN / 2]
    ensures var r := OneBlock();
            && HoleFreeFile(r, Ones(ALIGN)) && ReadPlan.Sorted(r.exts) && PlanOf(r).err == 0
            && DirectAligned(0, r.size, r.start) && MayDeliver(Ones(ALIGN), r.start, r.size, half)
            && |half| < ReadPlan.MappedCount(r.exts, r.start, r.start + r.size)
  {
    var r := OneBlock();
    OneBlockMapped();
    CountIsLength(r, Ones(ALIGN));
    OneBlockAccepted();
  }
}
