/**
  opends_direct_pwrite and opends_direct_pread: reads and writes at any offset and size
  over a file that only takes aligned transfers, through an aligned bounce buffer whose
  edge blocks are first filled from the file.
 */
module DirectIo {
  import opened Common
  import opened PosixFile

  const ALIGN: nat := 4096             // OPENDS_DIRECT_ALIGN

  // ---------- geometry ----------

  // The aligned range around a request: where it starts, how far into it the request
  // begins, its length, and how much of it lies behind the request.
  datatype Geometry = Geometry(start: int, head: nat, span: nat, tail: nat)

  // start = off & ~(ALIGN - 1), span = (head + size + ALIGN - 1) & ~(ALIGN - 1)
  function GeometryOf(off: int, size: nat): (g: Geometry)
    requires size > 0
    ensures Around(g, off, size)
  {
    var head := off % ALIGN;
    var span := (head + size + ALIGN - 1) / ALIGN * ALIGN;
    Geometry(off - head, head, span, span - head - size)
  }

  // What the aligned range is used for.
  ghost predicate Around(g: Geometry, off: int, size: nat) {
    && size > 0 && g.start + g.head == off && g.head + size + g.tail == g.span
    && g.start % ALIGN == 0 && g.span % ALIGN == 0
    && g.head < ALIGN && g.tail < ALIGN && (g.span == ALIGN || g.span >= 2 * ALIGN)
    && (off >= 0 <==> g.start >= 0)
  }

  // memcpy into a buffer
  method Store(a: array<byte>, at: nat, data: seq<byte>)
    requires at + |data| <= a.Length
    modifies a
    ensures a[..] == Splice(old(a[..]), at, data)
    ensures a[..at] == old(a[..at]) && a[at..at + |data|] == data && a[at + |data|..] == old(a[at + |data|..])
  {
    forall i | 0 <= i < |data| {
      a[at + i] := data[i];
    }
  }

  // ---------- the read-modify-write of the edge blocks ----------

  // Byte x of an edge block as read_block leaves it when its pread delivered got bytes.
  function BlockByte(content: seq<byte>, off: nat, got: nat, x: nat): byte {
    if x < got then ByteOf(content, off + x) else 0
  }

  ghost predicate BlockFilled(b: seq<byte>, content: seq<byte>, off: nat, got: nat) {
    |b| == ALIGN && forall x :: 0 <= x < ALIGN ==> b[x] == BlockByte(content, off, got, x)
  }

  // The read of an edge block was not cut short before the end of the file.
  ghost predicate FullRead(content: seq<byte>, off: nat, got: nat) {
    got >= |PosixRead(content, off, ALIGN)|
  }

  // The pread of read_block, retried only when interrupted.
  method ReadOnce(fd: File, off: int) returns (r: Outcome, data: seq<byte>)
    modifies fd`patience, fd`cuts, fd`errors
    ensures fd.errors == Noted(old(fd.errors), FailCode(r))
    ensures !r.Interrupted? && (r.Failed? ==> r.errno > 0)
    ensures r.Done? ==> off >= 0 && data <= PosixRead(fd.content, off, ALIGN)
    ensures fd.cuts == old(fd.cuts) + if r.Done? && data != PosixRead(fd.content, off, ALIGN) then 1 else 0
  {
    r, data := fd.Pread(off, ALIGN);
    while r.Interrupted?
      invariant r.Done? ==> off >= 0 && data <= PosixRead(fd.content, off, ALIGN)
      invariant r.Failed? ==> r.errno > 0
      invariant fd.errors == Noted(old(fd.errors), FailCode(r))
      invariant fd.cuts == old(fd.cuts) + if r.Done? && data != PosixRead(fd.content, off, ALIGN) then 1 else 0
      decreases fd.patience, r.Interrupted?
    {
      r, data := fd.Pread(off, ALIGN);
    }
  }

  lemma PrefixBytes(content: seq<byte>, off: nat, data: seq<byte>)
    requires data <= PosixRead(content, off, ALIGN)
    ensures forall x :: 0 <= x < |data| ==> data[x] == ByteOf(content, off + x)
  {
  }

  // read_block: the bytes of one pread, the rest of the block zeroed; got: how many
  method ReadBlock(fd: File, bounce: array<byte>, at: nat, off: int) returns (err: int, ghost got: nat)
    requires at + ALIGN <= bounce.Length
    modifies fd`patience, fd`cuts, fd`errors, bounce
    ensures fd.errors == Noted(old(fd.errors), err)
    ensures err <= 0 && fd.cuts >= old(fd.cuts)
    ensures err == 0 ==> off >= 0 && BlockFilled(bounce[at..at + ALIGN], fd.content, off, got)
    ensures err == 0 && fd.cuts == old(fd.cuts) ==> FullRead(fd.content, off, got)
    ensures bounce[..at] == old(bounce[..at]) && bounce[at + ALIGN..] == old(bounce[at + ALIGN..])
  {
    var r, data := ReadOnce(fd, off);
    got := |data|;
    if r.Failed? {
      return -r.errno, 0;
    }
    forall x | 0 <= x < ALIGN {
      bounce[at + x] := if x < |data| then data[x] else 0;
    }
    PrefixBytes(fd.content, off, data);
    ghost var b := bounce[at..at + ALIGN];
    forall x | 0 <= x < ALIGN ensures b[x] == BlockByte(fd.content, off, |data|, x) {
      assert b[x] == bounce[at + x];
    }
    return 0, |data|;
  }

  // What the edges of the bounce buffer hold after rmw_fill: hd and tl are the bytes the
  // reads of the first and the last block delivered.
  ghost predicate EdgesFilled(b: seq<byte>, content: seq<byte>, g: Geometry, hd: nat, tl: nat)
    requires g.start >= 0
  {
    && |b| == g.span && g.head + g.tail <= g.span && g.tail <= ALIGN <= g.span
    && (forall x :: 0 <= x < g.head ==> b[x] == BlockByte(content, g.start, hd, x))
    && (forall x :: g.span - g.tail <= x < g.span ==>
        b[x] == BlockByte(content, g.start + g.span - ALIGN, tl, x - (g.span - ALIGN)))
  }

  // The edge blocks the write keeps bytes of were read to their end, or that of the file.
  ghost predicate EdgesRead(content: seq<byte>, g: Geometry, hd: nat, tl: nat)
    requires g.start >= 0 && g.span >= ALIGN
  {
    && (g.head > 0 ==> FullRead(content, g.start, hd))
    && (g.tail > 0 ==> FullRead(content, g.start + g.span - ALIGN, tl))
  }

  method RmwFill(fd: File, writeOnly: bool, bounce: array<byte>, g: Geometry, ghost off: int, ghost size: nat)
    returns (err: int, ghost hd: nat, ghost tl: nat)
    requires Around(g, off, size) && bounce.Length == g.span
    modifies fd`patience, fd`cuts, fd`errors, bounce
    ensures fd.errors == Noted(old(fd.errors), err)
    ensures err <= 0 && fd.cuts >= old(fd.cuts)
    ensures err == 0 && g.start >= 0 ==> EdgesFilled(bounce[..], fd.content, g, hd, tl)
    ensures err == 0 && g.start >= 0 && fd.cuts == old(fd.cuts) ==> EdgesRead(fd.content, g, hd, tl)
  {
    hd, tl := 0, 0;
    var last := g.span - ALIGN;
    if writeOnly {
      var reopens: bool, errno: nat := *, *;
      if !reopens {
        fd.errors := fd.errors + [errno + 1];
        return -(errno + 1), 0, 0;
      }
    }
    err := 0;
    if g.head > 0 {
      err, hd := ReadBlock(fd, bounce, 0, g.start);
      tl := hd;
      assert err == 0 ==> forall x :: 0 <= x < ALIGN ==> bounce[x] == bounce[0..ALIGN][x];
    }
    if err == 0 && g.tail > 0 && (last > 0 || g.head == 0) {
      ghost var before := bounce[..last];
      err, tl := ReadBlock(fd, bounce, last, g.start + last);
      assert bounce[..last] == before;
      assert err == 0 ==> forall x :: last <= x < g.span ==> bounce[x] == bounce[last..last + ALIGN][x - last];
      assert forall x :: 0 <= x < last ==> bounce[x] == before[x];
    }
  }

  // ---------- what a direct write leaves ----------

  // Where byte y of the filled bounce buffer comes from.
  function BounceByte(content: seq<byte>, g: Geometry, src: seq<byte>, hd: nat, tl: nat, y: nat): byte
    requires g.start >= 0 && g.tail <= ALIGN <= g.span && g.head + |src| + g.tail == g.span && y < g.span
  {
    if y < g.head then BlockByte(content, g.start, hd, y)
    else if y < g.head + |src| then src[y - g.head]
    else BlockByte(content, g.start + g.span - ALIGN, tl, y - (g.span - ALIGN))
  }

  // Where byte x of the file comes from after a write of src whose edge blocks were read
  // with hd and tl bytes.
  function ImageByte(content: seq<byte>, g: Geometry, src: seq<byte>, hd: nat, tl: nat, x: nat): byte
    requires g.start >= 0 && g.tail <= ALIGN <= g.span && g.head + |src| + g.tail == g.span
  {
    if g.start <= x < g.start + g.span then BounceByte(content, g, src, hd, tl, x - g.start) else ByteOf(content, x)
  }

  function DirectImage(content: seq<byte>, g: Geometry, src: seq<byte>, hd: nat, tl: nat): seq<byte>
    requires g.start >= 0 && g.tail <= ALIGN <= g.span && g.head + |src| + g.tail == g.span
  {
    seq(Max(|content|, g.start + g.head + |src|), x requires 0 <= x => ImageByte(content, g, src, hd, tl, x))
  }

  // No old byte of the edge blocks that the write keeps was missed by their reads, unless
  // it is zero anyway.
  ghost predicate NothingMissed(content: seq<byte>, g: Geometry, hd: nat, tl: nat) {
    forall x: nat :: !Missed(content, g, hd, tl, x)
  }

  ghost predicate Missed(content: seq<byte>, g: Geometry, hd: nat, tl: nat, x: nat) {
    && ByteOf(content, x) != 0
    && (g.start + hd <= x < g.start + g.head
        || (g.start + g.span - g.tail <= x < g.start + g.span && g.start + g.span - ALIGN + tl <= x))
  }

  lemma FullReadMissesNothing(content: seq<byte>, g: Geometry, hd: nat, tl: nat)
    requires g.start >= 0 && g.head < ALIGN && g.tail < ALIGN <= g.span && EdgesRead(content, g, hd, tl)
    ensures NothingMissed(content, g, hd, tl)
  {
  }

  /**
    A direct write does exactly what pwrite does, if and only if the reads of its edge
    blocks missed no non-zero byte the write keeps; in particular if they were not cut
    short before the end of the file.
   */
  lemma ImageIsPosixWrite(content: seq<byte>, g: Geometry, off: nat, src: seq<byte>, hd: nat, tl: nat)
    requires Around(g, off, |src|)
    ensures DirectImage(content, g, src, hd, tl) == PosixWrite(content, off, src) <==> NothingMissed(content, g, hd, tl)
  {
    var image, wanted := DirectImage(content, g, src, hd, tl), PosixWrite(content, off, src);
    if NothingMissed(content, g, hd, tl) {
      forall x: nat | x < |image| ensures image[x] == wanted[x] {
        assert !Missed(content, g, hd, tl, x);
        assert image[x] == ImageByte(content, g, src, hd, tl, x);
      }
      assert image == wanted;
    }
    if image == wanted {
      forall x: nat ensures !Missed(content, g, hd, tl, x) {
        if x < |image| {
          assert image[x] == ImageByte(content, g, src, hd, tl, x);
          assert image[x] == wanted[x];
        }
      }
    }
  }

  // A read of the first block cut short after one byte loses the byte before the write.
  lemma CutReadLosesBytes()
    ensures var content: seq<byte> := [7, 7, 7];
            && GeometryOf(2, 1) == Geometry(0, 2, ALIGN, ALIGN - 3)
            && DirectImage(content, GeometryOf(2, 1), [1], 1, 1) == [7, 0, 1]
                && PosixWrite(content, 2, [1]) == [7, 7, 1]
  {
    var content: seq<byte> := [7, 7, 7];
    var g := Geometry(0, 2, ALIGN, ALIGN - 3);
    assert GeometryOf(2, 1) == g;
    var image := DirectImage(content, g, [1], 1, 1);
    assert image[0] == 7 && image[1] == 0 && image[2] == 1;
  }

  // ---------- the write ----------

  // Every byte of the old file outside [off, off + size) still has its value.
  ghost predicate OldKept(before: seq<byte>, now: seq<byte>, off: int, size: nat) {
    forall x :: 0 <= x < |before| && !(off <= x < off + size) ==> x < |now| && now[x] == before[x]
  }

  // The bounce buffer once the edges are filled and the source is copied in.
  ghost predicate BounceReady(b: seq<byte>, content: seq<byte>, g: Geometry, src: seq<byte>, hd: nat, tl: nat)
    requires g.start >= 0
  {
    && g.tail <= ALIGN <= g.span && g.head + |src| + g.tail == g.span == |b|
    && forall y :: 0 <= y < g.span ==> b[y] == BounceByte(content, g, src, hd, tl, y)
  }

  /**
    At every iteration of the write loop, whatever was written so far, the old bytes outside
    the range are in place, if the edge reads missed nothing.
   */
  lemma EveryPrefixKeeps(b: seq<byte>, content: seq<byte>, g: Geometry, src: seq<byte>, hd: nat, tl: nat, done: nat)
    requires g.start >= 0 && BounceReady(b, content, g, src, hd, tl) && done <= |b| && NothingMissed(content, g, hd, tl)
    ensures OldKept(content, PosixWrite(content, g.start, b[..done]), g.start + g.head, |src|)
  {
    var off := g.start + g.head;
    var now := PosixWrite(content, g.start, b[..done]);
    forall x | 0 <= x < |content| && !(off <= x < off + |src|) ensures x < |now| && now[x] == content[x] {
      assert !Missed(content, g, hd, tl, x);
      if g.start <= x < g.start + done { assert now[x] == b[x - g.start]; }
    }
  }

  lemma WrittenByte(b: seq<byte>, content: seq<byte>, g: Geometry, src: seq<byte>, hd: nat, tl: nat, x: nat)
    requires g.start >= 0 && src != [] && BounceReady(b, content, g, src, hd, tl)
             && x < Max(|content|, g.start + g.head + |src|)
    ensures x < |PosixWrite(content, g.start, b)|
    ensures PosixWrite(content, g.start, b)[x] == ImageByte(content, g, src, hd, tl, x)
  {
    WrittenAt(content, g.start, b, x);
    if g.start <= x < g.start + g.span {
      assert b[x - g.start] == BounceByte(content, g, src, hd, tl, x - g.start);
    }
  }

  lemma WrittenAt(content: seq<byte>, start: nat, b: seq<byte>, x: nat)
    requires b != [] && x < Max(|content|, start + |b|)
    ensures x < |PosixWrite(content, start, b)|
    ensures PosixWrite(content, start, b)[x] == if start <= x < start + |b| then b[x - start] else ByteOf(content, x)
  {
  }

  // The trunc_to of the code: the length to cut back to, or -1.
  function TruncTo(len: nat, g: Geometry, size: nat): int
    requires g.start >= 0
  {
    var to := Max(len, g.start + g.head + size);
    if g.tail > 0 && g.start + g.span > to then to else -1
  }

  // Written out and cut back, the bounce buffer leaves the image.
  lemma WrittenIsImage(b: seq<byte>, content: seq<byte>, g: Geometry, src: seq<byte>, hd: nat, tl: nat)
    requires g.start >= 0 && src != [] && BounceReady(b, content, g, src, hd, tl)
    ensures var now, to := PosixWrite(content, g.start, b), TruncTo(|content|, g, |src|);
            DirectImage(content, g, src, hd, tl) == if to >= 0 then Truncated(now, to) else now
  {
    var len := Max(|content|, g.start + g.head + |src|);
    var now := PosixWrite(content, g.start, b);
    forall x: nat | x < len ensures x < |now| && now[x] == ImageByte(content, g, src, hd, tl, x) {
      WrittenByte(b, content, g, src, hd, tl, x);
    }
    assert TruncTo(|content|, g, |src|) < 0 ==> |now| == len;
  }

  // Cutting back does not lose an old byte either, if it happens.
  lemma CutKeeps(before: seq<byte>, now: seq<byte>, g: Geometry, size: nat)
    requires g.start >= 0 && OldKept(before, now, g.start + g.head, size) && TruncTo(|before|, g, size) >= 0
    ensures OldKept(before, Truncated(now, TruncTo(|before|, g, size)), g.start + g.head, size)
  {
  }

  method CopyIn(bounce: array<byte>, head: nat, src: seq<byte>) returns (ok: bool)
    requires head + |src| <= bounce.Length
    modifies bounce
    ensures ok ==> bounce[head..head + |src|] == src
    ensures bounce[..head] == old(bounce[..head]) && bounce[head + |src|..] == old(bounce[head + |src|..])
  {
    var fails: bool := *;
    if fails {
      return false;
    }
    Store(bounce, head, src);
    return true;
  }

  // The file after the first n bytes of b were written from start on; nothing can be
  // written at a negative offset.
  ghost function Written(content: seq<byte>, start: int, b: seq<byte>, n: nat): seq<byte>
    requires n <= |b|
  {
    if start >= 0 then PosixWrite(content, start, b[..n]) else content
  }

  lemma PrefixMore(b: seq<byte>, at: nat, n: nat)
    requires at + n <= |b|
    ensures b[..at] + b[at..][..n] == b[..at + n]
  {
    assert b[at..][..n] == b[at..at + n];
  }

  lemma WrittenMore(content: seq<byte>, start: nat, b: seq<byte>, at: nat, n: nat)
    requires at + n <= |b|
    ensures PosixWrite(Written(content, start, b, at), start + at, b[at..][..n]) == Written(content, start, b, at + n)
  {
    PrefixMore(b, at, n);
    WriteInPieces(content, start, b[..at], b[at..][..n]);
  }

  // The write loop: short writes go on where they stopped, interruptions are retried.
  method WriteAll(fd: File, b: seq<byte>, start: int) returns (err: int, ghost done: nat)
    requires b != []
    modifies fd`content, fd`patience, fd`errors
    ensures fd.errors == Noted(old(fd.errors), err)
    ensures err <= 0 && done <= |b| && (err == 0 ==> start >= 0 && done == |b|)
    ensures fd.content == Written(old(fd.content), start, b, done)
  {
    var at := 0;
    while at < |b|
      invariant at <= |b| && (at > 0 ==> start >= 0)
      invariant fd.content == Written(old(fd.content), start, b, at) && fd.errors == old(fd.errors)
      decreases |b| - at, fd.patience
    {
      var w := fd.Pwrite(b[at..], start + at);
      if w.Interrupted? {
        continue;
      }
      if w.Failed? {
        return -w.errno, at;
      }
      if w.n == 0 {
        return -EIO, at;
      }
      WrittenMore(old(fd.content), start, b, at, w.n);
      at := at + w.n;
    }
    return 0, at;
  }

  // The fstat of the code: the length to cut back to, or -1.
  method FindTruncTo(fd: File, g: Geometry, off: int, size: nat) returns (err: int, truncTo: int)
    requires Around(g, off, size)
    modifies fd`errors
    ensures fd.errors == Noted(old(fd.errors), err)
    ensures err <= 0 && (err == 0 && off >= 0 ==> truncTo == TruncTo(|fd.content|, g, size))
  {
    truncTo := -1;
    if g.tail > 0 {
      var st := fd.Fstat();
      if !st.Done? {
        return -st.errno, -1;
      }
      var len: int := if st.n < off + size then off + size else st.n;
      if g.start + g.span > len {
        truncTo := len;
      }
    }
    return 0, truncTo;
  }

  // The edge reads and the copy of the source.
  method FillBounce(fd: File, writeOnly: bool, bounce: array<byte>, g: Geometry, src: seq<byte>, ghost off: int)
      returns (err: int, ghost hd: nat, ghost tl: nat)
    requires Around(g, off, |src|) && bounce.Length == g.span
    modifies fd`patience, fd`cuts, fd`errors, bounce
    ensures fd.errors == Noted(old(fd.errors), err)
    ensures err <= 0 && fd.cuts >= old(fd.cuts)
    ensures err == 0 && g.start >= 0 ==> BounceReady(bounce[..], fd.content, g, src, hd, tl)
    ensures err == 0 && g.start >= 0 && fd.cuts == old(fd.cuts) ==> EdgesRead(fd.content, g, hd, tl)
  {
    hd, tl := 0, 0;
    if g.head > 0 || g.tail > 0 {
      err, hd, tl := RmwFill(fd, writeOnly, bounce, g, off, |src|);
      if err < 0 {
        return;
      }
    }
    ghost var b := bounce[..];
    ghost var e := g.head + |src|;
    var ok := CopyIn(bounce, g.head, src);
    if !ok {
      fd.errors := fd.errors + [EIO];
      return -EIO, hd, tl;
    }
    assert bounce[..g.head] == b[..g.head] && bounce[e..] == b[e..];
    forall y | 0 <= y < g.span && g.start >= 0 ensures bounce[y] == BounceByte(fd.content, g, src, hd, tl, y) {
      if y < g.head {
        assert bounce[..g.head][y] == b[..g.head][y];
      } else if y < e {
        assert bounce[g.head..g.head + |src|][y - g.head] == src[y - g.head];
      } else {
        assert bounce[e..][y - e] == b[e..][y - e];
      }
    }
    return 0, hd, tl;
  }

  // The write loop and the cut.
  method WriteOut(fd: File, b: seq<byte>, g: Geometry, src: seq<byte>, truncTo: int, ghost hd: nat, ghost tl: nat)
      returns (err: int)
    requires b != [] && src != []
    requires g.start >= 0 ==> BounceReady(b, fd.content, g, src, hd, tl) && truncTo == TruncTo(|fd.content|, g, |src|)
    modifies fd`content, fd`patience, fd`errors
    ensures fd.errors == Noted(old(fd.errors), err)
    ensures err <= 0
    ensures g.start < 0 ==> err < 0 && fd.content == old(fd.content)
    ensures g.start >= 0 && err == 0 ==> fd.content == DirectImage(old(fd.content), g, src, hd, tl)
    ensures g.start >= 0 && NothingMissed(old(fd.content), g, hd, tl) ==>
            OldKept(old(fd.content), fd.content, g.start + g.head, |src|)
  {
    ghost var before := fd.content;
    ghost var done;
    err, done := WriteAll(fd, b, g.start);
    if g.start >= 0 && NothingMissed(before, g, hd, tl) {
      EveryPrefixKeeps(b, before, g, src, hd, tl, done);
    }
    if err < 0 {
      return;
    }
    assert b[..done] == b;
    WrittenIsImage(b, before, g, src, hd, tl);
    if truncTo >= 0 {
      ghost var now := fd.content;
      var r := fd.Ftruncate(truncTo);
      if !r.Done? {
        return -r.errno;
      }
      if OldKept(before, now, g.start + g.head, |src|) {
        CutKeeps(before, now, g, |src|);
      }
    }
  }

  // A write of something, once there is something to write.
  method WriteSome(fd: File, writeOnly: bool, src: seq<byte>, off: int, g: Geometry)
      returns (ret: int, ghost hd: nat, ghost tl: nat)
    requires Around(g, off, |src|)
    modifies fd
    ensures fd.errors == Noted(old(fd.errors), ret)
    ensures ret >= 0 ==> ret == |src| && off >= 0 && fd.content == DirectImage(old(fd.content), g, src, hd, tl)
    ensures off < 0 ==> fd.content == old(fd.content)
    ensures fd.cuts >= old(fd.cuts)
    ensures off >= 0 && fd.cuts == old(fd.cuts) ==>
              OldKept(old(fd.content), fd.content, off, |src|) && (ret >= 0 ==>
                  NothingMissed(old(fd.content), g, hd, tl))
  {
    hd, tl := 0, 0;
    var noMemory: bool := *;
    if noMemory {
      fd.errors := fd.errors + [ENOMEM];
      return -ENOMEM, hd, tl;
    }
    var bounce := new byte[g.span];
    var err, truncTo := FindTruncTo(fd, g, off, |src|);
    if err < 0 {
      return err, hd, tl;
    }
    err, hd, tl := FillBounce(fd, writeOnly, bounce, g, src, off);
    if err < 0 {
      return err, hd, tl;
    }
    if off >= 0 && fd.cuts == old(fd.cuts) {
      FullReadMissesNothing(fd.content, g, hd, tl);
    }
    err := WriteOut(fd, bounce[..], g, src, truncTo, hd, tl);
    return if err < 0 then err else |src|, hd, tl;
  }

  /**
    opends_direct_pwrite. On success the file is the image of the write, which is what pwrite
    leaves if and only if the edge reads missed nothing. If no pread was cut short, success
    is exactly pwrite's result. A call that fails is reported as its errno and nothing else
    makes the write fail: not a short write, not an interruption. At every exit, also after a failed write or ftruncate,
    no old byte outside the range has changed, if no pread was cut short.
   */
  method DirectPwrite(fd: File, writeOnly: bool, src: seq<byte>, off: int)
      returns (ret: int, ghost hd: nat, ghost tl: nat)
    modifies fd
    ensures fd.errors == Noted(old(fd.errors), ret)
    ensures ret >= 0 ==> ret == |src|
    ensures src == [] ==> ret == 0 && fd.content == old(fd.content)
    ensures off < 0 ==> fd.content == old(fd.content) && (src != [] ==> ret < 0)
    ensures ret > 0 ==> off >= 0 && fd.content == DirectImage(old(fd.content), GeometryOf(off, |src|), src, hd, tl)
    ensures ret > 0 ==> (fd.content == PosixWrite(old(fd.content), off, src) <==> NothingMissed(old(fd.content),
            GeometryOf(off, |src|), hd, tl))
    ensures ret > 0 && fd.cuts == old(fd.cuts) ==> fd.content == PosixWrite(old(fd.content), off, src)
    ensures off >= 0 && fd.cuts == old(fd.cuts) ==> OldKept(old(fd.content), fd.content, off, |src|)
  {
    hd, tl := 0, 0;
    if |src| == 0 {
      return 0, hd, tl;
    }
    ghost var before := fd.content;
    var g := GeometryOf(off, |src|);
    ret, hd, tl := WriteSome(fd, writeOnly, src, off, g);
    if ret >= 0 {
      ImageIsPosixWrite(before, g, off, src, hd, tl);
    }
  }

  // ---------- the read ----------

  // The read loop: short reads go on where they stopped, until the span or the file ends.
  method ReadAll(fd: File, bounce: array<byte>, start: int) returns (err: int, got: nat)
    modifies fd`patience, fd`cuts, fd`errors, bounce
    ensures fd.errors == Noted(old(fd.errors), err)
    ensures err <= 0 && got <= bounce.Length && (err == 0 && bounce.Length > 0 ==> start >= 0)
    ensures err == 0 && start >= 0 ==>
            Holds(bounce[..], fd.content, start, got) && (got == bounce.Length || start + got >= |fd.content|)
  {
    got := 0;
    while got < bounce.Length
      invariant got <= bounce.Length && (got > 0 ==> start >= 0)
      invariant fd.errors == old(fd.errors) && (start >= 0 ==> Holds(bounce[..], fd.content, start, got))
      decreases bounce.Length - got, fd.patience
    {
      var r, data := fd.Pread(start + got, bounce.Length - got);
      if r.Interrupted? {
        continue;
      }
      if r.Failed? {
        return -r.errno, got;
      }
      if r.n == 0 {
        return 0, got;
      }
      HoldsMore(bounce[..], fd.content, start, got, bounce.Length - got, data);
      ghost var next := Splice(bounce[..], got, data);
      Store(bounce, got, data);
      assert bounce[..] == next;
      got := got + |data|;
    }
    return 0, got;
  }

  // The first got bytes of b are the file's from start on.
  ghost predicate Holds(b: seq<byte>, content: seq<byte>, start: nat, got: nat) {
    && got <= |b| && (got > 0 ==> start + got <= |content|)
    && forall i :: 0 <= i < got ==> b[i] == ByteOf(content, start + i)
  }

  // A short read continued where it stopped is one longer read.
  lemma HoldsMore(b: seq<byte>, content: seq<byte>, start: nat, got: nat, size: nat, data: seq<byte>)
    requires Holds(b, content, start, got) && got + size == |b|
    requires data != [] && data <= PosixRead(content, start + got, size)
    ensures got + |data| <= |b| && Holds(Splice(b, got, data), content, start, got + |data|)
  {
    var more := PosixRead(content, start + got, size);
    forall i | 0 <= i < got + |data| ensures Splice(b, got, data)[i] == ByteOf(content, start + i) {
      if i >= got { assert data[i - got] == more[i - got]; }
    }
  }

  // The wanted range out of the aligned read.
  lemma InnerRead(content: seq<byte>, start: nat, head: nat, size: nat, b: seq<byte>, got: nat)
    requires Holds(b, content, start, got) && (got == |b| || start + got >= |content|) && head + size <= |b|
    ensures PosixRead(content, start + head, size) == if got <= head then [] else b[head..head + Min(size, got - head)]
  {
    if got > head {
      var k := Min(size, got - head);
      var want := PosixRead(content, start + head, size);
      assert |want| == k;
      forall i | 0 <= i < k ensures want[i] == b[head..head + k][i] {
        assert b[head + i] == ByteOf(content, start + (head + i));
      }
    }
  }

  // A read of something, through the aligned range around it.
  method ReadSome(fd: File, dst: array<byte>, size: nat, off: int, g: Geometry) returns (ret: int)
    requires Around(g, off, size) && size <= dst.Length
    modifies fd`patience, fd`cuts, fd`errors, dst
    ensures fd.errors == Noted(old(fd.errors), ret)
    ensures ret >= 0 ==>
            ret <= size && off >= 0 && dst[..ret] == PosixRead(fd.content, off, size) && dst[ret..] == old(dst[ret..])
    ensures ret < 0 ==> dst[..] == old(dst[..])
  {
    var noMemory: bool := *;
    if noMemory {
      fd.errors := fd.errors + [ENOMEM];
      return -ENOMEM;
    }
    var bounce := new byte[g.span];
    var err, got := ReadAll(fd, bounce, g.start);
    if err < 0 {
      return err;
    }
    InnerRead(fd.content, g.start, g.head, size, bounce[..], got);
    if got <= g.head {
      return 0;
    }
    var n := if got - g.head > size then size else got - g.head;
    ret := CopyOut(dst, bounce[..][g.head..g.head + n]);
  }

  // The bytes handed to the caller, at the start of its buffer.
  method CopyOut(dst: array<byte>, data: seq<byte>) returns (n: nat)
    requires |data| <= dst.Length
    modifies dst
    ensures n == |data| && dst[..n] == data && dst[n..] == old(dst[n..])
  {
    Store(dst, 0, data);
    n := |data|;
    assert dst[..n] == dst[0..n];
  }

  /**
    opends_direct_pread: exactly the bytes of the range that exist, for every pattern of
    short reads and interruptions, unless a call failed; the destination is touched nowhere else, and not at all
    if the read fails.
   */
  method DirectPread(fd: File, dst: array<byte>, size: nat, off: int) returns (ret: int)
    requires size <= dst.Length
    modifies fd`patience, fd`cuts, fd`errors, dst
    ensures fd.errors == Noted(old(fd.errors), ret)
    ensures ret >= 0 ==> ret <= size && (size == 0 || off >= 0) && dst[ret..] == old(dst[ret..])
    ensures ret >= 0 && size > 0 ==> dst[..ret] == PosixRead(fd.content, off, size)
    ensures ret >= 0 && size > 0 ==> ret == Min(size, if off <= |fd.content| then |fd.content| - off else 0)
    ensures ret < 0 ==> dst[..] == old(dst[..])
    ensures size == 0 ==> ret == 0
  {
    if size == 0 {
      return 0;
    }
    ret := ReadSome(fd, dst, size, off, GeometryOf(off, size));
    if ret >= 0 {
      assert |dst[..ret]| == |PosixRead(fd.content, off, size)|;
    }
  }

  // Reading back the range just written returns the source, whatever the edge reads did.
  lemma ReadBack(content: seq<byte>, g: Geometry, off: nat, src: seq<byte>, hd: nat, tl: nat)
    requires Around(g, off, |src|)
    ensures PosixRead(DirectImage(content, g, src, hd, tl), off, |src|) == src
  {
    var image := DirectImage(content, g, src, hd, tl);
    forall x | off <= x < off + |src| ensures image[x] == src[x - off] {
      assert image[x] == ImageByte(content, g, src, hd, tl, x);
    }
  }

  method WriteThenRead(fd: File, writeOnly: bool, src: seq<byte>, off: int, dst: array<byte>) returns (w: int, r: int)
    requires |src| <= dst.Length
    modifies fd, dst
    ensures w >= 0 && r >= 0 ==> r == |src| && dst[..r] == src
    ensures fd.errors == old(fd.errors) <==> w >= 0 && r >= 0
  {
    ghost var before := fd.content;
    ghost var hd, tl;
    w, hd, tl := DirectPwrite(fd, writeOnly, src, off);
    r := DirectPread(fd, dst, |src|, off);
    if w > 0 && r >= 0 {
      ReadBack(before, GeometryOf(off, |src|), off, src, hd, tl);
    }
  }
}
