/**
  What pread, pwrite and ftruncate do to a regular file (POSIX.1-2017), and a file object
  whose calls may be interrupted, fail, or transfer less than asked.
 */
module PosixFile {
  import opened Common

  const EIO: int := 5
  const ENOMEM: int := 12
  const EINVAL: int := 22

  // The byte at x, zero past the end.
  function ByteOf(content: seq<byte>, x: nat): byte {
    if x < |content| then content[x] else 0
  }

  // The bytes of [off, off + size) that exist.
  function PosixRead(content: seq<byte>, off: nat, size: nat): seq<byte> {
    if off >= |content| then [] else content[off..Min(off + size, |content|)]
  }

  // data at off, every other byte kept, a gap filled with zeros; no data, no effect.
  function PosixWrite(content: seq<byte>, off: nat, data: seq<byte>): (r: seq<byte>)
    ensures data == [] ==> r == content
    ensures data != [] ==> |r| == Max(|content|, off + |data|)
    ensures forall x :: 0 <= x < |r| ==> r[x] == if off <= x < off + |data| then data[x - off] else ByteOf(content, x)
  {
    if data == [] then content
    else seq(Max(|content|, off + |data|), x requires 0 <= x =>
             if off <= x < off + |data| then data[x - off] else ByteOf(content, x))
  }

  function Truncated(content: seq<byte>, len: nat): (r: seq<byte>)
    ensures |r| == len && forall x :: 0 <= x < len ==> r[x] == ByteOf(content, x)
  {
    seq(len, x requires 0 <= x => ByteOf(content, x))
  }

  lemma ByteInPieces(content: seq<byte>, off: nat, a: seq<byte>, b: seq<byte>, x: nat)
    requires a != [] && b != []
    requires x < |PosixWrite(content, off, a + b)| && x < |PosixWrite(PosixWrite(content, off, a), off + |a|, b)|
    ensures PosixWrite(PosixWrite(content, off, a), off + |a|, b)[x] == PosixWrite(content, off, a + b)[x]
  {
    var first := PosixWrite(content, off, a);
    if off <= x < off + |a| {
      assert first[x] == a[x - off] == (a + b)[x - off];
    } else if off + |a| <= x < off + |a| + |b| {
      assert (a + b)[x - off] == b[x - off - |a|];
    } else {
      assert ByteOf(first, x) == ByteOf(content, x);
    }
  }

  lemma WriteTwoPieces(content: seq<byte>, off: nat, a: seq<byte>, b: seq<byte>, parts: seq<byte>, whole: seq<byte>)
    requires a != [] && b != []
    requires parts == PosixWrite(PosixWrite(content, off, a), off + |a|, b) && whole == PosixWrite(content, off, a + b)
    ensures parts == whole
  {
    assert |a + b| == |a| + |b|;
    assert |whole| == |parts|;
    forall x | 0 <= x < |whole| ensures parts[x] == whole[x] {
      ByteInPieces(content, off, a, b, x);
    }
  }

  // Writing in pieces is writing at once.
  lemma WriteInPieces(content: seq<byte>, off: nat, a: seq<byte>, b: seq<byte>)
    ensures PosixWrite(PosixWrite(content, off, a), off + |a|, b) == PosixWrite(content, off, a + b)
  {
    if a == [] {
      assert a + b == b;
    } else if b == [] {
      assert a + b == a;
    } else {
      WriteTwoPieces(content, off, a, b, PosixWrite(PosixWrite(content, off, a), off + |a|, b),
          PosixWrite(content, off, a + b));
    }
  }

  // What one pread may hand over: some of what is there, nothing only if nothing is.
  predicate MayDeliver(content: seq<byte>, off: nat, size: nat, data: seq<byte>) {
    data <= PosixRead(content, off, size) && (PosixRead(content, off, size) != [] ==> data != [])
  }

  // A history of errors after a call that returned ret, negative for an error.
  function Noted(errors: seq<int>, ret: int): seq<int> {
    if ret < 0 then errors + [-ret] else errors
  }

  datatype Outcome = Done(n: nat) | Interrupted | Failed(errno: int)

  function FailCode(r: Outcome): int {
    if r.Failed? then -r.errno else 0
  }

  // A pwrite that takes nothing of size bytes counts as an EIO.
  function WriteCode(w: Outcome, size: nat): int {
    if w.Done? && w.n == 0 && size > 0 then -EIO else FailCode(w)
  }

  class File {
    var content: seq<byte>
    var patience: nat                 // interruptions still to come
    ghost var cuts: nat               // history: preads that delivered less than there was
    // history: the errno of each failed call, EIO for a write of nothing; DirectIo also notes
    // here what else fails in a transfer
    ghost var errors: seq<int>

    // pwrite: some prefix of data is written, or the call is interrupted or fails
    method Pwrite(data: seq<byte>, off: int) returns (w: Outcome)
      modifies this`content, this`patience, this`errors
      ensures errors == Noted(old(errors), WriteCode(w, |data|))
      ensures w.Done? ==> off >= 0 && w.n <= |data| && content == PosixWrite(old(content), off, data[..w.n])
      ensures !w.Done? ==> content == old(content)
      ensures w.Interrupted? ==> patience < old(patience)
      ensures w.Failed? ==> w.errno > 0
      ensures patience <= old(patience)
    {
      var choice: nat, errno: nat := *, *;
      if choice == 0 && patience > 0 {
        patience := patience - 1;
        return Interrupted;
      }
      if choice == 1 || off < 0 {
        w := Failed(if off < 0 then EINVAL else errno + 1);
        errors := errors + [w.errno];
        return;
      }
      var n := choice % (|data| + 1);
      errors := if n == 0 && data != [] then errors + [EIO] else errors;
      content := PosixWrite(content, off, data[..n]);
      return Done(n);
    }

    // pread: some prefix of what is there, not empty unless there is nothing
    method Pread(off: int, size: nat) returns (r: Outcome, data: seq<byte>)
      modifies this`patience, this`cuts, this`errors
      ensures errors == Noted(old(errors), FailCode(r))
      ensures r.Done? ==> off >= 0 && r.n == |data| && MayDeliver(content, off, size, data)
      ensures cuts == old(cuts) + if r.Done? && data != PosixRead(content, off, size) then 1 else 0
      ensures r.Failed? ==> r.errno > 0
      ensures patience == old(patience) - if r.Interrupted? then 1 else 0
    {
      var choice: nat, errno: nat := *, *;
      if choice == 0 && patience > 0 {
        patience := patience - 1;
        return Interrupted, [];
      }
      if choice == 1 || off < 0 {
        r, data := Failed(if off < 0 then EINVAL else errno + 1), [];
        errors := errors + [r.errno];
        return;
      }
      var all := PosixRead(content, off, size);
      data := if all == [] then [] else all[..1 + choice % |all|];
      cuts := cuts + if data != all then 1 else 0;
      return Done(|data|), data;
    }

    method Ftruncate(len: nat) returns (r: Outcome)
      modifies this`content, this`errors
      ensures errors == Noted(old(errors), FailCode(r))
      ensures r.Done? ==> content == Truncated(old(content), len)
      ensures !r.Done? ==> content == old(content) && r.Failed? && r.errno > 0
    {
      var fails: bool, errno: nat := *, *;
      if fails {
        errors := errors + [errno + 1];
        return Failed(errno + 1);
      }
      content := Truncated(content, len);
      return Done(0);
    }

    method Fstat() returns (r: Outcome)
      modifies this`errors
      ensures errors == Noted(old(errors), FailCode(r))
      ensures r.Done? ==> r.n == |content|
      ensures !r.Done? ==> r.Failed? && r.errno > 0
    {
      var fails: bool, errno: nat := *, *;
      errors := if fails then errors + [errno + 1] else errors;
      return if fails then Failed(errno + 1) else Done(|content|);
    }
  }
}
