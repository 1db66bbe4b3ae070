/**
  The strided copy kernel that closes out the tail of a stream read: 128 threads, each
  storing every 128th byte, in any interleaving of their stores.
 */
module BounceKernel {
  import opened Common

  const BLOCK_DIM: nat := 128

  // The bytes thread t, and every other, has not stored yet; offs[t] is where t stands.
  ghost function Unstored(offs: seq<nat>, n: nat): set<nat>
    requires |offs| == BLOCK_DIM
  {
    set j: nat | j in Below(n) && offs[j % BLOCK_DIM] <= j
  }

  ghost function Below(n: nat): (s: set<nat>)
    ensures forall j: nat :: j in s <==> j < n
  {
    if n == 0 then {} else Below(n - 1) + {n - 1}
  }

  // Thread t stores byte offs[t] and moves on by a stride: exactly that byte is done.
  lemma StrideStores(offs: seq<nat>, t: nat, n: nat)
    requires |offs| == BLOCK_DIM && t < BLOCK_DIM && offs[t] % BLOCK_DIM == t && offs[t] < n
    ensures Unstored(offs[t := offs[t] + BLOCK_DIM], n) == Unstored(offs, n) - {offs[t]}
    ensures offs[t] in Unstored(offs, n)
  {
    var offs' := offs[t := offs[t] + BLOCK_DIM];
    forall j: nat | j in Below(n) ensures j in Unstored(offs', n) <==> j in Unstored(offs, n) && j != offs[t] {
      if j % BLOCK_DIM == t && offs[t] <= j < offs[t] + BLOCK_DIM {
        assert j == offs[t];
      }
    }
  }

  // Memory where exactly the bytes the threads have passed are copied.
  ghost predicate PartlyCopied(m0: seq<byte>, m: seq<byte>, at: nat, src: seq<byte>, offs: seq<nat>) {
    && |m| == |m0| && at + |src| <= |m| && |offs| == BLOCK_DIM
    && (forall t :: 0 <= t < BLOCK_DIM ==> offs[t] % BLOCK_DIM == t)
    && (forall x :: 0 <= x < |m| ==> m[x] == ByteAt(m0, at, src, offs, x))
  }

  ghost function ByteAt(m0: seq<byte>, at: nat, src: seq<byte>, offs: seq<nat>, x: nat): byte
    requires x < |m0| && |offs| == BLOCK_DIM
  {
    if at <= x < at + |src| && x - at < offs[(x - at) % BLOCK_DIM] then src[x - at] else m0[x]
  }

  lemma StoreCopies(m0: seq<byte>, m: seq<byte>, at: nat, src: seq<byte>, offs: seq<nat>, t: nat)
    requires PartlyCopied(m0, m, at, src, offs) && t < BLOCK_DIM && offs[t] < |src|
    ensures PartlyCopied(m0, m[at + offs[t] := src[offs[t]]], at, src, offs[t := offs[t] + BLOCK_DIM])
  {
    var m', offs' := m[at + offs[t] := src[offs[t]]], offs[t := offs[t] + BLOCK_DIM];
    forall x | 0 <= x < |m'| ensures m'[x] == ByteAt(m0, at, src, offs', x) {
      assert m[x] == ByteAt(m0, at, src, offs, x);
      if at <= x < at + |src| && (x - at) % BLOCK_DIM == t && offs[t] <= x - at < offs[t] + BLOCK_DIM {
        assert x - at == offs[t];
      }
    }
  }

  lemma AllCopied(m0: seq<byte>, m: seq<byte>, at: nat, src: seq<byte>, offs: seq<nat>)
    requires PartlyCopied(m0, m, at, src, offs) && forall t :: 0 <= t < BLOCK_DIM ==> offs[t] >= |src|
    ensures m == Splice(m0, at, src)
  {
    forall x | 0 <= x < |m| ensures m[x] == Splice(m0, at, src)[x] {
      assert m[x] == ByteAt(m0, at, src, offs, x);
      assert at <= x < at + |src| ==> 0 <= (x - at) % BLOCK_DIM < BLOCK_DIM;
    }
  }

  /**
    However the threads are scheduled, when all have left their loops the destination holds
    the source and nothing else has changed; with nothing to copy the launch does nothing.
   */
  method CopyKernel(dst: array<byte>, at: nat, src: seq<byte>)
    requires at + |src| <= dst.Length
    modifies dst
    ensures dst[..] == Splice(old(dst[..]), at, src)
  {
    var offs: seq<nat> := seq(BLOCK_DIM, t requires 0 <= t < BLOCK_DIM => t);
    while exists t :: 0 <= t < BLOCK_DIM && offs[t] < |src|
      invariant PartlyCopied(old(dst[..]), dst[..], at, src, offs)
      decreases |Unstored(offs, |src|)|
    {
      var t :| 0 <= t < BLOCK_DIM && offs[t] < |src|;
      StrideStores(offs, t, |src|);
      StoreCopies(old(dst[..]), dst[..], at, src, offs, t);
      ghost var next := dst[..][at + offs[t] := src[offs[t]]];
      dst[at + offs[t]] := src[offs[t]];
      assert dst[..] == next;
      offs := offs[t := offs[t] + BLOCK_DIM];
    }
    AllCopied(old(dst[..]), dst[..], at, src, offs);
  }
}
