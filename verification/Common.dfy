// Types every part of the project shares.
module Common {
  type byte = x: nat | x < 256

  datatype Option<T> = None | Some(value: T)

  // What memory holds after data is stored at position at.
  function Splice(m: seq<byte>, at: nat, data: seq<byte>): (r: seq<byte>)
    requires at + |data| <= |m|
    ensures |r| == |m|
    ensures forall x :: 0 <= x < |m| ==> r[x] == if at <= x < at + |data| then data[x - at] else m[x]
  {
    m[..at] + data + m[at + |data|..]
  }

  function Min(a: nat, b: nat): nat {
    if a <= b then a else b
  }

  function Max(a: nat, b: nat): nat {
    if a >= b then a else b
  }

  lemma SubsetSize<T>(a: set<T>, b: set<T>)
    requires a <= b
    ensures |a| <= |b|
  {
    assert b == a + (b - a);
  }
}
