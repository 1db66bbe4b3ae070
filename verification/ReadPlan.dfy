/**
  How a read request is cut into device commands (start_read_op and submit_read_middle):
  per extent a bounced head, direct whole-LBA chunks, a bounced tail. Positions are
  counted from the request's destination, so file offset = start + position.

  The LBA size is a power of two in the engine, which masks and shifts; here it is any
  positive size, with % and /.
 */
module ReadPlan {
  import opened Common
  import Words

  const MAX_NLB: nat := 65536          // NVME_MAX_NLB
  const PRP_ALIGN: nat := 4            // NVME_PRP_OFFSET_ALIGN
  const BOUNCE_SLOTS: nat := 2
  const UINT64_MAX: nat := 0xFFFF_FFFF_FFFF_FFFF

  const DEVICE_DRIVER_ERROR: nat := 5011
  const INVALID_VALUE: nat := 5022
  const INTERNAL_ERROR: nat := 5030
  const FS_SETUP_ERROR: nat := 5033

  datatype Extent = Extent(start: nat, slba: nat, len: nat)

  // The device's geometry and the op's mode.
  datatype Config = Config(lba: nat, mdts: nat, alignedOnly: bool, stream: bool)

  // A command to the device: whole LBAs straight to the destination, with the zero-based
  // 16-bit count of NVMe, or one LBA to a bounce slot of which n bytes are wanted.
  datatype Piece =
    | Chunk(at: nat, slba: nat, nlb: nat)
    | Bounce(at: nat, slba: nat, srcOff: nat, n: nat)

  // The commands to issue, and the error (0: none) met after them.
  datatype Plan = Plan(pieces: seq<Piece>, err: nat)

  // The bytes of k LBAs.
  function Bytes(c: Config, k: nat): nat {
    if k == 0 then 0 else Bytes(c, k - 1) + c.lba
  }

  // Whole LBAs in x bytes (x >> lba_shift), and the bytes behind them (x & lba_mask).
  function Lbas(c: Config, x: nat): nat {
    if c.lba == 0 || x < c.lba then 0 else 1 + Lbas(c, x - c.lba)
  }

  function Off(c: Config, x: nat): (r: nat)
    ensures r <= x && (c.lba > 0 ==> r < c.lba)
  {
    if c.lba == 0 || x < c.lba then x else Off(c, x - c.lba)
  }

  predicate Ready(c: Config) {
    c.lba > 0 && Lbas(c, c.mdts) > 0
  }

  function Word16(x: nat): nat {
    x % 0x1_0000
  }

  // LBAs per direct command: bounded by MDTS and by the 16-bit count.
  function MaxChunk(c: Config): nat
    requires Ready(c)
  {
    Min(Lbas(c, c.mdts), MAX_NLB)
  }

  function Len(c: Config, p: Piece): nat {
    match p
    case Chunk(_, _, nlb) => Bytes(c, nlb + 1)
    case Bounce(_, _, _, n) => n
  }

  // The device byte that goes to the first byte of the piece.
  function Src(c: Config, p: Piece): nat {
    match p
    case Chunk(_, slba, _) => Bytes(c, slba)
    case Bounce(_, slba, srcOff, _) => Bytes(c, slba) + srcOff
  }

  function Total(c: Config, pieces: seq<Piece>): nat {
    if pieces == [] then 0 else Len(c, pieces[0]) + Total(c, pieces[1..])
  }

  function Bounces(pieces: seq<Piece>): nat {
    if pieces == [] then 0 else (if pieces[0].Bounce? then 1 else 0) + Bounces(pieces[1..])
  }

  // ---------- the plan ----------

  // submit_partial and the checks of the bounce paths, with nb slots already taken.
  function PartialErr(c: Config, nb: nat, srcOff: nat, n: nat): nat {
    if c.alignedOnly then INVALID_VALUE
    else if c.stream && srcOff != 0 then INVALID_VALUE
    else if c.stream && nb != 0 then INTERNAL_ERROR
    else if nb >= BOUNCE_SLOTS || srcOff + n > c.lba then INTERNAL_ERROR
    else 0
  }

  function Middle(c: Config, at: nat, slba: nat, lbas: nat): seq<Piece>
    requires Ready(c)
    decreases lbas
  {
    if lbas == 0 then []
    else
      var k := Min(lbas, MaxChunk(c));
      [Chunk(at, slba, Word16(k - 1))] + Middle(c, at + Bytes(c, k), slba + k, lbas - k)
  }

  // What is left of a span once it starts at an LBA boundary.
  function BodyPlan(c: Config, at: nat, slba: nat, remaining: nat, nb: nat): Plan
    requires Ready(c)
  {
    var tail := Off(c, remaining);
    var lbas := Lbas(c, remaining);
    var middle := Middle(c, at, slba, lbas);
    if tail == 0 then Plan(middle, 0)
    else
      var err := PartialErr(c, nb, 0, tail);
      if err != 0 then Plan(middle, err)
      else Plan(middle + [Bounce(at + Bytes(c, lbas), slba + lbas, 0, tail)], 0)
  }

  function HeadBytes(c: Config, headOff: nat, remaining: nat): nat
    requires headOff < c.lba
  {
    Min(c.lba - headOff, remaining)
  }

  // A span that starts inside an LBA: the rest of that LBA is bounced, then the body.
  function HeadedPlan(c: Config, at: nat, slba: nat, headOff: nat, remaining: nat, nb: nat): Plan
    requires Ready(c) && headOff < c.lba
  {
    var head := HeadBytes(c, headOff, remaining);
    if remaining - head >= c.lba && head % PRP_ALIGN != 0 then Plan([], INVALID_VALUE)
    else
      var err := PartialErr(c, nb, headOff, head);
      if err != 0 then Plan([], err)
      else
        var body := BodyPlan(c, at + head, slba + 1, remaining - head, nb + 1);
        Plan([Bounce(at, slba, headOff, head)] + body.pieces, body.err)
  }

  // The span [lo, hi) of the request inside extent e.
  function SpanPlan(c: Config, e: Extent, start: nat, lo: nat, hi: nat, nb: nat): Plan
    requires Ready(c) && start <= lo < hi && e.start <= lo
  {
    var off := lo - e.start;
    if Off(c, off) == 0 then BodyPlan(c, lo - start, e.slba + Lbas(c, off), hi - lo, nb)
    else HeadedPlan(c, lo - start, e.slba + Lbas(c, off), Off(c, off), hi - lo, nb)
  }

  function SpanLo(e: Extent, start: nat): nat {
    Max(start, e.start)
  }

  function SpanHi(e: Extent, end: nat): nat {
    Min(end, e.start + e.len)
  }

  // The walk over the extents from the i-th on.
  function WalkPlan(c: Config, exts: seq<Extent>, i: nat, start: nat, end: nat, nb: nat): Plan
    requires Ready(c) && i <= |exts|
    decreases |exts| - i
  {
    if i == |exts| || exts[i].start >= end then Plan([], 0)
    else
      var lo, hi := SpanLo(exts[i], start), SpanHi(exts[i], end);
      if lo >= hi then WalkPlan(c, exts, i + 1, start, end, nb)
      else
        var span := SpanPlan(c, exts[i], start, lo, hi, nb);
        if span.err != 0 then span
        else
          var rest := WalkPlan(c, exts, i + 1, start, end, nb + Bounces(span.pieces));
          Plan(span.pieces + rest.pieces, rest.err)
  }

  function ReadPlanOf(c: Config, exts: seq<Extent>, start: nat, size: nat): Plan {
    if c.lba == 0 then Plan([], INTERNAL_ERROR)
    else if !Ready(c) then Plan([], INVALID_VALUE)
    else if start + size > UINT64_MAX then Plan([], INVALID_VALUE)
    else WalkPlan(c, exts, 0, start, start + size, 0)
  }

  // ---------- what the file map says ----------

  predicate Holds(e: Extent, o: nat) {
    e.start <= o < e.start + e.len
  }

  // Sorted by file offset and disjoint; holes and empty extents are allowed.
  ghost predicate Sorted(exts: seq<Extent>) {
    forall i, j :: 0 <= i < j < |exts| ==> exts[i].start + exts[i].len <= exts[j].start
  }

  // The device byte behind file offset o, if o is mapped.
  ghost function AddrFrom(c: Config, exts: seq<Extent>, i: nat, o: nat): Option<nat>
    requires i <= |exts|
    decreases |exts| - i
  {
    if i == |exts| then None
    else if Holds(exts[i], o) then Some(Bytes(c, exts[i].slba) + (o - exts[i].start))
    else AddrFrom(c, exts, i + 1, o)
  }

  ghost function Addr(c: Config, exts: seq<Extent>, o: nat): Option<nat> {
    AddrFrom(c, exts, 0, o)
  }

  ghost predicate Mapped(exts: seq<Extent>, o: nat) {
    exists i :: 0 <= i < |exts| && Holds(exts[i], o)
  }

  lemma {:induction false} AddrFromHolder(c: Config, exts: seq<Extent>, k: nat, i: nat, o: nat)
    requires Sorted(exts) && k <= i < |exts| && Holds(exts[i], o)
    ensures AddrFrom(c, exts, k, o) == Some(Bytes(c, exts[i].slba) + (o - exts[i].start))
    decreases i - k
  {
    if k < i {
      assert !Holds(exts[k], o);
      AddrFromHolder(c, exts, k + 1, i, o);
    }
  }

  lemma {:induction false} AddrFromNone(c: Config, exts: seq<Extent>, k: nat, o: nat)
    requires k <= |exts| && forall i :: k <= i < |exts| ==> !Holds(exts[i], o)
    ensures AddrFrom(c, exts, k, o) == None
    decreases |exts| - k
  {
    if k < |exts| { AddrFromNone(c, exts, k + 1, o); }
  }

  lemma MappedIffAddr(c: Config, exts: seq<Extent>, o: nat)
    requires Sorted(exts)
    ensures Mapped(exts, o) <==> Addr(c, exts, o).Some?
  {
    if Mapped(exts, o) {
      var i :| 0 <= i < |exts| && Holds(exts[i], o);
      AddrFromHolder(c, exts, 0, i, o);
    } else {
      AddrFromNone(c, exts, 0, o);
    }
  }

  predicate Within(c: Config, p: Piece, x: nat) {
    p.at <= x < p.at + Len(c, p)
  }

  // The piece brings every byte from where the file map says it lives.
  ghost predicate PieceOk(c: Config, exts: seq<Extent>, start: nat, size: nat, p: Piece) {
    && p.at + Len(c, p) <= size
    && (p.Bounce? ==> p.srcOff + p.n <= c.lba)
    && forall x: nat :: Within(c, p, x) ==> Addr(c, exts, start + x) == Some(Src(c, p) + x - p.at)
  }

  // ---------- arithmetic ----------

  lemma {:induction false} BytesAdd(c: Config, a: nat, b: nat)
    ensures Bytes(c, a + b) == Bytes(c, a) + Bytes(c, b)
    decreases b
  {
    if b > 0 { BytesAdd(c, a, b - 1); }
  }

  // LBA counts become bytes by a multiplication.
  lemma {:induction false} BytesIsProduct(c: Config, k: nat)
    ensures Bytes(c, k) == k * c.lba
  {
    if k > 0 { BytesIsProduct(c, k - 1); }
  }

  lemma {:induction false} LbasOff(c: Config, x: nat)
    requires c.lba > 0
    ensures Bytes(c, Lbas(c, x)) + Off(c, x) == x
  {
    if x >= c.lba {
      LbasOff(c, x - c.lba);
    }
  }

  lemma {:induction false} LbasWhole(c: Config, x: nat)
    requires c.lba > 0
    ensures Lbas(c, x - Off(c, x)) == Lbas(c, x)
  {
    if x >= c.lba { LbasWhole(c, x - c.lba); }
  }

  // The shift and the mask of the engine.
  lemma {:induction false} LbasIsQuotient(c: Config, x: nat)
    requires c.lba > 0
    ensures Lbas(c, x) == x / c.lba && Off(c, x) == x % c.lba
  {
    LbasOff(c, x);
    BytesIsProduct(c, Lbas(c, x));
    Words.QuotientUnique(x, c.lba, Lbas(c, x), Off(c, x));
  }

  // ---------- pieces of one span ----------

  // Pieces that follow each other without gap or overlap from position a to position b.
  ghost predicate Contiguous(c: Config, pieces: seq<Piece>, a: nat, b: nat) {
    if pieces == [] then a == b
    else pieces[0].at == a && Contiguous(c, pieces[1..], a + Len(c, pieces[0]), b)
  }

  lemma {:induction false} ContiguousJoin(c: Config, ps: seq<Piece>, qs: seq<Piece>, a: nat, m: nat, b: nat)
    requires Contiguous(c, ps, a, m) && Contiguous(c, qs, m, b)
    ensures Contiguous(c, ps + qs, a, b)
  {
    if ps == [] {
      assert ps + qs == qs;
    } else {
      assert (ps + qs)[1..] == ps[1..] + qs;
      ContiguousJoin(c, ps[1..], qs, a + Len(c, ps[0]), m, b);
    }
  }

  // Some piece has position x.
  ghost predicate Hits(c: Config, pieces: seq<Piece>, x: nat) {
    exists k :: 0 <= k < |pieces| && Within(c, pieces[k], x)
  }

  lemma {:induction false} ContiguousTotal(c: Config, ps: seq<Piece>, a: nat, b: nat)
    requires Contiguous(c, ps, a, b)
    ensures a <= b && Total(c, ps) == b - a
    ensures forall k :: 0 <= k < |ps| ==> a <= ps[k].at && ps[k].at + Len(c, ps[k]) <= b
  {
    if ps != [] {
      ContiguousTotal(c, ps[1..], a + Len(c, ps[0]), b);
      forall k | 0 <= k < |ps| ensures a <= ps[k].at && ps[k].at + Len(c, ps[k]) <= b {
        if k > 0 { assert ps[k] == ps[1..][k - 1]; }
      }
    }
  }

  lemma {:induction false} ContiguousHits(c: Config, ps: seq<Piece>, a: nat, b: nat, x: nat)
    requires Contiguous(c, ps, a, b) && a <= x < b
    ensures Hits(c, ps, x)
  {
    if Within(c, ps[0], x) {
      assert Hits(c, ps, x);
    } else {
      ContiguousHits(c, ps[1..], a + Len(c, ps[0]), b, x);
      var k :| 0 <= k < |ps[1..]| && Within(c, ps[1..][k], x);
      assert Within(c, ps[k + 1], x);
    }
  }

  lemma {:induction false} TotalJoin(c: Config, ps: seq<Piece>, qs: seq<Piece>)
    ensures Total(c, ps + qs) == Total(c, ps) + Total(c, qs)
  {
    if ps == [] {
      assert ps + qs == qs;
    } else {
      assert (ps + qs)[1..] == ps[1..] + qs;
      TotalJoin(c, ps[1..], qs);
    }
  }

  lemma {:induction false} BouncesJoin(ps: seq<Piece>, qs: seq<Piece>)
    ensures Bounces(ps + qs) == Bounces(ps) + Bounces(qs)
  {
    if ps == [] {
      assert ps + qs == qs;
    } else {
      assert (ps + qs)[1..] == ps[1..] + qs;
      BouncesJoin(ps[1..], qs);
    }
  }

  // A chunk of the middle: one to min(MDTS LBAs, 65536) LBAs, a zero-based count that is
  // not truncated by its 16 bits, and source and destination advancing together.
  ghost predicate ChunkOk(c: Config, at: nat, slba: nat, lbas: nat, p: Piece)
    requires Ready(c)
  {
    && p.Chunk? && p.nlb < 0x1_0000 && p.nlb + 1 <= Lbas(c, c.mdts) && p.nlb + 1 <= MAX_NLB
    && slba <= p.slba && p.slba + p.nlb + 1 <= slba + lbas
    && p.at == at + Bytes(c, p.slba - slba)
  }

  // submit_read_middle partitions the middle into consecutive, disjoint chunks.
  lemma {:induction false} MiddlePartition(c: Config, at: nat, slba: nat, lbas: nat)
    requires Ready(c)
    ensures Contiguous(c, Middle(c, at, slba, lbas), at, at + Bytes(c, lbas))
    ensures Bounces(Middle(c, at, slba, lbas)) == 0
    decreases lbas
  {
    if lbas > 0 {
      var k := Min(lbas, MaxChunk(c));
      var rest := Middle(c, at + Bytes(c, k), slba + k, lbas - k);
      MiddlePartition(c, at + Bytes(c, k), slba + k, lbas - k);
      BytesAdd(c, k, lbas - k);
      assert Middle(c, at, slba, lbas)[1..] == rest;
    }
  }

  lemma {:induction false} MiddleChunks(c: Config, at: nat, slba: nat, lbas: nat)
    requires Ready(c)
    ensures forall p :: p in Middle(c, at, slba, lbas) ==> ChunkOk(c, at, slba, lbas, p)
    decreases lbas
  {
    if lbas > 0 {
      var k := Min(lbas, MaxChunk(c));
      var rest := Middle(c, at + Bytes(c, k), slba + k, lbas - k);
      MiddleChunks(c, at + Bytes(c, k), slba + k, lbas - k);
      forall p | p in Middle(c, at, slba, lbas) ensures ChunkOk(c, at, slba, lbas, p) {
        if p in rest {
          assert ChunkOk(c, at + Bytes(c, k), slba + k, lbas - k, p);
          BytesAdd(c, k, p.slba - (slba + k));
        } else {
          assert p == Chunk(at, slba, k - 1);
        }
      }
    }
  }

  lemma OneMoreChunk(n: nat, m: nat)
    ensures (1 + n) * m == m + n * m
  {
  }

  // No more chunks than MDTS and the 16-bit count make necessary.
  lemma {:induction false} MiddleIsShort(c: Config, at: nat, slba: nat, lbas: nat)
    requires Ready(c)
    ensures var m, n := Min(c.mdts / c.lba, 0x1_0000), |Middle(c, at, slba, lbas)|;
            lbas <= n * m < lbas + m
    decreases lbas
  {
    LbasIsQuotient(c, c.mdts);
    if lbas > 0 {
      var m := MaxChunk(c);
      var k := Min(lbas, m);
      var rest := Middle(c, at + Bytes(c, k), slba + k, lbas - k);
      MiddleIsShort(c, at + Bytes(c, k), slba + k, lbas - k);
      assert |Middle(c, at, slba, lbas)| == 1 + |rest|;
      OneMoreChunk(|rest|, m);
      if k < m { assert rest == []; }
    }
  }

  // The piece takes each byte from its place in extent e.
  ghost predicate Straight(c: Config, e: Extent, start: nat, p: Piece) {
    && e.start <= start + p.at
    && Src(c, p) + e.start == Bytes(c, e.slba) + start + p.at
    && (p.Bounce? ==> p.srcOff + p.n <= c.lba)
  }

  // The span's cursors agree: LBA slba holds the byte for position at.
  ghost predicate Tracks(c: Config, e: Extent, start: nat, at: nat, slba: nat) {
    e.start <= start + at && Bytes(c, slba) + e.start == Bytes(c, e.slba) + start + at
  }

  lemma {:induction false} MiddleStraight(c: Config, e: Extent, start: nat, at: nat, slba: nat, lbas: nat)
    requires Ready(c) && Tracks(c, e, start, at, slba)
    ensures forall p :: p in Middle(c, at, slba, lbas) ==> Straight(c, e, start, p)
  {
    MiddleChunks(c, at, slba, lbas);
    forall p | p in Middle(c, at, slba, lbas) ensures Straight(c, e, start, p) {
      assert ChunkOk(c, at, slba, lbas, p);
      BytesAdd(c, slba, p.slba - slba);
    }
  }

  // The plan's pieces take their bytes from extent e and follow each other from position at
  // to m; to the end, if there is no error.
  ghost predicate Lays(c: Config, e: Extent, start: nat, plan: Plan, at: nat, end: nat, m: nat) {
    && (forall p :: p in plan.pieces ==> Straight(c, e, start, p))
    && Contiguous(c, plan.pieces, at, m)
    && m <= end && (plan.err == 0 ==> m == end)
  }

  lemma BodyPieces(c: Config, e: Extent, start: nat, at: nat, slba: nat, remaining: nat, nb: nat) returns (m: nat)
    requires Ready(c) && Tracks(c, e, start, at, slba)
    ensures Lays(c, e, start, BodyPlan(c, at, slba, remaining, nb), at, at + remaining, m)
  {
    var lbas, tail := Lbas(c, remaining), Off(c, remaining);
    var middle := Middle(c, at, slba, lbas);
    LbasOff(c, remaining);
    MiddlePartition(c, at, slba, lbas);
    MiddleStraight(c, e, start, at, slba, lbas);
    m := at + Bytes(c, lbas);
    if tail != 0 && PartialErr(c, nb, 0, tail) == 0 {
      var b := Bounce(at + Bytes(c, lbas), slba + lbas, 0, tail);
      BytesAdd(c, slba, lbas);
      assert Contiguous(c, [b], m, m + tail);
      ContiguousJoin(c, middle, [b], at, m, m + tail);
      m := m + tail;
    }
  }

  // At the start of a span the LBA cursor is on the block of position lo - start; behind a
  // whole head it is on the next block.
  lemma {:induction false} SpanTracks(c: Config, e: Extent, start: nat, lo: nat)
    requires Ready(c) && start <= lo && e.start <= lo
    ensures var off := lo - e.start;
            var slba := e.slba + Lbas(c, off);
            && Bytes(c, slba) + Off(c, off) + e.start == Bytes(c, e.slba) + lo
            && (Off(c, off) == 0 ==> Tracks(c, e, start, lo - start, slba))
            && Tracks(c, e, start, lo - start + (c.lba - Off(c, off)), slba + 1)
  {
    var off := lo - e.start;
    LbasOff(c, off);
    BytesAdd(c, e.slba, Lbas(c, off));
    BytesAdd(c, e.slba + Lbas(c, off), 1);
  }

  // The same for a plan given as a value, at and off being the span's positions.
  lemma SpanLays(c: Config, e: Extent, start: nat, lo: nat, hi: nat, at: nat, off: nat, nb: nat, plan: Plan)
      returns (m: nat)
    requires Ready(c) && start <= lo < hi && e.start <= lo && at == lo - start && off == lo - e.start
    requires plan == if Off(c, off) == 0 then BodyPlan(c, at, e.slba + Lbas(c, off), hi - lo, nb)
                     else HeadedPlan(c, at, e.slba + Lbas(c, off), Off(c, off), hi - lo, nb)
    requires var slba := e.slba + Lbas(c, off);
             && Bytes(c, slba) + Off(c, off) + e.start == Bytes(c, e.slba) + lo
             && (Off(c, off) == 0 ==> Tracks(c, e, start, at, slba))
             && Tracks(c, e, start, at + (c.lba - Off(c, off)), slba + 1)
    ensures Lays(c, e, start, plan, at, at + (hi - lo), m)
  {
    if Off(c, off) == 0 {
      m := BodyPieces(c, e, start, at, e.slba + Lbas(c, off), hi - lo, nb);
    } else {
      m := HeadedPieces(c, e, start, at, e.slba + Lbas(c, off), Off(c, off), hi - lo, nb);
    }
  }

  lemma SpanPieces(c: Config, e: Extent, start: nat, lo: nat, hi: nat, nb: nat) returns (m: nat)
    requires Ready(c) && start <= lo < hi && e.start <= lo
    ensures Lays(c, e, start, SpanPlan(c, e, start, lo, hi, nb), lo - start, hi - start, m)
  {
    SpanTracks(c, e, start, lo);
    m := SpanLays(c, e, start, lo, hi, lo - start, lo - e.start, nb, SpanPlan(c, e, start, lo, hi, nb));
  }

  lemma HeadedPieces(c: Config, e: Extent, start: nat, at: nat, slba: nat, headOff: nat, remaining: nat, nb: nat)
      returns (m: nat)
    requires Ready(c) && headOff < c.lba && e.start <= start + at
    requires Bytes(c, slba) + headOff + e.start == Bytes(c, e.slba) + start + at
    requires Tracks(c, e, start, at + (c.lba - headOff), slba + 1)
    ensures Lays(c, e, start, HeadedPlan(c, at, slba, headOff, remaining, nb), at, at + remaining, m)
  {
    var head := HeadBytes(c, headOff, remaining);
    var ps := HeadedPlan(c, at, slba, headOff, remaining, nb).pieces;
    if ps == [] {
      m := at;
    } else {
      if head == c.lba - headOff {
        m := BodyPieces(c, e, start, at + head, slba + 1, remaining - head, nb + 1);
      } else {
        EmptyBody(c, at + head, slba + 1, nb + 1);
        m := at + remaining;
      }
      assert ps[1..] == BodyPlan(c, at + head, slba + 1, remaining - head, nb + 1).pieces;
    }
  }

  lemma EmptyBody(c: Config, at: nat, slba: nat, nb: nat)
    requires Ready(c)
    ensures BodyPlan(c, at, slba, 0, nb) == Plan([], 0)
  {
  }

  lemma StraightIsOk(c: Config, exts: seq<Extent>, i: nat, start: nat, size: nat, p: Piece)
    requires Sorted(exts) && i < |exts| && Straight(c, exts[i], start, p)
    requires p.at + Len(c, p) <= size && start + p.at + Len(c, p) <= exts[i].start + exts[i].len
    ensures PieceOk(c, exts, start, size, p)
  {
    forall x: nat | Within(c, p, x) ensures Addr(c, exts, start + x) == Some(Src(c, p) + x - p.at) {
      AddrFromHolder(c, exts, 0, i, start + x);
    }
  }

  // ---------- the whole request ----------

  lemma SpanOk(c: Config, exts: seq<Extent>, i: nat, start: nat, size: nat, lo: nat, hi: nat, nb: nat)
    requires Ready(c) && Sorted(exts) && i < |exts| && lo == SpanLo(exts[i], start)
             && hi == SpanHi(exts[i], start + size) && lo < hi
    ensures forall p :: p in SpanPlan(c, exts[i], start, lo, hi, nb).pieces ==> PieceOk(c, exts, start, size, p)
  {
    var ps := SpanPlan(c, exts[i], start, lo, hi, nb).pieces;
    var m := SpanPieces(c, exts[i], start, lo, hi, nb);
    ContiguousTotal(c, ps, lo - start, m);
    forall p | p in ps ensures PieceOk(c, exts, start, size, p) {
      StraightIsOk(c, exts, i, start, size, p);
    }
  }

  // Every command of a plan, rejected or not, moves bytes from where the file map has them.
  lemma {:induction false} WalkOk(c: Config, exts: seq<Extent>, i: nat, start: nat, size: nat, nb: nat)
    requires Ready(c) && Sorted(exts) && i <= |exts|
    ensures forall p :: p in WalkPlan(c, exts, i, start, start + size, nb).pieces ==> PieceOk(c, exts, start, size, p)
    decreases |exts| - i
  {
    if i < |exts| && exts[i].start < start + size {
      var lo, hi := SpanLo(exts[i], start), SpanHi(exts[i], start + size);
      if lo >= hi {
        WalkOk(c, exts, i + 1, start, size, nb);
      } else {
        var span := SpanPlan(c, exts[i], start, lo, hi, nb);
        SpanOk(c, exts, i, start, size, lo, hi, nb);
        if span.err == 0 { WalkOk(c, exts, i + 1, start, size, nb + Bounces(span.pieces)); }
      }
    }
  }

  lemma HitsJoin(c: Config, a: seq<Piece>, b: seq<Piece>, x: nat)
    requires c.lba > 0 && (Hits(c, a, x) || Hits(c, b, x))
    ensures Hits(c, a + b, x)
  {
    if Hits(c, a, x) {
      var j :| 0 <= j < |a| && Within(c, a[j], x);
      assert Within(c, (a + b)[j], x);
    } else {
      var j :| 0 <= j < |b| && Within(c, b[j], x);
      assert Within(c, (a + b)[|a| + j], x);
    }
  }

  lemma SpanHits(c: Config, e: Extent, start: nat, lo: nat, hi: nat, nb: nat, x: nat)
    requires Ready(c) && start <= lo < hi && e.start <= lo && SpanPlan(c, e, start, lo, hi, nb).err == 0
    requires lo <= start + x < hi
    ensures Hits(c, SpanPlan(c, e, start, lo, hi, nb).pieces, x)
  {
    var m := SpanPieces(c, e, start, lo, hi, nb);
    ContiguousHits(c, SpanPlan(c, e, start, lo, hi, nb).pieces, lo - start, m, x);
  }

  // The walk takes a span of extent i, then goes on.
  lemma WalkJoins(c: Config, exts: seq<Extent>, i: nat, start: nat, end: nat, nb: nat) returns (span: Plan, rest: Plan)
    requires Ready(c) && i < |exts| && exts[i].start < end && SpanLo(exts[i], start) < SpanHi(exts[i], end)
    requires WalkPlan(c, exts, i, start, end, nb).err == 0
    ensures span == SpanPlan(c, exts[i], start, SpanLo(exts[i], start), SpanHi(exts[i], end), nb) && span.err == 0
    ensures rest == WalkPlan(c, exts, i + 1, start, end, nb + Bounces(span.pieces)) && rest.err == 0
    ensures WalkPlan(c, exts, i, start, end, nb).pieces == span.pieces + rest.pieces
  {
    span := SpanPlan(c, exts[i], start, SpanLo(exts[i], start), SpanHi(exts[i], end), nb);
    rest := WalkPlan(c, exts, i + 1, start, end, nb + Bounces(span.pieces));
  }

  lemma WalkPasses(c: Config, exts: seq<Extent>, i: nat, start: nat, end: nat, nb: nat)
    requires Ready(c) && i < |exts| && exts[i].start < end && SpanLo(exts[i], start) >= SpanHi(exts[i], end)
    ensures WalkPlan(c, exts, i, start, end, nb) == WalkPlan(c, exts, i + 1, start, end, nb)
  {
  }

  lemma StartsBefore(exts: seq<Extent>, i: nat, k: nat, o: nat)
    requires Sorted(exts) && i <= k < |exts| && Holds(exts[k], o)
    ensures exts[i].start <= o
  {
  }

  // Every mapped byte of the request is in some command, if the plan is not rejected.
  lemma {:induction false} WalkHits(c: Config, exts: seq<Extent>, i: nat, start: nat, end: nat, nb: nat, k: nat,
      x: nat, plan: Plan)
    requires Ready(c) && Sorted(exts) && i <= k < |exts| && start + x < end && Holds(exts[k], start + x)
    requires plan == WalkPlan(c, exts, i, start, end, nb) && plan.err == 0
    ensures Hits(c, plan.pieces, x)
    decreases |exts| - i
  {
    StartsBefore(exts, i, k, start + x);
    var lo, hi := SpanLo(exts[i], start), SpanHi(exts[i], end);
    if lo >= hi {
      WalkPasses(c, exts, i, start, end, nb);
      WalkHits(c, exts, i + 1, start, end, nb, k, x, plan);
    } else {
      var span, rest := WalkJoins(c, exts, i, start, end, nb);
      if k == i {
        SpanHits(c, exts[i], start, lo, hi, nb, x);
      } else {
        WalkHits(c, exts, i + 1, start, end, nb + Bounces(span.pieces), k, x, rest);
      }
      HitsJoin(c, span.pieces, rest.pieces, x);
    }
  }

  // ---------- counting ----------

  ghost function Range(lo: nat, hi: nat): (r: set<nat>)
    ensures forall o :: o in r <==> lo <= o < hi
    ensures |r| == if lo < hi then hi - lo else 0
    decreases hi
  {
    if lo >= hi then {} else Range(lo, hi - 1) + {hi - 1}
  }

  ghost predicate MappedFrom(exts: seq<Extent>, i: nat, o: nat) {
    exists k :: i <= k < |exts| && Holds(exts[k], o)
  }

  ghost function MappedIn(exts: seq<Extent>, i: nat, start: nat, end: nat): set<nat> {
    set o | o in Range(start, end) && MappedFrom(exts, i, o)
  }

  // How many bytes of [start, end) the file map backs.
  ghost function MappedCount(exts: seq<Extent>, start: nat, end: nat): nat {
    |MappedIn(exts, 0, start, end)|
  }

  // In a sorted map a byte is held by the next extent, by a later one, or by none.
  lemma MappedNext(exts: seq<Extent>, i: nat, o: nat)
    requires Sorted(exts) && i < |exts|
    ensures MappedFrom(exts, i, o) <==> Holds(exts[i], o) || MappedFrom(exts, i + 1, o)
    ensures Holds(exts[i], o) ==> !MappedFrom(exts, i + 1, o)
  {
    if MappedFrom(exts, i, o) {
      var k :| i <= k < |exts| && Holds(exts[k], o);
      assert k == i || MappedFrom(exts, i + 1, o);
    }
  }

  lemma UnionSize(all: set<nat>, here: set<nat>, rest: set<nat>)
    requires forall o :: o in all <==> o in here || o in rest
    requires here !! rest
    ensures |all| == |here| + |rest|
  {
    assert all == here + rest;
  }

  lemma SpanCount(exts: seq<Extent>, i: nat, start: nat, end: nat)
    requires Sorted(exts) && i < |exts|
    ensures var lo, hi := SpanLo(exts[i], start), SpanHi(exts[i], end);
            |MappedIn(exts, i, start, end)| == (if lo < hi then hi - lo else 0) + |MappedIn(exts, i + 1, start, end)|
  {
    var all, here, rest := MappedIn(exts, i, start, end), Range(SpanLo(exts[i], start), SpanHi(exts[i], end)),
        MappedIn(exts, i + 1, start, end);
    forall o ensures o in all <==> o in here || o in rest
             ensures o in here ==> o !in rest {
      MappedNext(exts, i, o);
    }
    UnionSize(all, here, rest);
  }

  lemma PastTheEnd(exts: seq<Extent>, i: nat, start: nat, end: nat)
    requires Sorted(exts) && i <= |exts| && (i < |exts| ==> exts[i].start >= end)
    ensures MappedIn(exts, i, start, end) == {}
  {
  }

  lemma {:induction false} SpanTotal(c: Config, e: Extent, start: nat, lo: nat, hi: nat, nb: nat)
    requires Ready(c) && start <= lo < hi && e.start <= lo && SpanPlan(c, e, start, lo, hi, nb).err == 0
    ensures Total(c, SpanPlan(c, e, start, lo, hi, nb).pieces) == hi - lo
  {
    var m := SpanPieces(c, e, start, lo, hi, nb);
    ContiguousTotal(c, SpanPlan(c, e, start, lo, hi, nb).pieces, lo - start, m);
  }

  // The lengths of the spans, summed over the extents the walk visits.
  function SpanBytes(exts: seq<Extent>, i: nat, start: nat, end: nat): nat
    requires i <= |exts|
    decreases |exts| - i
  {
    if i == |exts| || exts[i].start >= end then 0
    else
      var lo, hi := SpanLo(exts[i], start), SpanHi(exts[i], end);
      (if lo < hi then hi - lo else 0) + SpanBytes(exts, i + 1, start, end)
  }

  lemma {:induction false} SpanBytesCount(exts: seq<Extent>, i: nat, start: nat, end: nat)
    requires Sorted(exts) && i <= |exts|
    ensures SpanBytes(exts, i, start, end) == |MappedIn(exts, i, start, end)|
    decreases |exts| - i
  {
    if i == |exts| || exts[i].start >= end {
      PastTheEnd(exts, i, start, end);
    } else {
      SpanCount(exts, i, start, end);
      SpanBytesCount(exts, i + 1, start, end);
    }
  }

  lemma {:induction false} WalkCount(c: Config, exts: seq<Extent>, i: nat, start: nat, end: nat, nb: nat)
    requires Ready(c) && i <= |exts| && WalkPlan(c, exts, i, start, end, nb).err == 0
    ensures Total(c, WalkPlan(c, exts, i, start, end, nb).pieces) == SpanBytes(exts, i, start, end)
    decreases |exts| - i
  {
    if i < |exts| && exts[i].start < end {
      var lo, hi := SpanLo(exts[i], start), SpanHi(exts[i], end);
      if lo >= hi {
        WalkCount(c, exts, i + 1, start, end, nb);
      } else {
        var span := SpanPlan(c, exts[i], start, lo, hi, nb);
        SpanTotal(c, exts[i], start, lo, hi, nb);
        WalkCount(c, exts, i + 1, start, end, nb + Bounces(span.pieces));
        TotalJoin(c, span.pieces, WalkPlan(c, exts, i + 1, start, end, nb + Bounces(span.pieces)).pieces);
      }
    }
  }

  lemma PlanHits(c: Config, exts: seq<Extent>, start: nat, size: nat, plan: Plan)
    requires Ready(c) && Sorted(exts) && plan == WalkPlan(c, exts, 0, start, start + size, 0) && plan.err == 0
    ensures forall x: nat :: x < size && Mapped(exts, start + x) ==> Hits(c, plan.pieces, x)
  {
    forall x: nat | x < size && Mapped(exts, start + x) ensures Hits(c, plan.pieces, x) {
      var k :| 0 <= k < |exts| && Holds(exts[k], start + x);
      WalkHits(c, exts, 0, start, start + size, 0, k, x, plan);
    }
  }

  lemma {:induction false} PlanTotal(c: Config, exts: seq<Extent>, start: nat, end: nat, plan: Plan)
    requires Ready(c) && Sorted(exts) && plan == WalkPlan(c, exts, 0, start, end, 0) && plan.err == 0
    ensures Total(c, plan.pieces) == MappedCount(exts, start, end)
  {
    WalkCount(c, exts, 0, start, end, 0);
    SpanBytesCount(exts, 0, start, end);
  }

  /**
    The plan of a request that is not rejected moves exactly the mapped bytes, each from
    its place on the device, and their number is the total of the commands' lengths.
   */
  lemma {:induction false} PlanIsTheFileMap(c: Config, exts: seq<Extent>, start: nat, size: nat)
    requires Sorted(exts)
    ensures forall p :: p in ReadPlanOf(c, exts, start, size).pieces ==> PieceOk(c, exts, start, size, p)
    ensures ReadPlanOf(c, exts, start, size).err == 0 ==>
              && Total(c, ReadPlanOf(c, exts, start, size).pieces) == MappedCount(exts, start, start + size)
              && forall x: nat :: x < size && Mapped(exts, start + x) ==>
                  Hits(c, ReadPlanOf(c, exts, start, size).pieces, x)
  {
    var plan := ReadPlanOf(c, exts, start, size);
    if Ready(c) && start + size <= UINT64_MAX {
      WalkOk(c, exts, 0, start, size, 0);
      if plan.err == 0 {
        PlanTotal(c, exts, start, start + size, plan);
        PlanHits(c, exts, start, size, plan);
      }
    }
  }
}
