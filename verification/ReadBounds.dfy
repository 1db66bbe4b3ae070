/**
  Consequences of the way a request is cut: how many bounce slots it can need, when it is
  rejected, and where direct chunks land in the destination.
 */
module ReadBounds {
  import opened Common
  import opened ReadPlan

  // Every extent but the last is a whole number of LBAs, as a file system lays them out.
  ghost predicate WholeLbas(c: Config, exts: seq<Extent>)
    requires c.lba > 0
  {
    forall i :: 0 <= i < |exts| - 1 ==> Off(c, exts[i].len) == 0
  }

  lemma {:induction false} OffSub(c: Config, a: nat, b: nat)
    requires c.lba > 0 && b <= a && Off(c, b) == 0
    ensures Off(c, a - b) == Off(c, a)
    decreases b
  {
    if b >= c.lba { OffSub(c, a - c.lba, b - c.lba); }
  }

  // Where the first whole LBA after offset x begins.
  lemma {:induction false} NextLba(c: Config, x: nat)
    requires c.lba > 0
    ensures Off(c, x + (c.lba - Off(c, x))) == 0
  {
    if x >= c.lba {
      NextLba(c, x - c.lba);
    } else {
      assert Off(c, c.lba) == Off(c, 0);
    }
  }

  lemma {:induction false} BodyBounces(c: Config, at: nat, slba: nat, remaining: nat, nb: nat)
    requires Ready(c)
    ensures var p := BodyPlan(c, at, slba, remaining, nb);
            && Bounces(p.pieces) == (if Off(c, remaining) == 0 || p.err != 0 then 0 else 1)
            && p.err == (if Off(c, remaining) == 0 then 0 else PartialErr(c, nb, 0, Off(c, remaining)))
  {
    var middle := Middle(c, at, slba, Lbas(c, remaining));
    MiddlePartition(c, at, slba, Lbas(c, remaining));
    var tail := Off(c, remaining);
    BouncesJoin(middle, [Bounce(at + Bytes(c, Lbas(c, remaining)), slba + Lbas(c, remaining), 0, tail)]);
  }

  // Does the head of the span end the request?
  predicate HeadRejects(c: Config, headOff: nat, remaining: nat)
    requires headOff < c.lba
  {
    headOff != 0 && (c.alignedOnly || c.stream
                     || (remaining - HeadBytes(c, headOff, remaining) >= c.lba
                         && HeadBytes(c, headOff, remaining) % PRP_ALIGN != 0))
  }

  // What the first span of a request may use and how it may end; wholly: the span ends
  // with its extent, on an LBA boundary.
  ghost predicate FirstOk(c: Config, p: Plan, headOff: nat, remaining: nat, wholly: bool)
    requires headOff < c.lba
  {
    && (HeadRejects(c, headOff, remaining) ==> p.err == INVALID_VALUE && p.pieces == [])
    && (!HeadRejects(c, headOff, remaining) ==> p.err == 0 || (p.err == INVALID_VALUE && c.alignedOnly))
    && Bounces(p.pieces) <= (if c.stream then 1 else 2)
    && (wholly ==> Bounces(p.pieces) <= (if c.stream then 0 else 1) && (p.err != 0 <==> HeadRejects(c, headOff,
        remaining)))
  }

  lemma {:induction false} FirstHeaded(c: Config, at: nat, slba: nat, headOff: nat, remaining: nat, wholly: bool)
    requires Ready(c) && 0 < headOff < c.lba
    requires wholly && remaining >= c.lba - headOff ==> Off(c, remaining - (c.lba - headOff)) == 0
    ensures FirstOk(c, HeadedPlan(c, at, slba, headOff, remaining, 0), headOff, remaining, wholly)
  {
    var head := HeadBytes(c, headOff, remaining);
    if !HeadRejects(c, headOff, remaining) {
      var body := BodyPlan(c, at + head, slba + 1, remaining - head, 1);
      BodyBounces(c, at + head, slba + 1, remaining - head, 1);
      BouncesJoin([Bounce(at, slba, headOff, head)], body.pieces);
      if head != c.lba - headOff { EmptyBody(c, at + head, slba + 1, 1); }
    }
  }

  lemma {:induction false} FirstHeadless(c: Config, at: nat, slba: nat, remaining: nat, wholly: bool)
    requires Ready(c) && (wholly ==> Off(c, remaining) == 0)
    ensures FirstOk(c, BodyPlan(c, at, slba, remaining, 0), 0, remaining, wholly)
  {
    BodyBounces(c, at, slba, remaining, 0);
  }

  lemma BehindHead(c: Config, len: nat, off: nat)
    requires c.lba > 0 && Off(c, len) == 0 && off + (c.lba - Off(c, off)) <= len
    ensures Off(c, len - off - (c.lba - Off(c, off))) == 0
  {
    NextLba(c, off);
    OffSub(c, len, off + (c.lba - Off(c, off)));
  }

  lemma {:induction false} FirstSpan(c: Config, e: Extent, start: nat, lo: nat, hi: nat)
    requires Ready(c) && start <= lo < hi && e.start <= lo && hi <= e.start + e.len
    ensures FirstOk(c, SpanPlan(c, e, start, lo, hi, 0), Off(c, lo - e.start), hi - lo, hi == e.start + e.len
            && Off(c, e.len) == 0)
  {
    FirstPlan(c, e, lo - start, lo - e.start, hi - lo, SpanPlan(c, e, start, lo, hi, 0));
  }

  // The same for the span's plan given as a value, off bytes into the extent.
  lemma {:induction false} FirstPlan(c: Config, e: Extent, at: nat, off: nat, n: nat, plan: Plan)
    requires Ready(c) && off + n <= e.len
    requires plan == if Off(c, off) == 0 then BodyPlan(c, at, e.slba + Lbas(c, off), n, 0)
                     else HeadedPlan(c, at, e.slba + Lbas(c, off), Off(c, off), n, 0)
    ensures FirstOk(c, plan, Off(c, off), n, off + n == e.len && Off(c, e.len) == 0)
  {
    var wholly := off + n == e.len && Off(c, e.len) == 0;
    if Off(c, off) == 0 {
      if wholly { OffSub(c, e.len, off); }
      FirstHeadless(c, at, e.slba + Lbas(c, off), n, wholly);
    } else {
      if wholly && n >= c.lba - Off(c, off) { BehindHead(c, e.len, off); }
      FirstHeaded(c, at, e.slba + Lbas(c, off), Off(c, off), n, wholly);
    }
  }

  // A later span starts with its extent, so it has no head.
  lemma {:induction false} LaterSpan(c: Config, e: Extent, start: nat, hi: nat, nb: nat)
    requires Ready(c) && start <= e.start < hi <= e.start + e.len && nb <= (if c.stream then 0 else 1)
    ensures var p := SpanPlan(c, e, start, e.start, hi, nb);
            && (p.err == 0 || (p.err == INVALID_VALUE && c.alignedOnly)) && Bounces(p.pieces) <= 1
            && (hi == e.start + e.len && Off(c, e.len) == 0 ==> p.err == 0 && Bounces(p.pieces) == 0)
  {
    BodyBounces(c, e.start - start, e.slba, hi - e.start, nb);
  }

  lemma {:induction false} LastWalk(c: Config, exts: seq<Extent>, i: nat, start: nat, end: nat, nb: nat)
    requires Ready(c) && i <= |exts| && (i < |exts| ==> exts[i].start >= end)
    ensures WalkPlan(c, exts, i, start, end, nb) == Plan([], 0)
  {
  }

  lemma {:induction false} LaterWalk(c: Config, exts: seq<Extent>, i: nat, start: nat, end: nat, nb: nat)
    requires Ready(c) && Sorted(exts) && WholeLbas(c, exts) && i <= |exts| && nb <= (if c.stream then 0 else 1)
    requires forall k :: i <= k < |exts| ==> start <= exts[k].start
    ensures var p := WalkPlan(c, exts, i, start, end, nb);
            (p.err == 0 || (p.err == INVALID_VALUE && c.alignedOnly)) && Bounces(p.pieces) <= 1
    decreases |exts| - i
  {
    if i < |exts| && exts[i].start < end {
      var e := exts[i];
      var lo, hi := SpanLo(e, start), SpanHi(e, end);
      if lo >= hi {
        LaterWalk(c, exts, i + 1, start, end, nb);
      } else {
        LaterSpan(c, e, start, hi, nb);
        var span := SpanPlan(c, e, start, lo, hi, nb);
        if i + 1 < |exts| && exts[i + 1].start < end {
          assert hi == e.start + e.len;
          LaterWalk(c, exts, i + 1, start, end, nb);
          BouncesJoin(span.pieces, WalkPlan(c, exts, i + 1, start, end, nb).pieces);
        } else if span.err == 0 {
          LastWalk(c, exts, i + 1, start, end, nb + Bounces(span.pieces));
          BouncesJoin(span.pieces, []);
        }
      }
    }
  }

  // The extent the request starts in, if any, refuses its head.
  ghost predicate StartRejects(c: Config, exts: seq<Extent>, i: nat, start: nat, end: nat)
    requires c.lba > 0
  {
    start < end && exists k ::
      && i <= k < |exts| && Holds(exts[k], start)
      && HeadRejects(c, Off(c, start - exts[k].start), SpanHi(exts[k], end) - start)
  }

  ghost predicate WalkBounded(c: Config, exts: seq<Extent>, i: nat, start: nat, end: nat)
    requires Ready(c) && i <= |exts|
  {
    var p := WalkPlan(c, exts, i, start, end, 0);
    && Bounces(p.pieces) <= (if c.stream then 1 else 2)
    && (p.err == 0 || p.err == INVALID_VALUE)
    && (!c.alignedOnly ==> (p.err != 0 <==> StartRejects(c, exts, i, start, end)))
  }

  lemma {:induction false} StartHere(c: Config, exts: seq<Extent>, i: nat, start: nat, end: nat)
    requires Ready(c) && Sorted(exts) && i < |exts| && exts[i].start < end
             && SpanLo(exts[i], start) < SpanHi(exts[i], end)
    ensures StartRejects(c, exts, i, start, end) <==>
              start > exts[i].start && HeadRejects(c, Off(c, start - exts[i].start), SpanHi(exts[i], end) - start)
  {
    if start >= exts[i].start { assert Holds(exts[i], start); }
    assert forall k :: i < k < |exts| && Holds(exts[k], start) ==> exts[i].start + exts[i].len <= start;
  }

  lemma StartLater(c: Config, exts: seq<Extent>, i: nat, start: nat, end: nat)
    requires Ready(c) && i < |exts| && SpanLo(exts[i], start) >= SpanHi(exts[i], end)
    ensures StartRejects(c, exts, i, start, end) <==> StartRejects(c, exts, i + 1, start, end)
  {
    assert start < end ==> !Holds(exts[i], start);
  }

  lemma SpanThenRest(c: Config, exts: seq<Extent>, i: nat, start: nat, end: nat)
    requires Ready(c) && Sorted(exts) && WholeLbas(c, exts) && i < |exts| && exts[i].start < end
    requires SpanLo(exts[i], start) < SpanHi(exts[i], end)
    ensures WalkBounded(c, exts, i, start, end)
  {
    var e := exts[i];
    var lo, hi := SpanLo(e, start), SpanHi(e, end);
    var span := SpanPlan(c, e, start, lo, hi, 0);
    StartHere(c, exts, i, start, end);
    FirstSpan(c, e, start, lo, hi);
    if span.err == 0 {
      if i + 1 < |exts| && exts[i + 1].start < end {
        assert hi == e.start + e.len;
        LaterWalk(c, exts, i + 1, start, end, Bounces(span.pieces));
      } else {
        LastWalk(c, exts, i + 1, start, end, Bounces(span.pieces));
      }
      BouncesJoin(span.pieces, WalkPlan(c, exts, i + 1, start, end, Bounces(span.pieces)).pieces);
    }
  }

  lemma {:induction false} WalkBound(c: Config, exts: seq<Extent>, i: nat, start: nat, end: nat)
    requires Ready(c) && Sorted(exts) && WholeLbas(c, exts) && i <= |exts|
    ensures WalkBounded(c, exts, i, start, end)
    decreases |exts| - i
  {
    if i < |exts| && exts[i].start < end {
      if SpanLo(exts[i], start) >= SpanHi(exts[i], end) {
        StartLater(c, exts, i, start, end);
        WalkBound(c, exts, i + 1, start, end);
      } else {
        SpanThenRest(c, exts, i, start, end);
      }
    }
  }

  /**
    With extents of whole LBAs (but for the last) a read needs at most two bounce slots and
    a stream read at most one: neither slot-exhaustion exit is ever taken. A read that is
    not restricted to aligned ranges is rejected exactly when the extent it starts in
    refuses its head.
   */
  lemma SlotsSuffice(c: Config, exts: seq<Extent>, start: nat, size: nat)
    requires Ready(c) && Sorted(exts) && WholeLbas(c, exts) && start + size <= UINT64_MAX
    ensures Bounces(ReadPlanOf(c, exts, start, size).pieces) <= (if c.stream then 1 else 2)
    ensures ReadPlanOf(c, exts, start, size).err in {0, INVALID_VALUE}
    ensures !c.alignedOnly ==> (ReadPlanOf(c, exts, start, size).err != 0 <==> StartRejects(c, exts, 0, start,
            start + size))
  {
    WalkBound(c, exts, 0, start, start + size);
  }

  // ---------- which requests are rejected ----------

  // The part of the request [start, end) inside the extent is not empty.
  predicate Touched(e: Extent, start: nat, end: nat) {
    SpanLo(e, start) < SpanHi(e, end)
  }

  // How many LBAs are covered only in part by n bytes that begin off bytes into an extent:
  // the first one, and the last one if it is another.
  function PartialLbas(c: Config, off: nat, n: nat): nat
    requires c.lba > 0
  {
    (if off % c.lba != 0 then 1 else 0)
    + (if (off + n) % c.lba != 0 && (off % c.lba == 0 || off % c.lba + n > c.lba) then 1 else 0)
  }

  // The same over all extents from the i-th on.
  function PartialIn(c: Config, exts: seq<Extent>, i: nat, start: nat, end: nat): nat
    requires c.lba > 0 && i <= |exts|
    decreases |exts| - i
  {
    if i == |exts| then 0
    else
      var lo, hi := SpanLo(exts[i], start), SpanHi(exts[i], end);
      (if lo < hi then PartialLbas(c, lo - exts[i].start, hi - lo) else 0) + PartialIn(c, exts, i + 1, start, end)
  }

  // How many of them a read can bounce.
  function Bounceable(c: Config): nat {
    if c.alignedOnly then 0 else if c.stream then 1 else BOUNCE_SLOTS
  }

  function Verdict(c: Config, headRejected: bool, partial: nat): nat {
    if headRejected then INVALID_VALUE
    else if partial <= Bounceable(c) then 0
    else if c.alignedOnly then INVALID_VALUE
    else INTERNAL_ERROR
  }

  // A span's plan fits the verdict on it, with nb slots already taken.
  ghost predicate Judged(c: Config, plan: Plan, headOff: nat, n: nat, nb: nat, partial: nat)
    requires headOff < c.lba
  {
    && plan.err == Verdict(c, HeadRejects(c, headOff, n), nb + partial)
    && (plan.err == 0 ==> Bounces(plan.pieces) == partial)
  }

  lemma {:induction false} HeadlessJudged(c: Config, at: nat, slba: nat, off: nat, n: nat, nb: nat)
    requires Ready(c) && Off(c, off) == 0 && nb <= Bounceable(c)
    ensures Judged(c, BodyPlan(c, at, slba, n, nb), 0, n, nb, PartialLbas(c, off, n))
  {
    BodyBounces(c, at, slba, n, nb);
    OffSub(c, off + n, off);
    LbasIsQuotient(c, off);
    LbasIsQuotient(c, off + n);
  }

  lemma {:induction false} HeadedJudged(c: Config, at: nat, slba: nat, off: nat, n: nat)
    requires Ready(c) && Off(c, off) != 0 && n > 0
    ensures Judged(c, HeadedPlan(c, at, slba, Off(c, off), n, 0), Off(c, off), n, 0, PartialLbas(c, off, n))
  {
    var headOff := Off(c, off);
    LbasIsQuotient(c, off);
    if !HeadRejects(c, headOff, n) {
      var head := HeadBytes(c, headOff, n);
      var body := BodyPlan(c, at + head, slba + 1, n - head, 1);
      BodyBounces(c, at + head, slba + 1, n - head, 1);
      BouncesJoin([Bounce(at, slba, headOff, head)], body.pieces);
      if headOff + n >= c.lba {
        NextLba(c, off);
        OffSub(c, off + n, off + (c.lba - headOff));
        LbasIsQuotient(c, off + n);
      } else {
        EmptyBody(c, at + head, slba + 1, 1);
      }
    }
  }

  // The same for the span's plan given as a value.
  lemma {:induction false} SpanJudged(c: Config, e: Extent, at: nat, off: nat, n: nat, nb: nat, plan: Plan)
    requires Ready(c) && n > 0 && nb <= Bounceable(c) && (off == 0 || nb == 0)
    requires plan == if Off(c, off) == 0 then BodyPlan(c, at, e.slba + Lbas(c, off), n, nb)
                     else HeadedPlan(c, at, e.slba + Lbas(c, off), Off(c, off), n, nb)
    ensures Judged(c, plan, Off(c, off), n, nb, PartialLbas(c, off, n))
  {
    if Off(c, off) == 0 {
      HeadlessJudged(c, at, e.slba + Lbas(c, off), off, n, nb);
    } else {
      HeadedJudged(c, at, e.slba + Lbas(c, off), off, n);
    }
  }

  ghost predicate WalkJudged(c: Config, exts: seq<Extent>, i: nat, start: nat, end: nat, nb: nat)
    requires Ready(c) && i <= |exts|
  {
    WalkPlan(c, exts, i, start, end, nb).err
    == Verdict(c, StartRejects(c, exts, i, start, end), nb + PartialIn(c, exts, i, start, end))
  }

  // Behind the end of the request there is nothing to judge.
  lemma {:induction false} NothingBehind(c: Config, exts: seq<Extent>, i: nat, start: nat, end: nat)
    requires c.lba > 0 && Sorted(exts) && i <= |exts| && forall k :: i <= k < |exts| ==> exts[k].start >= end
    ensures PartialIn(c, exts, i, start, end) == 0 && !StartRejects(c, exts, i, start, end)
    decreases |exts| - i
  {
    if i < |exts| { NothingBehind(c, exts, i + 1, start, end); }
  }

  ghost predicate SpanIs(c: Config, e: Extent, start: nat, end: nat, nb: nat, span: Plan, partial: nat)
    requires Ready(c) && Touched(e, start, end)
  {
    var lo, hi := SpanLo(e, start), SpanHi(e, end);
    && span == SpanPlan(c, e, start, lo, hi, nb) && partial == PartialLbas(c, lo - e.start, hi - lo)
    && Judged(c, span, Off(c, lo - e.start), hi - lo, nb, partial)
  }

  lemma {:induction false} WalkErr(c: Config, exts: seq<Extent>, i: nat, start: nat, end: nat, nb: nat, span: Plan)
    requires Ready(c) && i < |exts| && exts[i].start < end && Touched(exts[i], start, end)
    requires span == SpanPlan(c, exts[i], start, SpanLo(exts[i], start), SpanHi(exts[i], end), nb)
    ensures WalkPlan(c, exts, i, start, end, nb).err
            == if span.err != 0 then span.err else WalkPlan(c, exts, i + 1, start, end, nb + Bounces(span.pieces)).err
  {
  }

  // The next span's verdict, then that of the rest.
  lemma {:induction false} SpanThenJudged(c: Config, exts: seq<Extent>, i: nat, start: nat, end: nat, nb: nat,
      span: Plan, partial: nat)
    requires Ready(c) && Sorted(exts) && i < |exts| && exts[i].start < end && Touched(exts[i], start, end)
    requires SpanIs(c, exts[i], start, end, nb, span, partial)
    requires span.err == 0 ==> WalkJudged(c, exts, i + 1, start, end, nb + partial)
    ensures WalkJudged(c, exts, i, start, end, nb)
  {
    WalkErr(c, exts, i, start, end, nb, span);
    SpanRejects(c, exts, i, start, end);
    assert PartialIn(c, exts, i, start, end) == partial + PartialIn(c, exts, i + 1, start, end);
    if span.err == 0 { RestStarts(c, exts, i, start, end); }
  }

  lemma {:induction false} SpanRejects(c: Config, exts: seq<Extent>, i: nat, start: nat, end: nat)
    requires Ready(c) && Sorted(exts) && i < |exts| && exts[i].start < end && Touched(exts[i], start, end)
    ensures var lo, hi := SpanLo(exts[i], start), SpanHi(exts[i], end);
            StartRejects(c, exts, i, start, end) <==> HeadRejects(c, Off(c, lo - exts[i].start), hi - lo)
  {
    StartHere(c, exts, i, start, end);
  }

  // The extents behind a touched one do not hold the start, or not behind an LBA's begin.
  lemma RestStarts(c: Config, exts: seq<Extent>, i: nat, start: nat, end: nat)
    requires c.lba > 0 && Sorted(exts) && i < |exts| && Touched(exts[i], start, end)
    ensures !StartRejects(c, exts, i + 1, start, end)
  {
  }

  // One span's part of the verdict.
  lemma {:induction false} JudgeSpan(c: Config, e: Extent, start: nat, end: nat, nb: nat)
      returns (span: Plan, partial: nat)
    requires Ready(c) && nb <= Bounceable(c) && (start <= e.start || nb == 0) && Touched(e, start, end)
    ensures SpanIs(c, e, start, end, nb, span, partial)
    ensures span.err == 0 ==> nb + partial <= Bounceable(c)
  {
    var lo, hi := SpanLo(e, start), SpanHi(e, end);
    span, partial := SpanPlan(c, e, start, lo, hi, nb), PartialLbas(c, lo - e.start, hi - lo);
    SpanJudged(c, e, lo - start, lo - e.start, hi - lo, nb, span);
  }

  lemma {:induction false} UntouchedJudged(c: Config, exts: seq<Extent>, i: nat, start: nat, end: nat, nb: nat)
    requires Ready(c) && i < |exts| && exts[i].start < end && !Touched(exts[i], start, end)
    requires WalkJudged(c, exts, i + 1, start, end, nb)
    ensures WalkJudged(c, exts, i, start, end, nb)
  {
    StartLater(c, exts, i, start, end);
  }

  lemma {:induction false} Judge(c: Config, exts: seq<Extent>, i: nat, start: nat, end: nat, nb: nat)
    requires Ready(c) && Sorted(exts) && i <= |exts| && nb <= Bounceable(c)
    requires nb == 0 || forall k :: i <= k < |exts| ==> start <= exts[k].start
    ensures WalkJudged(c, exts, i, start, end, nb)
    decreases |exts| - i
  {
    if i == |exts| || exts[i].start >= end {
      NothingBehind(c, exts, i, start, end);
      LastWalk(c, exts, i, start, end, nb);
    } else if !Touched(exts[i], start, end) {
      Judge(c, exts, i + 1, start, end, nb);
      UntouchedJudged(c, exts, i, start, end, nb);
    } else {
      var span, partial := JudgeSpan(c, exts[i], start, end, nb);
      if span.err == 0 {
        assert forall k :: i + 1 <= k < |exts| ==> start <= exts[k].start;
        Judge(c, exts, i + 1, start, end, nb + partial);
      }
      SpanThenJudged(c, exts, i, start, end, nb, span, partial);
    }
  }

  /**
    Exactly which requests are rejected, and with which code, on any extents: the head is
    refused, or more LBAs are covered in part than the mode can bounce.
   */
  lemma {:induction false} RejectedIff(c: Config, exts: seq<Extent>, start: nat, size: nat)
    requires Ready(c) && Sorted(exts) && start + size <= UINT64_MAX
    ensures ReadPlanOf(c, exts, start, size).err
            == Verdict(c, StartRejects(c, exts, 0, start, start + size), PartialIn(c, exts, 0, start, start + size))
  {
    Judge(c, exts, 0, start, start + size, 0);
  }

  // What a read must be like to be carried out.
  ghost predicate Allowed(c: Config, exts: seq<Extent>, start: nat, size: nat) {
    && Ready(c) && start + size <= UINT64_MAX && !StartRejects(c, exts, 0, start, start + size)
    && PartialIn(c, exts, 0, start, start + size) <= Bounceable(c)
  }

  lemma {:induction false} AllowedIff(c: Config, exts: seq<Extent>, start: nat, size: nat)
    requires Sorted(exts)
    ensures ReadPlanOf(c, exts, start, size).err == 0 <==> Allowed(c, exts, start, size)
  {
    if Ready(c) && start + size <= UINT64_MAX { RejectedIff(c, exts, start, size); }
  }

  // The request starts or ends off an LBA boundary in the extent.
  ghost predicate OffBoundary(c: Config, e: Extent, start: nat, end: nat)
    requires c.lba > 0
  {
    var lo, hi := SpanLo(e, start), SpanHi(e, end);
    lo < hi && ((lo - e.start) % c.lba != 0 || (hi - lo) % c.lba != 0)
  }

  lemma {:induction false} AlignedSpan(c: Config, e: Extent, start: nat, end: nat, nb: nat)
    requires Ready(c) && c.alignedOnly && Touched(e, start, end)
    ensures var p := SpanPlan(c, e, start, SpanLo(e, start), SpanHi(e, end), nb);
            && p.err == (if OffBoundary(c, e, start, end) then INVALID_VALUE else 0)
            && Bounces(p.pieces) == 0
  {
    var lo, hi := SpanLo(e, start), SpanHi(e, end);
    LbasIsQuotient(c, lo - e.start);
    LbasIsQuotient(c, hi - lo);
    if Off(c, lo - e.start) == 0 {
      BodyBounces(c, lo - start, e.slba + Lbas(c, lo - e.start), hi - lo, nb);
    }
  }

  lemma {:induction false} AlignedWalk(c: Config, exts: seq<Extent>, i: nat, start: nat, end: nat, nb: nat)
    requires Ready(c) && Sorted(exts) && c.alignedOnly && i <= |exts|
    ensures var p := WalkPlan(c, exts, i, start, end, nb);
            && p.err in {0, INVALID_VALUE} && Bounces(p.pieces) == 0
            && (p.err != 0 <==> exists k :: i <= k < |exts| && OffBoundary(c, exts[k], start, end))
    decreases |exts| - i
  {
    if i == |exts| || exts[i].start >= end {
      LastWalk(c, exts, i, start, end, nb);
    } else if !Touched(exts[i], start, end) {
      AlignedWalk(c, exts, i + 1, start, end, nb);
    } else {
      var span := SpanPlan(c, exts[i], start, SpanLo(exts[i], start), SpanHi(exts[i], end), nb);
      AlignedSpan(c, exts[i], start, end, nb);
      if span.err == 0 {
        AlignedWalk(c, exts, i + 1, start, end, nb);
        BouncesJoin(span.pieces, WalkPlan(c, exts, i + 1, start, end, nb).pieces);
      }
    }
  }

  /**
    A device restricted to aligned ranges rejects a read exactly if it starts or ends off an
    LBA boundary in some extent, and it never bounces.
   */
  lemma {:induction false} AlignedOnlyRejects(c: Config, exts: seq<Extent>, start: nat, size: nat)
    requires Ready(c) && Sorted(exts) && c.alignedOnly && start + size <= UINT64_MAX
    ensures var p := ReadPlanOf(c, exts, start, size);
            && p.err in {0, INVALID_VALUE} && Bounces(p.pieces) == 0
            && (p.err != 0 <==> exists k :: 0 <= k < |exts| && OffBoundary(c, exts[k], start, start + size))
  {
    AlignedWalk(c, exts, 0, start, start + size, 0);
  }

  // ---------- where chunks land ----------

  ghost predicate DwordFriendly(c: Config, exts: seq<Extent>) {
    c.lba % PRP_ALIGN == 0 && forall i :: 0 <= i < |exts| ==> exts[i].start % PRP_ALIGN == 0
  }

  lemma {:induction false} BytesDword(c: Config, k: nat)
    requires c.lba % PRP_ALIGN == 0
    ensures Bytes(c, k) % PRP_ALIGN == 0
  {
    if k > 0 { BytesDword(c, k - 1); }
  }

  // A chunk of the span is dword aligned exactly if the body it belongs to is.
  lemma BodyDword(c: Config, at: nat, slba: nat, remaining: nat, nb: nat, p: Piece)
    requires Ready(c) && c.lba % PRP_ALIGN == 0 && p in BodyPlan(c, at, slba, remaining, nb).pieces && p.Chunk?
    ensures p.at >= at && (p.at - at) % PRP_ALIGN == 0 && remaining >= c.lba
  {
    MiddleChunks(c, at, slba, Lbas(c, remaining));
    assert p in Middle(c, at, slba, Lbas(c, remaining));
    assert ChunkOk(c, at, slba, Lbas(c, remaining), p);
    BytesDword(c, p.slba - slba);
  }

  lemma HeadlessDword(c: Config, e: Extent, start: nat, lo: nat, hi: nat, nb: nat, p: Piece)
    requires Ready(c) && c.lba % PRP_ALIGN == 0 && e.start % PRP_ALIGN == 0 && p.Chunk?
    requires lo == Max(start, e.start) < hi && Off(c, lo - e.start) == 0
    requires p in BodyPlan(c, lo - start, e.slba + Lbas(c, lo - e.start), hi - lo, nb).pieces
    ensures p.at % PRP_ALIGN == 0 <==> start % PRP_ALIGN == 0 || start >= e.start
  {
    var off := lo - e.start;
    BodyDword(c, lo - start, e.slba + Lbas(c, off), hi - lo, nb, p);
    LbasOff(c, off);
    BytesDword(c, Lbas(c, off));
  }

  lemma HeadedDword(c: Config, slba: nat, headOff: nat, remaining: nat, nb: nat, p: Piece)
    requires Ready(c) && c.lba % PRP_ALIGN == 0 && 0 < headOff < c.lba && p.Chunk?
    requires p in HeadedPlan(c, 0, slba, headOff, remaining, nb).pieces
    ensures p.at % PRP_ALIGN == 0
  {
    var head := HeadBytes(c, headOff, remaining);
    BodyDword(c, head, slba + 1, remaining - head, nb + 1, p);
  }

  lemma SpanDword(c: Config, e: Extent, start: nat, lo: nat, hi: nat, nb: nat, p: Piece)
    requires Ready(c) && c.lba % PRP_ALIGN == 0 && e.start % PRP_ALIGN == 0 && p.Chunk?
    requires lo == Max(start, e.start) < hi && p in SpanPlan(c, e, start, lo, hi, nb).pieces
    ensures p.at % PRP_ALIGN == 0 <==> start % PRP_ALIGN == 0 || start >= e.start
  {
    var off := lo - e.start;
    if Off(c, off) == 0 {
      HeadlessDword(c, e, start, lo, hi, nb, p);
    } else {
      HeadedDword(c, e.slba + Lbas(c, off), Off(c, off), hi - lo, nb, p);
    }
  }

  // The chunk's destination and the request's start lie in one extent.
  ghost predicate SameExtent(exts: seq<Extent>, a: nat, b: nat) {
    exists i :: 0 <= i < |exts| && Holds(exts[i], a) && Holds(exts[i], b)
  }

  lemma ChunkNotEmpty(c: Config, p: Piece)
    requires c.lba > 0 && p.Chunk?
    ensures Len(c, p) > 0
  {
  }

  lemma SpanInside(c: Config, e: Extent, start: nat, lo: nat, hi: nat, nb: nat, p: Piece)
    requires Ready(c) && start <= lo < hi && e.start <= lo
    requires p in SpanPlan(c, e, start, lo, hi, nb).pieces && Len(c, p) > 0
    ensures lo <= start + p.at < hi
  {
    var m := SpanPieces(c, e, start, lo, hi, nb);
    ContiguousTotal(c, SpanPlan(c, e, start, lo, hi, nb).pieces, lo - start, m);
  }

  lemma SameExtentIff(exts: seq<Extent>, i: nat, a: nat, b: nat)
    requires Sorted(exts) && i < |exts| && Holds(exts[i], b) && a <= b
    ensures SameExtent(exts, a, b) <==> a >= exts[i].start
  {
    if a >= exts[i].start { assert Holds(exts[i], a); }
  }

  lemma {:induction false} WalkDword(c: Config, exts: seq<Extent>, i: nat, start: nat, end: nat, nb: nat, p: Piece)
    requires Ready(c) && Sorted(exts) && DwordFriendly(c, exts) && i <= |exts| && p.Chunk?
    requires p in WalkPlan(c, exts, i, start, end, nb).pieces
    ensures p.at % PRP_ALIGN == 0 <==> start % PRP_ALIGN == 0 || SameExtent(exts, start, start + p.at)
    decreases |exts| - i
  {
    var lo, hi := SpanLo(exts[i], start), SpanHi(exts[i], end);
    if lo >= hi {
      WalkDword(c, exts, i + 1, start, end, nb, p);
    } else {
      var span := SpanPlan(c, exts[i], start, lo, hi, nb);
      if p in span.pieces {
        SpanDword(c, exts[i], start, lo, hi, nb, p);
        ChunkNotEmpty(c, p);
        SpanInside(c, exts[i], start, lo, hi, nb, p);
        SameExtentIff(exts, i, start, start + p.at);
      } else {
        WalkDword(c, exts, i + 1, start, end, nb + Bounces(span.pieces), p);
      }
    }
  }

  /**
    For a dword-aligned destination, LBAs of whole dwords and dword-aligned extents, a
    direct chunk lands dword aligned exactly if the request starts dword aligned or the
    chunk lies in the extent the request starts in.
   */
  lemma ChunksDwordAligned(c: Config, exts: seq<Extent>, start: nat, size: nat, p: Piece)
    requires Sorted(exts) && DwordFriendly(c, exts) && p in ReadPlanOf(c, exts, start, size).pieces && p.Chunk?
    ensures p.at % PRP_ALIGN == 0 <==> start % PRP_ALIGN == 0 || SameExtent(exts, start, start + p.at)
  {
    PlanIsWalk(c, exts, start, size);
    WalkDword(c, exts, 0, start, start + size, 0, p);
  }

  lemma {:induction false} PlanIsWalk(c: Config, exts: seq<Extent>, start: nat, size: nat)
    requires ReadPlanOf(c, exts, start, size).pieces != []
    ensures Ready(c) && ReadPlanOf(c, exts, start, size) == WalkPlan(c, exts, 0, start, start + size, 0)
  {
  }

  lemma TwoExtents(c: Config, exts: seq<Extent>)
    requires c == Config(512, 4096, false, false) && exts == [Extent(0, 100, 512), Extent(512, 7, 1024)]
    ensures Sorted(exts) && WholeLbas(c, exts) && DwordFriendly(c, exts)
  {
  }

  // The other case does occur: a request of two bytes in front of a second extent.
  lemma UnalignedChunkExists()
    ensures var c := Config(512, 4096, false, false);
            var exts := [Extent(0, 100, 512), Extent(512, 7, 1024)];
            Sorted(exts) && WholeLbas(c, exts) && DwordFriendly(c, exts)
            && ReadPlanOf(c, exts, 510, 514) == Plan([Bounce(0, 100, 510, 2), Chunk(2, 7, 0)], 0)
  {
    var c := Config(512, 4096, false, false);
    var first, second := Extent(0, 100, 512), Extent(512, 7, 1024);
    TwoExtents(c, [first, second]);
    OneChunk(c, 2, 7);
    EmptyBody(c, 2, 101, 1);
    assert SpanPlan(c, second, 510, 512, 1024, 1) == BodyPlan(c, 2, 7, 512, 1);
    assert SpanPlan(c, first, 510, 510, 512, 0) == Plan([Bounce(0, 100, 510, 2)], 0);
    TwoSpans(c, first, second);
  }

  lemma OneChunk(c: Config, at: nat, slba: nat)
    requires c == Config(512, 4096, false, false)
    ensures BodyPlan(c, at, slba, 512, 1) == Plan([Chunk(at, slba, 0)], 0)
  {
    assert Middle(c, at + 512, slba + 1, 0) == [];
  }

  lemma {:induction false} TwoSpans(c: Config, first: Extent, second: Extent)
    requires Ready(c) && first == Extent(0, 100, 512) && second == Extent(512, 7, 1024)
    requires SpanPlan(c, second, 510, 512, 1024, 1) == Plan([Chunk(2, 7, 0)], 0)
    requires SpanPlan(c, first, 510, 510, 512, 0) == Plan([Bounce(0, 100, 510, 2)], 0)
    ensures WalkPlan(c, [first, second], 0, 510, 1024, 0) == Plan([Bounce(0, 100, 510, 2), Chunk(2, 7, 0)], 0)
  {
    var exts := [first, second];
    assert WalkPlan(c, exts, 2, 510, 1024, 1) == Plan([], 0);
    assert WalkPlan(c, exts, 1, 510, 1024, 1) == Plan([Chunk(2, 7, 0)], 0);
    assert Bounces([Bounce(0, 100, 510, 2)]) == 1;
  }
}
