/**
  How a submission finds its ring: route_op takes the workers in turn, one turn an attempt,
  so a full ring holds up nobody as long as some other ring has room.
 */
module GateClaims {
  import opened Words
  import opened GateModel
  import opened GateInvariant
  import opened GateRuns
  import opened GateRank
  import opened GateDrain

  // After k attempts that were turned away.
  function Asked(s: State, k: nat): (r: State)
    ensures |r.workers| == |s.workers|
  {
    s.(rr := s.rr + k)
  }

  function Attempts(k: nat): (steps: seq<Step>)
    ensures |steps| == k && forall j :: 0 <= j < k ==> steps[j] == ClaimFull
  {
    seq(k, _ => ClaimFull)
  }

  // Worker w is asked at attempt k (from 0).
  ghost predicate AskedAt(s: State, w: nat, k: nat)
    requires |s.workers| > 0
  {
    Routed(Asked(s, k)) == w
  }

  // Within one turn of the workers that does not pass the end of the cursor's word.
  lemma TurnOfWord(a: nat, n: nat, w: nat) returns (k: nat)
    requires w < n
    ensures k < n && (a + k) % n == w
  {
    var q, r := a / n, a % n;
    assert a == q * n + r;
    if w >= r {
      k := w - r;
      QuotientUnique(a + k, n, q, w);
    } else {
      k := w - r + n;
      assert a + k == (q + 1) * n + w;
      QuotientUnique(a + k, n, q + 1, w);
    }
  }

  lemma SmallMod(x: nat, n: nat)
    requires x < n
    ensures x % n == x
  {
  }

  /**
    Every worker is asked within two turns of the workers, wherever the cursor stands; one
    turn is enough unless the cursor's word wraps around in it.
   */
  lemma EveryWorkerIsAsked(s: State, w: nat) returns (k: nat)
    requires WellFormed(s) && w < |s.workers|
    ensures k < 2 * |s.workers| && AskedAt(s, w, k)
    ensures Word(s.rr) + |s.workers| <= WRAP ==> k < |s.workers|
  {
    var n, a := |s.workers|, Word(s.rr);
    if a + n <= WRAP {
      k := TurnOfWord(a, n, w);
      WordOn(s.rr, k);
    } else {
      k := WRAP - a + w;
      WordOn(s.rr, k);
      SmallMod(w, n);
    }
  }

  lemma WordOn(x: nat, k: nat)
    requires Word(x) + k < 2 * WRAP
    ensures Word(x + k) == if Word(x) + k < WRAP then Word(x) + k else Word(x) + k - WRAP
  {
    var q, r := x / WRAP, Word(x);
    assert x == q * WRAP + r;
    if r + k < WRAP {
      QuotientUnique(x + k, WRAP, q, r + k);
    } else {
      QuotientUnique(x + k, WRAP, q + 1, r + k - WRAP);
    }
  }

  // The worker asked at attempt k has room.
  ghost predicate RoomAt(s: State, k: nat)
    requires WellFormed(s)
  {
    RingHasRoom(s.workers[Routed(Asked(s, k))])
  }

  lemma {:induction false} TurnedAway(s: State, k: nat)
    requires WellFormed(s) && BudgetOk(s) && s.lock.Unlocked? && forall j :: 0 <= j < k ==> !RoomAt(s, j)
    ensures BudgetRun(s, Attempts(k), Asked(s, k))
    decreases k
  {
    if k == 0 {
      assert Asked(s, 0) == s;
    } else {
      var s1 := Asked(s, 1);
      assert Asked(s, 0) == s && !RoomAt(s, 0);
      assert Apply(s, ClaimFull) == s1;
      forall j | 0 <= j < k - 1 ensures !RoomAt(s1, j) {
        assert Asked(s1, j) == Asked(s, j + 1);
        assert !RoomAt(s, j + 1);
      }
      BudgetSame(s, s1);
      TurnedAway(s1, k - 1);
      assert Asked(s1, k - 1) == Asked(s, k);
      assert Attempts(k)[1..] == Attempts(k - 1);
    }
  }

  lemma BudgetSame(s: State, s1: State)
    requires BudgetOk(s) && s1.streams == s.streams
    ensures BudgetOk(s1)
  {
  }

  // Any op may be submitted now.
  ghost predicate TakesClaims(s: State)
    requires WellFormed(s)
  {
    forall t: Step :: t.ClaimAsync? || (t.ClaimStream? && t.st < |s.streams|) ==> Enabled(s, t)
  }

  lemma FirstRoom(s: State, last: nat) returns (k: nat)
    requires WellFormed(s) && RoomAt(s, last)
    ensures k <= last && RoomAt(s, k) && forall j :: 0 <= j < k ==> !RoomAt(s, j)
  {
    k := 0;
    while !RoomAt(s, k)
      invariant k <= last && forall j :: 0 <= j < k ==> !RoomAt(s, j)
      decreases last - k
    {
      k := k + 1;
    }
  }

  /**
    If some ring has room, a submitting thread that nobody disturbs finds it, or another one
    with room, within two turns, all attempts before being turned away.
   */
  lemma AskRound(s: State, w: nat) returns (k: nat)
    requires WellFormed(s) && BudgetOk(s) && s.lock.Unlocked? && w < |s.workers| && RingHasRoom(s.workers[w])
    ensures k < 2 * |s.workers| && BudgetRun(s, Attempts(k), Asked(s, k))
    ensures WellFormed(Asked(s, k)) && TakesClaims(Asked(s, k))
    ensures Word(s.rr) + |s.workers| <= WRAP ==> k < |s.workers|
  {
    var last := EveryWorkerIsAsked(s, w);
    assert RoomAt(s, last);
    k := FirstRoom(s, last);
    TurnedAway(s, k);
  }

  // ---------- the cursor along a run ----------

  predicate IsAttempt(t: Step) {
    t.ClaimStream? || t.ClaimAsync? || t.ClaimFull?
  }

  function AttemptsIn(steps: seq<Step>): nat {
    if steps == [] then 0 else (if IsAttempt(steps[0]) then 1 else 0) + AttemptsIn(steps[1..])
  }

  lemma VisitKeepsCursor(s: State, w: nat, n: nat)
    requires WellFormed(s) && SharedEnabled(s, Visit(w, n))
    ensures VisitSlot(s, w, n).rr == s.rr
  {
  }

  lemma WorkKeepsCursor(s: State, t: Step)
    requires WellFormed(s) && (t.SubmitTail? || t.DmaPart? || t.DmaLand? || t.Release? || t.GpuStep? || t.StopDriver?)
    requires SharedEnabled(s, t)
    ensures ApplyShared(s, t).rr == s.rr
  {
  }

  lemma SubmitKeepsCursor(s: State, t: Step)
    requires WellFormed(s)
    requires t.EnqWrite? || t.EnqWait? || t.EnqHost? || t.EnqCopy? || t.EnqUser? || t.MarkPending? || t.PublishHead?
    requires SharedEnabled(s, t)
    ensures ApplyShared(s, t).rr == s.rr
  {
  }

  lemma CursorStep(s: State, t: Step)
    requires WellFormed(s) && Enabled(s, t)
    ensures Apply(s, t).rr == s.rr + if IsAttempt(t) then 1 else 0
  {
    if IsLocal(t) || IsAttempt(t) { }
    else if t.Visit? { VisitKeepsCursor(s, t.w, t.n); }
    else if t.SubmitTail? || t.DmaPart? || t.DmaLand? || t.Release? || t.GpuStep? || t.StopDriver? {
      WorkKeepsCursor(s, t);
    } else { SubmitKeepsCursor(s, t); }
  }

  // Every attempt, and nothing else, moves the cursor on by one: whoever runs in between,
  // attempts go round the workers.
  lemma {:induction false} AttemptsGoRound(s: State, steps: seq<Step>, s': State)
    requires Run(s, steps, s')
    ensures s'.rr == s.rr + AttemptsIn(steps)
    decreases |steps|
  {
    if steps != [] {
      CursorStep(s, steps[0]);
      AttemptsGoRound(Apply(s, steps[0]), steps[1..], s');
    }
  }

  lemma EmptyRingHasRoom(wk: Worker)
    requires wk.tail <= wk.head && !Busy(wk)
    ensures RingHasRoom(wk)
  {
    WordSubIsDistance(wk.head, wk.tail);
  }

  lemma EmptyTakesClaims(s: State)
    requires WellFormed(s) && RingInv(s) && !Unfinished(s)
    ensures TakesClaims(s)
  {
    var wk := s.workers[Routed(s)];
    assert RingOk(wk, MarkedAt(s, Routed(s)));
    EmptyRingHasRoom(wk);
  }

  // ---------- every submission can be accepted ----------

  /**
    From every state reached without a shutdown request, however full the rings are, a run of
    old work leads to a state in which any op may be submitted.
   */
  lemma RoomComes(s: State) returns (steps: seq<Step>, s': State)
    requires Reachable(s) && WellFormed(s) && Running(s)
    ensures BudgetRun(s, steps, s') && Failures(steps) == 0 && OldWorkOnly(steps)
    ensures WellFormed(s') && TakesClaims(s')
  {
    steps, s' := EveryOpCanFinish(s);
    ReachableInv(s);
    RunKeeps(s, steps, s');
    EmptyTakesClaims(s');
  }
}
