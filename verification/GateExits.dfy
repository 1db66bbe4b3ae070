/**
  The end of the workers: once a shutdown is asked for and the rings are empty, every worker
  leaves its loop by its own steps; and an orderly shutdown loses nothing.
 */
module GateExits {
  import opened GateModel
  import opened GateInvariant
  import opened GateRuns
  import opened GateRank
  import opened GateDrain

  // The worker's loop stands between two ops of an empty ring.
  ghost predicate Empty(wk: Worker) {
    PosOk(wk) && wk.tail == wk.head
  }

  // Its next step.
  function LeaveStep(wk: Worker, w: nat): Step {
    match wk.stage
    case Load => LoadHead(w)
    case Sweep => SweepEnd(w)
    case Retire => RetireEnd(w)
    case Decide => DecideStep(w)
    case _ => PokeEnd(w)
  }

  // How many of them are left: up to a pass of the loop that finds nothing to come back for.
  function StepsLeft(wk: Worker): nat {
    match wk.stage
    case Load => 4
    case Sweep => if wk.busy then 8 else 3
    case Retire => if wk.busy then 7 else 2
    case Decide => if wk.busy then 6 else 1
    case Poke => 5
    case _ => 0
  }

  lemma LeaveOne(wk: Worker, w: nat)
    requires Empty(wk) && wk.stage != Exited
    ensures var t := LeaveStep(wk, w);
            && IsLocal(t) && t.w == w && LocalEnabled(wk, t) && !BringsWork(t) && !FailedEnqueue(t)
            && var wk' := WorkerStep(wk, t, true);
            Empty(wk') && StepsLeft(wk') < StepsLeft(wk) && wk'.slots == wk.slots
  {
  }

  // s' is s but for where the loop of worker w stands.
  ghost predicate OnlyLoop(s: State, w: nat, s': State) {
    && w < |s.workers| == |s'.workers| && s' == s.(workers := s.workers[w := s'.workers[w]])
    && s'.workers[w].slots == s.workers[w].slots && Empty(s'.workers[w])
  }

  lemma {:induction false} RunJoin(s: State, a: seq<Step>, s1: State, b: seq<Step>, s': State)
    requires BudgetRun(s, a, s1) && BudgetRun(s1, b, s')
    ensures BudgetRun(s, a + b, s')
    decreases |a|
  {
    if a == [] {
      assert a + b == b;
    } else {
      RunJoin(Apply(s, a[0]), a[1..], s1, b, s');
      TailOfSum(a, b);
      ConsBudget(s, a + b, a[1..] + b, s');
    }
  }

  // A worker with an empty ring leaves its loop by at most eight steps of its own.
  lemma {:induction false} WorkerLeaves(s: State, w: nat) returns (steps: seq<Step>, s': State)
    requires WellFormed(s) && BudgetOk(s) && s.stop && w < |s.workers| && Empty(s.workers[w])
    ensures BudgetRun(s, steps, s') && OldWorkOnly(steps) && |steps| <= 8
    ensures OnlyLoop(s, w, s') && s'.workers[w].stage == Exited
    ensures |steps| <= StepsLeft(s.workers[w])
    decreases StepsLeft(s.workers[w])
  {
    var wk := s.workers[w];
    if wk.stage == Exited {
      return [], s;
    }
    var t := LeaveStep(wk, w);
    LeaveOne(wk, w);
    var s1 := SetWorker(s, w, WorkerStep(wk, t, true));
    assert Apply(s, t) == s1;
    var rest;
    rest, s' := WorkerLeaves(s1, w);
    steps := [t] + rest;
    assert steps[1..] == rest;
    OldWorkCons(t, rest);
  }

  ghost predicate RingsEmpty(s: State) {
    forall w :: 0 <= w < |s.workers| ==> Empty(s.workers[w])
  }

  // s' is s but for where the loops stand.
  ghost predicate OnlyLoops(s: State, s': State) {
    s' == s.(workers := s'.workers) && |s'.workers| == |s.workers| && WellFormed(s') && RingsEmpty(s')
  }

  lemma {:induction false} OthersLeave(s: State, n: nat) returns (steps: seq<Step>, s': State)
    requires WellFormed(s) && BudgetOk(s) && s.stop && RingsEmpty(s) && n <= |s.workers|
    requires forall w :: n <= w < |s.workers| ==> s.workers[w].stage == Exited
    ensures BudgetRun(s, steps, s') && OldWorkOnly(steps) && OnlyLoops(s, s') && |steps| <= 8 * n
    ensures forall w :: 0 <= w < |s'.workers| ==> s'.workers[w].stage == Exited
    decreases n
  {
    if n == 0 {
      return [], s;
    }
    var a, s1 := WorkerLeaves(s, n - 1);
    var b;
    b, s' := OthersLeave(s1, n - 1);
    RunJoin(s, a, s1, b, s');
    steps := a + b;
  }

  ghost predicate AllGone(s: State) {
    forall w :: 0 <= w < |s.workers| ==> s.workers[w].stage == Exited
  }

  lemma EmptyRings(s: State)
    requires WellFormed(s) && RingInv(s) && !Unfinished(s)
    ensures RingsEmpty(s)
  {
    forall w | 0 <= w < |s.workers| ensures Empty(s.workers[w]) {
      assert RingOk(s.workers[w], MarkedAt(s, w)) && !Busy(s.workers[w]);
    }
  }

  /**
    After a shutdown request, with nothing left to do, all workers leave their loops, by
    their own steps alone and at most eight each.
   */
  lemma WorkersLeave(s: State) returns (steps: seq<Step>, s': State)
    requires Reachable(s) && WellFormed(s) && s.stop && !Unfinished(s)
    ensures BudgetRun(s, steps, s') && OldWorkOnly(steps) && |steps| <= 8 * |s.workers|
    ensures OnlyLoops(s, s') && AllGone(s')
  {
    ReachableInv(s);
    EmptyRings(s);
    steps, s' := OthersLeave(s, |s.workers|);
  }

  lemma StopEmpty(s: State) returns (s': State)
    requires WellFormed(s) && BudgetOk(s) && RingInv(s) && !Unfinished(s)
    ensures s' == s.(stop := true) && BudgetRun(s, [StopDriver], s') && WellFormed(s') && BudgetOk(s') && RingsEmpty(s')
  {
    s' := Apply(s, StopDriver);
    EmptyRings(s);
  }

  /**
    From every state reached without a shutdown request, the work accepted so far can be
    finished, the shutdown be requested, and every worker be gone, with every future done and
    every gate let go.
   */
  lemma OrderlyShutdown(s: State) returns (steps: seq<Step>, s': State)
    requires Reachable(s) && WellFormed(s) && Running(s)
    ensures BudgetRun(s, steps, s') && AllGone(s') && s'.stop
    ensures forall f :: 0 <= f < s'.nextFuture ==> f in s'.doneFutures
    ensures forall st, q :: 0 <= st < |s'.streams| && q in s'.streams[st].home ==> s'.streams[st].gate >= 2 * q + 1
  {
    var a, s1 := EveryOpCanFinish(s);
    ReachableInv(s);
    RunKeeps(s, a, s1);
    var s2 := StopEmpty(s1);
    var b;
    b, s' := OthersLeave(s2, |s2.workers|);
    RunJoin(s, a, s1, [StopDriver], s2);
    RunJoin(s, a + [StopDriver], s2, b, s');
    steps := a + [StopDriver] + b;
  }
}
