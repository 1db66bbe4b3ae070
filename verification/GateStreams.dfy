/**
  The GPU streams and the workers meet at the gate word: executing the front command,
  dispatching an op whose gate has opened, releasing it.
 */
module GateStreams {
  import opened Words
  import opened GateModel
  import opened GateInvariant
  import opened GatePreserve

  // What one move of a stream's gate may not disturb: the gate only advances, and never
  // past an op that is published and unreleased.
  ghost predicate GateMove(gs: Stream, gs': Stream) {
    && gs'.nextSeq == gs.nextSeq && gs'.home == gs.home && gs'.burned == gs.burned
    && gs.gate <= gs'.gate
    && (forall q :: q in gs.home && gs.gate <= 2 * q ==> gs'.gate <= 2 * q)
    && gs'.last == gs.last
    && (forall c :: c in gs'.queue ==> c in gs.queue || c.Park?)
  }

  lemma ReleaseTestExact(gs: Stream, q: nat)
    requires gs.gate <= 2 * q + 1 && q <= gs.nextSeq && 2 * gs.nextSeq + 1 - gs.gate <= HALF
    ensures GateReleased(gs, q) <==> gs.gate == 2 * q + 1
  {
    CyclicTestExact(gs.gate, 2 * q + 1);
  }

  lemma OpenTestExact(gs: Stream, q: nat)
    requires gs.gate <= 2 * q && q <= gs.nextSeq && 2 * gs.nextSeq + 1 - gs.gate <= HALF
    ensures GateOpen(gs, q) <==> gs.gate == 2 * q
  {
    CyclicTestExact(gs.gate, 2 * q);
  }

  // The stream after its front command: popped, or replaced by the parked callback.
  ghost function AfterFront(gs: Stream): Stream
    requires gs.queue != []
  {
    var rest := gs.queue[1..];
    match gs.queue[0]
    case WriteGate(q) => gs.(queue := rest, gate := 2 * q)
    case HostFn(_, _, q) => gs.(queue := [Park(q)] + rest, gate := 2 * q)
    case _ => gs.(queue := rest)
  }

  ghost predicate FrontDue(gs: Stream)
    requires gs.queue != []
  {
    match gs.queue[0]
    case WaitGate(q) => gs.gate == 2 * q + 1
    case Park(q) => gs.gate == 2 * q + 1
    case _ => true
  }

  // The wait of another op does not leave the queue.
  lemma WaitStays(gs: Stream, q: nat, home: Place)
    requires StreamOk(gs) && gs.queue != [] && FrontDue(gs) && HasWait(gs, q, home) && gs.gate <= 2 * q
    ensures HasWait(AfterFront(gs), q, home) && AfterFront(gs).gate <= 2 * q
  {
    var gs' := AfterFront(gs);
    var c := if WaitGate(q) in gs.queue then WaitGate(q)
             else if Park(q) in gs.queue then Park(q) else HostFn(home.w, home.i, q);
    var j :| 0 <= j < |gs.queue| && gs.queue[j] == c;
    assert CmdOk(gs, gs.queue[0]);
    if j == 0 {
      assert gs'.queue[0] == Park(q);
    } else if gs.queue[0].HostFn? {
      assert gs'.queue[j] == c;
      assert Val(gs.queue[0]) < Low(c);
    } else {
      assert gs'.queue[j - 1] == c;
      if gs.queue[0].WriteGate? { assert Val(gs.queue[0]) < Low(c); }
    }
  }

  lemma FrontCmd(gs: Stream, k: nat)
    requires StreamOk(gs) && 0 < k < |gs.queue| && FrontDue(gs)
    ensures CmdOk(AfterFront(gs), gs.queue[k])
  {
    var gs' := AfterFront(gs);
    assert CmdOk(gs, gs.queue[0]) && CmdOk(gs, gs.queue[k]);
    if GateCmd(gs.queue[0]) && GateCmd(gs.queue[k]) { assert Val(gs.queue[0]) < Low(gs.queue[k]); }
    if gs.queue[k].WaitGate? && WriteGate(gs.queue[k].q) in gs.queue {
      var m :| 0 <= m < |gs.queue| && gs.queue[m] == WriteGate(gs.queue[k].q);
      if m > 0 { assert gs'.queue[if gs.queue[0].HostFn? then m else m - 1] == gs.queue[m]; }
    }
  }

  lemma FrontCmds(gs: Stream)
    requires StreamOk(gs) && gs.queue != [] && FrontDue(gs)
    ensures var gs' := AfterFront(gs); forall j :: 0 <= j < |gs'.queue| ==> CmdOk(gs', gs'.queue[j])
    ensures gs.gate <= AfterFront(gs).gate <= 2 * gs.nextSeq + 1
  {
    var gs' := AfterFront(gs);
    assert CmdOk(gs, gs.queue[0]);
    forall j | 0 <= j < |gs'.queue| ensures CmdOk(gs', gs'.queue[j]) {
      var k := if gs.queue[0].HostFn? then j else j + 1;
      if k > 0 { FrontCmd(gs, k); }
    }
  }

  lemma FrontSorted(gs: Stream)
    requires GateSorted(gs.queue) && gs.queue != []
    ensures GateSorted(AfterFront(gs).queue)
  {
    var gs' := AfterFront(gs);
    forall a, b | 0 <= a < b < |gs'.queue| && GateCmd(gs'.queue[a]) && GateCmd(gs'.queue[b])
      ensures Val(gs'.queue[a]) < Low(gs'.queue[b])
    {
      if gs.queue[0].HostFn? {
        assert GateCmd(gs.queue[a]) && GateCmd(gs.queue[b]) && Val(gs.queue[a]) == Val(gs'.queue[a]);
      } else {
        assert gs'.queue[a] == gs.queue[a + 1] && gs'.queue[b] == gs.queue[b + 1];
      }
    }
  }

  lemma FrontStream(gs: Stream)
    requires StreamOk(gs) && gs.queue != [] && FrontDue(gs)
    ensures StreamOk(AfterFront(gs)) && GateMove(gs, AfterFront(gs))
  {
    var gs' := AfterFront(gs);
    FrontCmds(gs);
    FrontSorted(gs);
    forall q | q in gs'.home ensures HomeSeqOk(gs', q) && (gs.gate <= 2 * q ==> gs'.gate <= 2 * q) {
      assert HomeSeqOk(gs, q);
      if gs.gate <= 2 * q { WaitStays(gs, q, gs.home[q]); }
    }
    forall c | c in gs'.queue ensures c in gs.queue || c.Park? {
      var j :| 0 <= j < |gs'.queue| && gs'.queue[j] == c;
    }
  }

  lemma FrontHeld(gs: Stream, q: nat, at: LockStage, home: Place)
    requires StreamOk(gs) && gs.queue != [] && FrontDue(gs) && HeldOk(gs, q, at, home)
    ensures HeldOk(AfterFront(gs), q, at, home)
  {
    var gs' := AfterFront(gs);
    assert CmdOk(gs, gs.queue[0]);
    match at
    case Marked =>
    case Queued => WaitStays(gs, q, home);
    case Claimed => FrontHeldQueue(gs);
    case Written =>
      FrontHeldQueue(gs);
      if WriteGate(q) in gs.queue && gs.queue[0] != WriteGate(q) {
        var j :| 0 <= j < |gs.queue| && gs.queue[j] == WriteGate(q);
        assert gs'.queue[if gs.queue[0].HostFn? then j else j - 1] == WriteGate(q);
      }
  }

  lemma FrontHeldQueue(gs: Stream)
    requires gs.queue != []
    ensures var gs' := AfterFront(gs); forall j :: 0 <= j < |gs'.queue| && GateCmd(gs'.queue[j]) ==>
              exists k :: 0 <= k < |gs.queue| && GateCmd(gs.queue[k]) && Val(gs.queue[k]) == Val(gs'.queue[j])
  {
    var gs' := AfterFront(gs);
    forall j | 0 <= j < |gs'.queue| && GateCmd(gs'.queue[j])
      ensures exists k :: 0 <= k < |gs.queue| && GateCmd(gs.queue[k]) && Val(gs.queue[k]) == Val(gs'.queue[j])
    {
      var k := if gs.queue[0].HostFn? then j else j + 1;
      assert GateCmd(gs.queue[k]) && Val(gs.queue[k]) == Val(gs'.queue[j]);
    }
  }

  // The workers' side of a move of the gate.
  lemma GateMoveLinks(s: State, st: nat, gs': Stream)
    requires WellFormed(s) && LinkInv(s) && HomeInv(s) && CoverInv(s) && st < |s.streams|
             && GateMove(s.streams[st], gs')
    ensures LinkInv(SetStream(s, st, gs')) && HomeInv(SetStream(s, st, gs')) && CoverInv(SetStream(s, st, gs'))
  {
    var s' := SetStream(s, st, gs');
    forall v, i | 0 <= v < |s'.workers| && 0 <= i < RING ensures LinkAt(s', v, i) {
      assert LinkAt(s, v, i);
    }
    forall t, q | 0 <= t < |s'.streams| && q in s'.streams[t].home && s'.streams[t].gate <= 2 * q
      ensures LivesAt(s', s'.streams[t].home[q], t, q)
    {
      assert LivesAt(s, s.streams[t].home[q], t, q);
    }
    forall t, q | 0 <= t < |s'.streams| && 1 <= q <= s'.streams[t].nextSeq && s'.streams[t].gate <= 2 * q
      ensures Covered(s', t, q)
    {
      assert Covered(s, t, q);
    }
  }

  lemma GateMoveHosts(s: State, st: nat, gs': Stream)
    requires WellFormed(s) && HostInv(s) && st < |s.streams| && GateMove(s.streams[st], gs')
    ensures HostInv(SetStream(s, st, gs'))
  {
    var s' := SetStream(s, st, gs');
    forall t, j | 0 <= t < |s'.streams| && 0 <= j < |s'.streams[t].queue| && s'.streams[t].queue[j].HostFn?
      ensures HostOk(s', t, s'.streams[t].queue[j].w, s'.streams[t].queue[j].i, s'.streams[t].queue[j].q)
    {
      var c := s'.streams[t].queue[j];
      assert c in s'.streams[t].queue;
      assert c in s.streams[t].queue;
      var k :| 0 <= k < |s.streams[t].queue| && s.streams[t].queue[k] == c;
      assert HostOk(s, t, s.streams[t].queue[k].w, s.streams[t].queue[k].i, s.streams[t].queue[k].q);
    }
  }

  lemma GateMoveKept(s: State, st: nat, gs': Stream)
    requires Inv(s) && st < |s.streams| && GateMove(s.streams[st], gs') && StreamOk(gs')
    requires s.lock.Locked? && s.lock.op.StreamOp? && s.lock.op.stream == st ==>
               HeldOk(gs', s.lock.op.seqNo, s.lock.at, Place(s.lock.w, Ix(s.workers[s.lock.w].head)))
    ensures Inv(SetStream(s, st, gs'))
  {
    var s' := SetStream(s, st, gs');
    GateMoveLinks(s, st, gs');
    GateMoveHosts(s, st, gs');
    FutureFrame(s, s');
    assert RingInv(s') by {
      forall v | 0 <= v < |s'.workers| ensures RingOk(s'.workers[v], MarkedAt(s', v)) {
        assert RingOk(s.workers[v], MarkedAt(s, v));
      }
    }
  }

  // What the front command needs on the words is what the counts say.
  lemma FrontReadyIsDue(s: State, st: nat)
    requires Inv(s) && WindowOk(s) && st < |s.streams| && s.streams[st].queue != []
    ensures FrontReady(s, st) ==> FrontDue(s.streams[st])
  {
    var gs := s.streams[st];
    assert CmdOk(gs, gs.queue[0]);
    if gs.queue[0].WaitGate? || gs.queue[0].Park? {
      ReleaseTestExact(gs, gs.queue[0].q);
    }
  }

  lemma FrontKept(s: State, st: nat)
    requires Inv(s) && st < |s.streams| && s.streams[st].queue != [] && FrontDue(s.streams[st])
    ensures Inv(SetStream(s, st, AfterFront(s.streams[st])))
  {
    FrontStream(s.streams[st]);
    if s.lock.Locked? && s.lock.op.StreamOp? && s.lock.op.stream == st {
      FrontHeld(s.streams[st], s.lock.op.seqNo, s.lock.at, Place(s.lock.w, Ix(s.workers[s.lock.w].head)));
    }
    GateMoveKept(s, st, AfterFront(s.streams[st]));
  }

  // A callback parks the stream on the sequence number it was launched for.
  lemma RunFrontIs(s: State, st: nat)
    requires WellFormed(s) && HostInv(s) && SharedEnabled(s, GpuStep(st))
    ensures SameGate(AfterFront(s.streams[st]), RunFront(s, st))
  {
    var c := s.streams[st].queue[0];
    if c.HostFn? {
      assert HostOk(s, st, c.w, c.i, c.q);
    }
  }

  lemma GpuStepKept(s: State, st: nat)
    requires Inv(s) && WindowOk(s) && SharedEnabled(s, GpuStep(st))
    ensures Inv(SetStream(s, st, RunFront(s, st)))
  {
    FrontReadyIsDue(s, st);
    FrontKept(s, st);
    RunFrontIs(s, st);
    var s1 := SetStream(s, st, AfterFront(s.streams[st]));
    StreamFrame(s1, st, RunFront(s, st));
    assert SetStream(s1, st, RunFront(s, st)) == SetStream(s, st, RunFront(s, st));
  }
}
