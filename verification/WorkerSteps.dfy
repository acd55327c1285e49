/** Every worker step keeps the invariant. */
module WorkerSteps {
  import opened Wrappers
  import opened Bridge
  import opened BridgeInvariant

  // ----- Steps that leave a part of the state alone -----

  /** Only thread t moved. */
  predicate OneMoved(w: World, t: nat, w': World) {
    && t < |w.threads| == |w'.threads|
    && w'.threads == w.threads[t := w'.threads[t]]
  }

  predicate SameRuns(w: World, w': World) {
    && w'.runId == w.runId && w'.completed == w.completed && w'.gate == w.gate && w'.runs == w.runs
  }

  predicate SameHits(w: World, w': World) {
    && w'.counts == w.counts && w'.hits == w.hits && w'.overflow == w.overflow
  }

  lemma RunsKept(w: World, t: nat, w': World)
    requires RunsInv(w) && OneMoved(w, t, w') && SameRuns(w, w')
    requires w'.hits.epoch == w.hits.epoch
    requires w'.conns == w.conns.(holder := w'.conns.holder)
    requires w'.parked <= w.conns.open && forall c :: c in w'.parked ==> c !in w.conns.returned
    requires !w.threads[t].pc.Finalizer()
    ensures RunsInv(w')
  {
  }

  lemma HitsKept(w: World, t: nat, w': World)
    requires HitsInv(w) && OneMoved(w, t, w') && SameHits(w, w')
    requires w'.runs.enabled == w.runs.enabled && w'.runs.drained == w.runs.drained
    requires w'.runs.shut == w.runs.shut
    requires w'.gate.enabled ==> w.gate.enabled && w'.gate.run == w.gate.run
    requires !w.threads[t].pc.GuardAdd? && !w.threads[t].pc.GuardMark?
    ensures HitsInv(w')
  {
  }

  lemma ThreadsKept(w: World, t: nat, w': World)
    requires ThreadInv(w) && OneMoved(w, t, w') && SameRuns(w, w') && w'.hits == w.hits
    requires w'.conns == w.conns && w'.parked == w.parked
    requires ThreadOk(w', t)
    ensures ThreadInv(w')
  {
    forall u: nat | u < |w'.threads| ensures ThreadOk(w', u) {
      assert ThreadOk(w, u);
    }
  }

  // ----- Guard wrapper -----

  lemma GuardCallThreads(w: World, t: nat, edge: nat, w': World)
    requires ThreadInv(w) && HitsInv(w) && OpenInv(w.conns, w.gate, w.runId, w.runs)
    requires GuardCall(w, t, edge, w')
    ensures ThreadInv(w')
  {
    assert ThreadOk(w, t);
    forall u: nat | u < |w'.threads| ensures ThreadOk(w', u) {
      assert ThreadOk(w, u);
    }
  }

  lemma GuardCallLanded(w: World, t: nat, edge: nat, w': World)
    requires OpenInv(w.conns, w.gate, w.runId, w.runs) && t < |w.threads| && ThreadOk(w, t)
    requires LandedInv(w.hits, w.runs.shut, w.threads) && GuardCall(w, t, edge, w')
    ensures LandedInv(w'.hits, w'.runs.shut, w'.threads)
  {
  }

  lemma GuardCallHits(w: World, t: nat, edge: nat, w': World)
    requires ConnInv(w.conns, w.parked, w.runs.enabled) && OpenInv(w.conns, w.gate, w.runId, w.runs)
    requires t < |w.threads| && ThreadOk(w, t) && HitsInv(w) && GuardCall(w, t, edge, w')
    ensures HitsInv(w')
  {
    GuardCallLanded(w, t, edge, w');
  }

  lemma GuardCallKeeps(w: World, t: nat, edge: nat, w': World)
    requires WorldInv(w) && GuardCall(w, t, edge, w')
    ensures WorldInv(w')
  {
    assert ThreadOk(w, t);
    RunsKept(w, t, w');
    GuardCallThreads(w, t, edge, w');
    GuardCallHits(w, t, edge, w');
  }

  lemma GuardCountThreads(w: World, t: nat, w': World)
    requires ThreadInv(w) && GuardCount(w, t, w')
    ensures ThreadInv(w')
  {
    assert ThreadOk(w, t);
    forall u: nat | u < |w'.threads| ensures ThreadOk(w', u) {
      assert ThreadOk(w, u);
    }
  }

  lemma GuardCountLanded(w: World, t: nat, w': World)
    requires LandedInv(w.hits, w.runs.shut, w.threads) && GuardCount(w, t, w')
    ensures LandedInv(w'.hits, w'.runs.shut, w'.threads)
  {
  }

  /** An add that wraps its counter leaves its own mark pending. */
  lemma GuardCountWrap(w: World, t: nat, w': World)
    requires t < |w.threads| && ThreadOk(w, t) && CountInv(w.counts, w.hits)
    requires WrapInv(w.hits, w.overflow, w.threads) && GuardCount(w, t, w')
    ensures WrapInv(w'.hits, w'.overflow, w'.threads)
  {
    var h := w.threads[t].pc.hit;
    forall i | 0 <= i < |w'.hits.window| && |w'.hits.window[i]| >= COUNTER_LIMIT
        && w'.hits.window[i] !! w'.hits.strays && w'.hits.epoch != 0 && !w'.overflow
      ensures exists k :: k in w'.hits.window[i] && MarkPending(w'.threads, k)
    {
      if |w.hits.window[i]| >= COUNTER_LIMIT {
        var k :| k in w.hits.window[i] && MarkPending(w.threads, k);
        assert k in w'.hits.window[i] && MarkPending(w'.threads, k);
      } else {
        assert h in w'.hits.window[i] && MarkPending(w'.threads, h);
      }
    }
  }

  /** The add that thread t is about to make, if any, is not one that is lost. */
  predicate AddsLive(w: World, t: nat) {
    t < |w.threads| && w.threads[t].pc.GuardAdd? ==> w.threads[t].pc.hit !in w.hits.lost
  }

  lemma GuardCountHits(w: World, t: nat, w': World)
    requires t < |w.threads| && ThreadOk(w, t) && AddsLive(w, t) && HitsInv(w) && GuardCount(w, t, w')
    ensures HitsInv(w')
  {
    GuardCountLanded(w, t, w');
    GuardCountWrap(w, t, w');
  }

  lemma GuardCountKeeps(w: World, t: nat, w': World)
    requires WorldInv(w) && AddsLive(w, t) && GuardCount(w, t, w')
    ensures WorldInv(w')
  {
    assert ThreadOk(w, t);
    RunsKept(w, t, w');
    GuardCountThreads(w, t, w');
    GuardCountHits(w, t, w');
  }

  lemma GuardOverflowKeeps(w: World, t: nat, w': World)
    requires WorldInv(w) && GuardOverflow(w, t, w')
    ensures WorldInv(w')
  {
    assert ThreadOk(w, t);
    RunsKept(w, t, w');
    ThreadsKept(w, t, w');
  }

  // ----- Connection begin -----

  lemma JoinLoadKeeps(w: World, t: nat, w': World)
    requires WorldInv(w) && JoinLoad(w, t, w')
    ensures WorldInv(w')
  {
    assert ThreadOk(w, t);
    RunsKept(w, t, w');
    ThreadsKept(w, t, w');
    HitsKept(w, t, w');
  }

  lemma JoinCheckKeeps(w: World, t: nat, w': World)
    requires WorldInv(w) && JoinCheck(w, t, w')
    ensures WorldInv(w')
  {
    assert ThreadOk(w, t);
    RunsKept(w, t, w');
    ThreadsKept(w, t, w');
    HitsKept(w, t, w');
  }

  predicate Admits(w: World, t: nat, w': World) {
    t < |w.threads| && w.threads[t].pc.JoinCas? && w.gate == w.threads[t].pc.seen && JoinSwap(w, t, false, w')
  }

  lemma AdmitGate(w: World, t: nat, w': World)
    requires GateInv(w.gate, w.runId, w.conns.open) && ConnInv(w.conns, w.parked, w.runs.enabled)
    requires Admits(w, t, w') && ThreadOk(w, t)
    ensures GateInv(w'.gate, w'.runId, w'.conns.open)
  {
    var c := w'.threads[t].held.value;
    assert OpenOf(w'.conns.open, c.run) == OpenOf(w.conns.open, c.run) + {c};
  }

  lemma AdmitRuns(w: World, t: nat, w': World)
    requires RunsInv(w) && Admits(w, t, w') && ThreadOk(w, t)
    ensures RunsInv(w')
  {
    AdmitGate(w, t, w');
  }

  lemma AdmitThreads(w: World, t: nat, w': World)
    requires ConnInv(w.conns, w.parked, w.runs.enabled) && ThreadInv(w)
    requires Admits(w, t, w')
    ensures ThreadInv(w')
  {
    assert ThreadOk(w, t);
    forall u: nat | u < |w'.threads| ensures ThreadOk(w', u) {
      assert ThreadOk(w, u);
    }
  }

  lemma JoinSwapKeeps(w: World, t: nat, spurious: bool, w': World)
    requires WorldInv(w) && JoinSwap(w, t, spurious, w')
    ensures WorldInv(w')
  {
    assert ThreadOk(w, t);
    HitsKept(w, t, w');
    if w.gate == w.threads[t].pc.seen && !spurious {
      AdmitRuns(w, t, w');
      AdmitThreads(w, t, w');
    } else {
      RunsKept(w, t, w');
      ThreadsKept(w, t, w');
    }
  }

  lemma TakeTagKeeps(w: World, t: nat, w': World)
    requires WorldInv(w) && TakeTag(w, t, w')
    ensures WorldInv(w')
  {
    assert ThreadOk(w, t);
    RunsKept(w, t, w');
    ThreadsKept(w, t, w');
    HitsKept(w, t, w');
  }

  // ----- Suspend and resume -----

  lemma SuspendThreads(w: World, t: nat, w': World)
    requires ThreadInv(w) && Suspend(w, t, w')
    ensures ThreadInv(w')
  {
    assert ThreadOk(w, t);
    forall u: nat | u < |w'.threads| ensures ThreadOk(w', u) {
      assert ThreadOk(w, u);
    }
  }

  lemma SuspendKeeps(w: World, t: nat, w': World)
    requires WorldInv(w) && Suspend(w, t, w')
    ensures WorldInv(w')
  {
    assert ThreadOk(w, t);
    RunsKept(w, t, w');
    SuspendThreads(w, t, w');
    HitsKept(w, t, w');
  }

  lemma TakeUpThreads(w: World, t: nat, c: Conn, w': World)
    requires ConnInv(w.conns, w.parked, w.runs.enabled) && OpenInv(w.conns, w.gate, w.runId, w.runs)
    requires ThreadInv(w) && (Resume(w, t, c, w') || EndParked(w, t, c, w')) && c !in w.conns.returned
    ensures ThreadInv(w')
  {
    assert ThreadOk(w, t);
    forall u: nat | u < |w'.threads| ensures ThreadOk(w', u) {
      assert ThreadOk(w, u);
    }
  }

  lemma ResumeLoadKeeps(w: World, t: nat, w': World)
    requires WorldInv(w) && ResumeLoad(w, t, w')
    ensures WorldInv(w')
  {
    assert ThreadOk(w, t);
    RunsKept(w, t, w');
    ThreadsKept(w, t, w');
    HitsKept(w, t, w');
  }

  lemma ResumeKeeps(w: World, t: nat, c: Conn, w': World)
    requires WorldInv(w) && Resume(w, t, c, w')
    ensures WorldInv(w')
  {
    assert ThreadOk(w, t);
    RunsKept(w, t, w');
    TakeUpThreads(w, t, c, w');
    HitsKept(w, t, w');
  }

  // ----- Connection end -----

  lemma EndStartKeeps(w: World, t: nat, w': World)
    requires WorldInv(w) && EndStart(w, t, w')
    ensures WorldInv(w')
  {
    assert ThreadOk(w, t);
    RunsKept(w, t, w');
    ThreadsKept(w, t, w');
    HitsKept(w, t, w');
  }

  lemma EndParkedKeeps(w: World, t: nat, c: Conn, w': World)
    requires WorldInv(w) && EndParked(w, t, c, w')
    ensures WorldInv(w')
  {
    assert ThreadOk(w, t);
    RunsKept(w, t, w');
    TakeUpThreads(w, t, c, w');
    HitsKept(w, t, w');
  }

  lemma ReturnThreads(w: World, t: nat, c: Conn, result: EndResult)
    requires ThreadInv(w) && t < |w.threads| && result != Invalid
    requires w.threads[t].tag == 0
    requires w.threads[t].held == Some(c) || (w.threads[t].pc.Finalizer() && w.threads[t].pc.conn == c)
    ensures ThreadInv(Return(w, t, c, result))
  {
    var w' := Return(w, t, c, result);
    assert ThreadOk(w, t);
    forall u: nat | u < |w'.threads| ensures ThreadOk(w', u) {
      assert ThreadOk(w, u);
    }
  }

  lemma StaleLeft(w: World, t: nat, c: Conn)
    requires FinalizerInv(w.gate, w.runId, w.runs, w.threads) && LeftInv(w.conns, w.runs.closer, w.threads)
    requires t < |w.threads| && ThreadOk(w, t) && c.run < w.runId
    requires w.threads[t].held == Some(c) || (w.threads[t].pc.Finalizer() && w.threads[t].pc.conn == c)
    ensures var w' := Return(w, t, c, Stale);
            && FinalizerInv(w'.gate, w'.runId, w'.runs, w'.threads)
            && LeftInv(w'.conns, w'.runs.closer, w'.threads)
  {
  }

  lemma StaleRuns(w: World, t: nat, c: Conn)
    requires RunsInv(w) && t < |w.threads| && ThreadOk(w, t) && c.run < w.runId
    requires w.threads[t].held == Some(c) || (w.threads[t].pc.Finalizer() && w.threads[t].pc.conn == c)
    ensures RunsInv(Return(w, t, c, Stale))
  {
    StaleLeft(w, t, c);
  }

  lemma EndCheckRunKeeps(w: World, t: nat, w': World)
    requires WorldInv(w) && EndCheckRun(w, t, w')
    ensures WorldInv(w')
  {
    var c := w.threads[t].held.value;
    assert ThreadOk(w, t);
    HitsKept(w, t, w');
    if w.runId != c.run {
      ReturnThreads(w, t, c, Stale);
      StaleRuns(w, t, c);
    } else {
      RunsKept(w, t, w');
      ThreadsKept(w, t, w');
    }
  }

  /** A connection still counted keeps its own run's active count above zero. */
  lemma CountedAtLeastOne(w: World, c: Conn)
    requires GateInv(w.gate, w.runId, w.conns.open) && c in w.conns.open && c.run == w.gate.run
    ensures w.gate.active >= 1
  {
    assert c in OpenOf(w.conns.open, w.gate.run);
  }

  lemma EndCheckGateKeeps(w: World, t: nat, w': World)
    requires WorldInv(w) && EndCheckGate(w, t, w')
    ensures WorldInv(w')
  {
    var c := w.threads[t].held.value;
    assert ThreadOk(w, t);
    HitsKept(w, t, w');
    if w.gate.run != c.run {
      ReturnThreads(w, t, c, Stale);
      StaleRuns(w, t, c);
    } else {
      CountedAtLeastOne(w, c);
      RunsKept(w, t, w');
      ThreadsKept(w, t, w');
    }
  }

  predicate Leaves(w: World, t: nat, w': World) {
    t < |w.threads| && w.threads[t].pc.EndCas? && w.gate == w.threads[t].pc.seen && EndSwap(w, t, false, w')
  }

  lemma LeaveGate(w: World, t: nat, w': World)
    requires GateInv(w.gate, w.runId, w.conns.open) && Leaves(w, t, w') && ThreadOk(w, t)
    ensures GateInv(w'.gate, w'.runId, w'.conns.open)
  {
    var c := w.threads[t].held.value;
    assert OpenOf(w'.conns.open, c.run) == OpenOf(w.conns.open, c.run) - {c};
  }

  /** The last leaver empties the run it finalizes. */
  lemma LeaveOpen(w: World, t: nat, w': World)
    requires RunsInv(w) && Leaves(w, t, w') && ThreadOk(w, t)
    requires GateInv(w'.gate, w'.runId, w'.conns.open)
    ensures ConnInv(w'.conns, w'.parked, w'.runs.enabled)
    ensures OpenInv(w'.conns, w'.gate, w'.runId, w'.runs)
  {
    forall c | c in w'.conns.open && w'.gate.active == 0 ensures c.run != w'.gate.run {
      if c.run == w'.gate.run {
        CountedAtLeastOne(w', c);
      }
    }
  }

  lemma LeaveRuns(w: World, t: nat, w': World)
    requires RunsInv(w) && Leaves(w, t, w') && ThreadOk(w, t)
    ensures RunInv(w'.runs, w'.gate, w'.conns.admitted)
    ensures CompletedInv(w'.completed, w'.hits.epoch, w'.gate, w'.runs)
    ensures FinalizerInv(w'.gate, w'.runId, w'.runs, w'.threads)
  {
    LeaveLog(w, t, w');
  }

  lemma LeaveLog(w: World, t: nat, w': World)
    requires GateInv(w.gate, w.runId, w.conns.open) && ConnInv(w.conns, w.parked, w.runs.enabled)
    requires RunInv(w.runs, w.gate, w.conns.admitted) && Leaves(w, t, w') && ThreadOk(w, t)
    ensures RunInv(w'.runs, w'.gate, w'.conns.admitted)
  {
    if w.gate.enabled {
      AppendIncreasing(w.runs.finalized, w.gate.run);
    }
  }

  lemma LeaveLeft(w: World, t: nat, w': World)
    requires LeftInv(w.conns, w.runs.closer, w.threads) && RunInv(w.runs, w.gate, w.conns.admitted)
    requires Leaves(w, t, w') && ThreadOk(w, t)
    ensures LeftInv(w'.conns, w'.runs.closer, w'.threads)
  {
  }

  lemma DecrementThreads(w: World, t: nat, w': World)
    requires ThreadInv(w) && Leaves(w, t, w') && !(w.gate.active == 1 && w.gate.enabled)
    ensures ThreadInv(w')
  {
    assert ThreadOk(w, t);
    forall u: nat | u < |w'.threads| ensures ThreadOk(w', u) {
      assert ThreadOk(w, u);
    }
  }

  lemma FinalizeThreads(w: World, t: nat, w': World)
    requires RunsInv(w) && ThreadInv(w) && Leaves(w, t, w') && w.gate.active == 1 && w.gate.enabled
    ensures ThreadInv(w')
  {
    assert ThreadOk(w, t);
    forall u: nat | u < |w'.threads| ensures ThreadOk(w', u) {
      assert ThreadOk(w, u);
    }
  }

  lemma EndSwapKeeps(w: World, t: nat, spurious: bool, w': World)
    requires WorldInv(w) && EndSwap(w, t, spurious, w')
    ensures WorldInv(w')
  {
    assert ThreadOk(w, t);
    HitsKept(w, t, w');
    if w.gate == w.threads[t].pc.seen && !spurious {
      LeaveGate(w, t, w');
      LeaveOpen(w, t, w');
      LeaveRuns(w, t, w');
      LeaveLeft(w, t, w');
      if w.gate.active == 1 && w.gate.enabled {
        FinalizeThreads(w, t, w');
      } else {
        DecrementThreads(w, t, w');
      }
    } else {
      RunsKept(w, t, w');
      ThreadsKept(w, t, w');
    }
  }

  // ----- Finalizing -----

  lemma FinCheckKeeps(w: World, t: nat, w': World)
    requires WorldInv(w) && FinCheck(w, t, w')
    ensures WorldInv(w')
  {
    var c := w.threads[t].pc.conn;
    assert ThreadOk(w, t);
    HitsKept(w, t, w');
    if w.runId != c.run {
      ReturnThreads(w, t, c, Stale);
      StaleRuns(w, t, c);
    } else {
      ThreadsKept(w, t, w');
    }
  }

  lemma FinPublishThreads(w: World, t: nat, w': World)
    requires ThreadInv(w) && FinPublish(w, t, w')
    ensures ThreadInv(w')
  {
    assert ThreadOk(w, t);
    forall u: nat | u < |w'.threads| ensures ThreadOk(w', u) {
      assert ThreadOk(w, u);
    }
  }

  lemma FinPublishKeeps(w: World, t: nat, w': World)
    requires WorldInv(w) && FinPublish(w, t, w')
    ensures WorldInv(w')
  {
    assert ThreadOk(w, t);
    HitsKept(w, t, w');
    FinPublishThreads(w, t, w');
  }

  lemma FinSwapLeft(w: World, t: nat, w': World)
    requires GateInv(w.gate, w.runId, w.conns.open)
    requires FinalizerInv(w.gate, w.runId, w.runs, w.threads) && LeftInv(w.conns, w.runs.closer, w.threads)
    requires t < |w.threads| && ThreadOk(w, t) && FinSwap(w, t, w')
    ensures FinalizerInv(w'.gate, w'.runId, w'.runs, w'.threads)
    ensures LeftInv(w'.conns, w'.runs.closer, w'.threads)
  {
  }

  lemma FinSwapRuns(w: World, t: nat, w': World)
    requires RunsInv(w) && t < |w.threads| && ThreadOk(w, t) && FinSwap(w, t, w')
    ensures RunsInv(w')
  {
    FinSwapLeft(w, t, w');
  }

  lemma FinSwapThreads(w: World, t: nat, w': World)
    requires ThreadInv(w) && FinSwap(w, t, w')
    ensures ThreadInv(w')
  {
    assert ThreadOk(w, t);
    forall u: nat | u < |w'.threads| ensures ThreadOk(w', u) {
      assert ThreadOk(w, u);
    }
  }

  lemma FinSwapKeeps(w: World, t: nat, w': World)
    requires WorldInv(w) && FinSwap(w, t, w')
    ensures WorldInv(w')
  {
    assert ThreadOk(w, t);
    HitsKept(w, t, w');
    FinSwapRuns(w, t, w');
    FinSwapThreads(w, t, w');
  }

  // ----- What the controller may rely on -----

  /** The edges on which a run still lets its threads be counted. */
  predicate Counting(w: World, run: nat) {
    run in w.runs.shut || Allows(w.gate, run)
  }

  /** What no worker step changes behind the controller's back. */
  ghost predicate WorkerFrame(w: World, w': World) {
    && w'.runId == w.runId && w'.owner == w.owner && |w'.counts| == |w.counts|
    && |w'.hits.window| == |w.hits.window|
    && w'.gate.run == w.gate.run
    && (!w.gate.enabled ==> !w'.gate.enabled && w'.gate.active <= w.gate.active)
    && (!w.gate.enabled && !w.gate.finalizing ==> !w'.gate.finalizing)
    && w'.hits.epoch == w.hits.epoch && w'.hits.strays == w.hits.strays && w'.hits.marks == w.hits.marks
    && w'.runs.enabled == w.runs.enabled && w'.runs.shut == w.runs.shut
    && w'.runs.cancelled == w.runs.cancelled && w'.runs.takeovers == w.runs.takeovers
    && (forall r :: r in w.runs.finalized ==> r in w'.runs.finalized)
    && w.hits.called <= w'.hits.called
    && (forall h :: h in w'.hits.called && h !in w.hits.called ==> Counting(w, h.run))
    && (forall i, h :: 0 <= i < |w.hits.window| && h in w'.hits.window[i] && h !in w.hits.window[i] ==>
          h in w.hits.strays || (0 != w.hits.epoch == h.run && Counting(w, h.run)))
  }

  lemma GuardFrames(w: World, t: nat, k: WorkerStep, w': World)
    requires OpenInv(w.conns, w.gate, w.runId, w.runs) && CountInv(w.counts, w.hits)
    requires k.DoGuardCall? || k.DoGuardCount?
    requires t < |w.threads| && ThreadOk(w, t) && AddsLive(w, t) && WorkerNext(w, t, k, w')
    ensures WorkerFrame(w, w')
  {
  }

  predicate LeavesRun(k: WorkerStep) {
    k.DoEndStart? || k.DoEndParked? || k.DoEndCheckRun? || k.DoEndCheckGate? || k.DoEndSwap?
  }

  predicate Finishes(k: WorkerStep) {
    k.DoFinCheck? || k.DoFinPublish? || k.DoFinSwap?
  }

  lemma LeaveFrames(w: World, t: nat, k: WorkerStep, w': World)
    requires LeavesRun(k)
    requires t < |w.threads| && ThreadOk(w, t) && WorkerNext(w, t, k, w')
    ensures WorkerFrame(w, w')
  {
  }

  lemma FinishFrames(w: World, t: nat, k: WorkerStep, w': World)
    requires Finishes(k)
    requires t < |w.threads| && ThreadOk(w, t) && WorkerNext(w, t, k, w')
    ensures WorkerFrame(w, w')
  {
  }

  lemma OtherFrames(w: World, t: nat, k: WorkerStep, w': World)
    requires !k.DoGuardCall? && !k.DoGuardCount? && !LeavesRun(k) && !Finishes(k)
    requires t < |w.threads| && ThreadOk(w, t) && WorkerNext(w, t, k, w')
    ensures WorkerFrame(w, w')
  {
  }

  lemma WorldFrames(w: World, t: nat, k: WorkerStep, w': World)
    requires OpenInv(w.conns, w.gate, w.runId, w.runs) && CountInv(w.counts, w.hits)
    requires t < |w.threads| && ThreadOk(w, t) && AddsLive(w, t) && WorkerNext(w, t, k, w')
    ensures WorkerFrame(w, w')
  {
    if LeavesRun(k) {
      LeaveFrames(w, t, k, w');
    } else if Finishes(k) {
      FinishFrames(w, t, k, w');
    } else if k.DoGuardCall? || k.DoGuardCount? {
      GuardFrames(w, t, k, w');
    } else {
      OtherFrames(w, t, k, w');
    }
  }

  lemma LiveThreadAdds(s: State, t: nat)
    requires LostInv(s) && ThreadInv(s.w) && t < |s.w.threads| && s.w.threads[t].proc !in s.dead
    ensures AddsLive(s.w, t)
  {
    assert ThreadOk(s.w, t);
  }

  lemma WorkerFrames(s: State, t: nat, k: WorkerStep, s': State)
    requires WorldInv(s.w) && LostInv(s) && Next(s, Worker(t, k), s')
    ensures WorkerFrame(s.w, s'.w)
  {
    LiveThreadAdds(s, t);
    assert ThreadOk(s.w, t);
    WorldFrames(s.w, t, k, s'.w);
  }

  predicate WindowsGrow(w: World, w': World) {
    && |w'.hits.window| == |w.hits.window|
    && forall i :: 0 <= i < |w.hits.window| ==> w.hits.window[i] <= w'.hits.window[i]
  }

  lemma WindowsKept(w: World, t: nat, k: WorkerStep, w': World)
    requires WorkerNext(w, t, k, w')
    ensures WindowsGrow(w, w')
  {
  }

  lemma LostKept(w: World, t: nat, k: WorkerStep, w': World)
    requires t < |w.threads| && WorkerNext(w, t, k, w')
    ensures w'.hits.lost == w.hits.lost && |w'.threads| == |w.threads|
    ensures forall u :: 0 <= u < |w.threads| ==> w'.threads[u].proc == w.threads[u].proc
  {
  }

  lemma SnapshotFramed(w: World, ctl: Ctl, run: nat, counts: seq<nat>, hits: seq<set<Hit>>, w': World)
    requires RunInv(w.runs, w.gate, w.conns.admitted) && WorkerFrame(w, w') && WindowsGrow(w, w')
    requires Settled(w, ctl) && Closed(w, run) && Copied(w.hits, run, counts, hits)
    ensures Closed(w', run) && Copied(w'.hits, run, counts, hits)
    ensures Unwrapped(w.hits.window, w.hits.strays) ==> Unwrapped(w'.hits.window, w'.hits.strays)
  {
    assert run in w.runs.enabled && run == w.hits.epoch;
    assert !Counting(w, run);
    forall i | 0 <= i < |w'.hits.window| && w'.hits.window[i] !! w.hits.strays
      ensures w'.hits.window[i] == w.hits.window[i]
    {
      forall h | h in w'.hits.window[i] ensures h in w.hits.window[i] {
        assert h in w.hits.window[i] || (h.run == run && Counting(w, h.run));
      }
    }
  }

  /** Inside a claim or a begin. */
  predicate Storing(pc: CtlPc) {
    || pc.ClaimGate? || pc.ClaimClose? || pc.ClaimDrain? || pc.ClaimStoreRun? || pc.ClaimStoreGate?
    || pc.ClaimStoreCompleted? || pc.ClaimStoreOwner?
    || pc.BeginZero? || pc.BeginStoreCompleted? || pc.BeginStoreRun? || pc.BeginStoreGate?
  }

  lemma StoringFramed(w: World, ctl: Ctl, w': World)
    requires WorkerFrame(w, w') && CtlOk(w, ctl) && Storing(ctl.pc)
    ensures CtlOk(w', ctl)
  {
  }

  lemma CtlFramed(w: World, ctl: Ctl, w': World)
    requires RunInv(w.runs, w.gate, w.conns.admitted) && WorkerFrame(w, w') && WindowsGrow(w, w') && CtlOk(w, ctl)
    ensures CtlOk(w', ctl)
  {
    if Storing(ctl.pc) {
      StoringFramed(w, ctl, w');
    } else if ctl.pc.SnapCopy? {
      SnapshotFramed(w, ctl, ctl.pc.run, ctl.pc.counts, ctl.pc.hits, w');
    } else if ctl.pc.Ready? && ctl.pc.reply.Snapshot? {
      SnapshotFramed(w, ctl, ctl.pc.reply.run, ctl.pc.reply.counts, ctl.pc.reply.hits, w');
    }
  }

  lemma WorkerWorldKeeps(w: World, t: nat, k: WorkerStep, w': World)
    requires WorldInv(w) && AddsLive(w, t) && WorkerNext(w, t, k, w')
    ensures WorldInv(w')
  {
    match k
    case DoGuardCall(edge) => GuardCallKeeps(w, t, edge, w');
    case DoGuardCount => GuardCountKeeps(w, t, w');
    case DoGuardOverflow => GuardOverflowKeeps(w, t, w');
    case DoJoinLoad => JoinLoadKeeps(w, t, w');
    case DoJoinCheck => JoinCheckKeeps(w, t, w');
    case DoJoinSwap(spurious) => JoinSwapKeeps(w, t, spurious, w');
    case DoTakeTag => TakeTagKeeps(w, t, w');
    case DoSuspend => SuspendKeeps(w, t, w');
    case DoResume(c) => ResumeKeeps(w, t, c, w');
    case DoResumeLoad => ResumeLoadKeeps(w, t, w');
    case DoEndStart => EndStartKeeps(w, t, w');
    case DoEndParked(c) => EndParkedKeeps(w, t, c, w');
    case DoEndCheckRun => EndCheckRunKeeps(w, t, w');
    case DoEndCheckGate => EndCheckGateKeeps(w, t, w');
    case DoEndSwap(spurious) => EndSwapKeeps(w, t, spurious, w');
    case DoFinCheck => FinCheckKeeps(w, t, w');
    case DoFinPublish => FinPublishKeeps(w, t, w');
    case DoFinSwap => FinSwapKeeps(w, t, w');
  }

  lemma WorkerKeeps(s: State, t: nat, k: WorkerStep, s': State)
    requires Inv(s) && Next(s, Worker(t, k), s')
    ensures Inv(s')
  {
    WorkerFrames(s, t, k, s');
    WindowsKept(s.w, t, k, s'.w);
    CtlFramed(s.w, s.ctl, s'.w);
    LiveThreadAdds(s, t);
    LostKept(s.w, t, k, s'.w);
    WorkerWorldKeeps(s.w, t, k, s'.w);
  }
}
