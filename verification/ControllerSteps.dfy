/** Every controller step, and every death, keeps the invariant. */
module ControllerSteps {
  import opened Bridge
  import opened BridgeInvariant
  import opened WorkerSteps

  // ----- Facts about a closed or idle gate -----

  /** While the gate counts nobody, no thread carries its run's tag. */
  lemma IdleUntagged(w: World, t: nat)
    requires GateInv(w.gate, w.runId, w.conns.open) && t < |w.threads| && ThreadOk(w, t)
    requires w.gate.active == 0
    ensures w.threads[t].tag == 0 || w.threads[t].tag != w.gate.run
  {
    if w.threads[t].tag != 0 && w.threads[t].tag == w.gate.run {
      CountedAtLeastOne(w, w.threads[t].held.value);
    }
  }

  /** Without a timed-out takeover, a gate that counts nobody means that
    * nobody is counted at all. */
  lemma IdleEmpty(w: World)
    requires GateInv(w.gate, w.runId, w.conns.open) && OpenInv(w.conns, w.gate, w.runId, w.runs)
    requires w.runs.drained && w.gate.active == 0
    ensures w.conns.open == {}
  {
    forall c | c in w.conns.open ensures false {
      CountedAtLeastOne(w, c);
    }
  }

  /** No connection was ever admitted to a run past the gate's. */
  lemma NoneAhead(w: World, run: nat)
    requires RunsInv(w) && (run > w.gate.run || run == 0)
    ensures OpenOf(w.conns.open, run) == {}
  {
  }

  // ----- Steps that do not write the map -----

  lemma ClaimQuiet(s: State, c: ClaimStep, s': State)
    requires CtlInv(s) && ClaimNext(s, c, s') && s'.w == s.w
    requires !c.DoClaimPutRun? && !c.DoClaimPutGate? && !c.DoClaimPutCompleted? && !c.DoClaimPutOwner?
    ensures CtlInv(s')
  {
  }

  lemma BeginQuiet(s: State, c: BeginStep, s': State)
    requires CtlInv(s) && BeginNext(s, c, s') && (c.DoBeginCall? || c.DoBeginLoadRun?)
    ensures CtlInv(s')
  {
  }

  lemma CancelTested(s: State, run: nat, pc: CtlPc)
    requires CtlInv(s) && GateInv(s.w.gate, s.w.runId, s.w.conns.open)
    requires s.ctl.pc == CancelGate(run) || (s.ctl.pc.CancelCas? && s.ctl.pc.run == run)
    requires pc == CancelTest(run, s.w.gate)
    ensures CtlInv(Go(s, pc))
  {
  }

  lemma CancelQuiet(s: State, c: CancelStep, s': State)
    requires CtlInv(s) && CancelNext(s, c, s') && s'.w == s.w
    requires GateInv(s.w.gate, s.w.runId, s.w.conns.open)
    requires c.DoCancelCall? || c.DoCancelLoadRun? || c.DoCancelLoadGate?
    ensures CtlInv(s')
  {
    if c.DoCancelLoadGate? {
      CancelTested(s, s.ctl.pc.run, s'.ctl.pc);
    }
  }

  /** The wait loop moves on past a completed_run that matches only when that
    * run was finalized and not cancelled. */
  lemma SnapCompletedQuiet(s: State, s': State)
    requires CtlInv(s) && SnapLoadCompleted(s, s')
    requires CompletedInv(s.w.completed, s.w.hits.epoch, s.w.gate, s.w.runs)
    ensures CtlInv(s')
  {
  }

  lemma SnapQuiet(s: State, c: SnapStep, s': State)
    requires RunInv(s.w.runs, s.w.gate, s.w.conns.admitted) && CtlInv(s) && SnapNext(s, c, s')
    requires c.DoSnapCall? || c.DoSnapLoadGate? || c.DoSnapLoadRun? || c.DoSnapStop?
    ensures s'.w == s.w && CtlInv(s')
  {
  }

  /** A closed run cannot have wrapped a counter unnoticed, unless strays have. */
  lemma ClosedUnwrapped(w: World, ctl: Ctl, run: nat)
    requires RunsInv(w) && ThreadInv(w) && HitsInv(w) && Settled(w, ctl) && Closed(w, run)
    requires !w.overflow
    ensures Unwrapped(w.hits.window, w.hits.strays)
  {
    forall i | 0 <= i < |w.hits.window| && w.hits.window[i] !! w.hits.strays
      ensures |w.hits.window[i]| < COUNTER_LIMIT
    {
      if |w.hits.window[i]| >= COUNTER_LIMIT {
        var h :| h in w.hits.window[i] && MarkPending(w.threads, h);
        assert ThreadOk(w, h.thread);
        IdleUntagged(w, h.thread);
      }
    }
  }

  lemma SnapLoadOverflowKeeps(s: State, noMemory: bool, s': State)
    requires Inv(s) && SnapLoadOverflow(s, noMemory, s')
    ensures Inv(s')
  {
    if !s.w.overflow {
      ClosedUnwrapped(s.w, s.ctl, s.ctl.pc.run);
    }
  }

  /** Every call of a closed run has reached its counter. */
  lemma ClosedLanded(w: World, ctl: Ctl, run: nat, h: Hit)
    requires RunsInv(w) && ThreadInv(w) && HitsInv(w) && Settled(w, ctl) && Closed(w, run)
    requires h in w.hits.called && h.run == run
    ensures h.edge < |w.hits.window| && h in w.hits.window[h.edge]
  {
    assert run in w.runs.enabled && run !in w.runs.shut;
    assert Landed(w.hits, w.threads, h);
    assert ThreadOk(w, h.thread);
    IdleUntagged(w, h.thread);
  }

  lemma CopiedMore(w: World, ctl: Ctl, run: nat, counts: seq<nat>, hits: seq<set<Hit>>)
    requires RunsInv(w) && ThreadInv(w) && HitsInv(w) && Settled(w, ctl) && Closed(w, run)
    requires Copied(w.hits, run, counts, hits) && |counts| < |w.counts|
    requires Unwrapped(w.hits.window, w.hits.strays)
    ensures Copied(w.hits, run, counts + [w.counts[|counts|]], hits + [w.hits.window[|counts|]])
  {
    var k := |counts|;
    forall h | h in w.hits.called && h.run == run && h.edge <= k
      ensures h in (hits + [w.hits.window[k]])[h.edge]
    {
      ClosedLanded(w, ctl, run, h);
    }
  }

  lemma SnapLoadCountKeeps(s: State, s': State)
    requires Inv(s) && SnapLoadCount(s, s')
    ensures CtlInv(s')
  {
    var run, counts, hits := s.ctl.pc.run, s.ctl.pc.counts, s.ctl.pc.hits;
    if |counts| < |s.w.counts| {
      CopiedMore(s.w, s.ctl, run, counts, hits);
    }
  }

  // ----- Closing admission -----

  lemma ShutKeeps(w: World)
    requires WorldInv(w) && w.gate.enabled
    ensures WorldInv(Shut(w))
  {
    var w' := Shut(w);
    forall t: nat | t < |w'.threads| ensures ThreadOk(w', t) {
      assert ThreadOk(w, t);
    }
  }

  lemma ClaimSwapKeeps(s: State, spurious: bool, s': State)
    requires Inv(s) && ClaimSwap(s, spurious, s')
    ensures Inv(s')
  {
    if s.w.gate == s.ctl.pc.seen {
      ShutKeeps(s.w);
    }
  }

  lemma CancelSwapKeeps(s: State, spurious: bool, s': State)
    requires Inv(s) && CancelSwap(s, spurious, s')
    ensures Inv(s')
  {
    if s.w.gate == s.ctl.pc.seen {
      ShutKeeps(s.w);
    }
  }

  // ----- Claim -----

  lemma ClaimPutRunKeeps(s: State, s': State)
    requires Inv(s) && ClaimPutRun(s, s')
    ensures Inv(s')
  {
    forall t: nat | t < |s'.w.threads| ensures ThreadOk(s'.w, t) {
      assert ThreadOk(s.w, t);
    }
  }

  lemma ClaimPutGateRuns(s: State, s': State)
    requires Inv(s) && ClaimPutGate(s, s')
    ensures RunsInv(s'.w)
  {
    NoneAhead(s.w, s'.w.gate.run);
    if s'.w.runs.drained {
      IdleEmpty(s.w);
    }
  }

  lemma ClaimPutGateThreads(s: State, s': State)
    requires Inv(s) && ClaimPutGate(s, s')
    ensures ThreadInv(s'.w)
  {
    forall t: nat | t < |s'.w.threads| ensures ThreadOk(s'.w, t) {
      assert ThreadOk(s.w, t);
    }
  }

  lemma ClaimPutGateKeeps(s: State, s': State)
    requires Inv(s) && ClaimPutGate(s, s')
    ensures Inv(s')
  {
    ClaimPutGateRuns(s, s');
    ClaimPutGateThreads(s, s');
  }

  lemma ClaimPutCompletedKeeps(s: State, s': State)
    requires Inv(s) && ClaimPutCompleted(s, s')
    ensures Inv(s')
  {
    forall t: nat | t < |s'.w.threads| ensures ThreadOk(s'.w, t) {
      assert ThreadOk(s.w, t);
    }
  }

  lemma ClaimPutOwnerKeeps(s: State, s': State)
    requires Inv(s) && ClaimPutOwner(s, s')
    ensures Inv(s')
  {
    forall t: nat | t < |s'.w.threads| ensures ThreadOk(s'.w, t) {
      assert ThreadOk(s.w, t);
    }
  }

  // ----- Begin -----

  lemma BeginLoadGateHits(s: State, s': State)
    requires Inv(s) && BeginLoadGate(s, s') && s'.ctl.pc.BeginZero?
    ensures HitsInv(s'.w) && StraysOlder(s'.w.hits, s'.w.gate.run)
  {
    forall h | h in s'.w.hits.strays ensures h in s.w.hits.called && s.w.threads[h.thread].pc == GuardAdd(h) {
      var t: nat :| t < |s.w.threads| && s.w.threads[t].pc.GuardAdd? && s.w.threads[t].pc.hit == h;
      assert ThreadOk(s.w, t);
    }
    if s.w.runs.drained {
      IdleEmpty(s.w);
      forall t: nat | t < |s.w.threads| ensures !s.w.threads[t].pc.GuardAdd? {
        assert ThreadOk(s.w, t);
      }
    }
  }

  lemma BeginLoadGateThreads(s: State, s': State)
    requires Inv(s) && BeginLoadGate(s, s')
    ensures ThreadInv(s'.w)
  {
    forall t: nat | t < |s'.w.threads| ensures ThreadOk(s'.w, t) {
      assert ThreadOk(s.w, t);
    }
  }

  lemma BeginLoadGateLost(s: State, s': State)
    requires ThreadInv(s.w) && LostInv(s) && BeginLoadGate(s, s')
    ensures LostInv(s')
  {
    forall t: nat | t < |s.w.threads| && s.w.threads[t].pc.GuardAdd? ensures s.w.threads[t].pc.hit.thread == t {
      assert ThreadOk(s.w, t);
    }
  }

  lemma BeginLoadGateKeeps(s: State, s': State)
    requires Inv(s) && BeginLoadGate(s, s')
    ensures Inv(s')
  {
    BeginLoadGateThreads(s, s');
    BeginLoadGateLost(s, s');
    if s'.ctl.pc.BeginZero? {
      BeginLoadGateHits(s, s');
    }
  }

  lemma BeginPutZeroKeeps(s: State, s': State)
    requires Inv(s) && BeginPutZero(s, s')
    ensures Inv(s')
  {
    forall t: nat | t < |s'.w.threads| ensures ThreadOk(s'.w, t) {
      assert ThreadOk(s.w, t);
    }
  }

  lemma BeginPutCompletedKeeps(s: State, s': State)
    requires Inv(s) && BeginPutCompleted(s, s')
    ensures Inv(s')
  {
    forall t: nat | t < |s'.w.threads| ensures ThreadOk(s'.w, t) {
      assert ThreadOk(s.w, t);
    }
  }

  lemma BeginPutRunKeeps(s: State, s': State)
    requires Inv(s) && BeginPutRun(s, s')
    ensures Inv(s')
  {
    forall t: nat | t < |s'.w.threads| ensures ThreadOk(s'.w, t) {
      assert ThreadOk(s.w, t);
    }
  }

  lemma BeginPutGateRuns(s: State, s': State)
    requires Inv(s) && BeginPutGate(s, s')
    ensures RunsInv(s'.w)
  {
    NoneAhead(s.w, s.ctl.pc.run);
    AppendIncreasing(s.w.runs.enabled, s.ctl.pc.run);
    if s.w.runs.drained {
      IdleEmpty(s.w);
    }
  }

  lemma BeginPutGateThreads(s: State, s': State)
    requires Inv(s) && BeginPutGate(s, s')
    ensures ThreadInv(s'.w)
  {
    forall t: nat | t < |s'.w.threads| ensures ThreadOk(s'.w, t) {
      assert ThreadOk(s.w, t);
    }
  }

  lemma BeginPutGateWindows(hits: HitLog, k: nat)
    requires Zeroed(hits, k) && k == |hits.window|
    ensures forall i, h :: 0 <= i < |hits.window| && h in hits.window[i] ==> h in hits.strays
    ensures forall i :: 0 <= i < |hits.window| && hits.window[i] !! hits.strays ==> hits.window[i] == {}
  {
    forall i | 0 <= i < |hits.window| && hits.window[i] !! hits.strays ensures hits.window[i] == {} {
      assert hits.window[i] <= hits.strays;
    }
  }

  /** Nobody has called a guard in the new run yet. */
  lemma NoCallsAhead(w: World, run: nat)
    requires RunInv(w.runs, w.gate, w.conns.admitted) && HitInv(w.hits, w.runs.enabled, |w.threads|)
    requires w.gate.run < run
    ensures forall h :: h in w.hits.called ==> h.run < run
  {
  }

  lemma BeginPutGateHits(s: State, s': State)
    requires Inv(s) && BeginPutGate(s, s')
    ensures HitsInv(s'.w)
  {
    BeginPutGateWindows(s.w.hits, |s.w.hits.window|);
    NoCallsAhead(s.w, s.ctl.pc.run);
  }

  lemma BeginPutGateKeeps(s: State, s': State)
    requires Inv(s) && BeginPutGate(s, s')
    ensures Inv(s')
  {
    BeginPutGateRuns(s, s');
    BeginPutGateThreads(s, s');
    BeginPutGateHits(s, s');
  }

  // ----- Cancel -----

  lemma CancelPutCompletedThreads(s: State, s': State)
    requires ThreadInv(s.w) && CtlInv(s) && CancelPutCompleted(s, s')
    ensures ThreadInv(s'.w)
  {
    forall t: nat | t < |s'.w.threads| ensures ThreadOk(s'.w, t) {
      assert ThreadOk(s.w, t);
    }
  }

  lemma CancelPutCompletedKeeps(s: State, s': State)
    requires Inv(s) && CancelPutCompleted(s, s')
    ensures Inv(s')
  {
    CancelPutCompletedThreads(s, s');
  }

  // ----- All steps -----

  lemma DieKeeps(s: State, p: nat, s': State)
    requires Inv(s) && Die(s, p, s')
    ensures Inv(s')
  {
  }

  predicate ClaimStores(c: ClaimStep) {
    c.DoClaimPutRun? || c.DoClaimPutGate? || c.DoClaimPutCompleted? || c.DoClaimPutOwner?
  }

  lemma ClaimStoresKeep(s: State, c: ClaimStep, s': State)
    requires Inv(s) && ClaimStores(c) && ClaimNext(s, c, s')
    ensures Inv(s')
  {
    if c.DoClaimPutRun? {
      ClaimPutRunKeeps(s, s');
    } else if c.DoClaimPutGate? {
      ClaimPutGateKeeps(s, s');
    } else if c.DoClaimPutCompleted? {
      ClaimPutCompletedKeeps(s, s');
    } else {
      ClaimPutOwnerKeeps(s, s');
    }
  }

  lemma ClaimReads(s: State, c: ClaimStep, s': State)
    requires CtlInv(s) && LostInv(s) && !ClaimStores(c) && !c.DoClaimSwap? && ClaimNext(s, c, s')
    ensures s'.w == s.w && CtlInv(s') && LostInv(s')
  {
    ClaimQuiet(s, c, s');
  }

  lemma ClaimKeeps(s: State, c: ClaimStep, s': State)
    requires Inv(s) && ClaimNext(s, c, s')
    ensures Inv(s')
  {
    if ClaimStores(c) {
      ClaimStoresKeep(s, c, s');
    } else if c.DoClaimSwap? {
      ClaimSwapKeeps(s, c.spurious, s');
    } else {
      ClaimReads(s, c, s');
    }
  }

  lemma BeginKeeps(s: State, c: BeginStep, s': State)
    requires Inv(s) && BeginNext(s, c, s')
    ensures Inv(s')
  {
    match c
    case DoBeginLoadGate => BeginLoadGateKeeps(s, s');
    case DoBeginPutZero => BeginPutZeroKeeps(s, s');
    case DoBeginPutCompleted => BeginPutCompletedKeeps(s, s');
    case DoBeginPutRun => BeginPutRunKeeps(s, s');
    case DoBeginPutGate => BeginPutGateKeeps(s, s');
    case _ => BeginQuiet(s, c, s');
  }

  lemma CancelKeeps(s: State, c: CancelStep, s': State)
    requires Inv(s) && CancelNext(s, c, s')
    ensures Inv(s')
  {
    match c
    case DoCancelSwap(spurious) => CancelSwapKeeps(s, spurious, s');
    case DoCancelPutCompleted => CancelPutCompletedKeeps(s, s');
    case _ => CancelQuiet(s, c, s');
  }

  lemma SnapKeeps(s: State, c: SnapStep, s': State)
    requires Inv(s) && SnapNext(s, c, s')
    ensures Inv(s')
  {
    match c
    case DoSnapLoadOverflow(noMemory) => SnapLoadOverflowKeeps(s, noMemory, s');
    case DoSnapLoadCount => SnapLoadCountKeeps(s, s');
    case DoSnapLoadCompleted => SnapCompletedQuiet(s, s');
    case _ => SnapQuiet(s, c, s');
  }

  lemma NextKeeps(s: State, a: Step, s': State)
    requires Inv(s) && Next(s, a, s')
    ensures Inv(s')
  {
    match a
    case Worker(t, k) => WorkerKeeps(s, t, k, s');
    case Claim(c) => ClaimKeeps(s, c, s');
    case Begin(c) => BeginKeeps(s, c, s');
    case Cancel(c) => CancelKeeps(s, c, s');
    case Snap(c) => SnapKeeps(s, c, s');
    case Death(p) => DieKeeps(s, p, s');
  }

  /** The invariant holds at every instant of every trace. */
  lemma TraceKeeps(tr: Trace, i: nat)
    requires tr.Valid() && i < |tr.states|
    ensures Inv(tr.states[i])
  {
    if i == 0 {
      InitHolds(tr.states[0]);
    } else {
      TraceKeeps(tr, i - 1);
      NextKeeps(tr.states[i - 1], tr.steps[i - 1], tr.states[i]);
    }
  }
}
