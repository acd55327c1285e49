/** Promises about two instants of one history of the coverage bridge. */
module BridgeHistories {
  import opened Wrappers
  import opened Bridge
  import opened BridgeInvariant
  import opened WorkerSteps
  import opened ControllerSteps
  import opened BridgeTheorems

  // ----- What only grows -----

  ghost predicate Grows(s: State, s': State) {
    && s.w.gate.run <= s'.w.gate.run && s.w.runId <= s'.w.runId
    && s.w.runs.enabled <= s'.w.runs.enabled && s.w.runs.finalized <= s'.w.runs.finalized
    && s.w.runs.shut <= s'.w.runs.shut && s.w.runs.cancelled <= s'.w.runs.cancelled
    && s.w.conns.admitted <= s'.w.conns.admitted && s.w.conns.returned <= s'.w.conns.returned
    && s.w.hits.called <= s'.w.hits.called
  }

  lemma WorkerLogsGrow(w: World, t: nat, k: WorkerStep, w': World)
    requires t < |w.threads| && ThreadOk(w, t) && WorkerNext(w, t, k, w')
    ensures w.runs.finalized <= w'.runs.finalized
    ensures w.conns.admitted <= w'.conns.admitted && w.conns.returned <= w'.conns.returned
  {
  }

  lemma ControllerRunLogGrows(s: State, a: Step, s': State)
    requires Next(s, a, s') && !a.Worker?
    ensures s.w.runs.enabled <= s'.w.runs.enabled && s.w.runs.finalized == s'.w.runs.finalized
    ensures s.w.runs.shut <= s'.w.runs.shut && s.w.runs.cancelled <= s'.w.runs.cancelled
  {
  }

  lemma ControllerKeepsLogs(s: State, a: Step, s': State)
    requires Next(s, a, s') && !a.Worker?
    ensures s.w.conns == s'.w.conns && s.w.hits.called == s'.w.hits.called
  {
  }

  lemma ControllerRunsGrow(s: State, a: Step, s': State)
    requires CtlInv(s) && s.w.gate.run <= s.w.runId && Next(s, a, s') && !a.Worker?
    ensures s.w.gate.run <= s'.w.gate.run && s.w.runId <= s'.w.runId
  {
  }

  lemma StepGrows(s: State, a: Step, s': State)
    requires Inv(s) && Next(s, a, s')
    ensures Grows(s, s')
  {
    if a.Worker? {
      WorkerFrames(s, a.thread, a.work, s');
      assert ThreadOk(s.w, a.thread);
      WorkerLogsGrow(s.w, a.thread, a.work, s'.w);
    } else {
      ControllerRunLogGrows(s, a, s');
      ControllerKeepsLogs(s, a, s');
      ControllerRunsGrow(s, a, s');
    }
  }

  lemma {:induction false} GrowingChain(states: seq<State>, i: nat, j: nat)
    requires i <= j < |states|
    requires forall k :: 0 <= k < |states| - 1 ==> Grows(states[k], states[k + 1])
    ensures Grows(states[i], states[j])
    decreases j - i
  {
    if i < j {
      GrowingChain(states, i, j - 1);
    }
  }

  lemma HistoryGrows(tr: Trace, i: nat, j: nat)
    requires tr.Valid() && i <= j < |tr.states|
    ensures Grows(tr.states[i], tr.states[j])
  {
    forall k: nat | k < |tr.states| - 1 ensures Grows(tr.states[k], tr.states[k + 1]) {
      TraceKeeps(tr, k);
      StepGrows(tr.states[k], tr.steps[k], tr.states[k + 1]);
    }
    GrowingChain(tr.states, i, j);
  }

  // ----- Takeover fence -----

  /** The run whose business a thread's next access is. */
  function BusyFor(th: Thread): Option<nat> {
    match th.pc
    case Free => if th.held.Some? then Some(th.held.value.run) else None
    case GuardAdd(h) => Some(h.run)
    case GuardMark(h) => Some(h.run)
    case JoinRun(g) => Some(g.run)
    case JoinCas(g) => Some(g.run)
    case FinRun(c) => Some(c.run)
    case FinStore(c) => Some(c.run)
    case FinCas(c) => Some(c.run)
    case EndCas(g) => Some(g.run)
    case _ => if th.held.Some? then Some(th.held.value.run) else None
  }

  predicate Ending(pc: Pc) {
    pc.EndRun? || pc.EndGate? || pc.EndCas? || pc.Finalizer()
  }

  lemma FencedStep(w: World, t: nat, k: WorkerStep, w': World)
    requires w.gate.run <= w.runId && t < |w.threads| && ThreadOk(w, t) && WorkerNext(w, t, k, w')
    requires BusyFor(w.threads[t]).Some? && BusyFor(w.threads[t]).value < w.gate.run
    ensures w'.gate == w.gate && w'.runId == w.runId && |w'.threads| == |w.threads|
    ensures Ending(w.threads[t].pc) && w'.threads[t].pc.Free? ==> w'.threads[t].last == Stale
  {
  }

  /** Step j is taken by thread t, which is busy with `run`. */
  predicate BusyStep(tr: Trace, j: nat, t: nat, run: nat) {
    && j < |tr.steps| < |tr.states| && tr.steps[j].Worker? && tr.steps[j].thread == t < |tr.states[j].w.threads|
    && BusyFor(tr.states[j].w.threads[t]) == Some(run)
  }

  /** Takeover fence: once a claim has stored its gate, no step of a thread busy
    * with a run enabled before ever changes the gate or the run id again, wherever
    * that thread was stalled, and its end calls can only report ESTALE. */
  lemma TakeoverFence(tr: Trace, i: nat, j: nat, t: nat, run: nat)
    requires tr.Valid() && i < j && BusyStep(tr, j, t, run)
    requires tr.steps[i] == Claim(DoClaimPutGate) && run in tr.states[i].w.runs.enabled
    ensures var w, w' := tr.states[j].w, tr.states[j + 1].w;
            && w'.gate == w.gate && w'.runId == w.runId && |w'.threads| == |w.threads|
            && (Ending(w.threads[t].pc) && w'.threads[t].pc.Free? ==> w'.threads[t].last == Stale)
  {
    TraceKeeps(tr, i);
    assert Next(tr.states[i], tr.steps[i], tr.states[i + 1]);
    ClaimReplaces(tr.states[i], tr.states[i + 1], run);
    HistoryGrows(tr, i + 1, j);
    TraceKeeps(tr, j);
    assert ThreadOk(tr.states[j].w, t);
    assert Next(tr.states[j], tr.steps[j], tr.states[j + 1]);
    FencedStep(tr.states[j].w, t, tr.steps[j].work, tr.states[j + 1].w);
  }

  lemma ClaimReplaces(s: State, s': State, run: nat)
    requires Inv(s) && ClaimPutGate(s, s') && run in s.w.runs.enabled
    ensures run < s'.w.gate.run
  {
  }

  // ----- Run ids -----

  /** The run ids that begin returns are strictly increasing over any history of
    * controllers, whatever step each of them died at. */
  lemma RunIdsIncrease(tr: Trace, i: nat, j: nat)
    requires tr.Valid() && i < j < |tr.steps|
    requires tr.steps[i] == Begin(DoBeginPutGate) && tr.steps[j] == Begin(DoBeginPutGate)
    ensures var a, b := tr.states[i + 1].ctl.pc, tr.states[j + 1].ctl.pc;
            a.Ready? && a.reply.Began? && b.Ready? && b.reply.Began? && a.reply.run < b.reply.run
  {
    assert Next(tr.states[i], tr.steps[i], tr.states[i + 1]);
    assert Next(tr.states[j], tr.steps[j], tr.states[j + 1]);
    HistoryGrows(tr, i + 1, j);
    TraceKeeps(tr, j);
  }

  // ----- A gate that is closed for a run -----

  lemma WorkerAdmitsNone(w: World, t: nat, k: WorkerStep, w': World, run: nat)
    requires t < |w.threads| && ThreadOk(w, t) && WorkerNext(w, t, k, w') && !Allows(w.gate, run)
    ensures OpenOf(w'.conns.admitted, run) <= OpenOf(w.conns.admitted, run)
    ensures OpenOf(w'.conns.open, run) <= OpenOf(w.conns.open, run)
  {
  }

  /** A run the gate does not allow admits nobody in this step. */
  lemma StepAdmitsNone(s: State, a: Step, s': State, run: nat)
    requires Inv(s) && Next(s, a, s') && !Allows(s.w.gate, run)
    ensures Shrinks(s, s', run)
  {
    if a.Worker? {
      assert ThreadOk(s.w, a.thread);
      WorkerAdmitsNone(s.w, a.thread, a.work, s'.w, run);
    } else {
      ControllerKeepsLogs(s, a, s');
    }
  }

  ghost predicate Shrinks(s: State, s': State, run: nat) {
    && OpenOf(s'.w.conns.admitted, run) <= OpenOf(s.w.conns.admitted, run)
    && OpenOf(s'.w.conns.open, run) <= OpenOf(s.w.conns.open, run)
  }

  lemma {:induction false} ShrinkingChain(states: seq<State>, i: nat, j: nat, run: nat)
    requires i <= j < |states|
    requires forall k :: i <= k < j ==> Shrinks(states[k], states[k + 1], run)
    ensures Shrinks(states[i], states[j], run)
    decreases j - i
  {
    if i < j {
      ShrinkingChain(states, i, j - 1, run);
    }
  }

  /** A finalized or cancelled run admits nobody ever after. */
  lemma NoneAdmittedAfter(tr: Trace, i: nat, j: nat, run: nat)
    requires tr.Valid() && i <= j < |tr.states|
    requires run in tr.states[i].w.runs.finalized || run in tr.states[i].w.runs.cancelled
    ensures Shrinks(tr.states[i], tr.states[j], run)
  {
    forall k | i <= k < j ensures Shrinks(tr.states[k], tr.states[k + 1], run) {
      ClosedStep(tr, i, k, run);
    }
    ShrinkingChain(tr.states, i, j, run);
  }

  lemma ClosedStep(tr: Trace, i: nat, k: nat, run: nat)
    requires tr.Valid() && i <= k < |tr.steps|
    requires run in tr.states[i].w.runs.finalized || run in tr.states[i].w.runs.cancelled
    ensures Shrinks(tr.states[k], tr.states[k + 1], run)
  {
    TraceKeeps(tr, k);
    HistoryGrows(tr, i, k);
    StepAdmitsNone(tr.states[k], tr.steps[k], tr.states[k + 1], run);
  }

  /** After a snapshot nobody is ever admitted to its run again. */
  lemma SnapshotAdmitsNoneAfter(tr: Trace, i: nat, j: nat)
    requires tr.Valid() && i <= j < |tr.states|
    requires tr.states[i].ctl.pc.Ready? && tr.states[i].ctl.pc.reply.Snapshot?
    ensures Shrinks(tr.states[i], tr.states[j], tr.states[i].ctl.pc.reply.run)
  {
    PrefixReachable(tr, i);
    CompletionSound(tr.states[i]);
    NoneAdmittedAfter(tr, i, j, tr.states[i].ctl.pc.reply.run);
  }

  // ----- Completion after takeovers -----

  /** No thread is at the store of another run's completion when begin opens `run`. */
  predicate OpensUndisturbed(s: State, a: Step, run: nat) {
    && a == Begin(DoBeginPutGate) && s.ctl.pc == BeginStoreGate(run)
    && forall t: nat :: t < |s.w.threads| && s.w.threads[t].pc.FinStore? && s.w.threads[t].proc !in s.dead ==>
         s.w.threads[t].pc.conn.run == run
  }

  lemma {:induction false} NotLateAfter(tr: Trace, i: nat, j: nat, run: nat)
    requires tr.Valid() && i < j < |tr.states| && OpensUndisturbed(tr.states[i], tr.steps[i], run)
    ensures run != 0 && NoLateStore(tr.states[j], run)
    decreases j
  {
    if j == i + 1 {
      TraceKeeps(tr, i);
      assert Next(tr.states[i], tr.steps[i], tr.states[i + 1]);
      OpeningNotLate(tr.states[i], tr.states[i + 1], run);
    } else {
      NotLateAfter(tr, i, j - 1, run);
      NotLateNext(tr, j - 1, run);
    }
  }

  lemma NotLateNext(tr: Trace, k: nat, run: nat)
    requires tr.Valid() && k < |tr.steps| && run != 0 && NoLateStore(tr.states[k], run)
    ensures NoLateStore(tr.states[k + 1], run)
  {
    TraceKeeps(tr, k);
    assert Next(tr.states[k], tr.steps[k], tr.states[k + 1]);
    StepGrows(tr.states[k], tr.steps[k], tr.states[k + 1]);
    NotLateStep(tr.states[k], tr.steps[k], tr.states[k + 1], run);
  }

  lemma OpeningNotLate(s: State, s': State, run: nat)
    requires Inv(s) && BeginPutGate(s, s') && OpensUndisturbed(s, Begin(DoBeginPutGate), run)
    ensures run != 0 && NoLateStore(s', run)
  {
  }

  /** Completion after any takeovers: if no live thread was at the store of another
    * run's completion when begin opened this one, the wait for this run is over
    * exactly when all its admitted connections' end calls have returned, and there
    * was one.  Scenarios.CompletionLost has such a thread. */
  lemma CompletionUndisturbed(tr: Trace, i: nat, j: nat, run: nat)
    requires tr.Valid() && i < j < |tr.states| && OpensUndisturbed(tr.states[i], tr.steps[i], run)
    requires var w := tr.states[j].w;
             run == w.hits.epoch == w.gate.run == w.runId && run !in w.runs.shut && run !in w.runs.cancelled
    ensures WaitOver(tr.states[j], run) <==> AllReturned(tr.states[j].w.conns, run)
  {
    NotLateAfter(tr, i, j, run);
    PrefixReachable(tr, j);
    CompletionSettles(tr.states[j], run);
  }

  // ----- Cancel is final -----

  lemma CancelRecorded(tr: Trace, i: nat)
    requires tr.Valid() && i < |tr.states| && tr.states[i].ctl.pc.Ready? && tr.states[i].ctl.pc.reply.Cancelled?
    ensures tr.states[i].ctl.pc.reply.run in tr.states[i].w.runs.cancelled
  {
    TraceKeeps(tr, i);
  }

  lemma CancelledGate(tr: Trace, j: nat, run: nat)
    requires tr.Valid() && j < |tr.states| && run in tr.states[j].w.runs.cancelled
    ensures var w := tr.states[j].w;
            && w.completed != run
            && (w.gate.run == run ==> w.gate == Gate(false, false, run, |OpenOf(w.conns.open, run)|))
  {
    TraceKeeps(tr, j);
  }

  /** After a cancel of a run returned, whether 0 or EBUSY, no snapshot of that run
    * ever succeeds, under any controller. */
  lemma CancelFinal(tr: Trace, i: nat, j: nat)
    requires tr.Valid() && i <= j < |tr.states|
    requires tr.states[i].ctl.pc.Ready? && tr.states[i].ctl.pc.reply.Cancelled?
    requires tr.states[j].ctl.pc.Ready? && tr.states[j].ctl.pc.reply.Snapshot?
    ensures tr.states[j].ctl.pc.reply.run != tr.states[i].ctl.pc.reply.run
  {
    CancelRecorded(tr, i);
    HistoryGrows(tr, i, j);
    PrefixReachable(tr, j);
    CompletionSound(tr.states[j]);
  }

  /** After a cancel, while the gate still is its run's, the gate never enables,
    * finalizes or publishes that run; and it is exactly idle once the remaining
    * connections have left. */
  lemma CancelDrains(tr: Trace, i: nat, j: nat)
    requires tr.Valid() && i <= j < |tr.states|
    requires tr.states[i].ctl.pc.Ready? && tr.states[i].ctl.pc.reply.Cancelled?
    ensures var run, w := tr.states[i].ctl.pc.reply.run, tr.states[j].w;
            && w.completed != run
            && (w.gate.run == run ==> w.gate == Gate(false, false, run, |OpenOf(w.conns.open, run)|))
  {
    CancelRecorded(tr, i);
    HistoryGrows(tr, i, j);
    CancelledGate(tr, j, tr.states[i].ctl.pc.reply.run);
  }

  /** After a cancel returned 0, the gate is idle for as long as it is that run's. */
  lemma CancelStaysIdle(tr: Trace, i: nat, j: nat)
    requires tr.Valid() && i <= j < |tr.states|
    requires tr.states[i].ctl.pc.Ready? && tr.states[i].ctl.pc.reply.Cancelled? && !tr.states[i].ctl.pc.reply.busy
    ensures var run := tr.states[i].ctl.pc.reply.run;
            tr.states[j].w.gate.run == run ==> tr.states[j].w.gate == Idle(run)
  {
    TraceKeeps(tr, i);
    CancelDrains(tr, i, j);
    NoneAdmittedAfter(tr, i, j, tr.states[i].ctl.pc.reply.run);
  }

  lemma GateAtRunId(s: State)
    requires CtlInv(s) && s.ctl.pc.BeginGate?
    ensures s.w.gate.run == s.w.runId == s.ctl.pc.run
  {
  }

  /** After a cancel returned 0, a begin that still finds its run id cannot be
    * refused with EBUSY. */
  lemma CancelThenBegin(tr: Trace, i: nat, j: nat)
    requires tr.Valid() && i <= j < |tr.steps|
    requires tr.states[i].ctl.pc.Ready? && tr.states[i].ctl.pc.reply.Cancelled? && !tr.states[i].ctl.pc.reply.busy
    requires tr.steps[j] == Begin(DoBeginLoadGate) && tr.states[j].w.runId == tr.states[i].ctl.pc.reply.run
    ensures tr.states[j + 1].ctl.pc != Ready(Refused(Busy))
  {
    assert Next(tr.states[j], tr.steps[j], tr.states[j + 1]);
    TraceKeeps(tr, j);
    GateAtRunId(tr.states[j]);
    CancelStaysIdle(tr, i, j);
  }
}
