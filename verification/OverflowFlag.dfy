/** What the overflow flag means: a counter has wrapped. */
module OverflowFlag {
  import opened Wrappers
  import opened Bridge
  import opened BridgeInvariant
  import opened WorkerSteps
  import opened ControllerSteps
  import opened BridgeTheorems

  /** Something that accounts for a raised flag: a slot with as many adds as wrap a
    * counter, or a thread that was inside the guard when zeroing started. */
  ghost predicate Excused(hits: HitLog) {
    || hits.marks != {} || hits.strays != {}
    || (hits.epoch != 0 && exists i :: 0 <= i < |hits.window| && |hits.window[i]| >= COUNTER_LIMIT)
  }

  /** The flag has been zeroed for the run that is about to open. */
  predicate FlagZeroed(pc: CtlPc) {
    pc.BeginStoreCompleted? || pc.BeginStoreRun? || pc.BeginStoreGate?
  }

  ghost predicate MarksOk(w: World, dead: set<nat>) {
    && (w.runs.drained ==> w.hits.marks == {})
    && forall t: nat :: t < |w.threads| && w.threads[t].pc.GuardMark? && w.threads[t].proc !in dead ==>
         Excused(w.hits)
  }

  ghost predicate FlagInv(s: State) {
    && MarksOk(s.w, s.dead)
    && (s.w.overflow && (s.w.hits.epoch != 0 || FlagZeroed(s.ctl.pc)) ==> Excused(s.w.hits))
  }

  // ----- Worker steps -----

  /** An add that wraps its counter leaves a slot that has wrapped, or is a stray. */
  lemma CountExcused(w: World, t: nat, w': World)
    requires t < |w.threads| && ThreadOk(w, t) && AddsLive(w, t) && CountInv(w.counts, w.hits) && GuardCount(w, t, w')
    ensures w'.threads[t].pc.GuardMark? ==> Excused(w'.hits)
    ensures Excused(w.hits) ==> Excused(w'.hits)
    ensures w'.overflow == w.overflow && w'.runs == w.runs && w'.hits.marks == w.hits.marks
  {
    var h := w.threads[t].pc.hit;
    var before, after := w.hits.window[h.edge], w'.hits.window[h.edge];
    assert |after| == |before| + 1;
    if Excused(w.hits) && w.hits.marks == {} && w.hits.strays == {} {
      var i :| 0 <= i < |w.hits.window| && |w.hits.window[i]| >= COUNTER_LIMIT;
      assert |w'.hits.window[i]| >= COUNTER_LIMIT;
    }
  }

  lemma OtherMarks(w: World, t: nat, k: WorkerStep, w': World)
    requires t < |w.threads| && WorkerNext(w, t, k, w') && !k.DoGuardCount?
    ensures w'.threads[t].pc.GuardMark? ==> w.threads[t].pc.GuardMark?
    ensures Excused(w.hits) ==> Excused(w'.hits)
    ensures w'.hits.marks == w.hits.marks && w'.hits.epoch == w.hits.epoch && w'.runs.drained == w.runs.drained
    ensures w'.overflow ==> w.overflow || w.threads[t].pc.GuardMark?
  {
  }

  lemma OneThread(w: World, t: nat, k: WorkerStep, w': World)
    requires t < |w.threads| && WorkerNext(w, t, k, w')
    ensures |w'.threads| == |w.threads| && w'.threads == w.threads[t := w'.threads[t]]
    ensures w'.threads[t].proc == w.threads[t].proc
  {
  }

  lemma WorkerFlag(s: State, t: nat, k: WorkerStep, s': State)
    requires Inv(s) && FlagInv(s) && Next(s, Worker(t, k), s')
    ensures FlagInv(s')
  {
    OneThread(s.w, t, k, s'.w);
    LiveThreadAdds(s, t);
    if k.DoGuardCount? {
      assert ThreadOk(s.w, t);
      CountExcused(s.w, t, s'.w);
    } else {
      OtherMarks(s.w, t, k, s'.w);
    }
  }

  // ----- Controller steps -----

  lemma QuietFlag(s: State, a: Step, s': State)
    requires FlagInv(s) && Next(s, a, s') && !a.Worker? && !a.Begin?
    ensures FlagInv(s')
  {
  }

  lemma BeginLoadGateMarks(s: State, s': State)
    requires Inv(s) && FlagInv(s) && BeginLoadGate(s, s') && s'.ctl.pc.BeginZero?
    ensures FlagInv(s')
  {
    forall t: nat | t < |s.w.threads| && s.w.threads[t].pc.GuardMark? && s.w.threads[t].proc !in s.dead
      ensures s.w.threads[t].pc.hit in s'.w.hits.marks
    {
    }
    if s.w.runs.drained {
      IdleEmpty(s.w);
      forall t: nat | t < |s.w.threads| ensures !s.w.threads[t].pc.GuardMark? {
        assert ThreadOk(s.w, t);
      }
    }
  }

  lemma BeginZeroFlag(s: State, s': State)
    requires Inv(s) && FlagInv(s) && BeginPutZero(s, s')
    ensures FlagInv(s')
  {
  }

  lemma BeginStoreFlag(s: State, c: BeginStep, s': State)
    requires CtlInv(s) && FlagInv(s) && BeginNext(s, c, s')
    requires !c.DoBeginPutZero? && !(c.DoBeginLoadGate? && s'.ctl.pc.BeginZero?)
    ensures FlagInv(s')
  {
  }

  lemma NextFlag(s: State, a: Step, s': State)
    requires Inv(s) && FlagInv(s) && Next(s, a, s')
    ensures FlagInv(s')
  {
    if a.Worker? {
      WorkerFlag(s, a.thread, a.work, s');
    } else if !a.Begin? {
      QuietFlag(s, a, s');
    } else if a.begin.DoBeginPutZero? {
      BeginZeroFlag(s, s');
    } else if a.begin.DoBeginLoadGate? && s'.ctl.pc.BeginZero? {
      BeginLoadGateMarks(s, s');
    } else {
      BeginStoreFlag(s, a.begin, s');
    }
  }

  lemma {:induction false} TraceFlag(tr: Trace, i: nat)
    requires tr.Valid() && i < |tr.states|
    ensures FlagInv(tr.states[i])
  {
    if i > 0 {
      TraceFlag(tr, i - 1);
      TraceKeeps(tr, i - 1);
      NextFlag(tr.states[i - 1], tr.steps[i - 1], tr.states[i]);
    }
  }

  lemma ReachableFlag(s: State)
    requires Reachable(s)
    ensures FlagInv(s)
  {
    var tr: Trace :| tr.Valid() && tr.states[|tr.states| - 1] == s;
    TraceFlag(tr, |tr.states| - 1);
  }

  // ----- What it means -----

  /** Unless live threads were inside the guard when begin started zeroing, a raised
    * flag means that some edge was called at least 2^64 times in this very run. */
  lemma OverflowMeansWrap(s: State) returns (e: nat)
    requires Reachable(s) && s.w.overflow && s.w.hits.epoch != 0
    requires s.w.hits.strays == {} && s.w.hits.marks == {}
    ensures |CallsOn(s.w.hits.called, s.w.hits.epoch, e)| >= 0x1_0000_0000_0000_0000
  {
    ReachableFlag(s);
    e :| 0 <= e < |s.w.hits.window| && |s.w.hits.window[e]| >= COUNTER_LIMIT;
    WindowIsCalls(s, e);
  }

  lemma WindowIsCalls(s: State, e: nat)
    requires Reachable(s) && s.w.hits.epoch != 0 && s.w.hits.strays == {} && e < |s.w.hits.window|
    ensures |s.w.hits.window[e]| <= |CallsOn(s.w.hits.called, s.w.hits.epoch, e)|
  {
    ReachableInv(s);
    SubsetSize(s.w.hits.window[e], CallsOn(s.w.hits.called, s.w.hits.epoch, e));
  }

  /** While no claim has given up waiting, there are no such threads. */
  lemma DrainedNoMarks(s: State)
    requires Reachable(s) && s.w.runs.drained
    ensures s.w.hits.marks == {}
  {
    ReachableFlag(s);
  }
}
