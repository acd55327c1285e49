/** What everybody else can do between two accesses of one thread, or of the
  * controller. */
module Interference {
  import opened Bridge
  import opened BridgeInvariant
  import opened WorkerSteps
  import opened BridgeTheorems
  import opened BridgeHistories

  datatype Who = TheThread(thread: nat) | TheController | Outsider(proc: nat)

  /** A step that is neither taken by `who` nor the death of its process.  An
    * outsider is a process that does not claim the map. */
  predicate Foreign(s: State, who: Who, a: Step) {
    match who
    case TheThread(t) =>
      && !(a.Worker? && a.thread == t)
      && !(a.Death? && t < |s.w.threads| && a.proc == s.w.threads[t].proc)
    case TheController => a.Worker? || (a.Death? && a.proc != s.ctl.pid)
    case Outsider(p) => !(a.Claim? && s.ctl.pid == p)
  }

  ghost predicate Path(states: seq<State>, steps: seq<Step>, who: Who) {
    && |states| == |steps| + 1
    && forall i :: 0 <= i < |steps| ==> Foreign(states[i], who, steps[i]) && Next(states[i], steps[i], states[i + 1])
  }

  /** Any number of foreign steps lead from s to s'. */
  ghost predicate Between(s: State, s': State, who: Who) {
    exists states, steps :: Path(states, steps, who) && states[0] == s && states[|states| - 1] == s'
  }

  lemma BetweenNothing(s: State, who: Who)
    ensures Between(s, s, who)
  {
    assert Path([s], [], who) && [s][0] == s;
  }

  // ----- States that occur -----

  predicate Asked(s: State) {
    true
  }

  /** s is reachable.  The quantifier keeps the verifier from unfolding the trace
    * wherever a state is mentioned; Recall gives the fact back. */
  ghost predicate Occurs(s: State) {
    forall u {:trigger Asked(u)} :: Asked(u) && u == s ==> Reachable(u)
  }

  lemma Recall(s: State)
    requires Occurs(s)
    ensures Reachable(s) && Inv(s)
  {
    assert Asked(s);
    ReachableInv(s);
  }

  lemma ReachableNext(s: State, a: Step, s': State)
    requires Reachable(s) && Next(s, a, s')
    ensures Reachable(s')
  {
    var tr: Trace :| tr.Valid() && tr.states[|tr.states| - 1] == s;
    var more := Trace(tr.states + [s'], tr.steps + [a]);
    assert more.Valid() && more.states[|more.states| - 1] == s';
  }

  // ----- A thread among the others -----

  ghost predicate Running(s: State, t: nat) {
    t < |s.w.threads| && s.w.threads[t].proc !in s.dead
  }

  ghost predicate ThreadFrame(s: State, s': State, t: nat) {
    && t < |s.w.threads| && Occurs(s') && Running(s', t)
    && s'.w.threads[t] == s.w.threads[t] && |s'.w.counts| == |s.w.counts|
    && Grows(s, s')
  }

  lemma ForeignWorker(w: World, t: nat, u: nat, k: WorkerStep, w': World)
    requires t < |w.threads| && u < |w.threads| && t != u && WorkerNext(w, u, k, w')
    ensures |w'.threads| == |w.threads| && w'.threads[t] == w.threads[t] && |w'.counts| == |w.counts|
  {
  }

  lemma ForeignController(s: State, a: Step, s': State)
    requires Next(s, a, s') && !a.Worker?
    ensures s'.w.threads == s.w.threads && |s'.w.counts| == |s.w.counts|
    ensures s'.dead == s.dead || (a.Death? && s'.dead == s.dead + {a.proc})
  {
  }

  lemma ForeignStep(s: State, a: Step, s': State, t: nat)
    requires Occurs(s) && Running(s, t) && Foreign(s, TheThread(t), a) && Next(s, a, s')
    ensures ThreadFrame(s, s', t)
  {
    Recall(s);
    ReachableNext(s, a, s');
    StepGrows(s, a, s');
    if a.Worker? {
      ForeignWorker(s.w, t, a.thread, a.work, s'.w);
    } else {
      ForeignController(s, a, s');
    }
  }

  lemma {:induction false} ForeignPath(states: seq<State>, steps: seq<Step>, t: nat)
    requires Path(states, steps, TheThread(t)) && Occurs(states[0]) && Running(states[0], t)
    ensures ThreadFrame(states[0], states[|states| - 1], t)
  {
    var n := |steps|;
    if n > 0 {
      ForeignPath(states[..n], steps[..n - 1], t);
      ForeignStep(states[n - 1], steps[n - 1], states[n], t);
    }
  }

  /** Nobody else moves thread t, and the logs only grow. */
  lemma BetweenThread(s: State, s': State, t: nat)
    requires Occurs(s) && Running(s, t) && Between(s, s', TheThread(t))
    ensures ThreadFrame(s, s', t)
  {
    var states, steps :| Path(states, steps, TheThread(t)) && states[0] == s && states[|states| - 1] == s';
    ForeignPath(states, steps, t);
  }

  // ----- The controller among the workers -----

  ghost predicate ControllerFrame(s: State, s': State) {
    && Occurs(s') && s'.ctl == s.ctl
    && s'.w.runId == s.w.runId && s'.w.owner == s.w.owner && |s'.w.counts| == |s.w.counts|
    && (s.w.gate == Idle(s.w.gate.run) ==> s'.w.gate == s.w.gate)
    && (!s.w.gate.enabled ==> !s'.w.gate.enabled && s'.w.gate.active <= s.w.gate.active)
    && s'.w.hits.strays == s.w.hits.strays && s'.w.hits.marks == s.w.hits.marks
    && s'.w.runs.drained == s.w.runs.drained && s'.w.runs.enabled == s.w.runs.enabled
    && s'.w.runs.cancelled == s.w.runs.cancelled
    && Grows(s, s')
  }

  lemma WorkerDrains(w: World, t: nat, k: WorkerStep, w': World)
    requires WorkerNext(w, t, k, w')
    ensures w'.runs.drained == w.runs.drained
  {
  }

  lemma WorkerBetween(s: State, a: Step, s': State)
    requires Occurs(s) && Foreign(s, TheController, a) && Next(s, a, s')
    ensures ControllerFrame(s, s')
  {
    Recall(s);
    ReachableNext(s, a, s');
    StepGrows(s, a, s');
    if a.Worker? {
      WorkerFrames(s, a.thread, a.work, s');
      WorkerDrains(s.w, a.thread, a.work, s'.w);
    }
  }

  lemma {:induction false} WorkerPath(states: seq<State>, steps: seq<Step>)
    requires Path(states, steps, TheController) && Occurs(states[0])
    ensures ControllerFrame(states[0], states[|states| - 1])
  {
    var n := |steps|;
    if n > 0 {
      WorkerPath(states[..n], steps[..n - 1]);
      WorkerBetween(states[n - 1], steps[n - 1], states[n]);
    }
  }

  /** The workers change neither the run id nor an idle gate. */
  lemma BetweenController(s: State, s': State)
    requires Occurs(s) && Between(s, s', TheController)
    ensures ControllerFrame(s, s')
  {
    var states, steps :| Path(states, steps, TheController) && states[0] == s && states[|states| - 1] == s';
    WorkerPath(states, steps);
  }

  // ----- A process that is not the controller -----

  lemma OutsiderStep(s: State, a: Step, s': State, p: nat)
    requires Occurs(s) && s.w.owner != p && Foreign(s, Outsider(p), a) && Next(s, a, s')
    ensures Occurs(s') && s'.w.owner != p
  {
    Recall(s);
    ReachableNext(s, a, s');
    if a.Worker? {
      WorkerFrames(s, a.thread, a.work, s');
    } else {
      OwnerStep(s, a, s', p);
    }
  }

  lemma OwnerStep(s: State, a: Step, s': State, p: nat)
    requires s.w.owner != p && Foreign(s, Outsider(p), a) && Next(s, a, s') && !a.Worker?
    ensures s'.w.owner != p
  {
  }

  lemma {:induction false} OutsiderPath(states: seq<State>, steps: seq<Step>, p: nat)
    requires Path(states, steps, Outsider(p)) && Occurs(states[0]) && states[0].w.owner != p
    ensures Occurs(states[|states| - 1]) && states[|states| - 1].w.owner != p
  {
    var n := |steps|;
    if n > 0 {
      OutsiderPath(states[..n], steps[..n - 1], p);
      OutsiderStep(states[n - 1], steps[n - 1], states[n], p);
    }
  }

  /** Whatever the others do, they do not make an outsider the controller. */
  lemma BetweenOutsider(s: State, s': State, p: nat)
    requires Occurs(s) && s.w.owner != p && Between(s, s', Outsider(p))
    ensures Occurs(s') && s'.w.owner != p
  {
    var states, steps :| Path(states, steps, Outsider(p)) && states[0] == s && states[|states| - 1] == s';
    OutsiderPath(states, steps, p);
  }
}
