/** Particular histories: a run that goes through from claim to snapshot, the way
  * in which FINALIZING can outlive its finalizer, and the way in which a
  * completion can be lost after a takeover. */
module Scenarios {
  import opened Wrappers
  import opened Bridge
  import opened BridgeInvariant
  import opened BridgeTheorems
  import opened Interference

  // One counter, a worker thread in process 2 and one in process 4, and the
  // controllers 1 and 3.

  const FIRST: Conn := Conn(0, 1, 2)
  const SECOND: Conn := Conn(1, 3, 4)
  const CALL: Hit := Hit(0, 0, 1, 0)
  const BYSTANDER: Thread := Thread(4, 0, None, NotEnded, Free)

  function Fresh(): World {
    World(0, 0, 0, Idle(0), false, [0], [Thread(2, 0, None, NotEnded, Free), BYSTANDER], {},
          ConnLog(0, {}, {}, {}, map[]), HitLog(0, {}, [{}], 0, {}, {}, {}), RunLog([], [], map[], {}, {}, 0, true, 0))
  }

  /** Controller 1 has claimed the fresh map. */
  function FirstClaim(): State {
    State(Fresh().(owner := 1), Ctl(1, true, Ready(Claimed)), {})
  }

  /** ... and has begun run 1. */
  function FirstBegin(): State {
    State(Fresh().(owner := 1, runId := 1, gate := Open(1), hits := HitLog(0, {}, [{}], 1, {}, {}, {}),
                   runs := RunLog([1], [], map[], {}, {}, 0, true, 0)),
          Ctl(1, false, Ready(Began(1))), {})
  }

  /** The first thread has joined run 1. */
  function FirstJoin(): State {
    var s := FirstBegin();
    s.(w := s.w.(gate := Gate(true, false, 1, 1), threads := [Thread(2, 1, Some(FIRST), NotEnded, Free), BYSTANDER],
                 conns := ConnLog(1, {FIRST}, {FIRST}, {}, map[FIRST := 0])))
  }

  /** It has made one guard call. */
  function FirstHit(): State {
    var s := FirstJoin();
    s.(w := s.w.(counts := [1], hits := HitLog(1, {CALL}, [{CALL}], 1, {}, {}, {})))
  }

  /** The thread has left s as the last one, and next looks at the run id. */
  function Leaving(s: State): State {
    s.(w := s.w.(gate := Finalizing(1), threads := [Thread(2, 0, None, NotEnded, FinRun(FIRST)), BYSTANDER],
                 conns := ConnLog(1, {FIRST}, {}, {}, map[FIRST := 0]),
                 runs := RunLog([1], [1], map[1 := 0], {}, {}, 0, true, 0)))
  }

  /** One more step of a history. */
  lemma Take(s: State, a: Step, s': State) returns (next: State)
    requires Occurs(s) && Next(s, a, s')
    ensures next == s' && Occurs(next)
  {
    Recall(s);
    ReachableNext(s, a, s');
    next := s';
  }

  lemma Reached(s: State)
    requires Occurs(s)
    ensures Reachable(s)
  {
    Recall(s);
  }

  lemma ReachFirstStore() returns (s: State)
    ensures Occurs(s) && s == State(Fresh(), Ctl(1, false, ClaimStoreRun(0)), {})
  {
    s := State(Fresh(), Ctl(0, false, Unlocked), {});
    ReachFresh(s);
    s := Take(s, Claim(DoTakeLock(1)), s.(ctl := Ctl(1, false, Locked)));
    s := Take(s, Claim(DoClaimLoadRun), Go(s, ClaimGate(0)));
    s := Take(s, Claim(DoClaimLoadGate), Go(s, ClaimDrain(0)));
    s := Take(s, Claim(DoClaimWait(false)), Go(s, ClaimStoreRun(0)));
  }

  lemma ReachFirstClaim()
    ensures Occurs(FirstClaim())
  {
    var s := ReachFirstStore();
    s := Take(s, Claim(DoClaimPutRun), Go(s, ClaimStoreGate(0)));
    s := Take(s, Claim(DoClaimPutGate), Go(s, ClaimStoreCompleted));
    s := Take(s, Claim(DoClaimPutCompleted), Go(s, ClaimStoreOwner));
    s := Take(s, Claim(DoClaimPutOwner), FirstClaim());
  }

  lemma ReachFresh(s: State)
    requires s == State(Fresh(), Ctl(0, false, Unlocked), {})
    ensures Occurs(s)
  {
    var tr := Trace([s], []);
    assert InitWorld(s.w);
    assert tr.Valid() && tr.states[|tr.states| - 1] == s;
    assert Reachable(s);
  }

  lemma ReachFirstBegin()
    ensures Occurs(FirstBegin())
  {
    ReachFirstClaim();
    var s := FirstClaim();
    s := Take(s, Begin(DoBeginCall), Go(s, BeginRun));
    s := Take(s, Begin(DoBeginLoadRun), Go(s, BeginGate(0)));
    assert PendingAdds(s.w.threads, s.dead) == {} && LostAdds(s.w.threads, s.dead) == {};
    assert PendingMarks(s.w.threads, s.dead) == {};
    s := Take(s, Begin(DoBeginLoadGate), Go(s, BeginZero(1, 0)));
    s := Take(s, Begin(DoBeginPutZero), Go(s, BeginZero(1, 1)));
    s := Take(s, Begin(DoBeginPutZero), Go(s, BeginStoreCompleted(1)));
    s := Take(s, Begin(DoBeginPutCompleted), Go(s, BeginStoreRun(1)));
    s := Take(s, Begin(DoBeginPutRun), State(s.w.(runId := 1), Ctl(1, false, BeginStoreGate(1)), {}));
    s := Take(s, Begin(DoBeginPutGate), FirstBegin());
  }

  lemma ReachFirstJoin()
    ensures Occurs(FirstJoin())
  {
    ReachFirstBegin();
    var s := FirstBegin();
    s := Take(s, Worker(0, DoJoinLoad), s.(w := Move(s.w, 0, JoinRun(Open(1)))));
    s := Take(s, Worker(0, DoJoinCheck), s.(w := Move(s.w, 0, JoinCas(Open(1)))));
    var j := FirstJoin();
    s := Take(s, Worker(0, DoJoinSwap(false)),
              j.(w := j.w.(threads := [Thread(2, 0, Some(FIRST), NotEnded, JoinTag), BYSTANDER])));
    s := Take(s, Worker(0, DoTakeTag), j);
  }

  lemma ReachFirstHit()
    ensures Occurs(FirstHit())
  {
    ReachFirstJoin();
    var s := FirstJoin();
    var w := Move(s.w, 0, GuardAdd(CALL)).(hits := HitLog(1, {CALL}, [{}], 1, {}, {}, {}));
    s := Take(s, Worker(0, DoGuardCall(0)), s.(w := w));
    s := Take(s, Worker(0, DoGuardCount), FirstHit());
  }

  /** The first thread is alone in run 1, before its end call. */
  predicate Alone(s: State) {
    && s.dead == {} && s.w.runId == 1 && s.w.gate == Gate(true, false, 1, 1)
    && s.w.threads == [Thread(2, 1, Some(FIRST), NotEnded, Free), BYSTANDER]
    && s.w.conns == ConnLog(1, {FIRST}, {FIRST}, {}, map[FIRST := 0])
    && s.w.runs == RunLog([1], [], map[], {}, {}, 0, true, 0)
  }

  lemma ReachEndCas(s: State) returns (t: State)
    requires Occurs(s) && Alone(s)
    ensures t == s.(w := s.w.(threads := [Thread(2, 0, Some(FIRST), NotEnded, EndCas(s.w.gate)), BYSTANDER]))
    ensures Occurs(t)
  {
    var e := s.w.(threads := [Thread(2, 0, Some(FIRST), NotEnded, EndRun), BYSTANDER]);
    t := Take(s, Worker(0, DoEndStart), s.(w := e));
    t := Take(t, Worker(0, DoEndCheckRun), s.(w := Move(e, 0, EndGate)));
    t := Take(t, Worker(0, DoEndCheckGate), s.(w := Move(e, 0, EndCas(s.w.gate))));
  }

  lemma ReachLeaving(s: State)
    requires Occurs(s) && Alone(s)
    ensures Occurs(Leaving(s))
  {
    var t := ReachEndCas(s);
    t := Take(t, Worker(0, DoEndSwap(false)), Leaving(s));
  }

  // ----- A whole run -----

  /** The thread has published the completion and opened the gate to idle. */
  function Published(): State {
    var s := FirstHit();
    s.(w := s.w.(completed := 1, gate := Idle(1), threads := [Thread(2, 0, None, Ended, Free), BYSTANDER],
                 conns := ConnLog(1, {FIRST}, {}, {FIRST}, map[FIRST := 0]),
                 runs := RunLog([1], [1], map[1 := 0], {}, {}, 0, true, 0)))
  }

  lemma ReachPublished()
    ensures Occurs(Published())
  {
    ReachFirstHit();
    ReachLeaving(FirstHit());
    var s := Leaving(FirstHit());
    s := Take(s, Worker(0, DoFinCheck), s.(w := Move(s.w, 0, FinStore(FIRST))));
    s := Take(s, Worker(0, DoFinPublish), s.(w := Move(s.w, 0, FinCas(FIRST)).(completed := 1)));
    s := Take(s, Worker(0, DoFinSwap), Published());
  }

  lemma ReachCopying() returns (s: State)
    ensures Occurs(s) && s == Go(Published(), SnapCopy(1, [], []))
  {
    ReachPublished();
    s := Published();
    s := Take(s, Snap(DoSnapCall(1)), Go(s, SnapCompleted(1)));
    s := Take(s, Snap(DoSnapLoadCompleted), Go(s, SnapGate(1)));
    s := Take(s, Snap(DoSnapLoadGate), Go(s, SnapRun(1)));
    s := Take(s, Snap(DoSnapLoadRun), Go(s, SnapOverflow(1)));
    s := Take(s, Snap(DoSnapLoadOverflow(false)), Go(s, SnapCopy(1, [], [])));
  }

  /** A run goes through: a snapshot with one call in it, without any takeover. */
  lemma WholeRun() returns (s: State)
    ensures Reachable(s) && s.ctl.pc == Ready(Snapshot(1, [1], [{CALL}]))
    ensures s.w.runs.drained && s.w.runs.takeovers == 0 && CallsOn(s.w.hits.called, 1, 0) == {CALL}
  {
    s := ReachCopying();
    assert [] + [s.w.counts[0]] == [1] && [] + [s.w.hits.window[0]] == [{CALL}];
    s := Take(s, Snap(DoSnapLoadCount), Go(s, SnapCopy(1, [1], [{CALL}])));
    s := Take(s, Snap(DoSnapLoadCount), Go(s, Ready(Snapshot(1, [1], [{CALL}]))));
    Reached(s);
  }

  // ----- FINALIZING without a finalizer -----

  /** Controller 1 has died, and controller 3 is about to replace run 1. */
  lemma TakeOver(s: State) returns (next: State)
    requires Occurs(s) && s.ctl.pid == 1 && s.dead == {} && !s.w.gate.enabled && s.w.gate.active == 0
    requires s.w.runId == 1
    ensures Occurs(next) && next == State(s.w, Ctl(3, false, ClaimStoreRun(1)), {1})
  {
    var t := Take(s, Death(1), State(s.w, s.ctl.(pc := Unlocked), {1}));
    t := Take(t, Claim(DoTakeLock(3)), State(s.w, Ctl(3, false, Locked), {1}));
    t := Take(t, Claim(DoClaimLoadRun), Go(t, ClaimGate(1)));
    t := Take(t, Claim(DoClaimLoadGate), Go(t, ClaimDrain(1)));
    next := Take(t, Claim(DoClaimWait(false)), Go(t, ClaimStoreRun(1)));
  }

  /** Between the two stores of a claim the finalizer may find its run replaced
    * and return ESTALE: the gate says FINALIZING, and nobody is. */
  lemma FinalizerGone() returns (s: State)
    ensures Reachable(s) && s.w.gate.finalizing && s.w.gate.run < s.w.runId
    ensures forall t :: !Finalizes(s.w.threads, t, s.w.gate.run)
  {
    ReachFirstJoin();
    ReachLeaving(FirstJoin());
    s := TakeOver(Leaving(FirstJoin()));
    var runs := s.w.runs.(takeovers := 1);
    s := Take(s, Claim(DoClaimPutRun), Put(s, s.w.(runId := 2, runs := runs), ClaimStoreGate(1)));
    s := Take(s, Worker(0, DoFinCheck), s.(w := Return(s.w, 0, FIRST, Stale)));
    Reached(s);
  }

  /** That is the only way: a step takes the finalizer from a gate that stays in
    * FINALIZING exactly if it is the finalizer's look at a run id that a claim has
    * replaced. */
  lemma FinalizerLeaves(s: State, a: Step, s': State, t: nat)
    requires Reachable(s) && Next(s, a, s')
    requires s.w.gate.finalizing && Finalizes(s.w.threads, t, s.w.gate.run)
    ensures (s'.w.gate == s.w.gate && !Finalizes(s'.w.threads, t, s.w.gate.run)) <==>
            (a == Worker(t, DoFinCheck) && s.w.runId != s.w.gate.run)
  {
    ReachableInv(s);
    assert ThreadOk(s.w, t);
    if a.Worker? && a.thread == t {
    } else {
      OthersLeaveFinalizer(s, a, s', t);
    }
  }

  lemma OthersLeaveFinalizer(s: State, a: Step, s': State, t: nat)
    requires Next(s, a, s') && t < |s.w.threads| && !(a.Worker? && a.thread == t)
    ensures t < |s'.w.threads| && s'.w.threads[t] == s.w.threads[t]
  {
    if a.Worker? {
      ForeignWorker(s.w, t, a.thread, a.work, s'.w);
    } else {
      ForeignController(s, a, s');
    }
  }

  // ----- A completion lost after a takeover -----

  /** Run 3 is open, and the finalizer of run 1 is at its store. */
  function SecondBegin(): State {
    State(World(3, 0, 3, Open(3), false, [0], [Thread(2, 0, None, NotEnded, FinStore(FIRST)), BYSTANDER], {},
                ConnLog(1, {FIRST}, {}, {}, map[FIRST := 0]), HitLog(0, {}, [{}], 3, {}, {}, {}),
                RunLog([1, 3], [1], map[1 := 0], {}, {}, 1, true, 0)),
          Ctl(3, false, Ready(Began(3))), {1})
  }

  /** The same with run 2 claimed only. */
  function SecondClaim(): State {
    var s := SecondBegin();
    State(s.w.(runId := 2, gate := Idle(2), hits := HitLog(0, {}, [{}], 1, {}, {}, {}),
               runs := RunLog([1], [1], map[1 := 0], {}, {}, 1, true, 0)),
          Ctl(3, true, Ready(Claimed)), {1})
  }

  lemma ReachSecondClaim()
    ensures Occurs(SecondClaim())
  {
    ReachFirstJoin();
    ReachLeaving(FirstJoin());
    var s := Leaving(FirstJoin());
    s := Take(s, Worker(0, DoFinCheck), s.(w := Move(s.w, 0, FinStore(FIRST))));
    s := TakeOver(s);
    var w := SecondClaim().w.(owner := 1);
    s := Take(s, Claim(DoClaimPutRun), Put(s, w.(gate := Finalizing(1)), ClaimStoreGate(1)));
    s := Take(s, Claim(DoClaimPutGate), Put(s, w, ClaimStoreCompleted));
    s := Take(s, Claim(DoClaimPutCompleted), Go(s, ClaimStoreOwner));
    s := Take(s, Claim(DoClaimPutOwner), SecondClaim());
  }

  lemma ReachSecondBegin()
    ensures Occurs(SecondBegin())
  {
    ReachSecondClaim();
    var s := SecondClaim();
    s := Take(s, Begin(DoBeginCall), Go(s, BeginRun));
    s := Take(s, Begin(DoBeginLoadRun), Go(s, BeginGate(2)));
    assert PendingAdds(s.w.threads, s.dead) == {} && LostAdds(s.w.threads, s.dead) == {};
    assert PendingMarks(s.w.threads, s.dead) == {};
    s := Take(s, Begin(DoBeginLoadGate), Put(s, s.w.(hits := HitLog(0, {}, [{}], 0, {}, {}, {})), BeginZero(3, 0)));
    s := Take(s, Begin(DoBeginPutZero), Go(s, BeginZero(3, 1)));
    s := Take(s, Begin(DoBeginPutZero), Go(s, BeginStoreCompleted(3)));
    s := Take(s, Begin(DoBeginPutCompleted), Go(s, BeginStoreRun(3)));
    s := Take(s, Begin(DoBeginPutRun), State(s.w.(runId := 3), Ctl(3, false, BeginStoreGate(3)), {1}));
    s := Take(s, Begin(DoBeginPutGate), SecondBegin());
  }

  /** The other thread has joined run 3, and its end call is at the run id. */
  function SecondJoin(): State {
    var s := SecondBegin();
    s.(w := s.w.(gate := Gate(true, false, 3, 1),
                 threads := [s.w.threads[0], Thread(4, 0, Some(SECOND), NotEnded, EndRun)],
                 conns := ConnLog(2, {FIRST, SECOND}, {SECOND}, {}, map[FIRST := 0, SECOND := 1])))
  }

  lemma ReachSecondJoin()
    ensures Occurs(SecondJoin())
  {
    ReachSecondBegin();
    var s := SecondBegin();
    s := Take(s, Worker(1, DoJoinLoad), s.(w := Move(s.w, 1, JoinRun(Open(3)))));
    s := Take(s, Worker(1, DoJoinCheck), s.(w := Move(s.w, 1, JoinCas(Open(3)))));
    var j := SecondJoin();
    s := Take(s, Worker(1, DoJoinSwap(false)),
              j.(w := j.w.(threads := j.w.threads[1 := Thread(4, 0, Some(SECOND), NotEnded, JoinTag)])));
    s := Take(s, Worker(1, DoTakeTag),
              j.(w := j.w.(threads := j.w.threads[1 := Thread(4, 3, Some(SECOND), NotEnded, Free)])));
    s := Take(s, Worker(1, DoEndStart), j);
  }

  /** It has left as the last one of run 3. */
  function SecondLeaving(): State {
    var s := SecondJoin();
    s.(w := s.w.(gate := Finalizing(3), threads := [s.w.threads[0], Thread(4, 0, None, NotEnded, FinRun(SECOND))],
                 conns := s.w.conns.(open := {}),
                 runs := RunLog([1, 3], [1, 3], map[1 := 0, 3 := 1], {}, {}, 1, true, 0)))
  }

  lemma ReachSecondLeaving()
    ensures Occurs(SecondLeaving())
  {
    ReachSecondJoin();
    var s := SecondJoin();
    s := Take(s, Worker(1, DoEndCheckRun), s.(w := Move(s.w, 1, EndGate)));
    s := Take(s, Worker(1, DoEndCheckGate), s.(w := Move(s.w, 1, EndCas(Gate(true, false, 3, 1)))));
    s := Take(s, Worker(1, DoEndSwap(false)), SecondLeaving());
  }

  /** After a takeover the finalizer of the replaced run can still store its own
    * run id over a completion: everybody admitted to run 3 has returned, and a
    * wait for run 3 does not end.  It cannot make one end too early. */
  lemma CompletionLost() returns (s: State)
    ensures Reachable(s) && s.w.runId == 3 && s.w.gate == Idle(3)
    ensures 3 !in s.w.runs.shut && 3 !in s.w.runs.cancelled && s.w.hits.epoch == 3
    ensures AllReturned(s.w.conns, 3) && s.w.completed == 1 && !WaitOver(s, 3)
  {
    ReachSecondLeaving();
    s := SecondLeaving();
    s := Take(s, Worker(1, DoFinCheck), s.(w := Move(s.w, 1, FinStore(SECOND))));
    s := Take(s, Worker(1, DoFinPublish), s.(w := Move(s.w, 1, FinCas(SECOND)).(completed := 3)));
    s := Take(s, Worker(1, DoFinSwap), s.(w := Return(s.w.(gate := Idle(3)), 1, SECOND, Ended)));
    var runs := s.w.runs.(late := 3);
    s := Take(s, Worker(0, DoFinPublish), s.(w := Move(s.w, 0, FinCas(FIRST)).(completed := 1, runs := runs)));
    assert SECOND in s.w.conns.admitted && SECOND.run == 3;
    Reached(s);
  }
}
