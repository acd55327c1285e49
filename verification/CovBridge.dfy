/** The functions of covbridge.c as methods over the words of the shared map.
  *
  * Before each access to the map a method calls Interfere or
  * InterfereController, after which every other thread and process may have
  * taken any number of steps (module Interference).  Each access is one step of
  * the machine in module Bridge, recorded in the ghost field `sys`.
  *
  * A compare-exchange loop has no bound of its own: `fuel` is how many times the
  * scheduler lets it go round, and None is the answer of a call that has gone
  * round that often and has not returned yet. */
module CovBridge {
  import opened Wrappers
  import opened Environment
  import opened Bridge
  import opened BridgeInvariant
  import opened BridgeTheorems
  import opened BridgeHistories
  import opened Interference
  import opened GateWord
  import opened WorkerSteps
  import opened OverflowFlag

  /** No process numbers more guards than this. */
  const MAX_EDGES: nat := 1048576

  /** The only layout of a snapshot: one 64-bit count per slot. */
  const COUNTS64: nat := 1

  /** A cb_snapshot: `counts` is the buffer, of which nslots entries are in use. */
  class SnapshotBuffer {
    var runId: uint64
    var mode: nat
    var counts: array<uint64>
    var nslots: nat

    ghost predicate Valid()
      reads this
    {
      nslots <= counts.Length
    }

    constructor ()
      ensures Valid() && nslots == 0 && mode == 0 && fresh(counts)
    {
      runId, mode := 0, 0;
      counts := new uint64[0];
      nslots := 0;
    }

    /** reserveSnapshot: keeps a buffer that is large enough. */
    method Reserve(host: Host, slots: nat) returns (ok: bool)
      requires Valid()
      modifies this, host`failures
      ensures Valid() && runId == old(runId) && mode == old(mode)
      ensures host.failures == old(host.failures) + (if ok then 0 else 1)
      ensures ok ==> nslots == slots && (counts == old(counts) || fresh(counts))
      ensures !ok ==> nslots == old(nslots) && counts == old(counts) && counts.Length < slots
    {
      if counts.Length >= slots {
        nslots := slots;
        return true;
      }
      ok := host.Allocates();
      if !ok {
        return false;
      }
      counts := new uint64[slots];
      nslots := slots;
      return true;
    }
  }

  class SharedMap {
    var runId: uint64
    var completedRun: uint64
    var controllerPid: nat
    var gate: uint64
    var overflow: bool
    const counts: array<uint64>
    ghost var sys: State

    ghost predicate Valid()
      reads this, counts
    {
      Occurs(sys) && Shows(sys.w)
    }

    /** The words of the map are what the machine's world says they are. */
    ghost predicate Shows(w: World)
      reads this, counts
    {
      && runId == w.runId && completedRun == w.completed && controllerPid == w.owner
      && Decode(gate) == w.gate && overflow == w.overflow
      && counts.Length == |w.counts|
      && forall i :: 0 <= i < counts.Length ==> counts[i] == w.counts[i]
    }

    /** cb_init: a zeroed map of `slots` counters, which every process that is
      * forked later will share. */
    constructor (slots: nat, ghost threads: seq<Thread>)
      requires forall t :: 0 <= t < |threads| ==> threads[t] == Thread(threads[t].proc, 0, None, NotEnded, Free)
      ensures Valid() && counts.Length == slots && Init(sys) && sys.w.threads == threads && fresh(counts)
    {
      runId, completedRun, controllerPid, gate, overflow := 0, 0, 0, 0, false;
      counts := new uint64[slots](_ => 0);
      ghost var zeros := seq(slots, _ => 0);
      ghost var w := World(0, 0, 0, Idle(0), false, zeros, threads, {},
                           ConnLog(0, {}, {}, {}, map[]), HitLog(0, {}, seq(|zeros|, _ => {}), 0, {}, {}, {}),
                           RunLog([], [], map[], {}, {}, 0, true, 0));
      sys := State(w, Ctl(0, false, Unlocked), {});
      new;
      DecodeEncode(Idle(0));
      ghost var tr := Trace([sys], []);
      assert tr.Valid() && tr.states[|tr.states| - 1] == sys;
      assert Reachable(sys);
    }

    // ----- Interference -----

    /** Anybody but `who` takes any number of steps. */
    method Others(ghost who: Who)
      requires Shows(sys.w)
      modifies this, counts
      ensures Shows(sys.w) && Between(old(sys), sys, who)
    {
      BetweenNothing(sys, who);
    }

    method Interfere(ghost t: nat)
      requires Valid() && Running(sys, t)
      modifies this, counts
      ensures Valid() && ThreadFrame(old(sys), sys, t)
    {
      Others(TheThread(t));
      BetweenThread(old(sys), sys, t);
    }

    method InterfereController()
      requires Valid()
      modifies this, counts
      ensures Valid() && ControllerFrame(old(sys), sys)
    {
      Others(TheController);
      BetweenController(old(sys), sys);
    }

    /** The process pid is the controller, between calls. */
    ghost predicate Controls(pid: nat)
      reads this
    {
      sys.ctl.pid == pid && sys.ctl.pc.Ready?
    }

    /** The one process that the map names as its controller is that, and holds the
      * lock; any other process may call, and is refused. */
    ghost predicate Caller(pid: nat)
      reads this
    {
      controllerPid == pid ==> Controls(pid)
    }

    /** The load of controller_pid that begin, cancel and wait start with. */
    method LoadOwner(pid: nat) returns (owner: nat)
      requires Valid() && Caller(pid)
      modifies this, counts
      ensures Valid() && owner == controllerPid
      ensures old(Controls(pid)) ==> owner == pid && ControllerFrame(old(sys), sys)
      ensures !old(Controls(pid)) ==> owner != pid && Between(old(sys), sys, Outsider(pid))
    {
      ghost var who := if Controls(pid) then TheController else Outsider(pid);
      if Controls(pid) {
        OwnerHolds(sys.w.owner, pid);
      }
      Others(who);
      if who.TheController? {
        BetweenController(old(sys), sys);
      } else {
        BetweenOutsider(old(sys), sys, pid);
      }
      owner := controllerPid;
    }

    lemma OwnerHolds(owner: nat, pid: nat)
      requires Occurs(sys) && sys.ctl.pid == pid && owner == sys.w.owner && sys.ctl.pc.Ready?
      ensures owner == pid
    {
      Recall(sys);
    }

    // ----- Recording a step -----

    ghost method Worked(t: nat, k: WorkerStep, w': World)
      requires Occurs(sys) && Running(sys, t) && WorkerNext(sys.w, t, k, w')
      modifies `sys
      ensures Occurs(sys) && sys == old(sys).(w := w') && Grows(old(sys), sys)
    {
      var s' := sys.(w := w');
      assert Next(sys, Worker(t, k), s');
      Recall(sys);
      ReachableNext(sys, Worker(t, k), s');
      StepGrows(sys, Worker(t, k), s');
      sys := s';
    }

    ghost method Moved(t: nat, k: WorkerStep, pc: Pc)
      requires Occurs(sys) && Running(sys, t) && WorkerNext(sys.w, t, k, Move(sys.w, t, pc))
      modifies `sys
      ensures Occurs(sys) && sys == old(sys).(w := Move(old(sys.w), t, pc)) && Grows(old(sys), sys)
    {
      Worked(t, k, Move(sys.w, t, pc));
    }

    ghost method Did(a: Step, s': State)
      requires Occurs(sys) && !a.Worker? && Next(sys, a, s')
      modifies `sys
      ensures Occurs(sys) && sys == s' && Grows(old(sys), sys)
    {
      Recall(sys);
      ReachableNext(sys, a, s');
      StepGrows(sys, a, s');
      sys := s';
    }

    // ----- Guard -----

    /** A call recorded for a run that is being measured has been counted. */
    ghost predicate Counted(h: Hit)
      reads this
    {
      && h in sys.w.hits.called
      && (0 != sys.w.hits.epoch == h.run && h.run !in sys.w.runs.shut ==>
            h.edge < |sys.w.hits.window| && h in sys.w.hits.window[h.edge])
    }

    /** The wrapped guard callback, for the guard number `guard` in a thread whose
      * thread_run is `run`.  A tagged call of the run being measured is counted:
      * its hit is in the window of its slot when the call returns. */
    method GuardHit(ghost t: nat, run: uint64, guard: nat) returns (ghost hit: Option<Hit>)
      requires Valid() && Running(sys, t) && guard <= counts.Length
      requires sys.w.threads[t].pc == Free && sys.w.threads[t].tag == run
      modifies this, counts
      ensures Valid() && Running(sys, t) && sys.w.threads[t] == old(sys.w.threads[t])
      ensures hit.Some? <==> guard != 0 && run != 0
      ensures hit.None? ==> sys == old(sys)
      ensures hit.Some? ==>
                && hit.value == Hit(hit.value.id, t, run, guard - 1)
                && Counted(hit.value) && hit.value !in old(sys.w.hits.called)
    {
      if guard == 0 || run == 0 {
        return None;
      }
      Interfere(t);
      var g := gate;
      ghost var h := GuardCalled(t, guard - 1);
      hit := Some(h);
      if GateAllowsRun(g, run) {
        GuardCount(t, guard - 1, h);
      }
      HitLanded(t, h);
    }

    /** The fetch-add on the counter, and the overflow flag when it wraps. */
    method GuardCount(ghost t: nat, edge: nat, ghost h: Hit)
      requires Valid() && Running(sys, t) && sys.w.threads[t].pc == GuardAdd(h)
      requires h.edge == edge < counts.Length
      modifies this, counts
      ensures Valid() && Running(sys, t) && sys.w.threads[t] == old(sys.w.threads[t]).(pc := Free)
      ensures old(sys.w.hits.called) <= sys.w.hits.called
    {
      Interfere(t);
      var count := counts[edge];
      counts[edge] := (count + 1) % WORD_LIMIT;
      GuardCounted(t, h);
      if count == WORD_LIMIT - 1 {
        GuardOverflow(t);
      }
    }

    method GuardOverflow(ghost t: nat)
      requires Valid() && Running(sys, t) && sys.w.threads[t].pc.GuardMark?
      modifies this, counts
      ensures Valid() && Running(sys, t) && sys.w.threads[t] == old(sys.w.threads[t]).(pc := Free)
      ensures old(sys.w.hits.called) <= sys.w.hits.called
    {
      Interfere(t);
      overflow := true;
      Worked(t, DoGuardOverflow, Move(sys.w, t, Free).(overflow := true));
    }

    ghost method GuardCalled(t: nat, edge: nat) returns (h: Hit)
      requires Occurs(sys) && Running(sys, t) && edge < |sys.w.counts|
      requires sys.w.threads[t].pc == Free && sys.w.threads[t].tag != 0
      modifies `sys
      ensures Occurs(sys) && Running(sys, t) && Grows(old(sys), sys)
      ensures h == Hit(h.id, t, sys.w.threads[t].tag, edge)
      ensures h in sys.w.hits.called && h !in old(sys.w.hits.called)
      ensures var pc := if Allows(sys.w.gate, h.run) then GuardAdd(h) else Free;
              sys.w == old(sys.w).(hits := sys.w.hits, threads := Move(old(sys.w), t, pc).threads)
    {
      Recall(sys);
      h := Hit(sys.w.hits.next, t, sys.w.threads[t].tag, edge);
      var hits := sys.w.hits.(next := h.id + 1, called := sys.w.hits.called + {h});
      Worked(t, DoGuardCall(edge),
             Move(sys.w, t, if Allows(sys.w.gate, h.run) then GuardAdd(h) else Free).(hits := hits));
    }

    ghost method GuardCounted(t: nat, h: Hit)
      requires Occurs(sys) && Running(sys, t) && sys.w.threads[t].pc == GuardAdd(h)
      requires h.edge < |sys.w.counts|
      modifies `sys
      ensures Occurs(sys) && Running(sys, t) && Grows(old(sys), sys)
      ensures var count := old(sys.w.counts)[h.edge];
              && sys.w.counts == old(sys.w.counts)[h.edge := (count + 1) % COUNTER_LIMIT]
              && sys.w.threads == Move(old(sys.w), t, if count == COUNTER_LIMIT - 1 then GuardMark(h) else Free).threads
      ensures sys.w == old(sys.w).(counts := sys.w.counts, threads := sys.w.threads, hits := sys.w.hits)
    {
      Recall(sys);
      var w := sys.w;
      var count := w.counts[h.edge];
      var hits := w.hits.(window := w.hits.window[h.edge := w.hits.window[h.edge] + {h}]);
      Worked(t, DoGuardCount,
             Move(w, t, if count == COUNTER_LIMIT - 1 then GuardMark(h) else Free)
             .(counts := w.counts[h.edge := (count + 1) % COUNTER_LIMIT], hits := hits));
    }

    /** A thread that is out of the guard has no add pending. */
    lemma HitLanded(t: nat, h: Hit)
      requires Occurs(sys) && Running(sys, t) && sys.w.threads[t].pc == Free
      requires h in sys.w.hits.called && h.thread == t
      ensures Counted(h)
    {
      Recall(sys);
      assert 0 != sys.w.hits.epoch == h.run && h.run !in sys.w.runs.shut ==> Landed(sys.w.hits, sys.w.threads, h);
    }

    // ----- Connection begin -----

    ghost predicate Joined(t: nat, run: nat, before: set<Conn>)
      reads this
    {
      && Running(sys, t)
      && var th := sys.w.threads[t];
      && th.held.Some? && th.pc == Free && th.tag == th.held.value.run == run
      && th.held.value in sys.w.conns.open && th.held.value !in before
    }

    /** At a moment `at` of this call, which began at `from`, the gate turned it away:
      * closed, full, or with a newer run than the one it was found open for. */
    ghost predicate TurnedAway(from: State, at: State, full: bool)
      reads this
    {
      && Grows(from, at) && Grows(at, sys)
      && if full then at.w.gate.active == 0xF_FFFF
         else (!at.w.gate.enabled && at.w.gate.active != 0xF_FFFF) || from.w.runId < at.w.runId
    }

    /** cb_connection_begin: a nonzero result is the run of a connection that is
      * counted from now on, and the tag of this thread; zero is the answer of a gate
      * that turned it away, and leaves EOVERFLOW in errno exactly if the gate was
      * full.  None while still in the loop. */
    method ConnectionBegin(host: Host, ghost t: nat, fuel: nat)
        returns (run: Option<uint64>, full: bool, ghost at: State)
      requires Valid() && Running(sys, t)
      requires sys.w.threads[t].pc == Free && sys.w.threads[t].held == None && sys.w.threads[t].tag == 0
      modifies this, counts, host`rounds
      ensures Valid() && Running(sys, t)
      ensures run.None? ==> host.rounds >= old(host.rounds) + fuel
      ensures run.None? ==> sys.w.threads[t].pc.JoinRun? || TurnedAway(old(sys), at, full)
      ensures run == Some(0) ==> sys.w.threads[t] == old(sys.w.threads[t]) && TurnedAway(old(sys), at, full)
      ensures run.Some? && run.value != 0 ==> Joined(t, run.value, old(sys.w.conns.admitted))
    {
      Interfere(t);
      var g := gate;
      at := sys;
      JoinLoaded(t);
      var tries := fuel;
      while tries > 0
        invariant Valid() && Running(sys, t) && Seen(old(sys), at, Decode(g))
        invariant sys.w.threads[t] == old(sys.w.threads[t]).(pc := JoinTest(Decode(g)))
        invariant host.rounds >= old(host.rounds) + fuel - tries
      {
        if And(g, ENABLED) == 0 || GateActive(g) == ACTIVE_MASK || GateRun(g) == 0 {
          SeenShut(old(sys), at, Decode(g));
          return Some(0), GateActive(g) == ACTIVE_MASK, at;
        }
        var again;
        again, g, run, at := JoinOnce(t, g, old(sys), at);
        if !again {
          return run, false, at;
        }
        host.GoRound();
        tries := tries - 1;
      }
      if JoinTest(Decode(g)).Free? {
        SeenShut(old(sys), at, Decode(g));
      }
      run, full := None, GateActive(g) == ACTIVE_MASK;
    }

    /** The gate g was loaded at a moment `at` of the call that began at `from`. */
    ghost predicate Seen(from: State, at: State, g: Gate)
      reads this
    {
      Occurs(at) && Grows(from, at) && Grows(at, sys) && g == at.w.gate
    }

    lemma SeenShut(from: State, at: State, g: Gate)
      requires Seen(from, at, g) && JoinTest(g).Free?
      ensures TurnedAway(from, at, g.active == ACTIVE_MASK)
    {
      Recall(at);
    }

    lemma SeenReplaced(from: State, at: State, g: Gate)
      requires Seen(from, at, g) && g.enabled && sys.w.runId != g.run
      ensures TurnedAway(from, sys, false)
    {
      Recall(at);
    }

    /** Once round the admission loop, from the load of run_id. */
    method JoinOnce(ghost t: nat, g: uint64, ghost from: State, ghost before: State)
        returns (again: bool, seen: uint64, run: Option<uint64>, ghost at: State)
      requires Valid() && Running(sys, t) && sys.w.threads[t].pc == JoinRun(Decode(g)) == JoinTest(Decode(g))
      requires sys.w.threads[t].held == None && sys.w.threads[t].tag == 0
      requires Seen(from, before, Decode(g))
      modifies this, counts
      ensures Valid() && Running(sys, t)
      ensures again ==> sys.w.threads[t] == old(sys.w.threads[t]).(pc := JoinTest(Decode(seen)))
      ensures again ==> Seen(from, at, Decode(seen))
      ensures !again ==> run.Some?
      ensures !again && run.value == 0 ==>
                sys.w.threads[t] == old(sys.w.threads[t]).(pc := Free) && TurnedAway(from, at, false)
      ensures !again && run.value != 0 ==> Joined(t, run.value, from.w.conns.admitted)
    {
      var r := GateRun(g);
      Interfere(t);
      var id := runId;
      at := sys;
      JoinChecked(t, Decode(g));
      if id != r {
        SeenReplaced(from, before, Decode(g));
        return false, g, Some(0), sys;
      }
      again, seen, run, at := JoinTry(t, g, id, from);
    }

    /** The admission CAS, or another look at the gate. */
    method JoinTry(ghost t: nat, g: uint64, r: uint64, ghost from: State)
        returns (again: bool, seen: uint64, run: Option<uint64>, ghost at: State)
      requires Valid() && Running(sys, t) && sys.w.threads[t].pc == JoinCas(Decode(g)) && JoinTest(Decode(g)).JoinRun?
      requires r == GateRun(g)
      requires sys.w.threads[t].held == None && sys.w.threads[t].tag == 0 && Grows(from, sys)
      modifies this, counts
      ensures Valid() && Running(sys, t)
      ensures again ==> sys.w.threads[t] == old(sys.w.threads[t]).(pc := JoinTest(Decode(seen)))
      ensures again ==> Seen(from, at, Decode(seen))
      ensures !again ==> run.Some? && run.value != 0 && Joined(t, run.value, from.w.conns.admitted)
    {
      Interfere(t);
      at := sys;
      var spurious: bool := *;
      if gate == g && !spurious {
        Admit(t);
        return false, g, Some(r), at;
      }
      seen := gate;
      JoinMissed(t);
      return true, seen, None, at;
    }

    /** The admission CAS, and then the thread's tag. */
    method Admit(ghost t: nat)
      requires Valid() && Running(sys, t) && sys.w.threads[t].pc == JoinCas(sys.w.gate)
      requires sys.w.threads[t].held == None && sys.w.gate.active != ACTIVE_MASK
      modifies this, counts
      ensures Valid() && Joined(t, old(sys.w.gate.run), old(sys.w.conns.admitted))
      ensures old(sys.w.conns.admitted) <= sys.w.conns.admitted
    {
      Increment(gate);
      gate := gate + 1;
      Admitted(t, sys.w.gate.run);
      Interfere(t);
      TagTaken(t);
    }

    ghost method JoinLoaded(t: nat)
      requires Occurs(sys) && Running(sys, t) && sys.w.threads[t].pc == Free && sys.w.threads[t].held == None
      modifies `sys
      ensures Occurs(sys) && sys == old(sys).(w := Move(old(sys.w), t, JoinTest(old(sys.w.gate))))
      ensures Grows(old(sys), sys)
    {
      Moved(t, DoJoinLoad, JoinTest(sys.w.gate));
    }

    ghost method JoinChecked(t: nat, g: Gate)
      requires Occurs(sys) && Running(sys, t) && sys.w.threads[t].pc == JoinRun(g)
      modifies `sys
      ensures var pc := if old(sys.w.runId) != g.run then Free else JoinCas(g);
              Occurs(sys) && sys == old(sys).(w := Move(old(sys.w), t, pc))
      ensures Grows(old(sys), sys)
    {
      Moved(t, DoJoinCheck, if sys.w.runId != g.run then Free else JoinCas(g));
    }

    ghost method JoinMissed(t: nat)
      requires Occurs(sys) && Running(sys, t) && sys.w.threads[t].pc.JoinCas?
      modifies `sys
      ensures Occurs(sys) && sys == old(sys).(w := Move(old(sys.w), t, JoinTest(old(sys.w.gate))))
      ensures Grows(old(sys), sys)
    {
      Moved(t, DoJoinSwap(true), JoinTest(sys.w.gate));
    }

    ghost method Admitted(t: nat, r: nat)
      requires Occurs(sys) && Running(sys, t) && sys.w.threads[t].pc == JoinCas(sys.w.gate)
      requires r == sys.w.gate.run
      modifies `sys
      ensures Occurs(sys) && Running(sys, t) && Grows(old(sys), sys)
      ensures sys.w.gate == old(sys.w.gate).(active := old(sys.w.gate.active) + 1)
      ensures sys.w == old(sys.w).(gate := sys.w.gate, threads := sys.w.threads, conns := sys.w.conns)
      ensures var th := sys.w.threads[t];
              && th.held.Some? && th == old(sys.w.threads[t]).(held := th.held, pc := JoinTag)
              && th.held.value.run == r && th.held.value !in old(sys.w.conns.admitted)
    {
      var w := sys.w;
      Recall(sys);
      var c := Conn(w.conns.next, r, w.threads[t].proc);
      var conns := w.conns.(next := c.id + 1, admitted := w.conns.admitted + {c},
                            open := w.conns.open + {c}, holder := w.conns.holder[c := t]);
      Worked(t, DoJoinSwap(false),
             w.(gate := w.gate.(active := w.gate.active + 1), conns := conns,
                threads := w.threads[t := w.threads[t].(held := Some(c), pc := JoinTag)]));
    }

    ghost method TagTaken(t: nat)
      requires Occurs(sys) && Running(sys, t) && (sys.w.threads[t].pc.JoinTag? || sys.w.threads[t].pc.ResumeTag?)
      requires sys.w.threads[t].held.Some?
      modifies `sys
      ensures Occurs(sys) && Running(sys, t) && Grows(old(sys), sys)
      ensures sys.w == old(sys.w).(threads := sys.w.threads)
      ensures sys.w.threads[t] == old(sys.w.threads[t]).(tag := old(sys.w.threads[t]).held.value.run, pc := Free)
      ensures sys.w.threads[t].held.value in sys.w.conns.open
    {
      var w := sys.w;
      Worked(t, DoTakeTag,
             w.(threads := w.threads[t := w.threads[t].(tag := w.threads[t].held.value.run, pc := Free)]));
      Recall(sys);
      assert ThreadOk(sys.w, t);
    }

    // ----- Suspend and resume -----

    /** cb_thread_pause, in the suspend hook. */
    method ThreadPause(ghost t: nat)
      requires Valid() && Running(sys, t) && sys.w.threads[t].pc == Free && sys.w.threads[t].held.Some?
      modifies this
      ensures Valid() && Running(sys, t)
      ensures sys.w.threads[t] == old(sys.w.threads[t]).(tag := 0, held := None)
      ensures sys.w.parked == old(sys.w.parked) + {old(sys.w.threads[t]).held.value}
    {
      ghost var w := sys.w;
      Worked(t, DoSuspend, w.(threads := w.threads[t := w.threads[t].(tag := 0, held := None)],
                              parked := w.parked + {w.threads[t].held.value}));
    }

    /** cb_thread_resume, in the resume hook: the tag is taken back exactly when
      * the gate still allows the run at the moment it is loaded. */
    method ThreadResume(ghost t: nat, ghost c: Conn, run: uint64) returns (tagged: bool, ghost at: State)
      requires Valid() && Running(sys, t) && sys.w.threads[t].pc == Free
      requires sys.w.threads[t].held == None && sys.w.threads[t].tag == 0
      requires c in sys.w.parked && c.proc == sys.w.threads[t].proc && c.run == run
      modifies this, counts
      ensures Valid() && Running(sys, t)
      ensures sys.w.threads[t] == old(sys.w.threads[t]).(tag := if tagged then run else 0, held := Some(c))
      ensures Grows(old(sys), at) && Grows(at, sys)
      ensures tagged <==> at.w.gate.enabled && at.w.gate.run == run
      ensures !tagged ==> run in sys.w.runs.shut
      ensures tagged ==> c in sys.w.conns.open
    {
      Resumed(t, c);
      Interfere(t);
      at := sys;
      tagged := GateAllowsRun(gate, run);
      ResumeLoaded(t, c);
      if tagged {
        Interfere(t);
        TagTaken(t);
      }
    }

    ghost method Resumed(t: nat, c: Conn)
      requires Occurs(sys) && Running(sys, t) && sys.w.threads[t].pc == Free
      requires sys.w.threads[t].held == None && c in sys.w.parked && c.proc == sys.w.threads[t].proc
      modifies `sys
      ensures Occurs(sys) && Running(sys, t) && Grows(old(sys), sys)
      ensures sys.w == old(sys.w).(threads := sys.w.threads, parked := sys.w.parked, conns := sys.w.conns)
      ensures sys.w.threads[t] == old(sys.w.threads[t]).(held := Some(c), pc := ResumeGate)
    {
      var w := sys.w;
      Worked(t, DoResume(c), w.(threads := w.threads[t := w.threads[t].(held := Some(c), pc := ResumeGate)],
                                parked := w.parked - {c},
                                conns := w.conns.(holder := w.conns.holder[c := t])));
    }

    ghost method ResumeLoaded(t: nat, c: Conn)
      requires Occurs(sys) && Running(sys, t) && sys.w.threads[t].pc == ResumeGate && sys.w.threads[t].held == Some(c)
      modifies `sys
      ensures Occurs(sys) && Running(sys, t) && sys.w == old(sys.w).(threads := sys.w.threads)
      ensures Grows(old(sys), sys)
      ensures var pc := if Allows(sys.w.gate, c.run) then ResumeTag else Free;
              sys.w.threads[t] == old(sys.w.threads[t]).(pc := pc)
      ensures Allows(sys.w.gate, c.run) || c.run in sys.w.runs.shut
    {
      Recall(sys);
      assert ThreadOk(sys.w, t);
      Moved(t, DoResumeLoad, if Allows(sys.w.gate, c.run) then ResumeTag else Free);
    }

    // ----- Connection end -----

    /** How an end call leaves its thread and its connection c.  ESTALE means that
      * the run has been replaced. */
    ghost predicate Gone(t: nat, c: Conn, result: EndResult)
      reads this
    {
      && Running(sys, t)
      && sys.w.threads[t] == Thread(c.proc, 0, None, result, Free)
      && c in sys.w.conns.returned
      && (result == Ended || result == Stale)
      && (result == Ended ==> c !in sys.w.conns.open)
      && (result == Stale ==> c.run < sys.w.runId)
    }

    /** The thread is between calls, and can end c: it holds c, or holds nothing and
      * cleans up after c, which is suspended. */
    ghost predicate CanEnd(t: nat, c: Conn)
      reads this
    {
      && Running(sys, t) && sys.w.threads[t].pc == Free
      && (sys.w.threads[t].held == Some(c)
          || (sys.w.threads[t].held == None && c in sys.w.parked && c.proc == sys.w.threads[t].proc))
    }

    /** cb_connection_end, for the connection c. */
    method ConnectionEnd(host: Host, ghost t: nat, ghost c: Conn, run: uint64, fuel: nat)
        returns (result: Option<EndResult>)
      requires Valid() && CanEnd(t, c) && c.run == run
      modifies this, counts, host`rounds
      ensures Valid()
      ensures result.None? ==> host.rounds >= old(host.rounds) + fuel
      ensures result.Some? ==> Gone(t, c, result.value)
      ensures result.None? ==> Running(sys, t) && sys.w.threads[t].pc == EndRun && sys.w.threads[t].held == Some(c)
    {
      EndStarted(t, c);
      var tries := fuel;
      while tries > 0
        invariant Valid() && Running(sys, t)
        invariant sys.w.threads[t].pc == EndRun && sys.w.threads[t].held == Some(c) && sys.w.threads[t].tag == 0
        invariant host.rounds >= old(host.rounds) + fuel - tries
      {
        var seen := EndLook(t, run);
        if seen == None {
          return Some(Stale);
        }
        result := EndLeave(t, run, seen.value);
        if result.Some? {
          return;
        }
        host.GoRound();
        tries := tries - 1;
      }
      result := None;
    }

    /** The two loads of the end loop; None when they find the run replaced.  The
      * active count is never found at zero. */
    method EndLook(ghost t: nat, run: uint64) returns (seen: Option<uint64>)
      requires Valid() && Running(sys, t) && sys.w.threads[t].pc == EndRun && sys.w.threads[t].tag == 0
      requires sys.w.threads[t].held.Some? && sys.w.threads[t].held.value.run == run
      modifies this, counts
      ensures Valid() && Running(sys, t)
      ensures seen == None ==> Gone(t, old(sys.w.threads[t].held.value), Stale)
      ensures seen.Some? ==> sys.w.threads[t] == old(sys.w.threads[t]).(pc := EndCas(Decode(seen.value)))
      ensures seen.Some? ==> GateRun(seen.value) == run && GateActive(seen.value) != 0
    {
      Interfere(t);
      var id := runId;
      EndRunChecked(t);
      if id != run {
        return None;
      }
      Interfere(t);
      var g := gate;
      EndGateChecked(t);
      if GateRun(g) != run {
        return None;
      }
      if GateActive(g) == 0 {
        assert false;
      }
      return Some(g);
    }

    /** The decrement or finalizing CAS on the gate value g, and what follows it;
      * None when the CAS failed and the loop goes round again. */
    method EndLeave(ghost t: nat, run: uint64, g: uint64) returns (result: Option<EndResult>)
      requires Valid() && Running(sys, t) && sys.w.threads[t].pc == EndCas(Decode(g)) && sys.w.threads[t].tag == 0
      requires sys.w.threads[t].held.Some? && sys.w.threads[t].held.value.run == run
      requires GateRun(g) == run && GateActive(g) != 0
      modifies this, counts
      ensures Valid()
      ensures result == None ==> Running(sys, t) && sys.w.threads[t] == old(sys.w.threads[t]).(pc := EndRun)
      ensures result.Some? ==> Gone(t, old(sys.w.threads[t].held.value), result.value)
    {
      ghost var c := sys.w.threads[t].held.value;
      var last := GateActive(g) == 1 && And(g, ENABLED) != 0;
      var desired := EndDesired(g, run);
      Interfere(t);
      var spurious: bool := *;
      if gate != g || spurious {
        EndMissed(t);
        return None;
      }
      gate := desired;
      Left(t, c);
      if last {
        var r := Finalize(t, run);
        return Some(r);
      }
      return Some(Ended);
    }

    /** The value the end loop swaps in for the gate value g. */
    static method EndDesired(g: uint64, run: uint64) returns (desired: uint64)
      requires GateRun(g) == run && GateActive(g) != 0
      ensures Decode(desired) == if Decode(g).active == 1 && Decode(g).enabled then Finalizing(run)
                                 else Decode(g).(active := Decode(g).active - 1)
    {
      Decrement(g);
      desired := g - 1;
      if GateActive(g) == 1 && And(g, ENABLED) != 0 {
        EncodeDecode(g);
        WithFlag(run, FINALIZING);
        desired := Or(GateForRun(run), FINALIZING);
      }
    }

    ghost method EndMissed(t: nat)
      requires Occurs(sys) && Running(sys, t) && sys.w.threads[t].pc.EndCas?
      requires sys.w.threads[t].held.Some? && sys.w.threads[t].pc.seen.active >= 1
      modifies `sys
      ensures Occurs(sys) && sys == old(sys).(w := Move(old(sys.w), t, EndRun))
    {
      Moved(t, DoEndSwap(true), EndRun);
    }

    /** The rest of the last leaver's call: publish, then open the gate to idle. */
    method Finalize(ghost t: nat, run: uint64) returns (result: EndResult)
      requires Valid() && Running(sys, t) && sys.w.threads[t].pc.FinRun? && sys.w.threads[t].pc.conn.run == run
      requires sys.w.threads[t].held == None && sys.w.threads[t].tag == 0
      requires sys.w.threads[t].proc == sys.w.threads[t].pc.conn.proc
      modifies this, counts
      ensures Valid() && Gone(t, old(sys.w.threads[t].pc.conn), result)
    {
      ghost var c := sys.w.threads[t].pc.conn;
      Interfere(t);
      var id := runId;
      FinChecked(t, c);
      if id != run {
        return Stale;
      }
      Interfere(t);
      completedRun := run;
      FinPublished(t, c);
      result := FinalizeSwap(t, run);
    }

    method FinalizeSwap(ghost t: nat, run: uint64) returns (result: EndResult)
      requires Valid() && Running(sys, t) && sys.w.threads[t].pc.FinCas? && sys.w.threads[t].pc.conn.run == run
      requires sys.w.threads[t].held == None && sys.w.threads[t].tag == 0
      requires sys.w.threads[t].proc == sys.w.threads[t].pc.conn.proc
      modifies this, counts
      ensures Valid() && Gone(t, old(sys.w.threads[t].pc.conn), result)
    {
      ghost var c := sys.w.threads[t].pc.conn;
      Interfere(t);
      RunFits(t);
      WithFlag(run, FINALIZING);
      ForRunIdle(run);
      SameWord(gate, Or(GateForRun(run), FINALIZING));
      if gate == Or(GateForRun(run), FINALIZING) {
        gate := GateForRun(run);
        result := Ended;
      } else {
        result := Stale;
      }
      FinSwapped(t, c);
    }

    lemma RunFits(t: nat)
      requires Occurs(sys) && Running(sys, t) && sys.w.threads[t].pc.Finalizer()
      ensures sys.w.threads[t].pc.conn.run <= RUN_MASK
    {
      Recall(sys);
      assert ThreadOk(sys.w, t);
    }

    ghost method EndStarted(t: nat, c: Conn)
      requires Occurs(sys) && CanEnd(t, c)
      modifies `sys
      ensures Occurs(sys) && Running(sys, t)
      ensures sys.w == old(sys.w).(threads := sys.w.threads, parked := sys.w.parked, conns := sys.w.conns)
      ensures sys.w.threads[t] == old(sys.w.threads[t]).(tag := 0, held := Some(c), pc := EndRun)
    {
      var w := sys.w;
      var threads := w.threads[t := w.threads[t].(tag := 0, held := Some(c), pc := EndRun)];
      if w.threads[t].held == Some(c) {
        Worked(t, DoEndStart, w.(threads := threads));
      } else {
        Worked(t, DoEndParked(c), w.(threads := threads, parked := w.parked - {c},
                                     conns := w.conns.(holder := w.conns.holder[c := t])));
      }
    }

    ghost method EndRunChecked(t: nat)
      requires Occurs(sys) && Running(sys, t) && sys.w.threads[t].pc == EndRun && sys.w.threads[t].tag == 0
      requires sys.w.threads[t].held.Some?
      modifies `sys
      ensures Occurs(sys) && Running(sys, t)
      ensures sys.w == old(sys.w).(threads := sys.w.threads, conns := sys.w.conns)
      ensures var c := old(sys.w.threads[t].held.value);
              if sys.w.runId != c.run then Gone(t, c, Stale)
              else sys.w.threads[t] == old(sys.w.threads[t]).(pc := EndGate)
    {
      Recall(sys);
      assert ThreadOk(sys.w, t);
      var c := sys.w.threads[t].held.value;
      Worked(t, DoEndCheckRun,
             if sys.w.runId != c.run then Return(sys.w, t, c, Stale) else Move(sys.w, t, EndGate));
    }

    ghost method EndGateChecked(t: nat)
      requires Occurs(sys) && Running(sys, t) && sys.w.threads[t].pc == EndGate && sys.w.threads[t].tag == 0
      requires sys.w.threads[t].held.Some?
      modifies `sys
      ensures Occurs(sys) && Running(sys, t)
      ensures sys.w == old(sys.w).(threads := sys.w.threads, conns := sys.w.conns)
      ensures var c := old(sys.w.threads[t].held.value);
              if sys.w.gate.run != c.run then Gone(t, c, Stale)
              else sys.w.gate.active != 0 && sys.w.threads[t] == old(sys.w.threads[t]).(pc := EndCas(sys.w.gate))
    {
      Recall(sys);
      assert ThreadOk(sys.w, t);
      var c := sys.w.threads[t].held.value;
      if sys.w.gate.run != c.run {
        Worked(t, DoEndCheckGate, Return(sys.w, t, c, Stale));
      } else {
        CountedAtLeastOne(sys.w, c);
        Worked(t, DoEndCheckGate, Move(sys.w, t, EndCas(sys.w.gate)));
      }
    }

    /** The decrement or finalizing CAS succeeded. */
    ghost method Left(t: nat, c: Conn)
      requires Occurs(sys) && Running(sys, t) && sys.w.threads[t].pc == EndCas(sys.w.gate)
      requires sys.w.threads[t].held == Some(c) && sys.w.threads[t].tag == 0 && sys.w.gate.active >= 1
      modifies `sys
      ensures Occurs(sys) && Running(sys, t)
      ensures sys.w == old(sys.w).(gate := sys.w.gate, threads := sys.w.threads, conns := sys.w.conns,
                                   runs := sys.w.runs)
      ensures var g := old(sys.w.gate);
              if g.active == 1 && g.enabled then
                && sys.w.gate == Finalizing(c.run)
                && sys.w.threads[t] == old(sys.w.threads[t]).(held := None, pc := FinRun(c))
                && c.proc == sys.w.threads[t].proc
              else
                sys.w.gate == g.(active := g.active - 1) && Gone(t, c, Ended)
    {
      Recall(sys);
      assert ThreadOk(sys.w, t);
      var w, g := sys.w, sys.w.gate;
      var conns := w.conns.(open := w.conns.open - {c});
      if g.active == 1 && g.enabled {
        var runs := w.runs.(closer := w.runs.closer[c.run := t], finalized := w.runs.finalized + [c.run]);
        Worked(t, DoEndSwap(false),
               w.(gate := Finalizing(c.run), conns := conns, runs := runs,
                  threads := w.threads[t := w.threads[t].(held := None, pc := FinRun(c))]));
      } else {
        Worked(t, DoEndSwap(false),
               Return(w.(gate := g.(active := g.active - 1), conns := conns), t, c, Ended));
      }
    }

    ghost method FinChecked(t: nat, c: Conn)
      requires Occurs(sys) && Running(sys, t)
      requires sys.w.threads[t] == Thread(c.proc, 0, None, sys.w.threads[t].last, FinRun(c))
      modifies `sys
      ensures Occurs(sys) && Running(sys, t)
      ensures sys.w == old(sys.w).(threads := sys.w.threads, conns := sys.w.conns)
      ensures if sys.w.runId != c.run then Gone(t, c, Stale)
              else sys.w.threads[t] == old(sys.w.threads[t]).(pc := FinStore(c))
    {
      Recall(sys);
      assert ThreadOk(sys.w, t);
      Worked(t, DoFinCheck,
             if sys.w.runId != c.run then Return(sys.w, t, c, Stale) else Move(sys.w, t, FinStore(c)));
    }

    ghost method FinPublished(t: nat, c: Conn)
      requires Occurs(sys) && Running(sys, t) && sys.w.threads[t].pc == FinStore(c)
      modifies `sys
      ensures Occurs(sys) && Running(sys, t)
      ensures sys.w == old(sys.w).(completed := c.run, threads := sys.w.threads, runs := sys.w.runs)
      ensures sys.w.threads[t] == old(sys.w.threads[t]).(pc := FinCas(c))
    {
      var late := if c.run != sys.w.gate.run then sys.w.gate.run else 0;
      Worked(t, DoFinPublish,
             Move(sys.w, t, FinCas(c)).(completed := c.run, runs := sys.w.runs.(late := late)));
    }

    ghost method FinSwapped(t: nat, c: Conn)
      requires Occurs(sys) && Running(sys, t)
      requires sys.w.threads[t] == Thread(c.proc, 0, None, sys.w.threads[t].last, FinCas(c))
      modifies `sys
      ensures Occurs(sys)
      ensures var done := old(sys.w.gate) == Finalizing(c.run);
              && Gone(t, c, if done then Ended else Stale)
              && sys.w == old(sys.w).(threads := sys.w.threads, conns := sys.w.conns,
                                      gate := if done then Idle(c.run) else old(sys.w.gate))
    {
      Recall(sys);
      assert ThreadOk(sys.w, t);
      Worked(t, DoFinSwap,
             if sys.w.gate == Finalizing(c.run) then Return(sys.w.(gate := Idle(c.run)), t, c, Ended)
             else Return(sys.w, t, c, Stale));
    }

    // ----- Claim -----

    /** cb_claim_controller, by the process that holds the lock file.  Success
      * means that the map is this controller's, idle, and has an epoch left; the
      * run that was replaced is fenced off by its number.  `timedOut` says that
      * the wait for its connections was given up, which takes timeoutMs at least. */
    method ClaimController(host: Host, pid: nat, timeoutMs: int, fuel: nat)
        returns (result: Option<Result<(), Refusal>>, timedOut: bool)
      requires Valid() && sys.ctl.pid == pid && sys.ctl.pc == Locked
      modifies this, counts, host
      ensures Valid() && old(host.now) <= host.now && old(host.failures) <= host.failures
      ensures result.None? ==> host.rounds >= old(host.rounds) + fuel
      ensures result.Some? && result.value.Err? ==>
                && sys.ctl.pc == Unlocked
                && (result.value.error == Inval || result.value.error == Overflow || result.value.error == NoClock)
      ensures timeoutMs < 0 <==> result == Some(Err(Inval))
      ensures result == Some(Err(NoClock)) ==> host.failures > old(host.failures)
      ensures result == Some(Err(Overflow)) ==> old(runId) >= 0x3FF_FFFF_FFFE
      ensures timeoutMs >= 0 && host.failures == old(host.failures) && old(runId) >= 0x3FF_FFFF_FFFE ==>
                result == Some(Err(Overflow))
      ensures timedOut ==> host.now - old(host.now) >= timeoutMs
      ensures result.None? ==> sys.ctl.pc.ClaimClose? || sys.ctl.pc.ClaimDrain?
      ensures result.Some? && result.value.Ok? ==>
                && sys.ctl == Ctl(pid, true, Ready(Claimed)) && controllerPid == pid
                && runId == (if old(runId) == 0 then 0 else old(runId) + 1) < 0x3FF_FFFF_FFFF
                && Decode(gate) == Idle(runId)
                && (old(runId) != 0 ==> forall r :: r in old(sys.w.runs.enabled) ==> r < runId)
                && (!timedOut && old(sys.w.runs.drained) ==> sys.w.runs.drained)
    {
      if timeoutMs < 0 {
        Did(Claim(DoClaimAbort), Go(sys, Unlocked));
        return Some(Err(Inval)), false;
      }
      var start := host.Milliseconds();
      if start.None? {
        Did(Claim(DoClaimAbort), Go(sys, Unlocked));
        return Some(Err(NoClock)), false;
      }
      var from := ClaimRun();
      if from.None? {
        return Some(Err(Overflow)), false;
      }
      result, timedOut := TakeOver(host, pid, from.value, start.value + timeoutMs, fuel);
    }

    /** The load of run_id; None when no epochs are left. */
    method ClaimRun() returns (from: Option<uint64>)
      requires Valid() && sys.ctl.pc == Locked
      modifies this, counts
      ensures Valid() && SameBooks(old(sys), sys)
      ensures sys.ctl == old(sys.ctl).(pc := if from.Some? then Bridge.ClaimGate(from.value) else Unlocked)
      ensures from == if old(runId) < 0x3FF_FFFF_FFFE then Some(old(runId)) else None
    {
      InterfereController();
      var run := runId;
      Did(Claim(DoClaimLoadRun), Go(sys, if EpochsLeft(run) then Bridge.ClaimGate(run) else Unlocked));
      if run >= RUN_MASK || (run != 0 && run >= RUN_MASK - 1) {
        return None;
      }
      return Some(run);
    }

    /** What a claim does once it knows that epochs are left. */
    method TakeOver(host: Host, pid: nat, from: uint64, deadline: int, fuel: nat)
        returns (result: Option<Result<(), Refusal>>, timedOut: bool)
      requires Valid() && sys.ctl.pid == pid && sys.ctl.pc == Bridge.ClaimGate(from) && from == runId
      modifies this, counts, host
      ensures Valid() && old(host.now) <= host.now && old(host.failures) <= host.failures
      ensures result.None? ==> host.rounds >= old(host.rounds) + fuel
      ensures result.Some? && result.value.Err? ==>
                sys.ctl.pc == Unlocked && result.value.error == NoClock && host.failures > old(host.failures)
      ensures timedOut ==> host.now >= deadline
      ensures result.None? ==> sys.ctl.pc.ClaimClose? || sys.ctl.pc.ClaimDrain?
      ensures result.Some? && result.value.Ok? ==>
                && sys.ctl == Ctl(pid, true, Ready(Claimed)) && controllerPid == pid
                && runId == Replacement(from) < RUN_MASK && Decode(gate) == Idle(runId)
                && (from != 0 ==> forall r :: r in old(sys.w.runs.enabled) ==> r < runId)
                && (!timedOut && old(sys.w.runs.drained) ==> sys.w.runs.drained)
    {
      var closed := CloseAdmission(host, fuel);
      if !closed {
        return None, false;
      }
      var drained;
      drained, timedOut := Drain(host, deadline, fuel);
      if drained.None? {
        return None, timedOut;
      }
      if !drained.value {
        return Some(Err(NoClock)), timedOut;
      }
      Replace(pid, from, timedOut);
      return Some(Ok(())), timedOut;
    }

    /** Clears ENABLED, unless some other step has; false while still at it. */
    method CloseAdmission(host: Host, fuel: nat) returns (closed: bool)
      requires Valid() && sys.ctl.pc.ClaimGate?
      modifies this, counts, host`rounds
      ensures Valid() && SameBooks(old(sys), sys)
      ensures old(host.rounds) <= host.rounds && (!closed ==> host.rounds >= old(host.rounds) + fuel)
      ensures closed ==> sys.ctl == old(sys.ctl).(pc := ClaimDrain(old(sys.ctl.pc.from)))
      ensures sys.ctl.pc.ClaimClose? || sys.ctl.pc.ClaimDrain?
    {
      ghost var from := sys.ctl.pc.from;
      InterfereController();
      var g := gate;
      Did(Claim(DoClaimLoadGate), Go(sys, ClaimTest(from, sys.w.gate)));
      var tries := fuel;
      while tries > 0
        invariant Valid() && SameBooks(old(sys), sys)
        invariant sys.ctl == old(sys.ctl).(pc := ClaimTest(from, Decode(g)))
        invariant host.rounds >= old(host.rounds) + fuel - tries
      {
        if And(g, ENABLED) == 0 {
          return true;
        }
        var again;
        again, g := CloseOnce(g);
        if !again {
          return true;
        }
        host.GoRound();
        tries := tries - 1;
      }
      return false;
    }

    method CloseOnce(g: uint64) returns (again: bool, seen: uint64)
      requires Valid() && sys.ctl.pc.ClaimClose? && sys.ctl.pc.seen == Decode(g)
      modifies this, counts
      ensures Valid() && SameBooks(old(sys), sys)
      ensures sys.ctl == old(sys.ctl).(pc := if again then ClaimTest(old(sys.ctl.pc.from), Decode(seen))
                                             else ClaimDrain(old(sys.ctl.pc.from)))
    {
      ghost var from := sys.ctl.pc.from;
      InterfereController();
      var spurious: bool := *;
      if gate == g && !spurious {
        ClearEnabled(gate);
        gate := And(gate, Not(ENABLED));
        Did(Claim(DoClaimSwap(false)), Put(sys, Shut(sys.w), ClaimDrain(from)));
        return false, g;
      }
      seen := gate;
      Did(Claim(DoClaimSwap(true)), Go(sys, ClaimTest(from, sys.w.gate)));
      return true, seen;
    }

    /** Waits until nobody is counted, or the deadline passes, or the clock fails. */
    method Drain(host: Host, deadline: int, fuel: nat) returns (ok: Option<bool>, timedOut: bool)
      requires Valid() && sys.ctl.pc.ClaimDrain?
      modifies this, counts, host
      ensures Valid() && SameBooks(old(sys), sys)
      ensures old(host.now) <= host.now && old(host.failures) <= host.failures
      ensures ok == Some(false) ==> sys.ctl.pc == Unlocked && host.failures > old(host.failures)
      ensures ok.None? ==> sys.ctl.pc.ClaimDrain? && host.rounds >= old(host.rounds) + fuel
      ensures timedOut ==> host.now >= deadline
      ensures ok == Some(true) ==>
                && sys.ctl == old(sys.ctl).(pc := ClaimStoreRun(old(sys.ctl.pc.from)))
                && (!timedOut ==> sys.w.gate.active == 0)
    {
      var tries := fuel;
      while tries > 0
        invariant Valid() && SameBooks(old(sys), sys) && sys.ctl == old(sys.ctl)
        invariant old(host.now) <= host.now && old(host.failures) == host.failures
        invariant host.rounds >= old(host.rounds) + fuel - tries
      {
        InterfereController();
        if GateActive(gate) == 0 {
          Did(Claim(DoClaimWait(false)), Go(sys, ClaimStoreRun(sys.ctl.pc.from)));
          return Some(true), false;
        }
        var now := host.Milliseconds();
        if now.None? {
          Did(Claim(DoClaimAbort), Go(sys, Unlocked));
          return Some(false), false;
        }
        if now.value >= deadline {
          Did(Claim(DoClaimWait(true)), Go(sys, ClaimStoreRun(sys.ctl.pc.from)));
          return Some(true), true;
        }
        host.GoRound();
        tries := tries - 1;
      }
      return None, false;
    }

    /** The four plain stores of a claim. */
    method Replace(pid: nat, from: uint64, ghost timedOut: bool)
      requires Valid() && sys.ctl.pid == pid && sys.ctl.pc == ClaimStoreRun(from)
      requires !timedOut ==> sys.w.gate.active == 0
      modifies this, counts
      ensures Valid() && sys.ctl == Ctl(pid, true, Ready(Claimed)) && controllerPid == pid
      ensures runId == Replacement(from) < RUN_MASK && Decode(gate) == Idle(runId)
      ensures from != 0 ==> forall r :: r in old(sys.w.runs.enabled) ==> r < runId
      ensures !timedOut && old(sys.w.runs.drained) ==> sys.w.runs.drained
    {
      RunsBelow(from);
      ReplaceRun(from);
      ReplaceGate(from);
      PublishClaim(pid);
    }

    method ReplaceRun(from: uint64)
      requires Valid() && sys.ctl.pc == ClaimStoreRun(from) && EpochsLeft(from) && !sys.w.gate.enabled
      modifies this, counts
      ensures Valid() && sys.ctl == old(sys.ctl).(pc := ClaimStoreGate(from))
      ensures sys.w.runs.enabled == old(sys.w.runs.enabled) && sys.w.runs.drained == old(sys.w.runs.drained)
      ensures !sys.w.gate.enabled && sys.w.gate.active <= old(sys.w.gate.active)
    {
      InterfereController();
      runId := Replacement(from);
      PutRun(from);
    }

    method ReplaceGate(from: uint64)
      requires Valid() && sys.ctl.pc == ClaimStoreGate(from) && EpochsLeft(from) && !sys.w.gate.enabled
      modifies this, counts
      ensures Valid() && sys.ctl == old(sys.ctl).(pc := ClaimStoreCompleted)
      ensures runId == Replacement(from) < RUN_MASK && Decode(gate) == Idle(runId)
      ensures old(sys.w.gate.active) == 0 && old(sys.w.runs.drained) ==> sys.w.runs.drained
    {
      InterfereController();
      gate := GateForRun(Replacement(from));
      ForRunIdle(Replacement(from));
      PutGate(from);
    }

    lemma RunsBelow(from: nat)
      requires Occurs(sys) && (sys.ctl.pc == ClaimStoreRun(from) || sys.ctl.pc == ClaimStoreGate(from))
      ensures EpochsLeft(from) && !sys.w.gate.enabled
      ensures forall r :: r in sys.w.runs.enabled ==> r <= from
    {
      Recall(sys);
    }

    ghost method PutRun(from: nat)
      requires Occurs(sys) && sys.ctl.pc == ClaimStoreRun(from)
      modifies `sys
      ensures Occurs(sys) && sys.ctl == old(sys.ctl).(pc := ClaimStoreGate(from))
      ensures sys.w == old(sys.w).(runId := Replacement(from), runs := sys.w.runs)
      ensures sys.w.runs == old(sys.w.runs).(takeovers := sys.w.runs.takeovers)
    {
      var takeovers := sys.w.runs.takeovers + (if from == 0 then 0 else 1);
      Did(Claim(DoClaimPutRun),
          Put(sys, sys.w.(runId := Replacement(from), runs := sys.w.runs.(takeovers := takeovers)),
              ClaimStoreGate(from)));
    }

    ghost method PutGate(from: nat)
      requires Occurs(sys) && sys.ctl.pc == ClaimStoreGate(from)
      modifies `sys
      ensures Occurs(sys) && sys.ctl == old(sys.ctl).(pc := ClaimStoreCompleted)
      ensures sys.w == old(sys.w).(gate := Idle(Replacement(from)), runs := sys.w.runs)
      ensures sys.w.runs == old(sys.w.runs).(drained := old(sys.w.runs.drained) && old(sys.w.gate.active) == 0)
      ensures sys.w.runId == Replacement(from) < RUN_MASK
    {
      RunsBelow(from);
      Recall(sys);
      var drained := sys.w.runs.drained && sys.w.gate.active == 0;
      Did(Claim(DoClaimPutGate),
          Put(sys, sys.w.(gate := Idle(Replacement(from)), runs := sys.w.runs.(drained := drained)),
              ClaimStoreCompleted));
    }

    /** The stores of completed_run and controller_pid. */
    method PublishClaim(pid: nat)
      requires Valid() && sys.ctl.pid == pid && sys.ctl.pc == ClaimStoreCompleted
      requires Decode(gate) == Idle(sys.w.gate.run)
      modifies this, counts
      ensures Valid() && sys.ctl == Ctl(pid, true, Ready(Claimed)) && controllerPid == pid
      ensures SameBooks(old(sys), sys) && gate == old(gate)
    {
      InterfereController();
      SameWord(gate, old(gate));
      completedRun := 0;
      Did(Claim(DoClaimPutCompleted), Put(sys, sys.w.(completed := 0), ClaimStoreOwner));
      InterfereController();
      SameWord(gate, old(gate));
      controllerPid := pid;
      Did(Claim(DoClaimPutOwner),
          State(sys.w.(owner := pid), sys.ctl.(hasEpoch := true, pc := Ready(Claimed)), sys.dead));
    }

    /** Nothing that a controller keeps account of has changed. */
    ghost predicate SameBooks(s: State, s': State) {
      SameRun(s, s') && s'.w.runs.cancelled == s.w.runs.cancelled
    }

    ghost predicate SameRun(s: State, s': State) {
      && s'.w.runId == s.w.runId && s'.w.runs.enabled == s.w.runs.enabled
      && s'.w.runs.drained == s.w.runs.drained
      && s'.w.hits.strays == s.w.hits.strays && s'.w.hits.marks == s.w.hits.marks
    }

    // ----- Begin -----

    /** cb_begin: EPERM for a process that is not the controller.  For the controller
      * it succeeds exactly when it finds the gate idle and an epoch left, which
      * nobody else can spoil; the new run is open and empty.  Its counters are exact
      * from here on if no strays are left (module Bridge). */
    method BeginRunId(pid: nat) returns (result: Result<uint64, Refusal>)
      requires Valid() && Caller(pid)
      modifies this, counts
      ensures Valid()
      ensures !old(Controls(pid)) <==> result == Err(Perm)
      ensures result == Err(Perm) ==> Between(old(sys), sys, Outsider(pid))
      ensures result != Err(Perm) ==> Controls(pid) && sys.w.runs.drained == old(sys.w.runs.drained)
      ensures result.Ok? ==>
                && result.value == runId == old(runId) + 1
                && sys.ctl.pc == Ready(Began(runId))
                && (forall r :: r in old(sys.w.runs.enabled) ==> r < runId)
                && FreshRun(runId)
      ensures result.Err? && result.error != Perm ==>
                && (result.error == Busy || (result.error == Overflow && old(runId) == 0x3FF_FFFF_FFFF))
                && runId == old(runId) && sys.ctl.pc == Ready(Refused(result.error))
      ensures result == Err(Busy) ==> Decode(gate) != Idle(runId) && old(Decode(gate)) != Idle(old(runId))
      ensures old(Controls(pid)) && old(Decode(gate)) == Idle(old(runId)) && old(runId) < 0x3FF_FFFF_FFFF ==>
                result.Ok?
    {
      var owner := LoadOwner(pid);
      if owner != pid {
        return Err(Perm);
      }
      RunsUpTo();
      var cur := BeginLoads();
      result := BeginAt(cur);
    }

    /** The tests of the gate and the run id, and the stores. */
    method BeginAt(cur: uint64) returns (result: Result<uint64, Refusal>)
      requires Valid() && sys.ctl.pc == BeginGate(cur) && cur == runId <= RUN_MASK
      requires (gate == GateForRun(cur)) == (sys.w.gate == Idle(cur))
      modifies this, counts
      ensures Valid() && sys.ctl.pid == old(sys.ctl.pid) && sys.w.runs.drained == old(sys.w.runs.drained)
      ensures result.Ok? ==>
                && result.value == runId == cur + 1 && sys.ctl.pc == Ready(Began(runId)) && FreshRun(runId)
      ensures result.Err? ==> runId == cur && sys.ctl.pc == Ready(Refused(result.error))
      ensures result == Err(Busy) || result == Err(Overflow) || result.Ok?
      ensures result == Err(Busy) <==> old(sys.w.gate) != Idle(cur)
      ensures result == Err(Busy) ==> Decode(gate) != Idle(cur)
      ensures result == Err(Overflow) ==> cur == RUN_MASK
      ensures result.Ok? ==> cur < RUN_MASK
    {
      if gate != GateForRun(cur) {
        Did(Begin(DoBeginLoadGate), Go(sys, Ready(Refused(Busy))));
        return Err(Busy);
      }
      if cur >= RUN_MASK {
        Did(Begin(DoBeginLoadGate), Go(sys, Ready(Refused(Overflow))));
        return Err(Overflow);
      }
      BeginStores(cur);
      return Ok(cur + 1);
    }

    /** All the stores of a begin, from zeroing to the gate. */
    method BeginStores(cur: uint64)
      requires Valid() && sys.ctl.pc == BeginGate(cur) && sys.w.gate == Idle(cur) && cur == runId < RUN_MASK
      modifies this, counts
      ensures Valid() && sys.ctl == Ctl(old(sys.ctl.pid), false, Ready(Began(runId)))
      ensures runId == cur + 1 && sys.w.runs.drained == old(sys.w.runs.drained) && FreshRun(runId)
    {
      var run := cur + 1;
      ZeroingStarted(cur);
      Zero(run);
      OpenGate(run);
    }

    lemma RunsUpTo()
      requires Occurs(sys) && sys.ctl.pc.Ready?
      ensures forall r :: r in sys.w.runs.enabled ==> r <= sys.w.runId
    {
      Recall(sys);
    }

    /** The load of run_id; the gate is loaded next. */
    method BeginLoads() returns (cur: uint64)
      requires Valid() && sys.ctl.pc.Ready? && controllerPid == sys.ctl.pid
      modifies this, counts
      ensures Valid() && sys.ctl == old(sys.ctl).(pc := BeginGate(cur)) && SameBooks(old(sys), sys)
      ensures cur == runId == old(runId) <= RUN_MASK
      ensures (gate == GateForRun(cur)) == (sys.w.gate == Idle(cur))
      ensures old(sys.w.gate) == Idle(old(runId)) ==> gate == GateForRun(cur)
    {
      Recall(sys);
      Did(Begin(DoBeginCall), Go(sys, BeginRun));
      InterfereController();
      cur := runId;
      Did(Begin(DoBeginLoadRun), Go(sys, BeginGate(cur)));
      InterfereController();
      ForRunIdle(cur);
      SameWord(gate, GateForRun(cur));
    }

    ghost method ZeroingStarted(cur: nat)
      requires Occurs(sys) && sys.ctl.pc == BeginGate(cur) && sys.w.gate == Idle(cur) && cur < RUN_MASK
      modifies `sys
      ensures Occurs(sys) && sys.ctl == old(sys.ctl).(pc := BeginZero(cur + 1, 0))
      ensures sys.w == old(sys.w).(hits := sys.w.hits)
    {
      var hits := sys.w.hits.(epoch := 0, strays := PendingAdds(sys.w.threads, sys.dead),
                              lost := LostAdds(sys.w.threads, sys.dead),
                              marks := PendingMarks(sys.w.threads, sys.dead));
      Did(Begin(DoBeginLoadGate), Put(sys, sys.w.(hits := hits), BeginZero(cur + 1, 0)));
    }

    /** What a begin leaves alone until it stores the run id. */
    ghost predicate StillBeginning(s: State, s': State, pc: CtlPc) {
      && s'.ctl == s.ctl.(pc := pc)
      && s'.w.runId == s.w.runId && s'.w.gate == s.w.gate
      && s'.w.runs.enabled == s.w.runs.enabled && s'.w.runs.drained == s.w.runs.drained
    }

    /** Zeroes the counters one by one, and then the overflow flag. */
    method Zero(run: uint64)
      requires Valid() && sys.ctl.pc == BeginZero(run, 0) && sys.w.gate == Idle(sys.w.gate.run)
      modifies this, counts
      ensures Valid() && StillBeginning(old(sys), sys, BeginStoreCompleted(run))
    {
      var k := 0;
      while k < counts.Length
        invariant k <= counts.Length && Valid()
        invariant StillBeginning(old(sys), sys, BeginZero(run, k))
      {
        ZeroCounter(run, k);
        k := k + 1;
      }
      ZeroFlag(run);
    }

    method ZeroCounter(run: uint64, k: nat)
      requires Valid() && sys.ctl.pc == BeginZero(run, k) && sys.w.gate == Idle(sys.w.gate.run) && k < counts.Length
      modifies this, counts
      ensures Valid() && StillBeginning(old(sys), sys, BeginZero(run, k + 1))
    {
      InterfereController();
      counts[k] := 0;
      SlotZeroed(run, k);
    }

    method ZeroFlag(run: uint64)
      requires Valid() && sys.ctl.pc == BeginZero(run, counts.Length) && sys.w.gate == Idle(sys.w.gate.run)
      modifies this, counts
      ensures Valid() && StillBeginning(old(sys), sys, BeginStoreCompleted(run))
    {
      InterfereController();
      overflow := false;
      FlagZeroed(run);
    }

    ghost method SlotZeroed(run: nat, k: nat)
      requires Occurs(sys) && sys.ctl.pc == BeginZero(run, k) && k < |sys.w.counts|
      modifies `sys
      ensures Occurs(sys) && sys.ctl == old(sys.ctl).(pc := BeginZero(run, k + 1))
      ensures sys.w == old(sys.w).(counts := old(sys.w.counts)[k := 0], hits := sys.w.hits)
    {
      Recall(sys);
      Did(Begin(DoBeginPutZero), Put(sys, ZeroSlot(sys.w, k), BeginZero(run, k + 1)));
    }

    ghost method FlagZeroed(run: nat)
      requires Occurs(sys) && sys.ctl.pc == BeginZero(run, |sys.w.counts|)
      modifies `sys
      ensures Occurs(sys) && sys.ctl == old(sys.ctl).(pc := BeginStoreCompleted(run))
      ensures sys.w == old(sys.w).(overflow := false)
    {
      Recall(sys);
      Did(Begin(DoBeginPutZero), Put(sys, sys.w.(overflow := false), BeginStoreCompleted(run)));
    }

    /** The last three stores of a begin. */
    method OpenGate(run: uint64)
      requires Valid() && sys.ctl.pc == BeginStoreCompleted(run) && sys.w.gate == Idle(sys.w.gate.run)
      modifies this, counts
      ensures Valid() && sys.ctl == Ctl(old(sys.ctl.pid), false, Ready(Began(run)))
      ensures runId == run == old(runId) + 1
      ensures sys.w.runs.drained == old(sys.w.runs.drained) && FreshRun(run)
    {
      NextRun(run);
      StoreCompleted(run);
      StoreRun(run);
      StoreGate(run);
    }

    method StoreCompleted(run: uint64)
      requires Valid() && sys.ctl.pc == BeginStoreCompleted(run) && sys.w.gate == Idle(sys.w.gate.run)
      modifies this, counts
      ensures Valid() && StillBeginning(old(sys), sys, BeginStoreRun(run))
    {
      InterfereController();
      completedRun := 0;
      Did(Begin(DoBeginPutCompleted), Put(sys, sys.w.(completed := 0), BeginStoreRun(run)));
    }

    method StoreRun(run: uint64)
      requires Valid() && sys.ctl.pc == BeginStoreRun(run)
      modifies this, counts
      ensures Valid() && sys.ctl == Ctl(old(sys.ctl.pid), false, BeginStoreGate(run))
      ensures runId == run && sys.w.runs.drained == old(sys.w.runs.drained)
    {
      InterfereController();
      runId := run;
      RunStored(run);
    }

    lemma NextRun(run: nat)
      requires Occurs(sys) && sys.ctl.pc == BeginStoreCompleted(run)
      ensures run == sys.w.runId + 1 <= RUN_MASK
    {
      Recall(sys);
    }

    ghost method RunStored(run: nat)
      requires Occurs(sys) && sys.ctl.pc == BeginStoreRun(run)
      modifies `sys
      ensures Occurs(sys) && sys.ctl == Ctl(old(sys.ctl.pid), false, BeginStoreGate(run))
      ensures sys.w == old(sys.w).(runId := run)
    {
      Did(Begin(DoBeginPutRun),
          State(sys.w.(runId := run), sys.ctl.(hasEpoch := false, pc := BeginStoreGate(run)), sys.dead));
    }

    method StoreGate(run: uint64)
      requires Valid() && sys.ctl.pc == BeginStoreGate(run) && run <= RUN_MASK
      modifies this, counts
      ensures Valid() && sys.ctl == old(sys.ctl).(pc := Ready(Began(run)))
      ensures runId == old(runId) && sys.w.runs.drained == old(sys.w.runs.drained)
      ensures FreshRun(run)
    {
      InterfereController();
      NothingCounted(run);
      WithFlag(run, ENABLED);
      gate := Or(GateForRun(run), ENABLED);
      ghost var hits := sys.w.hits.(epoch := run);
      ghost var runs := sys.w.runs.(enabled := sys.w.runs.enabled + [run]);
      Did(Begin(DoBeginPutGate), Put(sys, sys.w.(gate := Open(run), hits := hits, runs := runs), Ready(Began(run))));
      NewRun(run);
    }

    lemma NewRun(run: nat)
      requires Occurs(sys) && sys.w.gate == Open(run)
      ensures run in sys.w.runs.enabled && run !in sys.w.runs.cancelled
    {
      Recall(sys);
    }

    /** The gate is open and empty, the run is a new one, and nothing has been counted
      * unless a live thread had an add pending when the zeroing started. */
    ghost predicate FreshRun(run: nat)
      reads this, counts
    {
      && Decode(gate) == Open(run)
      && run in sys.w.runs.enabled && run !in sys.w.runs.cancelled
      && (sys.w.runs.drained ==> sys.w.hits.strays == {})
      && (sys.w.hits.strays == {} ==> forall i :: 0 <= i < counts.Length ==> counts[i] == 0)
    }

    lemma NothingCounted(run: nat)
      requires Valid() && sys.ctl.pc == BeginStoreGate(run)
      ensures sys.w.hits.strays == {} ==> forall i :: 0 <= i < counts.Length ==> counts[i] == 0
      ensures sys.w.runs.drained ==> sys.w.hits.strays == {}
    {
      Recall(sys);
      NoWindows(sys.w);
    }

    static lemma NoWindows(w: World)
      requires CountInv(w.counts, w.hits) && Zeroed(w.hits, |w.counts|)
      ensures w.hits.strays == {} ==> forall i :: 0 <= i < |w.counts| ==> w.counts[i] == 0
    {
      if w.hits.strays == {} {
        forall i | 0 <= i < |w.counts| ensures w.hits.window[i] == {} {
          assert forall h :: h in w.hits.window[i] ==> h in w.hits.strays;
        }
      }
    }

    // ----- Cancel -----

    /** cb_cancel: EINVAL for a process that is not the controller, and for a run that
      * is not the current one; else 0 or EBUSY, after either of which the run can
      * never complete.  EBUSY means that at the moment `at` of the call, when the
      * gate was seen or made closed, it still counted a connection, and 0 that it
      * did not.  ESTALE is never returned.  None while still in the loop. */
    method CancelRunId(host: Host, pid: nat, run: uint64, fuel: nat)
        returns (result: Option<Result<(), Refusal>>, ghost at: State)
      requires Valid() && Caller(pid)
      modifies this, counts, host`rounds
      ensures Valid()
      ensures result.None? ==> host.rounds >= old(host.rounds) + fuel
      ensures !old(Controls(pid)) ==> result == Some(Err(Inval)) && Between(old(sys), sys, Outsider(pid))
      ensures old(Controls(pid)) ==>
                SameRun(old(sys), sys) && sys.ctl.pid == pid && CancelledOnly(old(sys), run, result)
      ensures !old(Controls(pid)) || run == 0 || run != old(runId) <==> result == Some(Err(Inval))
      ensures result.Some? && result != Some(Err(Inval)) ==>
                && Met(old(sys), at, run)
                && result.value == if at.w.gate.active != 0 then Err(Busy) else Ok(())
      ensures result.Some? && result.value.Ok? ==>
                sys.ctl.pc == Ready(Cancelled(run, false)) && Decode(gate) == Idle(runId)
      ensures result == Some(Err(Busy)) ==>
                sys.ctl.pc == Ready(Cancelled(run, true)) && AdmittedSome(sys.w.conns.admitted, run)
      ensures old(Controls(pid)) && result == Some(Err(Inval)) ==> sys.ctl.pc == Ready(Refused(Inval))
      ensures result.None? ==> Cancelling(run)
    {
      at := sys;
      if run == 0 {
        BetweenNothing(sys, Outsider(pid));
        if Controls(pid) {
          Did(Cancel(DoCancelCall(0)), Go(sys, Ready(Refused(Inval))));
        }
        return Some(Err(Inval)), at;
      }
      var owner := LoadOwner(pid);
      if owner != pid {
        return Some(Err(Inval)), at;
      }
      result, at := CancelOwned(host, run, fuel);
    }

    /** At the moment `at` of a call that began at `from` the gate was that of `run`. */
    ghost predicate Met(from: State, at: State, run: nat)
      reads this
    {
      Occurs(at) && Grows(from, at) && Grows(at, sys) && at.w.gate.run == run
    }

    /** The run is recorded as cancelled if the call got that far. */
    ghost predicate CancelledOnly(from: State, run: nat, result: Option<Result<(), Refusal>>)
      reads this
    {
      sys.w.runs.cancelled == from.w.runs.cancelled + (if result.Some? && result != Some(Err(Inval)) then {run} else {})
    }

    ghost predicate Cancelling(run: nat)
      reads this
    {
      sys.ctl.pc == Bridge.CancelGate(run) || sys.ctl.pc.CancelCas? || sys.ctl.pc.CancelStore?
    }

    /** What a cancel does for the controller. */
    method CancelOwned(host: Host, run: uint64, fuel: nat)
        returns (result: Option<Result<(), Refusal>>, ghost at: State)
      requires Valid() && sys.ctl.pc.Ready? && controllerPid == sys.ctl.pid && run != 0
      modifies this, counts, host`rounds
      ensures Valid() && SameRun(old(sys), sys) && sys.ctl.pid == old(sys.ctl.pid)
      ensures CancelledOnly(old(sys), run, result)
      ensures run != old(runId) <==> result == Some(Err(Inval))
      ensures result.Some? && result != Some(Err(Inval)) ==>
                && Met(old(sys), at, run)
                && result.value == if at.w.gate.active != 0 then Err(Busy) else Ok(())
      ensures result.Some? && result.value.Ok? ==>
                sys.ctl.pc == Ready(Cancelled(run, false)) && Decode(gate) == Idle(runId)
      ensures result == Some(Err(Busy)) ==>
                sys.ctl.pc == Ready(Cancelled(run, true)) && AdmittedSome(sys.w.conns.admitted, run)
      ensures result == Some(Err(Inval)) ==> sys.ctl.pc == Ready(Refused(Inval))
      ensures result.None? ==> Cancelling(run) && host.rounds >= old(host.rounds) + fuel
    {
      at := sys;
      var current := CancelLoads(run);
      if !current {
        return Some(Err(Inval)), at;
      }
      var shut, g;
      shut, g, at := CancelClose(host, run, fuel, old(sys));
      if !shut {
        return None, at;
      }
      var busy := Settle(run, g, old(sys), at);
      return Some(if busy then Err(Busy) else Ok(())), at;
    }

    /** Erases the completion; the verdict rests on g, which the gate was at `at`. */
    method Settle(run: uint64, g: uint64, ghost from: State, ghost at: State) returns (busy: bool)
      requires Valid() && sys.ctl.pc == CancelStore(run, Decode(g)) && GateRun(g) == run && Seen(from, at, Decode(g))
      modifies this, counts
      ensures Valid() && SameRun(old(sys), sys) && sys.ctl == old(sys.ctl).(pc := Ready(Cancelled(run, busy)))
      ensures sys.w.runs.cancelled == old(sys.w.runs.cancelled) + {run}
      ensures Met(from, at, run) && (busy <==> at.w.gate.active != 0)
      ensures if busy then AdmittedSome(sys.w.conns.admitted, run) else Decode(gate) == Idle(runId)
    {
      EraseCompletion(run, g);
      busy := GateActive(g) != 0;
      if busy {
        MetAdmitted(from, at, run);
      } else {
        GateIdle(run);
      }
    }

    lemma MetAdmitted(from: State, at: State, run: nat)
      requires Met(from, at, run) && at.w.gate.active != 0
      ensures AdmittedSome(sys.w.conns.admitted, run)
    {
      Recall(at);
      CountedAdmitted(at);
      var c :| c in at.w.conns.admitted && c.run == run;
      assert c in sys.w.conns.admitted;
    }

    /** After a cancel that returned 0, and after a snapshot, the gate is idle. */
    lemma GateIdle(run: nat)
      requires Occurs(sys) && sys.ctl.pc.Ready?
      requires sys.ctl.pc.reply == Cancelled(run, false)
               || (sys.ctl.pc.reply.Snapshot? && sys.ctl.pc.reply.run == run)
      ensures sys.w.gate == Idle(run) && run == sys.w.runId
    {
      Recall(sys);
    }

    method EraseCompletion(run: uint64, g: uint64)
      requires Valid() && sys.ctl.pc == CancelStore(run, Decode(g))
      modifies this, counts
      ensures Valid() && SameRun(old(sys), sys) && sys.w.runs.cancelled == old(sys.w.runs.cancelled) + {run}
      ensures sys.ctl == old(sys.ctl).(pc := Ready(Cancelled(run, GateActive(g) != 0)))
      ensures Grows(old(sys), sys)
    {
      InterfereController();
      completedRun := 0;
      CompletionErased(run, Decode(g));
    }

    /** The load of run_id. */
    method CancelLoads(run: uint64) returns (current: bool)
      requires Valid() && sys.ctl.pc.Ready? && controllerPid == sys.ctl.pid && run != 0
      modifies this, counts
      ensures Valid() && SameBooks(old(sys), sys)
      ensures current <==> run == old(runId)
      ensures sys.ctl == old(sys.ctl).(pc := if current then Bridge.CancelGate(run) else Ready(Refused(Inval)))
      ensures Grows(old(sys), sys)
    {
      Did(Cancel(DoCancelCall(run)), Go(sys, CancelRun(run)));
      InterfereController();
      var id := runId;
      Did(Cancel(DoCancelLoadRun),
          Go(sys, if sys.w.runId != run then Ready(Refused(Inval)) else Bridge.CancelGate(run)));
      return id == run;
    }

    /** Closes the gate to the run, waiting out a finalizer; g is the value that the
      * verdict rests on, which the gate had at the moment `at`.  The gate is never
      * found to be another run's. */
    method CancelClose(host: Host, run: uint64, fuel: nat, ghost from: State)
        returns (shut: bool, g: uint64, ghost at: State)
      requires Valid() && sys.ctl.pc == Bridge.CancelGate(run) && Grows(from, sys)
      modifies this, counts, host`rounds
      ensures Valid() && SameBooks(old(sys), sys) && sys.ctl.pid == old(sys.ctl.pid)
      ensures shut ==> sys.ctl == old(sys.ctl).(pc := CancelStore(run, Decode(g)))
      ensures shut ==> GateRun(g) == run && Seen(from, at, Decode(g))
      ensures !shut ==> Cancelling(run) && host.rounds >= old(host.rounds) + fuel
    {
      InterfereController();
      g := gate;
      at := sys;
      GateIsOurs(run);
      Did(Cancel(DoCancelLoadGate), Go(sys, CancelTest(run, sys.w.gate)));
      var tries := fuel;
      while tries > 0
        invariant Valid() && SameBooks(old(sys), sys) && GateRun(g) == run && Seen(from, at, Decode(g))
        invariant sys.ctl == old(sys.ctl).(pc := CancelTest(run, Decode(g)))
        invariant host.rounds >= old(host.rounds) + fuel - tries
      {
        if GateRun(g) != run {
          assert false;
        }
        if And(g, FINALIZING) == 0 && And(g, ENABLED) == 0 {
          return true, g, at;
        }
        var closed;
        closed, g, at := CancelOnce(run, g, from);
        if closed {
          return true, g, at;
        }
        host.GoRound();
        tries := tries - 1;
      }
      return false, g, at;
    }

    lemma GateIsOurs(run: nat)
      requires Occurs(sys) && (sys.ctl.pc == Bridge.CancelGate(run) || (sys.ctl.pc.CancelCas? && sys.ctl.pc.run == run))
      ensures sys.w.gate.run == run
    {
      Recall(sys);
    }

    /** Another load while the gate says FINALIZING, or else the CAS. */
    method CancelOnce(run: uint64, g: uint64, ghost from: State)
        returns (closed: bool, seen: uint64, ghost at: State)
      requires Valid() && sys.ctl.pc == CancelTest(run, Decode(g)) && GateRun(g) == run && Grows(from, sys)
      requires And(g, FINALIZING) != 0 || And(g, ENABLED) != 0
      modifies this, counts
      ensures Valid() && SameBooks(old(sys), sys)
      ensures sys.ctl == old(sys.ctl).(pc := if closed then CancelStore(run, Decode(seen))
                                             else CancelTest(run, Decode(seen)))
      ensures GateRun(seen) == run && Seen(from, at, Decode(seen))
    {
      InterfereController();
      seen := gate;
      at := sys;
      GateIsOurs(run);
      if And(g, FINALIZING) != 0 {
        Did(Cancel(DoCancelLoadGate), Go(sys, CancelTest(run, sys.w.gate)));
        return false, seen, at;
      }
      var spurious: bool := *;
      if gate == g && !spurious {
        ClearEnabled(gate);
        gate := And(gate, Not(ENABLED));
        Did(Cancel(DoCancelSwap(false)), Put(sys, Shut(sys.w), CancelStore(run, Decode(g))));
        return true, g, at;
      }
      Did(Cancel(DoCancelSwap(true)), Go(sys, CancelTest(run, sys.w.gate)));
      return false, seen, at;
    }

    ghost method CompletionErased(run: nat, g: Gate)
      requires Occurs(sys) && sys.ctl.pc == CancelStore(run, g)
      modifies `sys
      ensures Occurs(sys) && sys.ctl == old(sys.ctl).(pc := Ready(Cancelled(run, g.active != 0)))
      ensures sys.w == old(sys.w).(completed := 0, runs := sys.w.runs) && SameRun(old(sys), sys)
      ensures sys.w.runs.cancelled == old(sys.w.runs.cancelled) + {run}
      ensures Grows(old(sys), sys)
    {
      var runs := sys.w.runs.(cancelled := sys.w.runs.cancelled + {run});
      Did(Cancel(DoCancelPutCompleted),
          Put(sys, sys.w.(completed := 0, runs := runs), Ready(Cancelled(run, g.active != 0))));
    }

    // ----- Snapshot -----

    /** What the controller's last call put into `snap`. */
    ghost predicate Took(snap: SnapshotBuffer, run: nat)
      reads this, snap, snap.counts
    {
      && sys.ctl.pc.Ready? && sys.ctl.pc.reply.Snapshot?
      && var reply := sys.ctl.pc.reply;
      && reply.run == run == snap.runId && snap.mode == COUNTS64
      && |reply.counts| == counts.Length == snap.nslots <= snap.counts.Length
      && forall i :: 0 <= i < snap.nslots ==> snap.counts[i] == reply.counts[i]
    }

    /** Why a wait for a snapshot of `run` was refused, at the moment it was: the
      * wait was not over; a counter had wrapped, which takes 2^64 calls of the run
      * on one edge, or a straggler; there was no memory; or the clock had failed. */
    ghost predicate SnapRefused(run: nat, why: Refusal)
      reads this
    {
      match why
      case TimedOut => !WaitOver(sys, run)
      case Overflow => sys.w.overflow && Wrapped(run)
      case NoMemory => true
      case NoClock => true
      case _ => false
    }

    ghost predicate Wrapped(run: nat)
      reads this
    {
      sys.w.hits.strays == {} && sys.w.hits.marks == {} ==>
        exists e :: |CallsOn(sys.w.hits.called, run, e)| >= 0x1_0000_0000_0000_0000
    }

    /** cb_wait_snapshot: EINVAL for a process that is not the controller, and for
      * arguments that make no sense.  Unless a live thread had an older add pending
      * when this run was begun, a snapshot taken holds, for every edge, the number of
      * calls made under its run's tag.  A timeout takes as long as was asked for. */
    method WaitSnapshot(host: Host, pid: nat, run: uint64, snap: SnapshotBuffer?, timeoutMs: int, fuel: nat)
        returns (result: Option<Result<(), Refusal>>)
      requires Valid() && Caller(pid)
      requires snap != null ==> snap.Valid() && snap.counts != counts
      modifies this, counts, host, if snap == null then {} else {snap, snap.counts}
      ensures Valid() && old(host.failures) <= host.failures
      ensures snap != null ==> snap.Valid() && (snap.counts == old(snap.counts) || fresh(snap.counts))
      ensures !old(Controls(pid)) ==> Between(old(sys), sys, Outsider(pid))
      ensures old(Controls(pid)) ==> SameBooks(old(sys), sys) && sys.ctl.pid == pid
      ensures !old(Controls(pid)) || snap == null || run == 0 || timeoutMs <= 0 <==> result == Some(Err(Inval))
      ensures old(Controls(pid)) && result.Some? && result.value.Err? ==>
                sys.ctl.pc == Ready(Refused(result.value.error))
      ensures result.Some? && result.value.Err? && result.value.error != Inval ==> SnapRefused(run, result.value.error)
      ensures result == Some(Err(TimedOut)) ==> host.now - old(host.now) >= timeoutMs
      ensures result == Some(Err(NoClock)) || result == Some(Err(NoMemory)) ==> host.failures > old(host.failures)
      ensures result.None? ==> sys.ctl.pc == SnapCompleted(run) && host.rounds >= old(host.rounds) + fuel
      ensures result.Some? && result.value.Ok? ==>
                && Took(snap, run) && Decode(gate) == Idle(run) && run == runId
                && (sys.w.hits.strays == {} ==>
                      forall i :: 0 <= i < snap.nslots ==> snap.counts[i] == |CallsOn(sys.w.hits.called, run, i)|)
    {
      if snap == null || run == 0 || timeoutMs <= 0 {
        BetweenNothing(sys, Outsider(pid));
        if Controls(pid) {
          Did(Snap(DoSnapCall(0)), Go(sys, Ready(Refused(Inval))));
        }
        return Some(Err(Inval));
      }
      var owner := LoadOwner(pid);
      if owner != pid {
        return Some(Err(Inval));
      }
      result := WaitOwned(host, run, snap, timeoutMs, fuel);
    }

    /** What a wait does for the controller. */
    method WaitOwned(host: Host, run: uint64, snap: SnapshotBuffer, timeoutMs: int, fuel: nat)
        returns (result: Option<Result<(), Refusal>>)
      requires Valid() && sys.ctl.pc.Ready? && controllerPid == sys.ctl.pid && run != 0
      requires snap.Valid() && snap.counts != counts
      modifies this, counts, host, snap, snap.counts
      ensures Valid() && SameBooks(old(sys), sys) && sys.ctl.pid == old(sys.ctl.pid)
      ensures old(host.failures) <= host.failures
      ensures snap.Valid() && (snap.counts == old(snap.counts) || fresh(snap.counts))
      ensures result.Some? && result.value.Err? ==>
                sys.ctl.pc == Ready(Refused(result.value.error)) && SnapRefused(run, result.value.error)
      ensures result == Some(Err(TimedOut)) ==> host.now - old(host.now) >= timeoutMs
      ensures result == Some(Err(NoClock)) || result == Some(Err(NoMemory)) ==> host.failures > old(host.failures)
      ensures result.None? ==> sys.ctl.pc == SnapCompleted(run) && host.rounds >= old(host.rounds) + fuel
      ensures result.Some? && result.value.Ok? ==>
                && Took(snap, run) && Decode(gate) == Idle(run) && run == runId
                && (sys.w.hits.strays == {} ==>
                      forall i :: 0 <= i < snap.nslots ==> snap.counts[i] == |CallsOn(sys.w.hits.called, run, i)|)
    {
      result := WaitFor(host, run, timeoutMs, fuel);
      if result.Some? && result.value.Ok? {
        var taken := TakeSnapshot(host, run, snap);
        return Some(taken);
      }
    }

    /** The wait, by the clock. */
    method WaitFor(host: Host, run: uint64, timeoutMs: int, fuel: nat) returns (done: Option<Result<(), Refusal>>)
      requires Valid() && sys.ctl.pc.Ready? && controllerPid == sys.ctl.pid && run != 0
      modifies this, counts, host
      ensures Valid() && SameBooks(old(sys), sys)
      ensures old(host.failures) <= host.failures
      ensures done.Some? && done.value.Ok? ==> sys.ctl == old(sys.ctl).(pc := SnapRun(run))
      ensures done.Some? && done.value.Err? ==>
                && sys.ctl == old(sys.ctl).(pc := Ready(Refused(done.value.error)))
                && SnapRefused(run, done.value.error)
                && (|| (done.value.error == TimedOut && host.now - old(host.now) >= timeoutMs)
                    || (done.value.error == NoClock && host.failures > old(host.failures)))
      ensures done.None? ==>
                sys.ctl == old(sys.ctl).(pc := SnapCompleted(run)) && host.rounds >= old(host.rounds) + fuel
    {
      Did(Snap(DoSnapCall(run)), Go(sys, SnapCompleted(run)));
      var start := host.Milliseconds();
      if start.None? {
        Stopped(NoClock);
        return Some(Err(NoClock));
      }
      done := WaitCompleted(host, run, start.value + timeoutMs, fuel);
    }

    ghost method Stopped(why: Refusal)
      requires Occurs(sys) && sys.ctl.pc.SnapCompleted? && (why == TimedOut || why == NoClock)
      modifies `sys
      ensures Occurs(sys) && sys == old(sys).(ctl := old(sys.ctl).(pc := Ready(Refused(why))))
    {
      Did(Snap(DoSnapStop(why)), Go(sys, Ready(Refused(why))));
    }

    /** What cb_wait_snapshot does once the wait is over. */
    method TakeSnapshot(host: Host, run: uint64, snap: SnapshotBuffer) returns (result: Result<(), Refusal>)
      requires Valid() && sys.ctl.pc == SnapRun(run) && snap.Valid() && snap.counts != counts
      modifies this, counts, host`failures, snap, snap.counts
      ensures Valid() && SameBooks(old(sys), sys) && sys.ctl.pid == old(sys.ctl.pid)
      ensures snap.Valid() && (snap.counts == old(snap.counts) || fresh(snap.counts))
      ensures old(host.failures) <= host.failures
      ensures result.Err? ==>
                && sys.ctl.pc == Ready(Refused(result.error)) && SnapRefused(run, result.error)
                && (result.error == Overflow || (result.error == NoMemory && host.failures > old(host.failures)))
      ensures result.Ok? ==> Took(snap, run) && Decode(gate) == Idle(run) && run == runId
      ensures result.Ok? && sys.w.hits.strays == {} ==>
                forall i :: 0 <= i < snap.nslots ==> snap.counts[i] == |CallsOn(sys.w.hits.called, run, i)|
    {
      result := SnapChecks(host, run, snap);
      if result.Ok? {
        CopyCounts(run, snap);
        TookExactly(snap, run);
        GateIdle(run);
      }
    }

    lemma TookExactly(snap: SnapshotBuffer, run: nat)
      requires Occurs(sys) && Took(snap, run) && counts.Length == |sys.w.counts|
      ensures sys.w.hits.strays == {} ==>
                forall i :: 0 <= i < snap.nslots ==> snap.counts[i] == |CallsOn(sys.w.hits.called, run, i)|
    {
      Recall(sys);
      if sys.w.hits.strays == {} {
        ExactIsolation(sys);
      }
    }

    /** The wait loop: Ok when both tests passed, and otherwise what stopped it. */
    method WaitCompleted(host: Host, run: uint64, deadline: int, fuel: nat)
        returns (done: Option<Result<(), Refusal>>)
      requires Valid() && sys.ctl.pc == SnapCompleted(run)
      modifies this, counts, host
      ensures Valid() && SameBooks(old(sys), sys)
      ensures old(host.failures) <= host.failures
      ensures done.Some? && done.value.Ok? ==> sys.ctl == old(sys.ctl).(pc := SnapRun(run))
      ensures done.Some? && done.value.Err? ==>
                && sys.ctl == old(sys.ctl).(pc := Ready(Refused(done.value.error)))
                && SnapRefused(run, done.value.error)
                && (|| (done.value.error == TimedOut && host.now >= deadline)
                    || (done.value.error == NoClock && host.failures > old(host.failures)))
      ensures done.None? ==> sys.ctl == old(sys.ctl) && host.rounds >= old(host.rounds) + fuel
    {
      var tries := fuel;
      while tries > 0
        invariant Valid() && SameBooks(old(sys), sys) && sys.ctl == old(sys.ctl)
        invariant host.failures == old(host.failures) && host.rounds >= old(host.rounds) + fuel - tries
      {
        var over := WaitOnce(run);
        if over {
          return Some(Ok(()));
        }
        var now := host.Milliseconds();
        if now.None? {
          Stopped(NoClock);
          return Some(Err(NoClock));
        }
        if now.value >= deadline {
          Stopped(TimedOut);
          return Some(Err(TimedOut));
        }
        host.GoRound();
        tries := tries - 1;
      }
      return None;
    }

    /** One test of the loop condition. */
    method WaitOnce(run: uint64) returns (over: bool)
      requires Valid() && sys.ctl.pc == SnapCompleted(run)
      modifies this, counts
      ensures Valid() && SameBooks(old(sys), sys) && (!over ==> !WaitOver(sys, run))
      ensures sys.ctl == old(sys.ctl).(pc := if over then SnapRun(run) else SnapCompleted(run))
    {
      InterfereController();
      var completed := completedRun;
      Did(Snap(DoSnapLoadCompleted),
          if sys.w.completed == run then Go(sys, Bridge.SnapGate(run)) else sys);
      over := false;
      if completed == run {
        over := WaitGate(run);
      }
    }

    method WaitGate(run: uint64) returns (over: bool)
      requires Valid() && sys.ctl.pc == Bridge.SnapGate(run)
      modifies this, counts
      ensures Valid() && SameBooks(old(sys), sys) && (!over ==> !WaitOver(sys, run))
      ensures sys.ctl == old(sys.ctl).(pc := if over then SnapRun(run) else SnapCompleted(run))
    {
      InterfereController();
      FinishedFits(run);
      ForRunIdle(run);
      SameWord(gate, GateForRun(run));
      over := gate == GateForRun(run);
      Did(Snap(DoSnapLoadGate), Go(sys, if sys.w.gate == Idle(run) then SnapRun(run) else SnapCompleted(run)));
    }

    lemma FinishedFits(run: nat)
      requires Occurs(sys) && sys.ctl.pc == Bridge.SnapGate(run)
      ensures run <= RUN_MASK
    {
      Recall(sys);
    }

    /** The load of run_id: the run is never found replaced. */
    method SnapCheckRun(run: uint64)
      requires Valid() && sys.ctl.pc == SnapRun(run)
      modifies this, counts
      ensures Valid() && SameBooks(old(sys), sys) && sys.ctl == old(sys.ctl).(pc := SnapOverflow(run))
    {
      InterfereController();
      RunIsOurs(run);
      if runId != run {
        assert false;
      }
      Did(Snap(DoSnapLoadRun), Go(sys, SnapOverflow(run)));
    }

    lemma RunIsOurs(run: nat)
      requires Occurs(sys) && sys.ctl.pc == SnapRun(run)
      ensures sys.w.runId == run
    {
      Recall(sys);
    }

    /** The loads of run_id and of the overflow flag, and the buffer. */
    method SnapChecks(host: Host, run: uint64, snap: SnapshotBuffer) returns (result: Result<(), Refusal>)
      requires Valid() && sys.ctl.pc == SnapRun(run) && snap.Valid() && snap.counts != counts
      modifies this, counts, host`failures, snap
      ensures Valid() && SameBooks(old(sys), sys)
      ensures snap.Valid() && snap.counts != counts && (snap.counts == old(snap.counts) || fresh(snap.counts))
      ensures old(host.failures) <= host.failures
      ensures result.Err? ==>
                && sys.ctl == old(sys.ctl).(pc := Ready(Refused(result.error)))
                && SnapRefused(run, result.error)
                && (result.error == Overflow || (result.error == NoMemory && host.failures > old(host.failures)))
      ensures result.Ok? ==> sys.ctl == old(sys.ctl).(pc := SnapCopy(run, [], [])) && snap.nslots == counts.Length
    {
      SnapCheckRun(run);
      InterfereController();
      if overflow {
        HasWrapped(run);
        Did(Snap(DoSnapLoadOverflow(false)), Go(sys, Ready(Refused(Overflow))));
        return Err(Overflow);
      }
      var ok := snap.Reserve(host, counts.Length);
      Did(Snap(DoSnapLoadOverflow(!ok)), Go(sys, if !ok then Ready(Refused(NoMemory)) else SnapCopy(run, [], [])));
      return if ok then Ok(()) else Err(NoMemory);
    }

    lemma HasWrapped(run: nat)
      requires Occurs(sys) && sys.ctl.pc == SnapOverflow(run) && sys.w.overflow
      ensures Wrapped(run)
    {
      Recall(sys);
      if sys.w.hits.strays == {} && sys.w.hits.marks == {} {
        var e := OverflowMeansWrap(sys);
      }
    }

    method CopyCounts(run: uint64, snap: SnapshotBuffer)
      requires Valid() && sys.ctl.pc == SnapCopy(run, [], []) && snap.Valid() && snap.counts != counts
      requires snap.nslots == counts.Length
      modifies this, counts, snap`runId, snap`mode, snap.counts
      ensures Valid() && SameBooks(old(sys), sys) && sys.ctl.pid == old(sys.ctl.pid)
      ensures snap.Valid() && Took(snap, run)
    {
      snap.runId, snap.mode := run, COUNTS64;
      ghost var copied, hits := CopyAll(run, snap);
      AllCopied(run, copied, hits);
    }

    /** The copy loop. */
    method CopyAll(run: uint64, snap: SnapshotBuffer) returns (ghost copied: seq<nat>, ghost hits: seq<set<Hit>>)
      requires Valid() && sys.ctl.pc == SnapCopy(run, [], []) && snap.Valid() && snap.counts != counts
      requires snap.nslots == counts.Length
      modifies this, counts, snap.counts
      ensures Valid() && SameBooks(old(sys), sys)
      ensures sys.ctl == old(sys.ctl).(pc := SnapCopy(run, copied, hits)) && |copied| == counts.Length
      ensures forall i :: 0 <= i < snap.nslots ==> snap.counts[i] == copied[i]
    {
      copied, hits := [], [];
      var k := 0;
      while k < snap.nslots
        invariant k <= snap.nslots && Valid() && SameBooks(old(sys), sys)
        invariant sys.ctl == old(sys.ctl).(pc := SnapCopy(run, copied, hits))
        invariant |copied| == k && forall i :: 0 <= i < k ==> copied[i] == snap.counts[i]
      {
        copied, hits := CopyCount(run, snap, k, copied, hits);
        k := k + 1;
      }
    }

    method CopyCount(run: uint64, snap: SnapshotBuffer, k: nat, ghost copied: seq<nat>, ghost hits: seq<set<Hit>>)
        returns (ghost copied': seq<nat>, ghost hits': seq<set<Hit>>)
      requires Valid() && snap.counts != counts && k == |copied| < counts.Length <= snap.counts.Length
      requires sys.ctl.pc == SnapCopy(run, copied, hits)
      modifies this, counts, snap.counts
      ensures Valid() && SameBooks(old(sys), sys)
      ensures sys.ctl == old(sys.ctl).(pc := SnapCopy(run, copied', hits'))
      ensures copied' == copied + [snap.counts[k]]
      ensures forall i :: 0 <= i < k ==> snap.counts[i] == old(snap.counts[i])
    {
      InterfereController();
      snap.counts[k] := counts[k];
      copied' := copied + [sys.w.counts[k]];
      hits' := CountCopied(run, copied, hits);
    }

    ghost method CountCopied(run: nat, copied: seq<nat>, hits: seq<set<Hit>>) returns (more: seq<set<Hit>>)
      requires Occurs(sys) && sys.ctl.pc == SnapCopy(run, copied, hits) && |copied| < |sys.w.counts|
      modifies `sys
      ensures Occurs(sys) && sys.w == old(sys.w)
      ensures sys.ctl == old(sys.ctl).(pc := SnapCopy(run, copied + [sys.w.counts[|copied|]], more))
    {
      Recall(sys);
      more := hits + [sys.w.hits.window[|copied|]];
      Did(Snap(DoSnapLoadCount), Go(sys, SnapCopy(run, copied + [sys.w.counts[|copied|]], more)));
    }

    ghost method AllCopied(run: nat, copied: seq<nat>, hits: seq<set<Hit>>)
      requires Occurs(sys) && sys.ctl.pc == SnapCopy(run, copied, hits) && |copied| == |sys.w.counts|
      modifies `sys
      ensures Occurs(sys) && sys.w == old(sys.w)
      ensures sys.ctl == old(sys.ctl).(pc := Ready(Snapshot(run, copied, hits)))
    {
      Recall(sys);
      Did(Snap(DoSnapLoadCount), Go(sys, Ready(Snapshot(run, copied, hits))));
    }
  }
}
