/** The shared coverage map and everyone who touches it, as a step machine.
  *
  * One step is one access to the shared map (or one thread-local effect), so a
  * trace of steps is a sequentially consistent interleaving.  Threads belong to
  * processes, and a process may die between any two steps.  The controller is
  * whoever holds the controller lock file; the lock admits one live holder. */
module Bridge {
  import opened Wrappers

  const ACTIVE_MASK: nat := 0xF_FFFF
  const RUN_MASK: nat := 0x3FF_FFFF_FFFF
  const COUNTER_LIMIT: nat := 0x1_0000_0000_0000_0000

  /** The gate, unpacked: the packed 64-bit word is in module GateWord. */
  datatype Gate = Gate(enabled: bool, finalizing: bool, run: nat, active: nat)

  function Idle(run: nat): Gate {
    Gate(false, false, run, 0)
  }

  function Open(run: nat): Gate {
    Gate(true, false, run, 0)
  }

  function Finalizing(run: nat): Gate {
    Gate(false, true, run, 0)
  }

  predicate Allows(g: Gate, run: nat) {
    g.enabled && g.run == run
  }

  /** A connection that cb_connection_begin admitted. */
  datatype Conn = Conn(id: nat, run: nat, proc: nat)

  /** One guard call made by a thread while it carried the tag `run`. */
  datatype Hit = Hit(id: nat, thread: nat, run: nat, edge: nat)

  /** What a thread's last cb_connection_end returned. */
  datatype EndResult = NotEnded | Ended | Stale | Invalid

  /** Where a worker thread stands; the comment is the next access. */
  datatype Pc =
    | Free
    | GuardAdd(hit: Hit)    // fetch-add on the counter
    | GuardMark(hit: Hit)   // store of the overflow flag
    | JoinRun(seen: Gate)   // load of run_id
    | JoinCas(seen: Gate)   // admission CAS
    | JoinTag               // thread_run := run
    | ResumeGate            // load of the gate, to resume
    | ResumeTag             // thread_run := run
    | EndRun                // load of run_id
    | EndGate               // load of the gate
    | EndCas(seen: Gate)    // decrement or finalizing CAS
    | FinRun(conn: Conn)    // load of run_id
    | FinStore(conn: Conn)  // store of completed_run
    | FinCas(conn: Conn)    // CAS from finalizing to idle
  {
    predicate Finalizer() {
      FinRun? || FinStore? || FinCas?
    }
  }

  datatype Thread = Thread(proc: nat, tag: nat, held: Option<Conn>, last: EndResult, pc: Pc)

  datatype Refusal = Perm | Busy | Overflow | Inval | StaleGate | TimedOut | NoMemory | NoClock

  /** What the controller's last call returned. */
  datatype Reply =
    | Claimed
    | Began(run: nat)
    | Cancelled(run: nat, busy: bool)
    | Snapshot(run: nat, counts: seq<nat>, hits: seq<set<Hit>>)
    | Refused(why: Refusal)

  datatype CtlPc =
    | Unlocked
    | Locked
    | ClaimGate(from: nat)
    | ClaimClose(from: nat, seen: Gate)
    | ClaimDrain(from: nat)
    | ClaimStoreRun(from: nat)
    | ClaimStoreGate(from: nat)
    | ClaimStoreCompleted
    | ClaimStoreOwner
    | Ready(reply: Reply)
    | BeginRun
    | BeginGate(run: nat)
    | BeginZero(run: nat, next: nat)
    | BeginStoreCompleted(run: nat)
    | BeginStoreRun(run: nat)
    | BeginStoreGate(run: nat)
    | CancelRun(run: nat)
    | CancelGate(run: nat)
    | CancelCas(run: nat, seen: Gate)
    | CancelStore(run: nat, seen: Gate)
    | SnapCompleted(run: nat)
    | SnapGate(run: nat)
    | SnapRun(run: nat)
    | SnapOverflow(run: nat)
    | SnapCopy(run: nat, counts: seq<nat>, hits: seq<set<Hit>>)

  /** `hasEpoch` holds from a claim until the next run id is stored. */
  datatype Ctl = Ctl(pid: nat, hasEpoch: bool, pc: CtlPc)

  // What happened so far.  No step reads these logs to decide what to do.

  datatype ConnLog = ConnLog(
    next: nat,
    admitted: set<Conn>,      // the admission CAS succeeded
    open: set<Conn>,          // ... and the decrement CAS has not
    returned: set<Conn>,      // the connection's end call returned
    holder: map<Conn, nat>)   // the thread that last took the connection up

  datatype HitLog = HitLog(
    next: nat,
    called: set<Hit>,         // tagged guard calls
    window: seq<set<Hit>>,    // per slot: the adds since it was last zeroed
    epoch: nat,               // the run the windows account for, 0 while zeroing
    strays: set<Hit>,         // the adds pending when zeroing last started ...
    lost: set<Hit>,           // ... and those that a death had cut off by then
    marks: set<Hit>)          // the overflow marks pending at that moment

  datatype RunLog = RunLog(
    enabled: seq<nat>,        // in the order begin opened them
    finalized: seq<nat>,      // in the order a last leaver closed them
    closer: map<nat, nat>,    // run -> the thread that finalized it
    shut: set<nat>,           // ENABLED cleared by a claim or a cancel
    cancelled: set<nat>,      // a cancel of the run erased its completion
    takeovers: nat,           // claims that replaced a nonzero run
    drained: bool,            // no claim gave up waiting for connections
    late: nat)                // the gate's run, if a stale finalizer was the last to store

  /** The shared map, the worker threads and the suspended connections. */
  datatype World = World(
    runId: nat,
    completed: nat,
    owner: nat,
    gate: Gate,
    overflow: bool,
    counts: seq<nat>,
    threads: seq<Thread>,
    parked: set<Conn>,
    conns: ConnLog,
    hits: HitLog,
    runs: RunLog)

  datatype State = State(w: World, ctl: Ctl, dead: set<nat>)

  predicate Init(s: State) {
    InitWorld(s.w) && s.ctl.pc.Unlocked? && s.dead == {}
  }

  predicate InitWorld(w: World) {
    && w.runId == 0 && w.completed == 0 && w.owner == 0
    && w.gate == Idle(0) && !w.overflow
    && (forall i :: 0 <= i < |w.counts| ==> w.counts[i] == 0)
    && (forall t :: 0 <= t < |w.threads| ==>
          w.threads[t] == Thread(w.threads[t].proc, 0, None, NotEnded, Free))
    && w.parked == {}
    && w.conns == ConnLog(0, {}, {}, {}, map[])
    && w.hits == HitLog(0, {}, seq(|w.counts|, i => {}), 0, {}, {}, {})
    && w.runs == RunLog([], [], map[], {}, {}, 0, true, 0)
  }

  // ----- Vocabulary -----

  predicate At(w: World, t: nat, pc: Pc) {
    t < |w.threads| && w.threads[t].pc == pc
  }

  function Move(w: World, t: nat, pc: Pc): World
    requires t < |w.threads|
  {
    w.(threads := w.threads[t := w.threads[t].(pc := pc)])
  }

  /** The counted connections of a run. */
  function OpenOf(open: set<Conn>, run: nat): set<Conn> {
    set c | c in open && c.run == run
  }

  /** The calls that tagged threads of `run` made on `edge`. */
  function CallsOn(called: set<Hit>, run: nat, edge: nat): set<Hit> {
    set h | h in called && h.run == run && h.edge == edge
  }

  /** The guard calls of live threads between their gate load and their fetch-add. */
  function PendingAdds(threads: seq<Thread>, dead: set<nat>): set<Hit> {
    set t: nat | t < |threads| && threads[t].pc.GuardAdd? && threads[t].proc !in dead :: threads[t].pc.hit
  }

  /** The same of dead threads: these adds never happen. */
  function LostAdds(threads: seq<Thread>, dead: set<nat>): set<Hit> {
    set t: nat | t < |threads| && threads[t].pc.GuardAdd? && threads[t].proc in dead :: threads[t].pc.hit
  }

  /** The guard calls of live threads between a fetch-add that wrapped its counter
    * and the store of the overflow flag. */
  function PendingMarks(threads: seq<Thread>, dead: set<nat>): set<Hit> {
    set t: nat | t < |threads| && threads[t].pc.GuardMark? && threads[t].proc !in dead :: threads[t].pc.hit
  }

  // ----- Guard wrapper -----

  predicate GuardCall(w: World, t: nat, edge: nat, w': World) {
    && At(w, t, Free) && w.threads[t].tag != 0 && edge < |w.counts|
    && var h := Hit(w.hits.next, t, w.threads[t].tag, edge);
    && w' == Move(w, t, if Allows(w.gate, h.run) then GuardAdd(h) else Free)
             .(hits := w.hits.(next := h.id + 1, called := w.hits.called + {h}))
  }

  predicate GuardCount(w: World, t: nat, w': World) {
    && t < |w.threads| && w.threads[t].pc.GuardAdd?
    && var h := w.threads[t].pc.hit;
    && h.edge < |w.counts| == |w.hits.window|
    && var count := w.counts[h.edge];
    && w' == Move(w, t, if count == COUNTER_LIMIT - 1 then GuardMark(h) else Free)
             .(counts := w.counts[h.edge := (count + 1) % COUNTER_LIMIT],
               hits := w.hits.(window := w.hits.window[h.edge := w.hits.window[h.edge] + {h}]))
  }

  predicate GuardOverflow(w: World, t: nat, w': World) {
    && t < |w.threads| && w.threads[t].pc.GuardMark?
    && w' == Move(w, t, Free).(overflow := true)
  }

  // ----- Connection begin -----

  /** The tests made on a gate value just loaded, before run_id is read. */
  function JoinTest(g: Gate): Pc {
    if !g.enabled || g.active == ACTIVE_MASK || g.run == 0 then Free else JoinRun(g)
  }

  predicate JoinLoad(w: World, t: nat, w': World) {
    && At(w, t, Free) && w.threads[t].held.None?
    && w' == Move(w, t, JoinTest(w.gate))
  }

  predicate JoinCheck(w: World, t: nat, w': World) {
    && t < |w.threads| && w.threads[t].pc.JoinRun?
    && var g := w.threads[t].pc.seen;
    && w' == Move(w, t, if w.runId != g.run then Free else JoinCas(g))
  }

  /** A weak CAS may fail although the value matches. */
  predicate JoinSwap(w: World, t: nat, spurious: bool, w': World) {
    && t < |w.threads| && w.threads[t].pc.JoinCas?
    && var g := w.threads[t].pc.seen;
    && if w.gate == g && !spurious then
         var c := Conn(w.conns.next, g.run, w.threads[t].proc);
         w' == w.(gate := g.(active := g.active + 1),
                  threads := w.threads[t := w.threads[t].(held := Some(c), pc := JoinTag)],
                  conns := w.conns.(next := c.id + 1, admitted := w.conns.admitted + {c},
                                    open := w.conns.open + {c}, holder := w.conns.holder[c := t]))
       else
         w' == Move(w, t, JoinTest(w.gate))
  }

  predicate TakeTag(w: World, t: nat, w': World) {
    && t < |w.threads| && (w.threads[t].pc.JoinTag? || w.threads[t].pc.ResumeTag?)
    && w.threads[t].held.Some?
    && w' == w.(threads := w.threads[t := w.threads[t].(tag := w.threads[t].held.value.run, pc := Free)])
  }

  // ----- Suspend and resume -----

  predicate Suspend(w: World, t: nat, w': World) {
    && At(w, t, Free) && w.threads[t].held.Some?
    && w' == w.(threads := w.threads[t := w.threads[t].(tag := 0, held := None)],
                parked := w.parked + {w.threads[t].held.value})
  }

  /** Apache hands a suspended connection to one thread. */
  predicate Resume(w: World, t: nat, c: Conn, w': World) {
    && At(w, t, Free) && w.threads[t].held.None? && c in w.parked && c.proc == w.threads[t].proc
    && w' == w.(threads := w.threads[t := w.threads[t].(held := Some(c), pc := ResumeGate)],
                parked := w.parked - {c}, conns := w.conns.(holder := w.conns.holder[c := t]))
  }

  predicate ResumeLoad(w: World, t: nat, w': World) {
    && At(w, t, ResumeGate) && w.threads[t].held.Some?
    && w' == Move(w, t, if Allows(w.gate, w.threads[t].held.value.run) then ResumeTag else Free)
  }

  // ----- Connection end -----

  predicate EndStart(w: World, t: nat, w': World) {
    && At(w, t, Free) && w.threads[t].held.Some?
    && w' == w.(threads := w.threads[t := w.threads[t].(tag := 0, pc := EndRun)])
  }

  /** Pool cleanup of a suspended connection. */
  predicate EndParked(w: World, t: nat, c: Conn, w': World) {
    && At(w, t, Free) && w.threads[t].held.None? && c in w.parked && c.proc == w.threads[t].proc
    && w' == w.(threads := w.threads[t := w.threads[t].(tag := 0, held := Some(c), pc := EndRun)],
                parked := w.parked - {c}, conns := w.conns.(holder := w.conns.holder[c := t]))
  }

  function Return(w: World, t: nat, c: Conn, result: EndResult): World
    requires t < |w.threads|
  {
    w.(threads := w.threads[t := w.threads[t].(held := None, last := result, pc := Free)],
       conns := w.conns.(returned := w.conns.returned + {c}))
  }

  predicate EndCheckRun(w: World, t: nat, w': World) {
    && At(w, t, EndRun) && w.threads[t].held.Some?
    && var c := w.threads[t].held.value;
    && w' == if w.runId != c.run then Return(w, t, c, Stale) else Move(w, t, EndGate)
  }

  predicate EndCheckGate(w: World, t: nat, w': World) {
    && At(w, t, EndGate) && w.threads[t].held.Some?
    && var c := w.threads[t].held.value;
    && w' == if w.gate.run != c.run then Return(w, t, c, Stale)
             else if w.gate.active == 0 then Return(w, t, c, Invalid)
             else Move(w, t, EndCas(w.gate))
  }

  predicate EndSwap(w: World, t: nat, spurious: bool, w': World) {
    && t < |w.threads| && w.threads[t].pc.EndCas? && w.threads[t].held.Some?
    && var g := w.threads[t].pc.seen;
    && var c := w.threads[t].held.value;
    && g.active >= 1
    && if w.gate != g || spurious then
         w' == Move(w, t, EndRun)
       else if g.active == 1 && g.enabled then
         w' == w.(gate := Finalizing(c.run),
                  threads := w.threads[t := w.threads[t].(held := None, pc := FinRun(c))],
                  conns := w.conns.(open := w.conns.open - {c}),
                  runs := w.runs.(closer := w.runs.closer[c.run := t],
                                  finalized := w.runs.finalized + [c.run]))
       else
         var w1 := w.(gate := g.(active := g.active - 1), conns := w.conns.(open := w.conns.open - {c}));
         w' == Return(w1, t, c, Ended)
  }

  predicate FinCheck(w: World, t: nat, w': World) {
    && t < |w.threads| && w.threads[t].pc.FinRun?
    && var c := w.threads[t].pc.conn;
    && w' == if w.runId != c.run then Return(w, t, c, Stale) else Move(w, t, FinStore(c))
  }

  predicate FinPublish(w: World, t: nat, w': World) {
    && t < |w.threads| && w.threads[t].pc.FinStore?
    && var c := w.threads[t].pc.conn;
    && w' == Move(w, t, FinCas(c)).(completed := c.run,
               runs := w.runs.(late := if c.run != w.gate.run then w.gate.run else 0))
  }

  predicate FinSwap(w: World, t: nat, w': World) {
    && t < |w.threads| && w.threads[t].pc.FinCas?
    && var c := w.threads[t].pc.conn;
    && w' == if w.gate == Finalizing(c.run) then Return(w.(gate := Idle(c.run)), t, c, Ended)
             else Return(w, t, c, Stale)
  }

  // ----- Process death -----

  /** A death stops every thread of the process and frees the lock file. */
  predicate Die(s: State, p: nat, s': State) {
    s' == State(s.w, if s.ctl.pid == p then s.ctl.(pc := Unlocked) else s.ctl, s.dead + {p})
  }

  // ----- Controller: lock and claim -----

  predicate TakeLock(s: State, p: nat, s': State) {
    && s.ctl.pc.Unlocked? && p !in s.dead
    && s' == s.(ctl := Ctl(p, false, Locked))
  }

  /** The controller moves to `pc`; the map is not written. */
  function Go(s: State, pc: CtlPc): State {
    s.(ctl := s.ctl.(pc := pc))
  }

  /** The controller moves to `pc` and leaves the world as w. */
  function Put(s: State, w: World, pc: CtlPc): State {
    State(w, s.ctl.(pc := pc), s.dead)
  }

  /** A claim needs one epoch for itself and one for the begin after it. */
  predicate EpochsLeft(from: nat) {
    from < RUN_MASK && (from == 0 || from < RUN_MASK - 1)
  }

  function Replacement(from: nat): nat {
    if from == 0 then 0 else from + 1
  }

  predicate ClaimLoadRun(s: State, s': State) {
    && s.ctl.pc.Locked?
    && s' == Go(s, if EpochsLeft(s.w.runId) then ClaimGate(s.w.runId) else Unlocked)
  }

  function ClaimTest(from: nat, g: Gate): CtlPc {
    if g.enabled then ClaimClose(from, g) else ClaimDrain(from)
  }

  predicate ClaimLoadGate(s: State, s': State) {
    && s.ctl.pc.ClaimGate?
    && s' == Go(s, ClaimTest(s.ctl.pc.from, s.w.gate))
  }

  /** Clears ENABLED, which shuts the run before its last leaver could. */
  function Shut(w: World): World {
    w.(gate := w.gate.(enabled := false), runs := w.runs.(shut := w.runs.shut + {w.gate.run}))
  }

  predicate ClaimSwap(s: State, spurious: bool, s': State) {
    && s.ctl.pc.ClaimClose?
    && var from, g := s.ctl.pc.from, s.ctl.pc.seen;
    && s' == if s.w.gate == g && !spurious then Put(s, Shut(s.w), ClaimDrain(from))
             else Go(s, ClaimTest(from, s.w.gate))
  }

  /** One look at the active count: `expired` when the deadline has passed. */
  predicate ClaimWait(s: State, expired: bool, s': State) {
    && s.ctl.pc.ClaimDrain?
    && s' == if s.w.gate.active == 0 || expired then Go(s, ClaimStoreRun(s.ctl.pc.from)) else s
  }

  /** The clock failed, before the first load or while waiting: the claim
    * returns an error and the lock file is closed. */
  predicate ClaimAbort(s: State, s': State) {
    && (s.ctl.pc.Locked? || s.ctl.pc.ClaimDrain?)
    && s' == Go(s, Unlocked)
  }

  predicate ClaimPutRun(s: State, s': State) {
    && s.ctl.pc.ClaimStoreRun?
    && var from := s.ctl.pc.from;
    && var takeovers := s.w.runs.takeovers + (if from == 0 then 0 else 1);
    && s' == Put(s, s.w.(runId := Replacement(from), runs := s.w.runs.(takeovers := takeovers)),
                 ClaimStoreGate(from))
  }

  predicate ClaimPutGate(s: State, s': State) {
    && s.ctl.pc.ClaimStoreGate?
    && var drained := s.w.runs.drained && s.w.gate.active == 0;
    && s' == Put(s, s.w.(gate := Idle(Replacement(s.ctl.pc.from)), runs := s.w.runs.(drained := drained)),
                 ClaimStoreCompleted)
  }

  predicate ClaimPutCompleted(s: State, s': State) {
    && s.ctl.pc.ClaimStoreCompleted?
    && s' == Put(s, s.w.(completed := 0), ClaimStoreOwner)
  }

  predicate ClaimPutOwner(s: State, s': State) {
    && s.ctl.pc.ClaimStoreOwner?
    && s' == State(s.w.(owner := s.ctl.pid), s.ctl.(hasEpoch := true, pc := Ready(Claimed)), s.dead)
  }

  predicate Release(s: State, s': State) {
    && s.ctl.pc.Ready?
    && s' == Go(s, Unlocked)
  }

  // ----- Controller: begin -----

  predicate BeginCall(s: State, s': State) {
    && s.ctl.pc.Ready?
    && s' == Go(s, if s.w.owner != s.ctl.pid then Ready(Refused(Perm)) else BeginRun)
  }

  predicate BeginLoadRun(s: State, s': State) {
    && s.ctl.pc.BeginRun?
    && s' == Go(s, BeginGate(s.w.runId))
  }

  predicate BeginLoadGate(s: State, s': State) {
    && s.ctl.pc.BeginGate?
    && var run := s.ctl.pc.run;
    && var hits := s.w.hits.(epoch := 0, strays := PendingAdds(s.w.threads, s.dead),
                             lost := LostAdds(s.w.threads, s.dead),
                             marks := PendingMarks(s.w.threads, s.dead));
    && s' == if s.w.gate != Idle(run) then Go(s, Ready(Refused(Busy)))
             else if run >= RUN_MASK then Go(s, Ready(Refused(Overflow)))
             else Put(s, s.w.(hits := hits), BeginZero(run + 1, 0))
  }

  function ZeroSlot(w: World, k: nat): World
    requires k < |w.counts| == |w.hits.window|
  {
    w.(counts := w.counts[k := 0], hits := w.hits.(window := w.hits.window[k := {}]))
  }

  predicate BeginPutZero(s: State, s': State) {
    && s.ctl.pc.BeginZero? && |s.w.counts| == |s.w.hits.window|
    && var run, k := s.ctl.pc.run, s.ctl.pc.next;
    && s' == if k < |s.w.counts| then Put(s, ZeroSlot(s.w, k), BeginZero(run, k + 1))
             else Put(s, s.w.(overflow := false), BeginStoreCompleted(run))
  }

  predicate BeginPutCompleted(s: State, s': State) {
    && s.ctl.pc.BeginStoreCompleted?
    && s' == Put(s, s.w.(completed := 0), BeginStoreRun(s.ctl.pc.run))
  }

  predicate BeginPutRun(s: State, s': State) {
    && s.ctl.pc.BeginStoreRun?
    && var run := s.ctl.pc.run;
    && s' == State(s.w.(runId := run), s.ctl.(hasEpoch := false, pc := BeginStoreGate(run)), s.dead)
  }

  predicate BeginPutGate(s: State, s': State) {
    && s.ctl.pc.BeginStoreGate?
    && var run := s.ctl.pc.run;
    && var hits := s.w.hits.(epoch := run);
    && var runs := s.w.runs.(enabled := s.w.runs.enabled + [run]);
    && s' == Put(s, s.w.(gate := Open(run), hits := hits, runs := runs), Ready(Began(run)))
  }

  // ----- Controller: cancel -----

  predicate CancelCall(s: State, run: nat, s': State) {
    && s.ctl.pc.Ready?
    && s' == Go(s, if run == 0 || s.w.owner != s.ctl.pid then Ready(Refused(Inval)) else CancelRun(run))
  }

  predicate CancelLoadRun(s: State, s': State) {
    && s.ctl.pc.CancelRun?
    && var run := s.ctl.pc.run;
    && s' == Go(s, if s.w.runId != run then Ready(Refused(Inval)) else CancelGate(run))
  }

  function CancelTest(run: nat, g: Gate): CtlPc {
    if g.run != run then Ready(Refused(StaleGate))
    else if g.finalizing then CancelGate(run)
    else if !g.enabled then CancelStore(run, g)
    else CancelCas(run, g)
  }

  predicate CancelLoadGate(s: State, s': State) {
    && s.ctl.pc.CancelGate?
    && s' == Go(s, CancelTest(s.ctl.pc.run, s.w.gate))
  }

  predicate CancelSwap(s: State, spurious: bool, s': State) {
    && s.ctl.pc.CancelCas?
    && var run, g := s.ctl.pc.run, s.ctl.pc.seen;
    && s' == if s.w.gate == g && !spurious then Put(s, Shut(s.w), CancelStore(run, g))
             else Go(s, CancelTest(run, s.w.gate))
  }

  predicate CancelPutCompleted(s: State, s': State) {
    && s.ctl.pc.CancelStore?
    && var run, g := s.ctl.pc.run, s.ctl.pc.seen;
    && var runs := s.w.runs.(cancelled := s.w.runs.cancelled + {run});
    && s' == Put(s, s.w.(completed := 0, runs := runs), Ready(Cancelled(run, g.active != 0)))
  }

  // ----- Controller: snapshot -----

  predicate SnapCall(s: State, run: nat, s': State) {
    && s.ctl.pc.Ready?
    && s' == Go(s, if run == 0 || s.w.owner != s.ctl.pid then Ready(Refused(Inval)) else SnapCompleted(run))
  }

  /** The wait loop's first load. */
  predicate SnapLoadCompleted(s: State, s': State) {
    && s.ctl.pc.SnapCompleted?
    && var run := s.ctl.pc.run;
    && s' == if s.w.completed == run then Go(s, SnapGate(run)) else s
  }

  predicate SnapLoadGate(s: State, s': State) {
    && s.ctl.pc.SnapGate?
    && var run := s.ctl.pc.run;
    && s' == Go(s, if s.w.gate == Idle(run) then SnapRun(run) else SnapCompleted(run))
  }

  /** The deadline has passed, or the clock has failed. */
  predicate SnapStop(s: State, why: Refusal, s': State) {
    && s.ctl.pc.SnapCompleted? && (why == TimedOut || why == NoClock)
    && s' == Go(s, Ready(Refused(why)))
  }

  predicate SnapLoadRun(s: State, s': State) {
    && s.ctl.pc.SnapRun?
    && var run := s.ctl.pc.run;
    && s' == Go(s, if s.w.runId != run then Ready(Refused(Overflow)) else SnapOverflow(run))
  }

  predicate SnapLoadOverflow(s: State, noMemory: bool, s': State) {
    && s.ctl.pc.SnapOverflow?
    && s' == Go(s, if s.w.overflow then Ready(Refused(Overflow))
                   else if noMemory then Ready(Refused(NoMemory))
                   else SnapCopy(s.ctl.pc.run, [], []))
  }

  predicate SnapLoadCount(s: State, s': State) {
    && s.ctl.pc.SnapCopy? && |s.w.counts| == |s.w.hits.window|
    && var run, counts, hits := s.ctl.pc.run, s.ctl.pc.counts, s.ctl.pc.hits;
    && var k := |counts|;
    && s' == if k < |s.w.counts| then
               Go(s, SnapCopy(run, counts + [s.w.counts[k]], hits + [s.w.hits.window[k]]))
             else
               Go(s, Ready(Snapshot(run, counts, hits)))
  }

  // ----- Steps and traces -----

  datatype WorkerStep =
    | DoGuardCall(edge: nat) | DoGuardCount | DoGuardOverflow
    | DoJoinLoad | DoJoinCheck | DoJoinSwap(spurious: bool) | DoTakeTag
    | DoSuspend | DoResume(conn: Conn) | DoResumeLoad
    | DoEndStart | DoEndParked(conn: Conn) | DoEndCheckRun | DoEndCheckGate | DoEndSwap(spurious: bool)
    | DoFinCheck | DoFinPublish | DoFinSwap

  datatype ClaimStep =
    | DoTakeLock(pid: nat) | DoClaimLoadRun | DoClaimLoadGate | DoClaimSwap(spurious: bool)
    | DoClaimWait(expired: bool) | DoClaimAbort | DoClaimPutRun | DoClaimPutGate
    | DoClaimPutCompleted | DoClaimPutOwner | DoRelease

  datatype BeginStep =
    | DoBeginCall | DoBeginLoadRun | DoBeginLoadGate | DoBeginPutZero | DoBeginPutCompleted
    | DoBeginPutRun | DoBeginPutGate

  datatype CancelStep =
    | DoCancelCall(run: nat) | DoCancelLoadRun | DoCancelLoadGate | DoCancelSwap(spurious: bool)
    | DoCancelPutCompleted

  datatype SnapStep =
    | DoSnapCall(run: nat) | DoSnapLoadCompleted | DoSnapLoadGate | DoSnapStop(why: Refusal)
    | DoSnapLoadRun | DoSnapLoadOverflow(noMemory: bool) | DoSnapLoadCount

  datatype Step =
    | Worker(thread: nat, work: WorkerStep)
    | Claim(claim: ClaimStep)
    | Begin(begin: BeginStep)
    | Cancel(cancel: CancelStep)
    | Snap(snap: SnapStep)
    | Death(proc: nat)

  predicate WorkerNext(w: World, t: nat, k: WorkerStep, w': World) {
    match k
    case DoGuardCall(edge) => GuardCall(w, t, edge, w')
    case DoGuardCount => GuardCount(w, t, w')
    case DoGuardOverflow => GuardOverflow(w, t, w')
    case DoJoinLoad => JoinLoad(w, t, w')
    case DoJoinCheck => JoinCheck(w, t, w')
    case DoJoinSwap(spurious) => JoinSwap(w, t, spurious, w')
    case DoTakeTag => TakeTag(w, t, w')
    case DoSuspend => Suspend(w, t, w')
    case DoResume(c) => Resume(w, t, c, w')
    case DoResumeLoad => ResumeLoad(w, t, w')
    case DoEndStart => EndStart(w, t, w')
    case DoEndParked(c) => EndParked(w, t, c, w')
    case DoEndCheckRun => EndCheckRun(w, t, w')
    case DoEndCheckGate => EndCheckGate(w, t, w')
    case DoEndSwap(spurious) => EndSwap(w, t, spurious, w')
    case DoFinCheck => FinCheck(w, t, w')
    case DoFinPublish => FinPublish(w, t, w')
    case DoFinSwap => FinSwap(w, t, w')
  }

  predicate ClaimNext(s: State, c: ClaimStep, s': State) {
    match c
    case DoTakeLock(p) => TakeLock(s, p, s')
    case DoClaimLoadRun => ClaimLoadRun(s, s')
    case DoClaimLoadGate => ClaimLoadGate(s, s')
    case DoClaimSwap(spurious) => ClaimSwap(s, spurious, s')
    case DoClaimWait(expired) => ClaimWait(s, expired, s')
    case DoClaimAbort => ClaimAbort(s, s')
    case DoClaimPutRun => ClaimPutRun(s, s')
    case DoClaimPutGate => ClaimPutGate(s, s')
    case DoClaimPutCompleted => ClaimPutCompleted(s, s')
    case DoClaimPutOwner => ClaimPutOwner(s, s')
    case DoRelease => Release(s, s')
  }

  predicate BeginNext(s: State, c: BeginStep, s': State) {
    match c
    case DoBeginCall => BeginCall(s, s')
    case DoBeginLoadRun => BeginLoadRun(s, s')
    case DoBeginLoadGate => BeginLoadGate(s, s')
    case DoBeginPutZero => BeginPutZero(s, s')
    case DoBeginPutCompleted => BeginPutCompleted(s, s')
    case DoBeginPutRun => BeginPutRun(s, s')
    case DoBeginPutGate => BeginPutGate(s, s')
  }

  predicate CancelNext(s: State, c: CancelStep, s': State) {
    match c
    case DoCancelCall(run) => CancelCall(s, run, s')
    case DoCancelLoadRun => CancelLoadRun(s, s')
    case DoCancelLoadGate => CancelLoadGate(s, s')
    case DoCancelSwap(spurious) => CancelSwap(s, spurious, s')
    case DoCancelPutCompleted => CancelPutCompleted(s, s')
  }

  predicate SnapNext(s: State, c: SnapStep, s': State) {
    match c
    case DoSnapCall(run) => SnapCall(s, run, s')
    case DoSnapLoadCompleted => SnapLoadCompleted(s, s')
    case DoSnapLoadGate => SnapLoadGate(s, s')
    case DoSnapStop(why) => SnapStop(s, why, s')
    case DoSnapLoadRun => SnapLoadRun(s, s')
    case DoSnapLoadOverflow(noMemory) => SnapLoadOverflow(s, noMemory, s')
    case DoSnapLoadCount => SnapLoadCount(s, s')
  }

  predicate Next(s: State, a: Step, s': State) {
    match a
    case Worker(t, k) =>
      && t < |s.w.threads| && s.w.threads[t].proc !in s.dead
      && s'.ctl == s.ctl && s'.dead == s.dead
      && WorkerNext(s.w, t, k, s'.w)
    case Claim(c) => ClaimNext(s, c, s')
    case Begin(c) => BeginNext(s, c, s')
    case Cancel(c) => CancelNext(s, c, s')
    case Snap(c) => SnapNext(s, c, s')
    case Death(p) => Die(s, p, s')
  }

  /** A run of the whole system: states[i] --steps[i]--> states[i + 1]. */
  datatype Trace = Trace(states: seq<State>, steps: seq<Step>) {
    predicate Valid() {
      && |states| == |steps| + 1
      && Init(states[0])
      && forall i :: 0 <= i < |steps| ==> Next(states[i], steps[i], states[i + 1])
    }
  }
}
