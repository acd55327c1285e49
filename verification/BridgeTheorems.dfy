/** What the coverage bridge promises, over every interleaving and every
  * placement of process deaths. */
module BridgeTheorems {
  import opened Wrappers
  import opened Bridge
  import opened BridgeInvariant
  import opened WorkerSteps
  import opened ControllerSteps

  ghost predicate Reachable(s: State) {
    exists tr: Trace :: tr.Valid() && tr.states[|tr.states| - 1] == s
  }

  lemma ReachableInv(s: State)
    requires Reachable(s)
    ensures Inv(s)
  {
    var tr: Trace :| tr.Valid() && tr.states[|tr.states| - 1] == s;
    TraceKeeps(tr, |tr.states| - 1);
  }

  // ----- The active count -----

  /** The active field is the number of counted connections of the gate's run,
    * whoever died, and no end call has ever found it at zero. */
  lemma ActiveConserved(s: State)
    requires Reachable(s)
    ensures s.w.gate.active == |OpenOf(s.w.conns.open, s.w.gate.run)|
    ensures forall t :: 0 <= t < |s.w.threads| ==> s.w.threads[t].last != Invalid
  {
    ReachableInv(s);
    forall t: nat | t < |s.w.threads| ensures s.w.threads[t].last != Invalid {
      assert ThreadOk(s.w, t);
    }
  }

  // ----- Phases -----

  /** ENABLED, FINALIZING and idle exclude one another, and a run has at most one
    * finalizer.  It has exactly one while the gate says FINALIZING and the run
    * id has not been replaced; see Scenarios.FinalizerGone for the other case. */
  lemma Phases(s: State)
    requires Reachable(s)
    ensures s.w.gate.enabled ==> s.w.gate.run == s.w.runId >= 1 && !s.w.gate.finalizing
    ensures s.w.gate.finalizing ==> s.w.gate.active == 0
    ensures s.w.gate.finalizing && s.w.gate.run == s.w.runId ==>
              exists t :: Finalizes(s.w.threads, t, s.w.gate.run)
    ensures forall t, u, r :: Finalizes(s.w.threads, t, r) && Finalizes(s.w.threads, u, r) ==> t == u
    ensures s.w.gate.run <= s.w.runId <= 0x3FF_FFFF_FFFF && s.w.gate.active <= 0xF_FFFF
  {
    ReachableInv(s);
    OneFinalizer(s.w);
  }

  lemma OneFinalizer(w: World)
    requires ThreadInv(w)
    ensures forall t, u, r :: Finalizes(w.threads, t, r) && Finalizes(w.threads, u, r) ==> t == u
  {
    forall t, u, r | Finalizes(w.threads, t, r) && Finalizes(w.threads, u, r) ensures t == u {
      assert ThreadOk(w, t) && ThreadOk(w, u);
    }
  }

  /** Each run id is enabled at most once and finalized at most once, ever. */
  lemma OnceEach(s: State)
    requires Reachable(s)
    ensures Increasing(s.w.runs.enabled) && Increasing(s.w.runs.finalized)
    ensures forall r :: r in s.w.runs.finalized ==> r in s.w.runs.enabled && r !in s.w.runs.shut
  {
    ReachableInv(s);
  }

  // ----- Isolation -----

  /** An edge that no stray add has reached is exact, as an integer, whatever has
    * happened to the others; and, short of a wrapped counter, no other edge is. */
  lemma EdgeExact(s: State, e: nat)
    requires Reachable(s) && s.ctl.pc.Ready? && s.ctl.pc.reply.Snapshot? && e < |s.ctl.pc.reply.hits|
    ensures var r := s.ctl.pc.reply;
            && e < |r.counts|
            && (r.hits[e] !! s.w.hits.strays ==> r.counts[e] == |CallsOn(s.w.hits.called, r.run, e)|)
            && (|r.hits[e]| < 0x1_0000_0000_0000_0000 ==>
                  (r.counts[e] == |CallsOn(s.w.hits.called, r.run, e)| <==> r.hits[e] !! s.w.hits.strays))
  {
    ReachableInv(s);
    var r := s.ctl.pc.reply;
    var calls := CallsOn(s.w.hits.called, r.run, e);
    assert r.hits[e] !! s.w.hits.strays <==> r.hits[e] == calls;
    SameSizeSame(calls, r.hits[e]);
  }

  lemma SameSizeSame(a: set<Hit>, b: set<Hit>)
    requires a <= b
    ensures |a| == |b| <==> a == b
  {
    assert b == a + (b - a);
  }

  /** Exact isolation: unless a live thread still had an older add pending when
    * begin started zeroing, a snapshot holds, for every edge, the number of calls
    * that threads tagged with its run made; see NoStragglersExact. */
  lemma ExactIsolation(s: State)
    requires Reachable(s) && s.ctl.pc.Ready? && s.ctl.pc.reply.Snapshot? && s.w.hits.strays == {}
    ensures var r := s.ctl.pc.reply;
            && |r.counts| == |s.w.counts|
            && forall i :: 0 <= i < |r.counts| ==> r.counts[i] == |CallsOn(s.w.hits.called, r.run, i)|
  {
    ReachableInv(s);
    var r := s.ctl.pc.reply;
    forall e: nat | e < |r.counts| ensures r.counts[e] == |CallsOn(s.w.hits.called, r.run, e)| {
      EdgeExact(s, e);
    }
  }

  /** When no claim ever gave up waiting there is no such thread. */
  lemma DrainedNoStrays(s: State)
    requires Reachable(s) && s.w.runs.drained
    ensures s.w.hits.strays == {}
  {
    ReachableInv(s);
  }

  /** What slot k holds beyond the calls of the run. */
  function Extra(called: set<Hit>, run: nat, hits: seq<set<Hit>>, k: nat): nat
    requires k < |hits|
  {
    |hits[k] - CallsOn(called, run, k)|
  }

  /** Adds in the first k slots that no call of the run accounts for. */
  ghost function Surplus(called: set<Hit>, run: nat, hits: seq<set<Hit>>, k: nat): nat
    requires k <= |hits|
  {
    if k == 0 then 0
    else Surplus(called, run, hits, k - 1) + Extra(called, run, hits, k - 1)
  }

  /** What the first k counts show, and what the run's calls account for in them. */
  ghost function Shown(counts: seq<nat>, k: nat): nat
    requires k <= |counts|
  {
    if k == 0 then 0 else Shown(counts, k - 1) + counts[k - 1]
  }

  ghost function Made(called: set<Hit>, run: nat, k: nat): nat {
    if k == 0 then 0 else Made(called, run, k - 1) + |CallsOn(called, run, k - 1)|
  }

  lemma {:induction false} ShownBounded(called: set<Hit>, run: nat, counts: seq<nat>, hits: seq<set<Hit>>, k: nat)
    requires k <= |counts| == |hits|
    requires forall e: nat :: e < k ==> counts[e] <= |CallsOn(called, run, e)| + Extra(called, run, hits, e)
    ensures Shown(counts, k) <= Made(called, run, k) + Surplus(called, run, hits, k)
    decreases k
  {
    if k > 0 {
      ShownBounded(called, run, counts, hits, k - 1);
      var e: nat := k - 1;
      assert counts[e] <= |CallsOn(called, run, e)| + Extra(called, run, hits, e);
    }
  }

  function StraysBelow(strays: set<Hit>, k: nat): set<Hit> {
    set h | h in strays && h.edge < k
  }

  lemma SurplusHere(log: HitLog, run: nat, counts: seq<nat>, hits: seq<set<Hit>>, k: nat)
    requires Copied(log, run, counts, hits) && k < |hits|
    ensures |StraysBelow(log.strays, k)| + Extra(log.called, run, hits, k) <= |StraysBelow(log.strays, k + 1)|
  {
    var less, here := StraysBelow(log.strays, k), hits[k] - CallsOn(log.called, run, k);
    forall h | h in here ensures h in log.strays && h.edge == k {
    }
    assert less !! here;
    SubsetSize(less + here, StraysBelow(log.strays, k + 1));
  }

  lemma {:induction false} SurplusBounded(called: set<Hit>, strays: set<Hit>, run: nat, hits: seq<set<Hit>>, k: nat)
    requires k <= |hits|
    requires forall e: nat :: e < k ==>
               |StraysBelow(strays, e)| + Extra(called, run, hits, e) <= |StraysBelow(strays, e + 1)|
    ensures Surplus(called, run, hits, k) <= |StraysBelow(strays, k)|
    decreases k
  {
    if k > 0 {
      SurplusBounded(called, strays, run, hits, k - 1);
      var e: nat := k - 1;
      assert |StraysBelow(strays, e)| + Extra(called, run, hits, e) <= |StraysBelow(strays, e + 1)|;
    }
  }

  lemma SnapshotCopied(s: State)
    requires Reachable(s) && s.ctl.pc.Ready? && s.ctl.pc.reply.Snapshot?
    ensures var r := s.ctl.pc.reply;
            Copied(s.w.hits, r.run, r.counts, r.hits) && |r.counts| == |r.hits| == |s.w.counts|
  {
    ReachableInv(s);
  }

  lemma CopiedEdge(log: HitLog, run: nat, counts: seq<nat>, hits: seq<set<Hit>>, e: nat)
    requires Copied(log, run, counts, hits) && e < |hits|
    ensures CallsOn(log.called, run, e) <= hits[e] && hits[e] - CallsOn(log.called, run, e) <= log.strays
    ensures counts[e] <= |hits[e]| == |CallsOn(log.called, run, e)| + Extra(log.called, run, hits, e)
    ensures |hits[e]| < 0x1_0000_0000_0000_0000 ==> counts[e] == |hits[e]|
  {
    var calls := CallsOn(log.called, run, e);
    assert hits[e] == calls + (hits[e] - calls);
  }

  /** The adds behind one count: all the calls of its run, and strays.  Unless the
    * counter wrapped, the count is their number; it is never more. */
  lemma EdgeBounded(s: State, e: nat)
    requires Reachable(s) && s.ctl.pc.Ready? && s.ctl.pc.reply.Snapshot? && e < |s.ctl.pc.reply.hits|
    ensures var r, log := s.ctl.pc.reply, s.w.hits;
            && e < |r.counts|
            && CallsOn(log.called, r.run, e) <= r.hits[e]
            && r.hits[e] - CallsOn(log.called, r.run, e) <= log.strays
            && r.counts[e] <= |CallsOn(log.called, r.run, e)| + Extra(log.called, r.run, r.hits, e)
            && (|r.hits[e]| < 0x1_0000_0000_0000_0000 ==>
                  r.counts[e] == |CallsOn(log.called, r.run, e)| + Extra(log.called, r.run, r.hits, e))
  {
    SnapshotCopied(s);
    var r := s.ctl.pc.reply;
    CopiedEdge(s.w.hits, r.run, r.counts, r.hits, e);
  }

  lemma SurplusInAll(log: HitLog, run: nat, counts: seq<nat>, hits: seq<set<Hit>>)
    requires Copied(log, run, counts, hits)
    ensures Surplus(log.called, run, hits, |hits|) <= |log.strays|
  {
    forall e: nat | e < |hits|
      ensures |StraysBelow(log.strays, e)| + Extra(log.called, run, hits, e) <= |StraysBelow(log.strays, e + 1)|
    {
      SurplusHere(log, run, counts, hits, e);
    }
    SurplusBounded(log.called, log.strays, run, hits, |hits|);
    SubsetSize(StraysBelow(log.strays, |hits|), log.strays);
  }

  /** Bounded contamination: in any history, the counts of a snapshot exceed the
    * calls of its run, all edges together, by at most the number of adds that live
    * threads had pending, one to a thread, when begin started zeroing. */
  lemma BoundedContamination(s: State)
    requires Reachable(s) && s.ctl.pc.Ready? && s.ctl.pc.reply.Snapshot?
    ensures var r, log := s.ctl.pc.reply, s.w.hits;
            && |r.counts| == |r.hits| == |s.w.counts|
            && Shown(r.counts, |r.counts|) <= Made(log.called, r.run, |r.counts|) + |log.strays|
            && (forall e :: 0 <= e < |r.counts| ==>
                  && r.counts[e] <= |CallsOn(log.called, r.run, e)| + Extra(log.called, r.run, r.hits, e)
                  && CallsOn(log.called, r.run, e) <= r.hits[e]
                  && r.hits[e] - CallsOn(log.called, r.run, e) <= log.strays
                  && (|r.hits[e]| < 0x1_0000_0000_0000_0000 ==>
                        r.counts[e] == |CallsOn(log.called, r.run, e)| + Extra(log.called, r.run, r.hits, e)))
            && Surplus(log.called, r.run, r.hits, |r.hits|) <= |log.strays|
    ensures forall h, k :: h in s.w.hits.strays && k in s.w.hits.strays && h.thread == k.thread ==> h == k
    ensures forall h :: h in s.w.hits.strays ==> h.run < s.ctl.pc.reply.run
  {
    SnapshotCopied(s);
    var r, log := s.ctl.pc.reply, s.w.hits;
    SurplusInAll(log, r.run, r.counts, r.hits);
    forall e: nat | e < |r.counts|
      ensures r.counts[e] <= |CallsOn(log.called, r.run, e)| + Extra(log.called, r.run, r.hits, e)
      ensures CallsOn(log.called, r.run, e) <= r.hits[e]
      ensures r.hits[e] - CallsOn(log.called, r.run, e) <= log.strays
      ensures |r.hits[e]| < 0x1_0000_0000_0000_0000 ==>
                r.counts[e] == |CallsOn(log.called, r.run, e)| + Extra(log.called, r.run, r.hits, e)
    {
      EdgeBounded(s, e);
    }
    ShownBounded(log.called, r.run, r.counts, r.hits, |r.counts|);
    StraysApart(s);
  }

  lemma StraysApart(s: State)
    requires Reachable(s) && s.ctl.pc.Ready? && s.ctl.pc.reply.Snapshot?
    ensures forall h, k :: h in s.w.hits.strays && k in s.w.hits.strays && h.thread == k.thread ==> h == k
    ensures forall h :: h in s.w.hits.strays ==> h.run < s.ctl.pc.reply.run
  {
    ReachableInv(s);
  }

  /** The windows account for `run`, or a begin is preparing them to. */
  predicate Accounts(s: State, run: nat) {
    || 0 != s.w.hits.epoch == run
    || (s.ctl.pc.BeginZero? && s.ctl.pc.run == run)
    || (s.ctl.pc.BeginStoreCompleted? && s.ctl.pc.run == run)
    || (s.ctl.pc.BeginStoreRun? && s.ctl.pc.run == run)
    || (s.ctl.pc.BeginStoreGate? && s.ctl.pc.run == run)
  }

  /** The step at which begin passed its idle check for `run`. */
  predicate StartsZeroing(s: State, a: Step, run: nat, s': State) {
    a == Begin(DoBeginLoadGate) && s'.ctl.pc == BeginZero(run, 0)
  }

  lemma OthersAccountBefore(s: State, a: Step, run: nat, s': State)
    requires !a.Worker? && !a.Begin? && Next(s, a, s') && Accounts(s', run)
    ensures Accounts(s, run) && s'.w.hits.strays == s.w.hits.strays && s'.w.hits.marks == s.w.hits.marks
  {
  }

  lemma BeginAccountsBefore(s: State, a: BeginStep, run: nat, s': State)
    requires BeginNext(s, a, s') && Accounts(s', run) && !StartsZeroing(s, Begin(a), run, s')
    ensures Accounts(s, run) && s'.w.hits.strays == s.w.hits.strays && s'.w.hits.marks == s.w.hits.marks
  {
  }

  lemma AccountsBefore(s: State, a: Step, run: nat, s': State)
    requires WorldInv(s.w) && LostInv(s) && Next(s, a, s') && Accounts(s', run) && !StartsZeroing(s, a, run, s')
    ensures Accounts(s, run) && s'.w.hits.strays == s.w.hits.strays && s'.w.hits.marks == s.w.hits.marks
  {
    match a
    case Worker(t, k) => WorkerFrames(s, t, k, s');
    case Begin(c) => BeginAccountsBefore(s, c, run, s');
    case _ => OthersAccountBefore(s, a, run, s');
  }

  lemma OriginBefore(tr: Trace, i: nat, run: nat)
    requires tr.Valid() && i < |tr.steps| && Accounts(tr.states[i + 1], run)
    requires !StartsZeroing(tr.states[i], tr.steps[i], run, tr.states[i + 1])
    ensures Accounts(tr.states[i], run) && tr.states[i + 1].w.hits.strays == tr.states[i].w.hits.strays
    ensures tr.states[i + 1].w.hits.marks == tr.states[i].w.hits.marks
  {
    TraceKeeps(tr, i);
    assert Next(tr.states[i], tr.steps[i], tr.states[i + 1]);
    AccountsBefore(tr.states[i], tr.steps[i], run, tr.states[i + 1]);
  }

  lemma NothingAtStart(s: State, run: nat)
    requires Init(s)
    ensures !Accounts(s, run)
  {
  }

  lemma ZeroingRecords(s: State, a: Step, run: nat, s': State)
    requires Next(s, a, s') && StartsZeroing(s, a, run, s')
    ensures s'.w.hits.strays == PendingAdds(s.w.threads, s.dead)
    ensures s'.w.hits.marks == PendingMarks(s.w.threads, s.dead)
  {
  }

  /** Where the strays of a snapshot come from: the adds that live threads had
    * pending at the very step at which begin found the gate idle for this run. */
  lemma StraysOrigin(tr: Trace, j: nat, run: nat) returns (i: nat)
    requires tr.Valid() && j < |tr.states| && Accounts(tr.states[j], run)
    ensures i < j && StartsZeroing(tr.states[i], tr.steps[i], run, tr.states[i + 1])
    ensures tr.states[j].w.hits.strays == PendingAdds(tr.states[i].w.threads, tr.states[i].dead)
    ensures tr.states[j].w.hits.marks == PendingMarks(tr.states[i].w.threads, tr.states[i].dead)
    decreases j
  {
    NothingAtStart(tr.states[0], run);
    if StartsZeroing(tr.states[j - 1], tr.steps[j - 1], run, tr.states[j]) {
      i := j - 1;
      ZeroingRecords(tr.states[i], tr.steps[i], run, tr.states[i + 1]);
    } else {
      OriginBefore(tr, j - 1, run);
      i := StraysOrigin(tr, j - 1, run);
    }
  }

  /** The live threads between their gate load and their fetch-add. */
  function Adders(s: State): set<nat> {
    set t: nat | t < |s.w.threads| && s.w.threads[t].pc.GuardAdd? && s.w.threads[t].proc !in s.dead
  }

  lemma OneAddPerThread(s: State)
    requires Reachable(s)
    ensures |PendingAdds(s.w.threads, s.dead)| == |Adders(s)|
  {
    ReachableInv(s);
    forall t | t in Adders(s) ensures s.w.threads[t].pc.hit.thread == t {
      assert ThreadOk(s.w, t);
    }
    SameSize(PendingAdds(s.w.threads, s.dead), Adders(s));
  }

  lemma SnapshotAccounts(s: State)
    requires Reachable(s) && s.ctl.pc.Ready? && s.ctl.pc.reply.Snapshot?
    ensures Accounts(s, s.ctl.pc.reply.run)
  {
    ReachableInv(s);
  }

  /** Hits and their threads are in one-to-one correspondence. */
  lemma {:induction false} SameSize(hits: set<Hit>, threads: set<nat>)
    requires forall h :: h in hits ==> h.thread in threads
    requires forall t :: t in threads ==> exists h :: h in hits && h.thread == t
    requires forall h, k :: h in hits && k in hits && h.thread == k.thread ==> h == k
    ensures |hits| == |threads|
    decreases hits
  {
    if hits == {} {
      assert threads == {};
    } else {
      var h :| h in hits;
      forall t | t in threads - {h.thread} ensures exists k :: k in hits - {h} && k.thread == t {
        var k :| k in hits && k.thread == t;
        assert k in hits - {h};
      }
      SameSize(hits - {h}, threads - {h.thread});
    }
  }

  /** The contamination of a snapshot is at most the number of live threads inside
    * the guard when begin started zeroing for its run. */
  lemma ContaminationByStalledThreads(tr: Trace, j: nat) returns (i: nat)
    requires tr.Valid() && j < |tr.states|
    requires tr.states[j].ctl.pc.Ready? && tr.states[j].ctl.pc.reply.Snapshot?
    ensures var r := tr.states[j].ctl.pc.reply;
            && i < j && StartsZeroing(tr.states[i], tr.steps[i], r.run, tr.states[i + 1])
            && Shown(r.counts, |r.counts|)
               <= Made(tr.states[j].w.hits.called, r.run, |r.counts|) + |Adders(tr.states[i])|
            && |r.hits| == |r.counts|
            && Surplus(tr.states[j].w.hits.called, r.run, r.hits, |r.hits|) <= |Adders(tr.states[i])|
  {
    PrefixReachable(tr, j);
    BoundedContamination(tr.states[j]);
    SnapshotAccounts(tr.states[j]);
    i := StraysOrigin(tr, j, tr.states[j].ctl.pc.reply.run);
    PrefixReachable(tr, i);
    OneAddPerThread(tr.states[i]);
  }

  /** With no live thread inside the guard at that step the snapshot is exact, as
    * integers, whatever takeovers and deaths came before. */
  lemma NoStragglersExact(tr: Trace, j: nat) returns (i: nat)
    requires tr.Valid() && j < |tr.states|
    requires tr.states[j].ctl.pc.Ready? && tr.states[j].ctl.pc.reply.Snapshot?
    ensures var s, r := tr.states[j], tr.states[j].ctl.pc.reply;
            && i < j && StartsZeroing(tr.states[i], tr.steps[i], r.run, tr.states[i + 1])
            && |r.counts| == |s.w.counts|
            && (Adders(tr.states[i]) == {} ==>
                  forall e :: 0 <= e < |r.counts| ==> r.counts[e] == |CallsOn(s.w.hits.called, r.run, e)|)
  {
    PrefixReachable(tr, j);
    BoundedContamination(tr.states[j]);
    SnapshotAccounts(tr.states[j]);
    i := StraysOrigin(tr, j, tr.states[j].ctl.pc.reply.run);
    if Adders(tr.states[i]) == {} {
      NoAddersNoStrays(tr.states[i]);
      ExactIsolation(tr.states[j]);
    }
  }

  lemma NoAddersNoStrays(s: State)
    requires Adders(s) == {}
    ensures PendingAdds(s.w.threads, s.dead) == {}
  {
    forall t: nat | t < |s.w.threads| && s.w.threads[t].pc.GuardAdd? ensures s.w.threads[t].proc in s.dead {
      assert t !in Adders(s);
    }
  }

  lemma PrefixReachable(tr: Trace, i: nat)
    requires tr.Valid() && i < |tr.states|
    ensures Reachable(tr.states[i])
  {
    var pre := Trace(tr.states[..i + 1], tr.steps[..i]);
    assert pre.Valid() && pre.states[|pre.states| - 1] == tr.states[i];
  }

  // ----- Completion -----

  /** A snapshot of a run means that somebody was admitted to it, that everybody
    * who was has left, and that their end calls have returned. */
  lemma CompletionSound(s: State)
    requires Reachable(s) && s.ctl.pc.Ready? && s.ctl.pc.reply.Snapshot?
    ensures var run := s.ctl.pc.reply.run;
            && AdmittedSome(s.w.conns.admitted, run)
            && (forall c :: c in s.w.conns.admitted && c.run == run ==>
                  c !in s.w.conns.open && c in s.w.conns.returned)
            && run in s.w.runs.finalized && run !in s.w.runs.cancelled && run !in s.w.runs.shut
            && s.w.gate == Idle(run) && s.w.runId == run
  {
    ReachableInv(s);
    var run := s.ctl.pc.reply.run;
    forall c | c in s.w.conns.admitted && c.run == run ensures c !in s.w.conns.open && c in s.w.conns.returned {
      IdleReturned(s, c);
    }
  }

  lemma IdleReturned(s: State, c: Conn)
    requires RunsInv(s.w) && ThreadInv(s.w) && c in s.w.conns.admitted && s.w.gate == Idle(c.run)
    ensures c !in s.w.conns.open && c in s.w.conns.returned
  {
    NotFinalizing(s.w, c.run);
    if c in s.w.conns.open {
      CountedAtLeastOne(s.w, c);
    }
  }

  lemma NotFinalizing(w: World, run: nat)
    requires ThreadInv(w) && w.gate.run == run && !w.gate.finalizing
    ensures forall t :: !Finalizes(w.threads, t, run)
  {
    forall t: nat | t < |w.threads| ensures !Finalizes(w.threads, t, run) {
      assert ThreadOk(w, t);
    }
  }

  /** What cb_wait_snapshot waits for. */
  predicate WaitOver(s: State, run: nat) {
    s.w.completed == run && s.w.gate == Idle(run)
  }

  ghost predicate AllReturned(conns: ConnLog, run: nat) {
    && AdmittedSome(conns.admitted, run)
    && forall c :: c in conns.admitted && c.run == run ==> c in conns.returned
  }

  /** Completion, in general: for a run that nobody shut or cancelled, the gate is
    * idle exactly when every admitted connection's end call has returned; and then
    * the completion stands exactly if no finalizer of a replaced run was the last
    * to store one while the gate was at this run.  WaitBroken says which steps end
    * a completion. */
  lemma CompletionSettles(s: State, run: nat)
    requires Reachable(s) && 0 != run == s.w.hits.epoch == s.w.gate.run == s.w.runId
    requires run !in s.w.runs.shut && run !in s.w.runs.cancelled
    ensures s.w.gate == Idle(run) <==> AllReturned(s.w.conns, run)
    ensures s.w.gate == Idle(run) ==> (s.w.completed == run <==> s.w.runs.late != run)
  {
    ReachableInv(s);
    if s.w.gate == Idle(run) {
      forall c | c in s.w.conns.admitted && c.run == run ensures c in s.w.conns.returned {
        IdleReturned(s, c);
      }
    }
    if AllReturned(s.w.conns, run) {
      AllReturnedIdle(s, run);
    }
  }

  lemma AllReturnedIdle(s: State, run: nat)
    requires RunsInv(s.w) && ThreadInv(s.w) && AllReturned(s.w.conns, run)
    requires run == s.w.gate.run == s.w.runId
    ensures s.w.gate == Idle(run)
  {
    assert OpenOf(s.w.conns.open, run) == {};
    forall t: nat | t < |s.w.threads| ensures !Finalizes(s.w.threads, t, run) {
      assert ThreadOk(s.w, t);
    }
  }

  /** Completion without takeovers: once the end calls of all admitted connections
    * have returned, and there was one, the wait of cb_wait_snapshot is over, and
    * it is never over before. */
  lemma CompletionComplete(s: State, run: nat)
    requires Reachable(s) && s.w.runs.takeovers == 0
    requires 0 != run == s.w.hits.epoch == s.w.gate.run == s.w.runId
    requires run !in s.w.runs.shut && run !in s.w.runs.cancelled
    ensures WaitOver(s, run) <==> AllReturned(s.w.conns, run)
  {
    CompletionSettles(s, run);
    ReachableInv(s);
  }

  /** No live finalizer of another run is at its store, and none has stored late. */
  ghost predicate NoLateStore(s: State, run: nat) {
    && run <= s.w.runId && s.w.runs.late != run
    && forall t: nat :: t < |s.w.threads| && s.w.threads[t].pc.FinStore? && s.w.threads[t].proc !in s.dead ==>
         s.w.threads[t].pc.conn.run >= run
  }

  lemma PublishNotLate(w: World, t: nat, w': World, run: nat)
    requires t < |w.threads| && ThreadOk(w, t) && RunInv(w.runs, w.gate, w.conns.admitted) && FinPublish(w, t, w')
    requires 0 != run && w.threads[t].pc.conn.run >= run
    ensures w'.runs.late != run
  {
  }

  lemma OthersNotLate(w: World, t: nat, k: WorkerStep, w': World)
    requires t < |w.threads| && WorkerNext(w, t, k, w')
    ensures k != DoFinPublish ==> w'.runs.late == w.runs.late
    ensures k == DoFinPublish ==> FinPublish(w, t, w')
    ensures w'.runId == w.runId && w'.threads == w.threads[t := w'.threads[t]]
    ensures w'.threads[t].proc == w.threads[t].proc
    ensures w'.threads[t].pc.FinStore? ==> w'.threads[t].pc.conn.run == w.runId
  {
  }

  lemma ControllerNotLate(s: State, a: Step, s': State)
    requires !a.Worker? && Next(s, a, s')
    ensures s'.w.threads == s.w.threads && s'.w.runs.late == s.w.runs.late && s.dead <= s'.dead
  {
  }

  lemma NotLateStep(s: State, a: Step, s': State, run: nat)
    requires Inv(s) && Next(s, a, s') && run != 0 && NoLateStore(s, run) && run <= s'.w.runId
    ensures NoLateStore(s', run)
  {
    if a.Worker? {
      OthersNotLate(s.w, a.thread, a.work, s'.w);
      if a.work == DoFinPublish {
        assert ThreadOk(s.w, a.thread);
        PublishNotLate(s.w, a.thread, s'.w, run);
      }
    } else {
      ControllerNotLate(s, a, s');
    }
  }

  /** Where the controller's own stores end a completion. */
  predicate EndsWait(a: Step) {
    || a == Claim(DoClaimPutGate) || a == Claim(DoClaimPutCompleted)
    || a == Begin(DoBeginPutCompleted) || a == Begin(DoBeginPutGate)
    || a == Cancel(DoCancelPutCompleted)
  }

  /** A wait that is over stays so until one of those stores, or until the finalizer
    * of another run stores its own id: exactly these steps undo it. */
  lemma WaitBroken(s: State, a: Step, s': State, run: nat)
    requires Reachable(s) && Next(s, a, s') && run != 0 && WaitOver(s, run)
    ensures !WaitOver(s', run) <==>
              || EndsWait(a)
              || (a.Worker? && a.work == DoFinPublish && s.w.threads[a.thread].pc.conn.run != run)
  {
    if a.Worker? {
      ReachableInv(s);
      assert ThreadOk(s.w, a.thread);
      WorkerLeavesIdle(s, a, s');
      PublishOnly(s.w, a.thread, a.work, s'.w);
    } else {
      ReachableInv(s);
      ControllerEnds(s, a, s', run);
    }
  }

  lemma PublishOnly(w: World, t: nat, k: WorkerStep, w': World)
    requires t < |w.threads| && WorkerNext(w, t, k, w')
    ensures k == DoFinPublish ==> w.threads[t].pc.FinStore? && w'.completed == w.threads[t].pc.conn.run
    ensures k != DoFinPublish ==> w'.completed == w.completed
  {
  }

  lemma ControllerEnds(s: State, a: Step, s': State, run: nat)
    requires CtlInv(s) && Next(s, a, s') && !a.Worker? && run != 0 && WaitOver(s, run)
    ensures !WaitOver(s', run) <==> EndsWait(a)
  {
  }

  // ----- Begin's plain stores -----

  predicate InBegin(pc: CtlPc) {
    pc.BeginZero? || pc.BeginStoreCompleted? || pc.BeginStoreRun? || pc.BeginStoreGate?
  }

  /** From its idle check to its gate store, begin finds the gate idle, with
    * nobody counted in it and nobody finalizing its run... */
  lemma BeginUndisturbed(s: State)
    requires Reachable(s) && InBegin(s.ctl.pc)
    ensures s.w.gate == Idle(s.w.gate.run)
    ensures OpenOf(s.w.conns.open, s.w.gate.run) == {}
    ensures forall t :: !Finalizes(s.w.threads, t, s.w.gate.run)
  {
    ReachableInv(s);
    NotFinalizing(s.w, s.w.gate.run);
  }

  /** ... and no step but the controller's own changes the gate or the run id. */
  lemma BeginExclusive(s: State, a: Step, s': State)
    requires Reachable(s) && InBegin(s.ctl.pc) && Next(s, a, s') && !a.Begin?
    ensures s'.w.gate == s.w.gate && s'.w.runId == s.w.runId
  {
    if a.Worker? {
      BeginUndisturbed(s);
      ReachableInv(s);
      WorkerLeavesIdle(s, a, s');
    } else {
      OnlyBeginWrites(s, a, s');
    }
  }

  lemma WorkerLeavesIdle(s: State, a: Step, s': State)
    requires WorldInv(s.w) && LostInv(s) && s.w.gate == Idle(s.w.gate.run) && a.Worker? && Next(s, a, s')
    ensures s'.w.gate == s.w.gate && s'.w.runId == s.w.runId
  {
    WorkerFrames(s, a.thread, a.work, s');
  }

  lemma OnlyBeginWrites(s: State, a: Step, s': State)
    requires InBegin(s.ctl.pc) && Next(s, a, s') && !a.Begin? && !a.Worker?
    ensures s'.w == s.w
  {
  }

  /** Without a takeover, run_id never changes while a connection is counted. */
  lemma RunIdHeld(s: State, a: Step, s': State)
    requires Reachable(s) && Next(s, a, s') && s'.w.runs.takeovers == 0 && s'.w.runId != s.w.runId
    ensures s.w.conns.open == {}
  {
    ReachableInv(s);
    if a.Worker? {
      WorkerFrames(s, a.thread, a.work, s');
    } else {
      RunIdWriters(s, a, s');
      IdleEmpty(s.w);
    }
  }

  lemma RunIdWriters(s: State, a: Step, s': State)
    requires Next(s, a, s') && !a.Worker? && s'.w.runId != s.w.runId
    ensures s.ctl.pc.ClaimStoreRun? || s.ctl.pc.BeginStoreRun?
    ensures s.ctl.pc.ClaimStoreRun? ==> s'.w.runId == 0 || s'.w.runs.takeovers > 0
    ensures s.ctl.pc.BeginStoreRun? ==> s'.w.runs == s.w.runs
  {
  }

  // ----- Run ids and epochs -----

  /** After a claim there is an epoch for the next begin, so that its overflow
    * check passes; and the owner check of a lock holder always does. */
  lemma BeginHasEpoch(s: State, s': State)
    requires Reachable(s) && (BeginCall(s, s') || BeginLoadGate(s, s'))
    ensures s'.ctl.pc != Ready(Refused(Perm))
    ensures s.ctl.hasEpoch ==> s'.ctl.pc != Ready(Refused(Overflow))
    ensures s.w.runId < 0x3FF_FFFF_FFFF && s.ctl.pc.BeginGate? ==> s'.ctl.pc != Ready(Refused(Overflow))
  {
    ReachableInv(s);
  }

  /** A claim is refused an epoch exactly from the last but one run id on. */
  lemma ClaimEpochs(s: State, s': State)
    requires ClaimLoadRun(s, s')
    ensures s'.ctl.pc.Unlocked? <==> s.w.runId >= 0x3FF_FFFF_FFFE
    ensures s.w.runId < 0x3FF_FFFF_FFFE ==> s'.ctl.pc == ClaimGate(s.w.runId)
  {
  }

  // ----- What a cancel answers -----

  /** The load or CAS that settles a cancel notes whether the gate it met still
    * counted a connection. */
  lemma CancelSettles(s: State, a: Step, s': State)
    requires Next(s, a, s') && !s.ctl.pc.CancelStore? && s'.ctl.pc.CancelStore?
    ensures s'.ctl.pc.seen.active != 0 <==> s.w.gate.active != 0
    ensures !s'.w.gate.enabled
  {
  }

  /** ... and that is what it answers. */
  lemma CancelAnswers(s: State, a: Step, s': State)
    requires Next(s, a, s') && s.ctl.pc.CancelStore? && s'.ctl.pc != s.ctl.pc && !a.Death?
    ensures s'.ctl.pc == Ready(Cancelled(s.ctl.pc.run, s.ctl.pc.seen.active != 0))
    ensures s'.w.completed == 0
  {
  }

  /** A counted connection has been admitted. */
  lemma CountedAdmitted(s: State)
    requires Reachable(s) && s.w.gate.active != 0
    ensures AdmittedSome(s.w.conns.admitted, s.w.gate.run)
  {
    ReachableInv(s);
    var c :| c in OpenOf(s.w.conns.open, s.w.gate.run);
    assert c in s.w.conns.admitted;
  }

  lemma ClaimedHasEpoch(s: State)
    requires Reachable(s) && s.ctl.pc == Ready(Claimed)
    ensures s.ctl.hasEpoch && s.w.owner == s.ctl.pid && s.w.gate.run == s.w.runId < 0x3FF_FFFF_FFFF
  {
    ReachableInv(s);
  }
}
