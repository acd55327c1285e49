/** What every interleaving keeps true of the shared coverage map.
  *
  * Each clause names just the parts of the state it speaks about. */
module BridgeInvariant {
  import opened Bridge

  ghost predicate Inv(s: State) {
    WorldInv(s.w) && CtlInv(s) && LostInv(s)
  }

  ghost predicate WorldInv(w: World) {
    RunsInv(w) && ThreadInv(w) && HitsInv(w)
  }

  ghost predicate RunsInv(w: World) {
    && GateInv(w.gate, w.runId, w.conns.open)
    && ConnInv(w.conns, w.parked, w.runs.enabled)
    && OpenInv(w.conns, w.gate, w.runId, w.runs)
    && RunInv(w.runs, w.gate, w.conns.admitted)
    && CompletedInv(w.completed, w.hits.epoch, w.gate, w.runs)
    && FinalizerInv(w.gate, w.runId, w.runs, w.threads)
    && LeftInv(w.conns, w.runs.closer, w.threads)
  }

  ghost predicate HitsInv(w: World) {
    && CountInv(w.counts, w.hits)
    && HitInv(w.hits, w.runs.enabled, |w.threads|)
    && StrayInv(w.hits, w.runs.drained)
    && EpochInv(w.hits, w.gate, w.runs)
    && LandedInv(w.hits, w.runs.shut, w.threads)
    && WrapInv(w.hits, w.overflow, w.threads)
  }

  // ----- The gate and the connections it counts -----

  ghost predicate GateInv(gate: Gate, runId: nat, open: set<Conn>) {
    && gate.run <= runId <= RUN_MASK
    && (gate.enabled ==> gate.run == runId >= 1 && !gate.finalizing)
    && (gate.finalizing ==> gate.active == 0)
    && gate.active == |OpenOf(open, gate.run)| <= ACTIVE_MASK
  }

  ghost predicate ConnInv(conns: ConnLog, parked: set<Conn>, enabled: seq<nat>) {
    && (forall c :: c in conns.admitted ==> c.id < conns.next && c.run in enabled)
    && parked <= conns.open <= conns.admitted
    && conns.returned <= conns.admitted
    && (forall c :: c in parked ==> c !in conns.returned)
  }

  /** A counted connection either belongs to the run being measured, or to a
    * run that was shut before it could complete. */
  ghost predicate OpenInv(conns: ConnLog, gate: Gate, runId: nat, runs: RunLog) {
    && (forall c :: c in conns.open ==> c.run in runs.shut || Allows(gate, c.run))
    && (runs.drained ==> forall c :: c in conns.open ==> c.run == gate.run)
    && (gate.enabled ==> forall c :: c in conns.admitted && c.run == gate.run ==> gate.active >= 1)
    && (forall c :: c in conns.returned && c in conns.open ==> c.run < runId)
  }

  // ----- Runs -----

  ghost predicate Increasing(xs: seq<nat>) {
    forall i, j :: 0 <= i < j < |xs| ==> xs[i] < xs[j]
  }

  lemma AppendIncreasing(xs: seq<nat>, x: nat)
    requires Increasing(xs) && forall y :: y in xs ==> y < x
    ensures Increasing(xs + [x])
  {
    forall i | 0 <= i < |xs| ensures xs[i] < x {
      assert xs[i] in xs;
    }
  }

  ghost predicate AdmittedSome(admitted: set<Conn>, run: nat) {
    exists c :: c in admitted && c.run == run
  }

  ghost predicate RunInv(runs: RunLog, gate: Gate, admitted: set<Conn>) {
    && Increasing(runs.enabled)
    && (forall r :: r in runs.enabled ==> 1 <= r <= gate.run)
    && Increasing(runs.finalized)
    && (forall r :: r in runs.finalized ==> r in runs.enabled && r !in runs.shut && AdmittedSome(admitted, r))
    && (forall r :: r in runs.closer ==> r in runs.finalized)
    && (forall r :: r in runs.shut ==> r in runs.enabled)
    && (gate.enabled ==>
          && gate.run in runs.enabled && gate.run !in runs.shut
          && gate.run !in runs.finalized && gate.run !in runs.cancelled)
    && (gate.run in runs.enabled && !gate.enabled ==> gate.run in runs.shut || gate.run in runs.finalized)
    && (runs.takeovers == 0 ==> runs.drained && runs.late == 0)
  }

  /** A published completion is a finalized run's, and never a cancelled one's. */
  ghost predicate CompletedInv(completed: nat, epoch: nat, gate: Gate, runs: RunLog) {
    && (completed != 0 ==> completed in runs.finalized)
    && (forall r :: r in runs.cancelled ==>
          && 1 <= r <= gate.run && r != completed
          && (r == gate.run ==> !gate.enabled && !gate.finalizing))
    && (epoch == gate.run && epoch in runs.finalized && gate.run !in runs.cancelled && !gate.finalizing ==>
          completed == gate.run || runs.late == gate.run)
    && runs.late <= gate.run
    && (runs.late == gate.run != 0 ==> completed != gate.run)
  }

  /** Thread t is between the finalizing CAS of `run` and its return. */
  ghost predicate Finalizes(threads: seq<Thread>, t: nat, run: nat) {
    t < |threads| && threads[t].pc.Finalizer() && threads[t].pc.conn.run == run
  }

  /** Once a claim has stored a new run id the finalizer may give up, and leave
    * the old gate in FINALIZING until the claim overwrites it. */
  ghost predicate FinalizerInv(gate: Gate, runId: nat, runs: RunLog, threads: seq<Thread>) {
    gate.finalizing ==>
      && gate.run in runs.finalized
      && gate.run in runs.closer
      && (gate.run == runId ==> Finalizes(threads, runs.closer[gate.run], gate.run))
  }

  /** A connection that is no longer counted has returned from its end call, or
    * belongs to the thread finalizing its run. */
  ghost predicate LeftInv(conns: ConnLog, closer: map<nat, nat>, threads: seq<Thread>) {
    forall c :: c in conns.admitted && c !in conns.open && c !in conns.returned ==>
      && c.run in closer
      && Finalizes(threads, closer[c.run], c.run)
      && threads[closer[c.run]].pc.conn == c
  }

  // ----- Worker threads -----

  ghost predicate ThreadInv(w: World) {
    forall t :: 0 <= t < |w.threads| ==> ThreadOk(w, t)
  }

  ghost predicate ThreadOk(w: World, t: nat)
    requires t < |w.threads|
  {
    var th := w.threads[t];
    && th.last != Invalid
    && (th.held.Some? ==> HeldOk(w, t, th.held.value) && th.held.value.proc == th.proc)
    && (th.tag != 0 ==>
          && th.held.Some? && th.held.value.run == th.tag
          && (th.pc.Free? || th.pc.GuardAdd? || th.pc.GuardMark?))
    && match th.pc
       case Free => true
       case GuardAdd(h) => h.run == th.tag != 0 && PendingOk(w.hits, t, h)
       case GuardMark(h) => h.run == th.tag != 0
       case JoinRun(g) => th.held.None? && g.enabled && 1 <= g.run && g.active < ACTIVE_MASK
       case JoinCas(g) => th.held.None? && g.enabled && 1 <= g.run && g.active < ACTIVE_MASK
       case JoinTag => th.held.Some?
       case ResumeGate => th.held.Some?
       case ResumeTag => th.held.Some?
       case EndRun => th.held.Some?
       case EndGate => th.held.Some?
       case EndCas(g) => th.held.Some? && g.run == th.held.value.run && g.active >= 1
       case FinRun(c) => th.held.None? && FinOk(w, t, c)
       case FinStore(c) => th.held.None? && FinOk(w, t, c)
       case FinCas(c) => th.held.None? && FinOk(w, t, c)
                         && (c.run == w.gate.run ==> w.completed == c.run || w.runs.late == c.run)
  }

  /** A held connection is counted, and held by this thread alone. */
  ghost predicate HeldOk(w: World, t: nat, c: Conn) {
    && c in w.conns.open && c !in w.parked && c !in w.conns.returned
    && c in w.conns.holder && w.conns.holder[c] == t
  }

  /** An add still pending belongs to the epoch, or is known as a stray or lost. */
  ghost predicate PendingOk(hits: HitLog, t: nat, h: Hit) {
    && h in hits.called && h.thread == t
    && h.edge < |hits.window| && h !in hits.window[h.edge]
    && (h in hits.strays || h in hits.lost || (hits.epoch != 0 && h.run == hits.epoch))
  }

  /** A thread on its way from the finalizing CAS to idle. */
  ghost predicate FinOk(w: World, t: nat, c: Conn) {
    && c in w.conns.admitted && c !in w.conns.open && c !in w.conns.returned
    && c.run in w.runs.finalized && c.run !in w.runs.cancelled
    && c.run in w.runs.closer && w.runs.closer[c.run] == t
    && (c.run == w.gate.run ==> w.gate.finalizing)
    && (w.runs.takeovers == 0 ==> c.run == w.gate.run)
  }

  // ----- Counters -----

  ghost predicate CountInv(counts: seq<nat>, hits: HitLog) {
    && |counts| == |hits.window|
    && (forall i :: 0 <= i < |counts| ==> counts[i] == |hits.window[i]| % COUNTER_LIMIT)
  }

  ghost predicate HitInv(hits: HitLog, enabled: seq<nat>, threads: nat) {
    && (forall i, h :: 0 <= i < |hits.window| && h in hits.window[i] ==> h.edge == i && h in hits.called)
    && (forall h :: h in hits.called ==>
          h.id < hits.next && h.run in enabled && h.edge < |hits.window| && h.thread < threads)
  }

  ghost predicate StrayInv(hits: HitLog, drained: bool) {
    && hits.strays <= hits.called
    && (forall h, k :: h in hits.strays && k in hits.strays && h.thread == k.thread ==> h == k)
    && (drained ==> hits.strays == {})
    && (hits.epoch != 0 ==>
          && (forall h :: h in hits.strays ==> h.run < hits.epoch)
          && (forall i, h :: 0 <= i < |hits.window| && h in hits.window[i] ==>
                h.run == hits.epoch || h in hits.strays))
  }

  ghost predicate EpochInv(hits: HitLog, gate: Gate, runs: RunLog) {
    && (gate.enabled ==> hits.epoch == gate.run)
    && (hits.epoch != 0 ==> hits.epoch in runs.enabled)
  }

  /** A tagged call has reached its counter, or is just about to. */
  ghost predicate Landed(hits: HitLog, threads: seq<Thread>, h: Hit) {
    || (h.edge < |hits.window| && h in hits.window[h.edge])
    || (h.thread < |threads| && threads[h.thread].pc == GuardAdd(h))
  }

  ghost predicate LandedInv(hits: HitLog, shut: set<nat>, threads: seq<Thread>) {
    hits.epoch != 0 && hits.epoch !in shut ==>
      forall h :: h in hits.called && h.run == hits.epoch ==> Landed(hits, threads, h)
  }

  /** A thread whose add wrapped a counter and has not raised the flag yet. */
  ghost predicate MarkPending(threads: seq<Thread>, h: Hit) {
    h.thread < |threads| && threads[h.thread].pc == GuardMark(h)
  }

  ghost predicate WrapInv(hits: HitLog, overflow: bool, threads: seq<Thread>) {
    hits.epoch != 0 && !overflow ==>
      forall i :: 0 <= i < |hits.window| && |hits.window[i]| >= COUNTER_LIMIT && hits.window[i] !! hits.strays ==>
        exists h :: h in hits.window[i] && MarkPending(threads, h)
  }

  /** A lost add belongs to a thread that died before it. */
  ghost predicate LostInv(s: State) {
    forall h :: h in s.w.hits.lost ==> h.thread < |s.w.threads| && s.w.threads[h.thread].proc in s.dead
  }

  // ----- The controller -----

  ghost predicate CtlInv(s: State) {
    && (!s.ctl.pc.Unlocked? ==> s.ctl.pid !in s.dead)
    && CtlOk(s.w, s.ctl)
  }

  ghost predicate CtlOk(w: World, ctl: Ctl) {
    match ctl.pc
    case Unlocked => true
    case Locked => true
    case ClaimGate(from) => Claiming(w, from)
    case ClaimClose(from, g) => Claiming(w, from) && g.enabled
    case ClaimDrain(from) => Claiming(w, from) && !w.gate.enabled
    case ClaimStoreRun(from) => Claiming(w, from) && !w.gate.enabled
    case ClaimStoreGate(from) =>
      EpochsLeft(from) && w.runId == Replacement(from) && w.gate.run <= from && !w.gate.enabled
      && (w.runs.takeovers == 0 ==> from == 0)
    case ClaimStoreCompleted => Replaced(w)
    case ClaimStoreOwner => Replaced(w)
    case Ready(reply) => Settled(w, ctl) && ReplyOk(w, ctl, reply)
    case BeginRun => Settled(w, ctl)
    case BeginGate(run) => Settled(w, ctl) && run == w.runId
    case BeginZero(run, k) => Beginning(w, ctl, run) && k <= |w.counts| && Zeroed(w.hits, k)
    case BeginStoreCompleted(run) => Beginning(w, ctl, run) && Zeroed(w.hits, |w.counts|)
    case BeginStoreRun(run) => Beginning(w, ctl, run) && Zeroed(w.hits, |w.counts|)
    case BeginStoreGate(run) =>
      && w.owner == ctl.pid && run == w.runId >= 1 && w.gate == Idle(run - 1)
      && !ctl.hasEpoch && w.hits.epoch == 0 && StraysOlder(w.hits, w.gate.run) && Zeroed(w.hits, |w.counts|)
    case CancelRun(run) => Settled(w, ctl) && run >= 1
    case CancelGate(run) => Settled(w, ctl) && 1 <= run == w.runId
    case CancelCas(run, g) => Settled(w, ctl) && 1 <= run == w.runId && g.run == run && g.enabled && !g.finalizing
    case CancelStore(run, g) =>
      && Settled(w, ctl) && 1 <= run == w.runId && g.run == run
      && !w.gate.enabled && !w.gate.finalizing
      && (g.active == 0 ==> w.gate.active == 0)
    case SnapCompleted(run) => Settled(w, ctl) && run >= 1
    case SnapGate(run) => Settled(w, ctl) && Finished(w, run)
    case SnapRun(run) => Settled(w, ctl) && Closed(w, run)
    case SnapOverflow(run) => Settled(w, ctl) && Closed(w, run)
    case SnapCopy(run, counts, hits) =>
      && Settled(w, ctl) && Closed(w, run) && |counts| <= |w.counts| && Copied(w.hits, run, counts, hits)
      && Unwrapped(w.hits.window, w.hits.strays)
  }

  /** Between calls, and inside every call but a claim and a begin. */
  ghost predicate Settled(w: World, ctl: Ctl) {
    && w.owner == ctl.pid
    && w.gate.run == w.runId
    && (w.runId in w.runs.enabled ==> w.hits.epoch == w.runId)
    && (ctl.hasEpoch ==> w.runId < RUN_MASK)
  }

  ghost predicate Claiming(w: World, from: nat) {
    from == w.runId && EpochsLeft(from)
  }

  ghost predicate Replaced(w: World) {
    w.gate == Idle(w.runId) && w.runId !in w.runs.enabled && w.runId < RUN_MASK
  }

  ghost predicate Beginning(w: World, ctl: Ctl, run: nat) {
    && w.owner == ctl.pid
    && w.gate == Idle(w.runId)
    && run == w.runId + 1 <= RUN_MASK
    && w.hits.epoch == 0
    && StraysOlder(w.hits, w.gate.run)
  }

  ghost predicate StraysOlder(hits: HitLog, run: nat) {
    forall h :: h in hits.strays ==> h.run <= run
  }

  ghost predicate Finished(w: World, run: nat) {
    run in w.runs.finalized && run !in w.runs.cancelled
  }

  ghost predicate Closed(w: World, run: nat) {
    Finished(w, run) && w.gate == Idle(run)
  }

  ghost predicate ReplyOk(w: World, ctl: Ctl, reply: Reply) {
    match reply
    case Claimed => ctl.hasEpoch
    case Began(run) => run == w.runId && run in w.runs.enabled
    case Cancelled(run, busy) =>
      && run == w.runId && run in w.runs.cancelled && !w.gate.enabled && !w.gate.finalizing
      && (!busy ==> w.gate == Idle(run))
    case Snapshot(run, counts, hits) =>
      Closed(w, run) && |counts| == |w.counts| && Copied(w.hits, run, counts, hits)
    case Refused(why) => why != Perm
  }

  /** The slots below k have been zeroed: only strays have hit them since. */
  ghost predicate Zeroed(hits: HitLog, k: nat) {
    forall i, h :: 0 <= i < k && i < |hits.window| && h in hits.window[i] ==> h in hits.strays
  }

  /** No slot that strays have left alone holds as many adds as a counter can. */
  ghost predicate Unwrapped(window: seq<set<Hit>>, strays: set<Hit>) {
    forall i :: 0 <= i < |window| && window[i] !! strays ==> |window[i]| < COUNTER_LIMIT
  }

  /** Copied slots hold every call of the run, and besides those only strays. */
  ghost predicate Copied(log: HitLog, run: nat, counts: seq<nat>, hits: seq<set<Hit>>) {
    && |hits| == |counts|
    && (forall i :: 0 <= i < |counts| ==> counts[i] == |hits[i]| % COUNTER_LIMIT)
    && Unwrapped(hits, log.strays)
    && (forall i, h :: 0 <= i < |hits| && h in hits[i] ==>
          h.edge == i && h in log.called && (h.run == run || h in log.strays))
    && (forall h :: h in log.called && h.run == run && h.edge < |hits| ==> h in hits[h.edge])
  }

  lemma InitHolds(s: State)
    requires Init(s)
    ensures Inv(s)
  {
  }
}
