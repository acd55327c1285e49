/** The Apache connection hooks of fuzzer.c, which call the bridge for every client
  * connection.  They keep the discipline that the gate relies on: an admitted
  * connection is ended once, however often Apache closes and cleans it up. */
module Hooks {
  import opened Wrappers
  import opened Environment
  import opened Bridge
  import opened GateWord
  import opened BridgeHistories
  import opened Interference
  import opened CovBridge

  /** A fuzzerConnectionState, with the connection it stands for. */
  class ConnectionState {
    const bridge: SharedMap
    const run: uint64
    ghost const conn: Conn
    var ended: bool

    ghost predicate Valid()
      reads this, bridge, bridge.counts
    {
      bridge.Valid() && run != 0 && conn.run == run
    }

    constructor (bridge: SharedMap, run: uint64, ghost conn: Conn)
      requires bridge.Valid() && run != 0 && conn.run == run
      ensures Valid() && !ended && this.bridge == bridge && this.conn == conn
    {
      this.bridge, this.run, this.conn, ended := bridge, run, conn, false;
    }

    /** fuzzerPreConnection, on the fuzzing listener: a state for the connection if
      * the bridge admitted it, Some(null) if not. */
    static method PreConnection(bridge: SharedMap, host: Host, ghost t: nat, fuel: nat)
        returns (state: Option<ConnectionState?>, ghost at: State)
      requires bridge.Valid() && Running(bridge.sys, t)
      requires bridge.sys.w.threads[t].pc == Free && bridge.sys.w.threads[t].held == None
      requires bridge.sys.w.threads[t].tag == 0
      modifies bridge, bridge.counts, host`rounds
      ensures bridge.Valid() && Running(bridge.sys, t)
      ensures state.None? ==> host.rounds >= old(host.rounds) + fuel
      ensures state == Some(null) ==>
                bridge.sys.w.threads[t] == old(bridge.sys.w.threads[t])
                && exists full :: bridge.TurnedAway(old(bridge.sys), at, full)
      ensures state.Some? && state.value != null ==>
                && fresh(state.value) && state.value.Valid() && !state.value.ended && state.value.bridge == bridge
                && bridge.CanEnd(t, state.value.conn) && bridge.sys.w.threads[t].tag == state.value.run
                && state.value.conn !in old(bridge.sys.w.conns.admitted)
    {
      var run: Option<uint64>;
      var full: bool;
      run, full, at := bridge.ConnectionBegin(host, t, fuel);
      if run.None? {
        return None, at;
      }
      if run.value == 0 {
        return Some(null), at;
      }
      var s := new ConnectionState(bridge, run.value, bridge.sys.w.threads[t].held.value);
      return Some(s), at;
    }

    /** finishFuzzerConnection, run by the pre-close hook and again by the pool
      * cleanup: the first call ends the connection, and every later one takes no
      * step at all. */
    method Finish(host: Host, ghost t: nat, fuel: nat) returns (result: Option<EndResult>)
      requires Valid() && (!ended ==> bridge.CanEnd(t, conn))
      modifies `ended, bridge, bridge.counts, host`rounds
      ensures Valid() && ended
      ensures result.None? ==> host.rounds >= old(host.rounds) + fuel
      ensures old(ended) ==> bridge.sys == old(bridge.sys) && result == Some(NotEnded)
      ensures !old(ended) && result.Some? ==> bridge.Gone(t, conn, result.value)
    {
      if ended {
        return Some(NotEnded);
      }
      ended := true;
      result := bridge.ConnectionEnd(host, t, conn, run, fuel);
    }

    /** fuzzerSuspendConnection: the thread drops its tag and the connection.  Once
      * the connection has ended there is no tag left to drop. */
    method Suspend(ghost t: nat)
      requires Valid() && Running(bridge.sys, t)
      requires if ended then bridge.sys.w.threads[t].tag == 0
               else bridge.sys.w.threads[t].pc == Free && bridge.sys.w.threads[t].held == Some(conn)
      modifies bridge
      ensures Valid() && Running(bridge.sys, t) && bridge.sys.w.threads[t].tag == 0
      ensures !ended ==> conn in bridge.sys.w.parked && bridge.sys.w.threads[t].held == None
      ensures ended ==> bridge.sys == old(bridge.sys)
    {
      if !ended {
        bridge.ThreadPause(t);
      }
    }

    /** fuzzerResumeConnection: a suspended connection is taken up again, tagged if
      * at the moment `at` of the call the gate was still open for its run; one that
      * has ended is left alone. */
    method Resume(ghost t: nat) returns (tagged: bool, ghost at: State)
      requires Valid()
      requires !ended ==>
                 && Running(bridge.sys, t) && bridge.sys.w.threads[t].pc == Free
                 && bridge.sys.w.threads[t].held == None && bridge.sys.w.threads[t].tag == 0
                 && conn in bridge.sys.w.parked && conn.proc == bridge.sys.w.threads[t].proc
      modifies bridge, bridge.counts
      ensures Valid()
      ensures ended ==> bridge.sys == old(bridge.sys) && !tagged
      ensures !ended ==> bridge.CanEnd(t, conn)
      ensures !ended ==> bridge.sys.w.threads[t].tag == if tagged then run else 0
      ensures !ended ==> Grows(old(bridge.sys), at) && Grows(at, bridge.sys)
      ensures !ended ==> (tagged <==> at.w.gate.enabled && at.w.gate.run == run)
      ensures !ended && !tagged ==> run in bridge.sys.w.runs.shut
    {
      if ended {
        return false, bridge.sys;
      }
      tagged, at := bridge.ThreadResume(t, conn, run);
    }
  }
}
