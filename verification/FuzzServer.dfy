/** fuzzServer: one fuzzer input, from its preservation in a file to its feedback.
  *
  * The outcome of a system call is chosen arbitrarily.  `moments` records what the
  * world outside looked like after each of them; the process may be killed at any
  * moment, and what is on disk then is that moment's file.
  *
  * `fuel` is how often each retry loop may go round; Pending is the outcome of a
  * call that has gone round that often and has not returned yet. */
module FuzzServer {
  import opened Wrappers
  import opened Environment
  import opened Bridge
  import opened BridgeInvariant
  import opened BridgeTheorems
  import opened CovBridge
  import opened Framing
  import opened Feedback
  import opened GateWord

  const COVERAGE_TIMEOUT_MS := 7000

  /** Where the map says that the run of this input stands. */
  datatype Run = NotBegun | Underway | Cancelled

  /** The file on disk, what went to the target, the run, and what libFuzzer's
    * counters have been given. */
  datatype Moment = Moment(file: Option<seq<uint8>>, sent: seq<uint8>, run: Run, imports: seq<Import>)

  /** Everything the target should be sent, and where a response should be awaited. */
  datatype Plan = Plan(bytes: seq<uint8>, pauses: seq<nat>)

  datatype Outcome = Pending | Returned(status: int) | Exited(status: int)

  /** A write or send that was interrupted may be tried again. */
  datatype Transfer = Moved(count: nat) | Interrupted | Failed

  /** Nothing more to be had from a write or send. */
  predicate Stuck(r: Transfer) {
    r.Failed? || r == Moved(0)
  }

  /** While the run is under way and not imported the file holds the input; nothing
    * is sent outside a run, and what is sent is in order. */
  ghost predicate MomentOk(m: Moment, data: seq<uint8>, plan: seq<uint8>) {
    && (m.run == Underway && m.imports == [] ==> m.file == Some(data))
    && (m.sent != [] ==> m.run == Underway)
    && m.sent <= plan
  }

  function Concat(packets: seq<seq<uint8>>): seq<uint8> {
    if packets == [] then [] else Concat(packets[..|packets| - 1]) + packets[|packets| - 1]
  }

  /** Where the packets end, behind so many bytes. */
  function Ends(packets: seq<seq<uint8>>, from: nat): seq<nat> {
    if packets == [] then [] else Ends(packets[..|packets| - 1], from) + [from + |Concat(packets)|]
  }

  function PacketPauses(x: FuzzInput, from: nat): seq<nat> {
    if HasFlag(x.flags, MULTIPACKET) && HasFlag(x.flags, WAIT) && x.packets != []
    then Ends(x.packets[..|x.packets| - 1], from) else []
  }

  /** What the target should be sent for an input that decodes, in terms of its
    * bytes: the prelude if flag bit 1 is set, and then either all bytes but the
    * first, or, with flag bit 2, the frames without their two length bytes. */
  predicate OnWire(data: seq<uint8>, prelude: seq<uint8>, views: seq<View>, bytes: seq<uint8>)
  {
    && data != []
    && var before := if data[0] % 2 == 1 then prelude else [];
    && before <= bytes
    && var body := bytes[|before|..];
    && if data[0] / 2 % 2 == 0 then body == data[1..] else LaidOut(data, views) && Stripped(data, views, body)
  }

  /** Where a response is awaited: behind the prelude, and with flag bits 2 and 4
    * behind every packet but the last. */
  predicate Awaited(data: seq<uint8>, prelude: seq<uint8>, views: seq<View>, waits: seq<nat>) {
    && data != []
    && var p, from := data[0] % 2, if data[0] % 2 == 1 then |prelude| else 0;
    && (p == 1 ==> waits != [] && waits[0] == |prelude|)
    && if data[0] / 2 % 2 == 1 && data[0] / 4 % 2 == 1 then
         && |waits| == p + |views| - 1
         && forall k :: 0 <= k < |views| - 1 ==>
              waits[p + k] == from + views[k].offset + views[k].size - 3 - 2 * k
       else
         |waits| == p
  }

  /** The bytes of frame k come right behind those of frame k - 1. */
  predicate Stripped(data: seq<uint8>, views: seq<View>, body: seq<uint8>) {
    && |body| == |data| - 1 - 2 * |views|
    && forall k :: 0 <= k < |views| ==> StrippedTo(data, views[k], body, views[k].offset - 3 - 2 * k)
  }

  predicate StrippedTo(data: seq<uint8>, v: View, body: seq<uint8>, from: int) {
    && 0 <= from && from + v.size <= |body| && v.offset + v.size <= |data|
    && body[from..from + v.size] == data[v.offset..v.offset + v.size]
  }

  class Fuzzer {
    const host: Host
    const bridge: SharedMap
    const feedback: ExtraCounters
    const snapshot: SnapshotBuffer
    const prelude: seq<uint8>
    var file: Option<seq<uint8>>   // this process's current-input file
    var sent: seq<uint8>           // on the connection to the target
    ghost var waits: seq<nat>      // how much had been sent when a response was awaited
    ghost var plan: Plan           // what they should be in the end
    ghost var lastRun: nat         // the run id when fuzzServer was called
    ghost var fileFaults: nat      // calls on the file that failed
    ghost var refused: bool        // no connection to the target
    ghost var sendFaults: nat      // sends that failed, and responses that did not come
    ghost var moments: seq<Moment>

    constructor (host: Host, bridge: SharedMap, feedback: ExtraCounters, snapshot: SnapshotBuffer,
                 prelude: seq<uint8>)
      ensures this.host == host && this.bridge == bridge && this.feedback == feedback
      ensures this.snapshot == snapshot && this.prelude == prelude && file == None && moments == []
    {
      this.host, this.bridge, this.feedback := host, bridge, feedback;
      this.snapshot, this.prelude := snapshot, prelude;
      file, sent, waits, plan, lastRun, moments := None, [], [], Plan([], []), 0, [];
      fileFaults, refused, sendFaults := 0, false, 0;
    }

    /** The prelude and the packets; a response is awaited behind the prelude and, with
      * flag bit 4, behind every packet but the last. */
    function PlanOf(x: FuzzInput): Plan {
      if HasFlag(x.flags, PRELUDE) then Plan(prelude + Concat(x.packets), [|prelude|] + PacketPauses(x, |prelude|))
      else Plan(Concat(x.packets), PacketPauses(x, 0))
    }

    /** The plan of this call is that of its input, if it decodes. */
    ghost predicate Planned(data: seq<uint8>)
      reads this
    {
      forall x :: IsDecoding(data, Some(x)) ==> plan == PlanOf(x)
    }

    ghost function TheRun(): Run
      reads this, bridge
    {
      if bridge.sys.w.runId <= lastRun then NotBegun
      else if bridge.sys.w.runId in bridge.sys.w.runs.cancelled then Run.Cancelled
      else Underway
    }

    ghost function Now(): Moment
      reads this, bridge, feedback
    {
      Moment(file, sent, TheRun(), feedback.imports)
    }

    ghost predicate PastSafe(data: seq<uint8>)
      reads this
    {
      forall i :: 0 <= i < |moments| ==> MomentOk(moments[i], data, plan.bytes)
    }

    /** Every moment so far was all right, up to this one. */
    ghost predicate Safe(data: seq<uint8>)
      reads this, bridge, feedback
    {
      && PastSafe(data) && MomentOk(Now(), data, plan.bytes)
      && (moments != [] ==> moments[|moments| - 1] == Now())
    }

    ghost method Note(data: seq<uint8>)
      requires PastSafe(data) && MomentOk(Now(), data, plan.bytes)
      modifies `moments
      ensures Safe(data) && moments == old(moments) + [Now()]
    {
      moments := moments + [Now()];
    }

    /** The result of a write or send of n bytes. */
    static method AnyTransfer(n: nat) returns (r: Transfer)
      ensures r.Moved? ==> r.count <= n
    {
      var moved: bool, interrupted: bool, count: nat := *, *, *;
      if moved {
        return Moved(if count <= n then count else n);
      }
      return if interrupted then Interrupted else Failed;
    }

    // ----- The file -----

    method OpenExclusive(ghost data: seq<uint8>) returns (ok: bool)
      requires Safe(data) && TheRun() == NotBegun
      modifies `file, `fileFaults, `moments
      ensures Safe(data) && file == if ok then Some([]) else old(file)
      ensures ok ==> old(file) == None
      ensures moments == old(moments) + [Moment(file, sent, TheRun(), feedback.imports)]
      ensures fileFaults == old(fileFaults) + (if ok then 0 else 1)
    {
      var fails: bool := *;
      ok := file.None? && !fails;
      if ok {
        file := Some([]);
      }
      fileFaults := fileFaults + (if ok then 0 else 1);
      Note(data);
    }

    method Write(ghost data: seq<uint8>, bytes: seq<uint8>) returns (r: Transfer)
      requires Safe(data) && TheRun() == NotBegun && file.Some?
      modifies `file, `fileFaults, `moments
      ensures Safe(data) && file.Some?
      ensures r.Moved? ==> r.count <= |bytes| && file.value == old(file).value + bytes[..r.count]
      ensures !r.Moved? ==> file == old(file)
      ensures moments == old(moments) + [Moment(file, sent, TheRun(), feedback.imports)]
      ensures fileFaults == old(fileFaults) + (if Stuck(r) then 1 else 0)
    {
      r := AnyTransfer(|bytes|);
      if r.Moved? {
        file := Some(file.value + bytes[..r.count]);
      }
      fileFaults := fileFaults + (if Stuck(r) then 1 else 0);
      Note(data);
    }

    /** Whether the file is gone afterwards; it may have been gone before. */
    method Unlink(ghost data: seq<uint8>) returns (ok: bool)
      requires Safe(data) && (TheRun() == Underway ==> feedback.imports != [])
      modifies `file, `fileFaults, `moments
      ensures Safe(data) && file == if ok then None else old(file)
      ensures moments == old(moments) + [Moment(file, sent, TheRun(), feedback.imports)]
      ensures fileFaults == old(fileFaults) + (if ok then 0 else 1)
    {
      var fails: bool := *;
      ok := file.None? || !fails;
      if ok {
        file := None;
      }
      fileFaults := fileFaults + (if ok then 0 else 1);
      Note(data);
    }

    method Close(ghost data: seq<uint8>) returns (ok: bool)
      requires Safe(data)
      modifies `fileFaults
      ensures Safe(data) && fileFaults == old(fileFaults) + (if ok then 0 else 1)
    {
      ok := *;
      fileFaults := fileFaults + (if ok then 0 else 1);
    }

    /** writeCurrentInput: on success the file holds the whole input; a failure leaves
      * the file as it was, unless removing what was written failed too. */
    method WriteCurrentInput(data: seq<uint8>, fuel: nat) returns (ok: Option<bool>)
      requires Safe(data) && TheRun() == NotBegun
      modifies `file, `fileFaults, `moments, host`rounds
      ensures Safe(data)
      ensures ok == Some(true) ==> file == Some(data)
      ensures ok == Some(false) <==> fileFaults > old(fileFaults)
      ensures ok == Some(false) && fileFaults == old(fileFaults) + 1 ==> file == old(file)
      ensures ok.None? ==> file.Some? && file.value < data && host.rounds >= old(host.rounds) + fuel
      ensures old(fileFaults) <= fileFaults && old(host.rounds) <= host.rounds
    {
      var opens := OpenExclusive(data);
      if !opens {
        return Some(false);
      }
      var written := 0;
      var tries := fuel;
      while written < |data| && tries > 0
        invariant Safe(data) && written <= |data| && file == Some(data[..written])
        invariant old(file) == None && fileFaults == old(fileFaults)
        invariant host.rounds >= old(host.rounds) + fuel - tries >= old(host.rounds)
      {
        var r := Write(data, data[written..]);
        if r.Moved? && r.count > 0 {
          assert data[..written] + data[written..][..r.count] == data[..written + r.count];
          written := written + r.count;
        } else if !r.Interrupted? {
          var _ := Unlink(data);
          return Some(false);
        }
        host.GoRound();
        tries := tries - 1;
      }
      if written < |data| {
        return None;
      }
      assert data[..|data|] == data;
      var closes := Close(data);
      if !closes {
        var _ := Unlink(data);
        return Some(false);
      }
      return Some(true);
    }

    // ----- The connection -----

    ghost predicate Sending(data: seq<uint8>)
      reads this, bridge, feedback
    {
      Safe(data) && TheRun() == Underway && feedback.imports == []
    }

    method Connects(ghost data: seq<uint8>) returns (ok: bool)
      requires Safe(data)
      modifies `refused
      ensures Safe(data) && refused == !ok
    {
      ok := *;
      refused := !ok;
    }

    /** Waiting for a response changes nothing of what is followed here. */
    method Responds(ghost data: seq<uint8>) returns (ok: bool)
      requires Safe(data)
      modifies `sendFaults, `waits
      ensures Safe(data) && sendFaults == old(sendFaults) + (if ok then 0 else 1)
      ensures waits == old(waits) + [|sent|]
    {
      ok := *;
      waits := waits + [|sent|];
      sendFaults := sendFaults + (if ok then 0 else 1);
    }

    method Send(ghost data: seq<uint8>, bytes: seq<uint8>) returns (r: Transfer)
      requires Sending(data) && sent + bytes <= plan.bytes
      modifies `sent, `sendFaults, `moments
      ensures Sending(data)
      ensures r.Moved? ==> r.count <= |bytes| && sent == old(sent) + bytes[..r.count]
      ensures !r.Moved? ==> sent == old(sent)
      ensures moments == old(moments) + [Moment(file, sent, TheRun(), feedback.imports)]
      ensures sendFaults == old(sendFaults) + (if Stuck(r) then 1 else 0)
    {
      r := AnyTransfer(|bytes|);
      if r.Moved? {
        assert sent + bytes == (sent + bytes[..r.count]) + bytes[r.count..];
        sent := sent + bytes[..r.count];
      }
      sendFaults := sendFaults + (if Stuck(r) then 1 else 0);
      Note(data);
    }

    /** sendAll: all of the bytes, or a prefix of them and a failure. */
    method SendAll(ghost data: seq<uint8>, bytes: seq<uint8>, fuel: nat) returns (ok: Option<bool>)
      requires Sending(data) && sent + bytes <= plan.bytes
      modifies `sent, `sendFaults, `moments, host`rounds
      ensures Sending(data) && old(sent) <= sent <= old(sent) + bytes
      ensures ok == Some(true) ==> sent == old(sent) + bytes
      ensures sendFaults == old(sendFaults) + (if ok == Some(false) then 1 else 0)
      ensures old(host.rounds) <= host.rounds
      ensures ok.None? ==> sent < plan.bytes && host.rounds >= old(host.rounds) + fuel
    {
      ghost var all := sent + bytes;
      var done := 0;
      var tries := fuel;
      while done < |bytes| && tries > 0
        invariant Sending(data) && done <= |bytes| && SentUpTo(old(sent), bytes, done)
        invariant sendFaults == old(sendFaults) && host.rounds >= old(host.rounds) + fuel - tries >= old(host.rounds)
      {
        var moved := SendSome(data, old(sent), bytes, done);
        if moved.None? {
          return Some(false);
        }
        done := done + moved.value;
        host.GoRound();
        tries := tries - 1;
      }
      if done < |bytes| {
        return None;
      }
      assert bytes[..done] == bytes;
      return Some(true);
    }

    ghost predicate SentUpTo(start: seq<uint8>, bytes: seq<uint8>, done: nat)
      reads this
      requires done <= |bytes|
    {
      sent == start + bytes[..done] <= start + bytes
    }

    /** One send of what is left; None when it failed. */
    method SendSome(ghost data: seq<uint8>, ghost start: seq<uint8>, bytes: seq<uint8>, done: nat)
        returns (moved: Option<nat>)
      requires Sending(data) && done < |bytes| && start + bytes <= plan.bytes && SentUpTo(start, bytes, done)
      modifies `sent, `sendFaults, `moments
      ensures Sending(data)
      ensures moved.Some? ==> done + moved.value <= |bytes| && SentUpTo(start, bytes, done + moved.value)
      ensures moved.None? ==> SentUpTo(start, bytes, done)
      ensures sendFaults == old(sendFaults) + (if moved.None? then 1 else 0)
    {
      Split(start, bytes, done);
      var r := Send(data, bytes[done..]);
      if r.Moved? && r.count > 0 {
        SentMore(start, bytes, done, r.count);
        return Some(r.count);
      }
      return if r.Interrupted? then Some(0) else None;
    }

    static lemma SentMore(start: seq<uint8>, bytes: seq<uint8>, done: nat, count: nat)
      requires done + count <= |bytes|
      ensures start + bytes[..done] + bytes[done..][..count] == start + bytes[..done + count] <= start + bytes
    {
      Split(start, bytes, done + count);
      assert bytes[..done] + bytes[done..][..count] == bytes[..done + count];
    }

    static lemma Split(start: seq<uint8>, bytes: seq<uint8>, k: nat)
      requires k <= |bytes|
      ensures start + bytes[..k] + bytes[k..] == start + bytes && start + bytes[..k] <= start + bytes
    {
      assert start + bytes == (start + bytes[..k]) + bytes[k..];
    }

    /** sendPrelude; waiting for a response may fail and changes nothing. */
    method SendPrelude(ghost data: seq<uint8>, fuel: nat) returns (ok: Option<bool>)
      requires Sending(data) && sent + prelude <= plan.bytes
      modifies `sent, `sendFaults, `waits, `moments, host`rounds
      ensures Sending(data)
      ensures ok == Some(true) ==> sent == old(sent) + prelude && waits == old(waits) + [|sent|]
      ensures sendFaults == old(sendFaults) + (if ok == Some(false) then 1 else 0)
      ensures old(host.rounds) <= host.rounds
      ensures ok.None? ==> sent < plan.bytes && host.rounds >= old(host.rounds) + fuel
    {
      ok := SendAll(data, prelude, fuel);
      if ok == Some(true) {
        var response := Responds(data);
        return Some(response);
      }
    }

    /** sendMultipacketData. */
    method SendMultipacketData(data: seq<uint8>, input: InputBuffer, fuel: nat) returns (ok: Option<bool>)
      requires Sending(data) && input.Within(data) && input.packetCount > 0 && HasFlag(input.flags, MULTIPACKET)
      requires sent + Concat(input.Input(data).packets) == plan.bytes
      modifies `sent, `sendFaults, `waits, `moments, host`rounds
      ensures Sending(data)
      ensures ok == Some(true) ==>
                sent == plan.bytes && waits == old(waits) + PacketPauses(input.Input(data), |old(sent)|)
      ensures sendFaults == old(sendFaults) + (if ok == Some(false) then 1 else 0)
      ensures old(host.rounds) <= host.rounds
      ensures ok.None? ==> sent < plan.bytes && host.rounds >= old(host.rounds) + fuel
    {
      ghost var x := input.Input(data);
      ghost var packets, start := x.packets, sent;
      Bounds(x, start, old(waits));
      var k := 0;
      while k < input.packetCount
        invariant Sending(data) && k <= |packets| && SentSome(data, start, packets, k)
        invariant input.Within(data) && input.Input(data) == x && sendFaults == old(sendFaults)
        invariant waits == PausedTo(old(waits), HasFlag(input.flags, WAIT), packets, |start|, k)
        invariant host.rounds >= old(host.rounds)
      {
        ok := SendNext(data, input, k, start, old(waits), packets, fuel);
        if ok != Some(true) {
          return;
        }
        k := k + 1;
      }
      assert k == |packets|;
      return Some(true);
    }

    /** How things stand before the first packet, and after the last. */
    lemma Bounds(x: FuzzInput, start: seq<uint8>, before: seq<nat>)
      requires HasFlag(x.flags, MULTIPACKET) && x.packets != []
      ensures var ps, wait := x.packets, HasFlag(x.flags, WAIT);
              && start + Concat(ps[..0]) == start && start + Concat(ps[..|ps|]) == start + Concat(ps)
              && PausedTo(before, wait, ps, |start|, 0) == before
              && PausedTo(before, wait, ps, |start|, |ps|) == before + PacketPauses(x, |start|)
    {
      assert x.packets[..|x.packets|] == x.packets;
    }

    /** The first k packets have been sent, and there is room for the rest. */
    ghost predicate SentSome(data: seq<uint8>, start: seq<uint8>, packets: seq<seq<uint8>>, k: nat)
      reads this
      requires k <= |packets|
    {
      sent == start + Concat(packets[..k]) && plan.bytes == start + Concat(packets)
    }

    /** Of the first k packets all but the last of the input have been waited for. */
    function PausedTo(before: seq<nat>, wait: bool, packets: seq<seq<uint8>>, from: nat, k: nat): seq<nat>
      requires k <= |packets| && packets != []
    {
      before + if wait then Ends(packets[..if k < |packets| then k else k - 1], from) else []
    }

    method SendNext(data: seq<uint8>, input: InputBuffer, k: nat,
                    ghost start: seq<uint8>, ghost before: seq<nat>, ghost packets: seq<seq<uint8>>, fuel: nat)
        returns (ok: Option<bool>)
      requires Sending(data) && input.Within(data) && packets == input.Input(data).packets
      requires k < input.packetCount && SentSome(data, start, packets, k)
      requires waits == PausedTo(before, HasFlag(input.flags, WAIT), packets, |start|, k)
      modifies `sent, `sendFaults, `waits, `moments, host`rounds
      ensures Sending(data)
      ensures ok == Some(true) ==>
                && SentSome(data, start, packets, k + 1)
                && waits == PausedTo(before, HasFlag(input.flags, WAIT), packets, |start|, k + 1)
      ensures sendFaults == old(sendFaults) + (if ok == Some(false) then 1 else 0)
      ensures old(host.rounds) <= host.rounds
      ensures ok.None? ==> sent < plan.bytes && host.rounds >= old(host.rounds) + fuel
    {
      Room(start, packets, k);
      PausedNext(before, HasFlag(input.flags, WAIT), packets, start, k);
      ok := SendPacket(data, input, k, packets[k], fuel);
    }

    lemma PausedNext(before: seq<nat>, wait: bool, packets: seq<seq<uint8>>, start: seq<uint8>, k: nat)
      requires k < |packets|
      ensures PausedTo(before, wait, packets, |start|, k)
              + (if k + 1 < |packets| && wait then [|start + Concat(packets[..k + 1])|] else [])
              == PausedTo(before, wait, packets, |start|, k + 1)
    {
      EndsNext(packets, |start|, k);
    }

    /** Packet k of the input, and then a response if one is to be awaited. */
    method SendPacket(data: seq<uint8>, input: InputBuffer, k: nat, ghost packet: seq<uint8>, fuel: nat)
        returns (ok: Option<bool>)
      requires Sending(data) && input.Within(data) && k < input.packetCount
      requires packet == input.packets[k].Of(data) && sent + packet <= plan.bytes
      modifies `sent, `sendFaults, `waits, `moments, host`rounds
      ensures Sending(data)
      ensures ok == Some(true) ==>
                && sent == old(sent) + packet
                && waits == old(waits)
                            + if k + 1 < input.packetCount && HasFlag(input.flags, WAIT) then [|sent|] else []
      ensures sendFaults == old(sendFaults) + (if ok == Some(false) then 1 else 0)
      ensures old(host.rounds) <= host.rounds
      ensures ok.None? ==> sent < plan.bytes && host.rounds >= old(host.rounds) + fuel
    {
      ok := SendAll(data, input.packets[k].Of(data), fuel);
      if ok == Some(true) && k + 1 < input.packetCount && HasFlag(input.flags, WAIT) {
        var response := Responds(data);
        ok := Some(response);
      }
    }

    static lemma EndsNext(packets: seq<seq<uint8>>, from: nat, k: nat)
      requires k < |packets|
      ensures Ends(packets[..k + 1], from) == Ends(packets[..k], from) + [from + |Concat(packets[..k + 1])|]
    {
      assert packets[..k + 1][..k] == packets[..k];
    }

    static lemma Room(start: seq<uint8>, packets: seq<seq<uint8>>, k: nat)
      requires k < |packets|
      ensures start + Concat(packets[..k]) + packets[k] == start + Concat(packets[..k + 1]) <= start + Concat(packets)
    {
      ConcatUpTo(packets, k);
      Extend(start, Concat(packets[..k]), packets[k], Concat(packets));
    }

    static lemma Extend(a: seq<uint8>, b: seq<uint8>, p: seq<uint8>, all: seq<uint8>)
      requires b + p <= all
      ensures a + b + p == a + (b + p) <= a + all
    {
      assert all == (b + p) + all[|b + p|..];
      assert a + all == (a + (b + p)) + all[|b + p|..];
    }

    static lemma ConcatUpTo(packets: seq<seq<uint8>>, k: nat)
      requires k < |packets|
      ensures Concat(packets[..k + 1]) == Concat(packets[..k]) + packets[k]
      ensures Concat(packets[..k + 1]) <= Concat(packets)
    {
      assert packets[..k + 1][..k] == packets[..k];
      ConcatPrefix(packets, k + 1);
    }

    static lemma {:induction false} ConcatPrefix(packets: seq<seq<uint8>>, k: nat)
      requires k <= |packets|
      ensures Concat(packets[..k]) <= Concat(packets)
    {
      if k == |packets| {
        assert packets[..k] == packets;
      } else {
        var less := packets[..|packets| - 1];
        ConcatPrefix(less, k);
        assert packets[..k] == less[..k];
      }
    }

    /** The prelude if it is asked for, and then the packets. */
    method Deliver(data: seq<uint8>, input: InputBuffer, fuel: nat) returns (ok: Option<bool>)
      requires Sending(data) && sent == [] && waits == [] && input.Within(data)
      requires WellFormed(input.Input(data)) && plan == PlanOf(input.Input(data))
      modifies `sent, `sendFaults, `waits, `moments, host`rounds
      ensures Sending(data)
      ensures ok == Some(true) ==> plan == Plan(sent, waits)
      ensures sendFaults == old(sendFaults) + (if ok == Some(false) then 1 else 0)
      ensures old(host.rounds) <= host.rounds
      ensures ok.None? ==> sent < plan.bytes && host.rounds >= old(host.rounds) + fuel
    {
      ghost var x := input.Input(data);
      assert [] + prelude == prelude && [] + Concat(x.packets) == Concat(x.packets);
      assert [] + [|prelude|] == [|prelude|] && [] + PacketPauses(x, 0) == PacketPauses(x, 0);
      if HasFlag(input.flags, PRELUDE) {
        ok := SendPrelude(data, fuel);
        if ok != Some(true) {
          return;
        }
      }
      ok := DeliverPackets(data, input, fuel);
    }

    method DeliverPackets(data: seq<uint8>, input: InputBuffer, fuel: nat) returns (ok: Option<bool>)
      requires Sending(data) && input.Within(data) && WellFormed(input.Input(data))
      requires sent + Concat(input.Input(data).packets) == plan.bytes
      modifies `sent, `sendFaults, `waits, `moments, host`rounds
      ensures Sending(data)
      ensures ok == Some(true) ==>
                sent == plan.bytes && waits == old(waits) + PacketPauses(input.Input(data), |old(sent)|)
      ensures sendFaults == old(sendFaults) + (if ok == Some(false) then 1 else 0)
      ensures old(host.rounds) <= host.rounds
      ensures ok.None? ==> sent < plan.bytes && host.rounds >= old(host.rounds) + fuel
    {
      if HasFlag(input.flags, MULTIPACKET) {
        ok := SendMultipacketData(data, input, fuel);
      } else {
        ConcatOne(input.Input(data).packets);
        ok := SendAll(data, input.packets[0].Of(data), fuel);
      }
    }

    static lemma ConcatOne(packets: seq<seq<uint8>>)
      requires |packets| == 1
      ensures Concat(packets) == packets[0]
    {
      assert packets[..0] == [];
    }

    // ----- What was to be sent -----

    lemma PlanOnWire(data: seq<uint8>, x: FuzzInput) returns (views: seq<View>)
      requires IsDecoding(data, Some(x))
      ensures OnWire(data, prelude, views, PlanOf(x).bytes)
      ensures Awaited(data, prelude, views, PlanOf(x).pauses)
    {
      views := DecodingBytes(data, x);
      FlagDigits(x.flags);
      if data[0] / 2 % 2 == 0 {
        ConcatOne(x.packets);
      } else {
        ConcatStrips(data, views);
      }
      var before := if data[0] % 2 == 1 then prelude else [];
      assert PlanOf(x).bytes[|before|..] == Concat(x.packets);
      PausesOnWire(data, x, views);
    }

    lemma PausesOnWire(data: seq<uint8>, x: FuzzInput, views: seq<View>)
      requires data != [] && x.flags == data[0]
      requires data[0] / 2 % 2 == 1 ==> LaidOut(data, views) && x.packets == Cut(data, views)
      ensures Awaited(data, prelude, views, PlanOf(x).pauses)
    {
      FlagDigits(x.flags);
      var from := if data[0] % 2 == 1 then |prelude| else 0;
      var head := if data[0] % 2 == 1 then [|prelude|] else [];
      assert PlanOf(x).pauses == head + PacketPauses(x, from);
      if data[0] / 2 % 2 == 1 && data[0] / 4 % 2 == 1 {
        PausesAwaited(data, views, from);
        Shifted(head, PacketPauses(x, from), views, from);
      }
    }

    static lemma Shifted(head: seq<nat>, ends: seq<nat>, views: seq<View>, from: nat)
      requires |ends| == |views| - 1
      requires forall k :: 0 <= k < |views| - 1 ==> ends[k] == from + views[k].offset + views[k].size - 3 - 2 * k
      ensures forall k :: 0 <= k < |views| - 1 ==>
                (head + ends)[|head| + k] == from + views[k].offset + views[k].size - 3 - 2 * k
    {
      forall k | 0 <= k < |views| - 1
        ensures (head + ends)[|head| + k] == from + views[k].offset + views[k].size - 3 - 2 * k
      {
        assert (head + ends)[|head| + k] == ends[k];
      }
    }

    static lemma PausesAwaited(data: seq<uint8>, views: seq<View>, from: nat)
      requires LaidOut(data, views)
      ensures AllWithin(data, views)
      ensures var ends := Ends(Cut(data, views)[..|views| - 1], from);
              && |ends| == |views| - 1
              && forall k :: 0 <= k < |views| - 1 ==> ends[k] == from + views[k].offset + views[k].size - 3 - 2 * k
    {
      EndsLength(Cut(data, views)[..|views| - 1], from);
      var ends := Ends(Cut(data, views)[..|views| - 1], from);
      forall k | 0 <= k < |views| - 1 ensures ends[k] == from + views[k].offset + views[k].size - 3 - 2 * k {
        PauseAt(data, views, from, k);
      }
    }

    static lemma PauseAt(data: seq<uint8>, views: seq<View>, from: nat, k: nat)
      requires LaidOut(data, views) && k < |views| - 1
      ensures AllWithin(data, views)
      ensures var ends := Ends(Cut(data, views)[..|views| - 1], from);
              k < |ends| && ends[k] == from + views[k].offset + views[k].size - 3 - 2 * k
    {
      ConcatLength(data, views, k + 1);
      EndWithin(Cut(data, views), from, k);
      assert views[k + 1].offset == views[k].offset + views[k].size + 2;
    }

    static lemma EndWithin(packets: seq<seq<uint8>>, from: nat, k: nat)
      requires k + 1 < |packets|
      ensures k < |Ends(packets[..|packets| - 1], from)|
      ensures Ends(packets[..|packets| - 1], from)[k] == from + |Concat(packets[..k + 1])|
    {
      EndsAt(packets[..|packets| - 1], from, k);
      assert packets[..|packets| - 1][..k + 1] == packets[..k + 1];
    }

    static lemma {:induction false} EndsLength(packets: seq<seq<uint8>>, from: nat)
      ensures |Ends(packets, from)| == |packets|
    {
      if packets != [] {
        EndsLength(packets[..|packets| - 1], from);
      }
    }

    static lemma {:induction false} EndsAt(packets: seq<seq<uint8>>, from: nat, k: nat)
      requires k < |packets|
      ensures k < |Ends(packets, from)| && Ends(packets, from)[k] == from + |Concat(packets[..k + 1])|
    {
      var less := packets[..|packets| - 1];
      EndsLength(less, from);
      if k < |less| {
        EndsAt(less, from, k);
        assert less[..k + 1] == packets[..k + 1];
      } else {
        assert packets[..k + 1] == packets;
      }
    }

    static lemma ConcatStrips(data: seq<uint8>, views: seq<View>)
      requires LaidOut(data, views)
      ensures AllWithin(data, views) && Stripped(data, views, Concat(Cut(data, views)))
    {
      var n := |views|;
      ConcatLength(data, views, n);
      assert Cut(data, views)[..n] == Cut(data, views);
      forall k | 0 <= k < n
        ensures StrippedTo(data, views[k], Concat(Cut(data, views)), views[k].offset - 3 - 2 * k)
      {
        ConcatAt(data, views, k);
      }
    }

    /** So many bytes come before packet k, and so many are there in all. */
    static lemma {:induction false} ConcatLength(data: seq<uint8>, views: seq<View>, k: nat)
      requires LaidOut(data, views) && k <= |views|
      ensures AllWithin(data, views)
      ensures |Concat(Cut(data, views)[..k])| == (if k < |views| then views[k].offset - 2 else |data|) - 1 - 2 * k
    {
      if k > 0 {
        ConcatLength(data, views, k - 1);
        ConcatUpTo(Cut(data, views), k - 1);
      }
    }

    static lemma ConcatAt(data: seq<uint8>, views: seq<View>, k: nat)
      requires LaidOut(data, views) && k < |views|
      ensures AllWithin(data, views)
      ensures StrippedTo(data, views[k], Concat(Cut(data, views)), views[k].offset - 3 - 2 * k)
    {
      ConcatLength(data, views, k);
      var ps := Cut(data, views);
      ConcatUpTo(ps, k);
      Middle(Concat(ps[..k]), ps[k], Concat(ps));
    }

    static lemma Middle(front: seq<uint8>, p: seq<uint8>, all: seq<uint8>)
      requires front + p <= all
      ensures |front| + |p| <= |all| && all[|front|..|front| + |p|] == p
    {
      assert all[|front|..|front| + |p|] == (front + p)[|front|..] == p;
    }

    // ----- A whole input -----

    /** The process is the controller, and the buffers are its own. */
    ghost predicate Usable(pid: nat)
      reads this, bridge, bridge.counts, feedback, feedback.extra, snapshot
    {
      && bridge.Valid() && bridge.sys.ctl.pid == pid && bridge.sys.ctl.pc.Ready?
      && feedback.Valid() && snapshot.Valid() && snapshot.counts != bridge.counts
    }

    /** The connection was refused: cancel the run and drop the file. */
    method Abandon(data: seq<uint8>, run: uint64, pid: nat, fuel: nat) returns (outcome: Outcome)
      requires Usable(pid) && Sending(data) && sent == [] && run == bridge.runId
      modifies `file, `fileFaults, `moments, bridge, bridge.counts, host`rounds
      ensures Safe(data) && old(fileFaults) <= fileFaults
      ensures bridge.SameRun(old(bridge.sys), bridge.sys) && bridge.runId == run
      ensures outcome == Pending || outcome == Exited(2) || outcome == Returned(-1)
      ensures outcome == Exited(2) ==> fileFaults > old(fileFaults) || CancelRefused(run)
      ensures outcome == Pending ==> StillAtIt(data) && host.rounds >= old(host.rounds) + fuel
      ensures outcome != Exited(2) ==> fileFaults == old(fileFaults)
      ensures outcome.Returned? ==> AtRest() && file == None && Usable(pid)
                                    && bridge.sys.ctl.pc == Ready(Reply.Cancelled(run, false))
    {
      var cancelled := Cancel(data, run, pid, fuel);
      if cancelled.None? {
        return Pending;
      }
      var removed := Unlink(data);
      return if !cancelled.value || !removed then Exited(2) else Returned(-1);
    }

    method Cancel(ghost data: seq<uint8>, run: uint64, pid: nat, fuel: nat) returns (ok: Option<bool>)
      requires Usable(pid) && Sending(data) && sent == [] && run == bridge.runId
      modifies `moments, bridge, bridge.counts, host`rounds
      ensures Safe(data) && bridge.SameRun(old(bridge.sys), bridge.sys) && bridge.runId == run
      ensures ok == Some(true) ==> AtRest() && bridge.sys.ctl.pc == Ready(Reply.Cancelled(run, false))
      ensures ok == Some(false) ==> CancelRefused(run)
      ensures ok.Some? ==> Usable(pid) && TheRun() == Run.Cancelled
      ensures ok.None? ==> !bridge.sys.ctl.pc.Ready? && host.rounds >= old(host.rounds) + fuel
    {
      var result, at := bridge.CancelRunId(host, pid, run, fuel);
      if result.None? {
        return None;
      }
      Note(data);
      return Some(result.value.Ok?);
    }

    /** The bridge answered EBUSY to the cancel: somebody had been admitted. */
    ghost predicate CancelRefused(run: nat)
      reads bridge
    {
      && bridge.sys.ctl.pc == Ready(Reply.Cancelled(run, true))
      && AdmittedSome(bridge.sys.w.conns.admitted, run)
    }

    /** Import what the snapshot took. */
    method ImportSnapshot(ghost data: seq<uint8>, ghost run: nat) returns (ok: bool)
      requires Usable(bridge.sys.ctl.pid) && Sending(data) && bridge.Took(snapshot, run)
      modifies `moments, feedback, feedback.extra
      ensures Safe(data) && Usable(bridge.sys.ctl.pid)
      ensures ok <==> 1 <= bridge.counts.Length <= 1048576
      ensures ok ==> feedback.imports != [] && FeedbackShows(bridge.sys.ctl.pc.reply.counts)
    {
      ghost var x := Import(0, snapshot.counts[..snapshot.nslots]);
      assert x.counts == bridge.sys.ctl.pc.reply.counts;
      ok := feedback.Add(snapshot, 0);
      Note(data);
      if ok {
        FeedbackIsExact(x);
      }
    }

    /** Wait for the run and import its counts; None while waiting. */
    method TakeFeedback(ghost data: seq<uint8>, run: uint64, pid: nat, fuel: nat) returns (ok: Option<bool>)
      requires Usable(pid) && Sending(data) && run == bridge.runId
      modifies `moments, bridge, bridge.counts, feedback, feedback.extra, snapshot, snapshot.counts, host
      ensures Safe(data) && bridge.SameBooks(old(bridge.sys), bridge.sys) && bridge.runId == run
      ensures ok.Some? ==> Usable(pid)
      ensures ok == Some(false) ==> host.failures > old(host.failures) || NoFeedback(run, old(host.now))
      ensures ok.None? ==> !bridge.sys.ctl.pc.Ready? && host.rounds >= old(host.rounds) + fuel
      ensures ok == Some(true) ==> AtRest() && feedback.imports != [] && HasFeedback(run)
    {
      ok := Await(data, run, pid, fuel);
      if ok == Some(true) {
        var added := ImportSnapshot(data, run);
        ok := Some(added);
      }
    }

    method Await(ghost data: seq<uint8>, run: uint64, pid: nat, fuel: nat) returns (ok: Option<bool>)
      requires Usable(pid) && Sending(data) && run == bridge.runId
      modifies bridge, bridge.counts, snapshot, snapshot.counts, host
      ensures Sending(data) && bridge.SameBooks(old(bridge.sys), bridge.sys) && bridge.runId == run
      ensures ok.Some? ==> Usable(pid)
      ensures ok == Some(false) ==> host.failures > old(host.failures) || NoFeedback(run, old(host.now))
      ensures ok.None? ==> !bridge.sys.ctl.pc.Ready? && host.rounds >= old(host.rounds) + fuel
      ensures ok == Some(true) ==>
                && AtRest() && bridge.Took(snapshot, run)
                && (bridge.sys.w.hits.strays == {} ==> AreCalls(bridge.sys.ctl.pc.reply.counts, run))
    {
      var taken := bridge.WaitSnapshot(host, pid, run, snapshot, COVERAGE_TIMEOUT_MS, fuel);
      ok := if taken.None? then None else Some(taken.value.Ok?);
    }

    /** Why there is no feedback although the clock and the allocator work: the run
      * was not over when the time was up, a counter had wrapped, or the map has no
      * slot or more slots than there are feedback bytes. */
    ghost predicate NoFeedback(run: nat, since: int)
      reads bridge, host
    {
      && bridge.sys.ctl.pc.Ready?
      && match bridge.sys.ctl.pc.reply
         case Refused(TimedOut) => !WaitOver(bridge.sys, run) && host.now - since >= 7000
         case Refused(Overflow) => bridge.sys.w.overflow && bridge.Wrapped(run)
         case Snapshot(r, _, _) => r == run && !(1 <= bridge.counts.Length <= 1048576)
         case _ => false
    }

    /** What fuzzServer does once the connection is closed. */
    method Finish(data: seq<uint8>, run: uint64, pid: nat, fuel: nat, ghost delivered: bool) returns (outcome: Outcome)
      requires Usable(pid) && Sending(data) && run == bridge.runId && fileFaults == 0 && !refused
      requires (delivered ==> plan == Plan(sent, waits)) && (delivered <==> sendFaults == 0)
      modifies `file, `fileFaults, `moments, bridge, bridge.counts
      modifies feedback, feedback.extra, snapshot, snapshot.counts, host
      ensures bridge.SameRun(old(bridge.sys), bridge.sys) && bridge.runId == run
      ensures Answered(data, run, outcome, delivered)
      ensures outcome.Exited? ==>
                fileFaults > 0 || host.failures > old(host.failures) || NoFeedback(run, old(host.now))
      ensures outcome == Pending ==> host.rounds >= old(host.rounds) + fuel
      ensures outcome.Returned? ==> Usable(pid)
    {
      var taken := TakeFeedback(data, run, pid, fuel);
      if taken.None? {
        return Pending;
      }
      if !taken.value {
        return Exited(2);
      }
      var removed := Unlink(data);
      return if removed then Returned(0) else Exited(2);
    }

    /** Nothing stands in the way of the next begin but the limit of run ids. */
    ghost predicate AtRest()
      reads bridge
    {
      Decode(bridge.gate) == Idle(bridge.runId)
    }

    /** How a call that has not returned stands: the file half written, the input half
      * sent, or a cancel or a wait under way. */
    ghost predicate StillAtIt(data: seq<uint8>)
      reads this, bridge
    {
      || (TheRun() == NotBegun && file.Some? && file.value < data)
      || (TheRun() == Underway && sent < plan.bytes)
      || !bridge.sys.ctl.pc.Ready?
    }

    /** libFuzzer sees the counts of a snapshot of the run, and they are the run's
      * calls unless a live thread had an older add pending when it began. */
    ghost predicate HasFeedback(run: nat)
      reads this, bridge, feedback, feedback.extra
    {
      && bridge.sys.ctl.pc.Ready? && bridge.sys.ctl.pc.reply.Snapshot? && bridge.sys.ctl.pc.reply.run == run
      && FeedbackShows(bridge.sys.ctl.pc.reply.counts)
      && (bridge.sys.w.hits.strays == {} ==> AreCalls(bridge.sys.ctl.pc.reply.counts, run))
    }

    /** There is a count for every slot, and it is the number of the run's calls. */
    ghost predicate AreCalls(counts: seq<nat>, run: nat)
      reads bridge
    {
      && |counts| == bridge.counts.Length
      && forall i :: 0 <= i < |counts| ==> counts[i] == |CallsOn(bridge.sys.w.hits.called, run, i)|
    }

    /** libFuzzer sees min(255, counts[i]) for every edge i, and 0 in every other
      * byte. */
    ghost predicate FeedbackShows(counts: seq<nat>)
      reads this, feedback, feedback.extra
    {
      && feedback.extra.Length == 1048576
      && forall i :: 0 <= i < feedback.extra.Length ==>
           feedback.extra[i] == if i >= |counts| then 0 else if counts[i] < 255 then counts[i] else 255
    }

    lemma FeedbackIsExact(x: Import)
      requires feedback.Valid() && feedback.imports == [x] && x.offset == 0
      ensures FeedbackShows(x.counts)
    {
      feedback.BytesAreSums();
      forall i: nat | i < MAX_EDGES ensures Total([x], i) == Share(x, i) {
        assert [x][..0] == [];
        assert Total([x], i) == Total([], i) + Share(x, i);
      }
    }

    /** What the outcome of a call promises, for an input that decodes.  Whatever the
      * system calls answered and whenever the process is killed, the input is on disk
      * while its run is under way and not imported, and what was sent, in that run
      * only, is a prefix of what should be.  A return leaves no file and the gate
      * idle; it is -1 exactly if the connection was refused, and 0 means that the
      * feedback is the run's. */
    ghost predicate Answered(data: seq<uint8>, run: nat, outcome: Outcome, delivered: bool)
      reads this, bridge, feedback, feedback.extra
    {
      && Safe(data)
      && (delivered ==> plan == Plan(sent, waits))
      && (outcome == Pending ==> StillAtIt(data))
      && (fileFaults > 0 ==> outcome.Exited?)
      && (outcome.Exited? ==> outcome == Exited(2))
      && (outcome.Returned? ==>
            && file == None && AtRest() && outcome == Returned(if refused then -1 else 0)
            && (delivered <==> !refused && sendFaults == 0))
      && (outcome == Returned(-1) ==>
            sent == [] && feedback.imports == [] && bridge.sys.ctl.pc == Ready(Reply.Cancelled(run, false)))
      && (outcome == Returned(0) ==> HasFeedback(run))
    }

    /** At no moment of a call has anything been sent without the whole input on disk,
      * until its counts are imported. */
    lemma KeptOnDisk(data: seq<uint8>, run: nat, outcome: Outcome, delivered: bool, i: nat)
      requires Answered(data, run, outcome, delivered) && i < |moments|
      ensures moments[i].sent != [] && moments[i].imports == [] ==> moments[i].file == Some(data)
      ensures moments[i].sent <= plan.bytes && (moments[i].sent != [] ==> moments[i].run == Underway)
    {
      assert MomentOk(moments[i], data, plan.bytes);
    }

    /** An input that was delivered is on the wire, byte by byte, and responses have
      * been awaited where they should. */
    lemma DeliveredOnWire(data: seq<uint8>, run: nat, outcome: Outcome) returns (views: seq<View>)
      requires Planned(data) && Decoded(data).Some? && Answered(data, run, outcome, true)
      ensures OnWire(data, prelude, views, sent) && Awaited(data, prelude, views, waits)
    {
      DecodedIs(data);
      views := PlanOnWire(data, Decoded(data).value);
    }

    /** Why a run that was begun makes the process exit although no call on the file
      * failed, and neither did the clock or the allocator. */
    ghost predicate RunRefused(run: nat, since: int)
      reads this, bridge, host
    {
      if refused then CancelRefused(run) else NoFeedback(run, since)
    }

    /** ... and why it may exit before there is one: the gate was not idle when
      * fuzzServer was called, or no run id is left. */
    ghost predicate BeginRefused(wasIdle: bool)
      reads bridge
    {
      || (bridge.sys.ctl.pc == Ready(Refused(Busy)) && !wasIdle)
      || (bridge.sys.ctl.pc == Ready(Refused(Overflow)) && bridge.runId == 0x3FF_FFFF_FFFF)
    }

    /** The run was begun by this call, and without strays if no takeover gave up
      * waiting. */
    twostate predicate OwnRun(run: nat)
      reads bridge
    {
      && run == bridge.runId == old(bridge.runId) + 1
      && run in bridge.sys.w.runs.enabled && run !in old(bridge.sys.w.runs.enabled)
      && (old(bridge.sys.w.runs.drained) ==> bridge.sys.w.hits.strays == {})
    }

    /** Preserve the input and begin a run; None when that fails or goes on. */
    method Prepare(data: seq<uint8>, pid: nat, fuel: nat) returns (run: Option<uint64>, outcome: Outcome)
      requires Usable(pid) && Safe(data) && sent == [] && feedback.imports == [] && lastRun == bridge.runId
      requires fileFaults == 0
      modifies `file, `fileFaults, `moments, bridge, bridge.counts, host`rounds
      ensures run.None? ==>
                && Answered(data, 0, outcome, false) && !outcome.Returned?
                && (outcome.Exited? ==> fileFaults > 0 || (TheRun() == NotBegun && BeginRefused(old(AtRest()))))
                && (outcome == Pending ==> host.rounds >= old(host.rounds) + fuel)
      ensures run.Some? ==>
                && Usable(pid) && Sending(data) && file == Some(data) && OwnRun(run.value)
                && fileFaults == 0 && old(host.rounds) <= host.rounds
    {
      var kept := WriteCurrentInput(data, fuel);
      if kept.None? {
        return None, Pending;
      }
      if !kept.value {
        return None, Exited(2);
      }
      run := Begin(data, pid);
      outcome := if run.None? then Exited(2) else Pending;
    }

    method Begin(ghost data: seq<uint8>, pid: nat) returns (run: Option<uint64>)
      requires Usable(pid) && Safe(data) && file == Some(data)
      requires sent == [] && feedback.imports == [] && lastRun == bridge.runId
      modifies `moments, bridge, bridge.counts
      ensures run.None? ==> Safe(data) && TheRun() == NotBegun && BeginRefused(old(AtRest()))
      ensures run.Some? ==> Usable(pid) && Sending(data) && OwnRun(run.value)
    {
      var begun := bridge.BeginRunId(pid);
      if begun.Err? {
        return None;
      }
      Note(data);
      return Some(begun.value);
    }

    /** What fuzzServer does once the run has begun. */
    method Exchange(data: seq<uint8>, input: InputBuffer, run: uint64, pid: nat, fuel: nat)
        returns (outcome: Outcome, delivered: bool)
      requires Usable(pid) && Sending(data) && sent == [] && waits == [] && run == bridge.runId
      requires fileFaults == sendFaults == 0
      requires Planned(data) && input.Within(data) && Decoded(data) == Some(input.Input(data))
      modifies `file, `sent, `fileFaults, `refused, `sendFaults, `waits, `moments, bridge, bridge.counts
      modifies feedback, feedback.extra, snapshot, snapshot.counts, host
      ensures bridge.SameRun(old(bridge.sys), bridge.sys) && bridge.runId == run
      ensures Answered(data, run, outcome, delivered)
      ensures outcome.Exited? ==>
                || fileFaults > 0 || host.failures > old(host.failures)
                || RunRefused(run, old(host.now))
      ensures outcome == Pending ==> host.rounds >= old(host.rounds) + fuel
      ensures outcome.Returned? ==> Usable(pid)
    {
      var connects := Connects(data);
      if connects {
        outcome, delivered := Converse(data, input, run, pid, fuel);
      } else {
        outcome := Abandon(data, run, pid, fuel);
        delivered := false;
      }
    }

    /** Send the input, and wait for its feedback whether that succeeded or not. */
    method Converse(data: seq<uint8>, input: InputBuffer, run: uint64, pid: nat, fuel: nat)
        returns (outcome: Outcome, delivered: bool)
      requires Usable(pid) && Sending(data) && sent == [] && waits == [] && run == bridge.runId
      requires fileFaults == sendFaults == 0 && !refused
      requires Planned(data) && input.Within(data) && Decoded(data) == Some(input.Input(data))
      modifies `file, `sent, `fileFaults, `sendFaults, `waits, `moments, bridge, bridge.counts
      modifies feedback, feedback.extra, snapshot, snapshot.counts, host
      ensures bridge.SameRun(old(bridge.sys), bridge.sys) && bridge.runId == run
      ensures Answered(data, run, outcome, delivered)
      ensures outcome.Exited? ==>
                fileFaults > 0 || host.failures > old(host.failures) || NoFeedback(run, old(host.now))
      ensures outcome == Pending ==> host.rounds >= old(host.rounds) + fuel
      ensures outcome.Returned? ==> Usable(pid)
    {
      DecodedIs(data);
      var sending := Deliver(data, input, fuel);
      if sending.None? {
        return Pending, false;
      }
      delivered := sending.value;
      outcome := Finish(data, run, pid, fuel, delivered);
    }

    /** What fuzzServer does with an input that decodes. */
    method ServeInput(data: seq<uint8>, input: InputBuffer, pid: nat, fuel: nat)
        returns (outcome: Outcome, delivered: bool, ghost run: nat)
      requires Usable(pid) && Safe(data) && sent == [] && waits == []
      requires feedback.imports == [] && lastRun == bridge.runId
      requires Planned(data) && input.Within(data) && Decoded(data) == Some(input.Input(data))
      requires fileFaults == sendFaults == 0
      modifies `file, `sent, `fileFaults, `refused, `sendFaults, `waits, `moments, bridge, bridge.counts
      modifies feedback, feedback.extra, snapshot, snapshot.counts, host
      ensures Answered(data, run, outcome, delivered)
      ensures outcome.Exited? ==>
                || fileFaults > 0 || host.failures > old(host.failures)
                || (TheRun() == NotBegun && BeginRefused(old(AtRest())))
                || (OwnRun(run) && RunRefused(run, old(host.now)))
      ensures outcome == Pending ==> host.rounds >= old(host.rounds) + fuel
      ensures outcome.Returned? ==> Usable(pid) && OwnRun(run)
    {
      var begun;
      begun, outcome := Prepare(data, pid, fuel);
      if begun.None? {
        return outcome, false, 0;
      }
      run := begun.value;
      outcome, delivered := Exchange(data, input, begun.value, pid, fuel);
    }

    method DecodeNew(data: seq<uint8>) returns (ok: bool, input: InputBuffer)
      ensures fresh(input) && fresh(input.packets)
      ensures ok ==> input.Within(data) && Decoded(data) == Some(input.Input(data))
      ensures !ok ==> Malformed(data) && Decoded(data) == None
    {
      input := new InputBuffer();
      ok := input.Decode(data);
      DecodedIs(data);
      DecodingUnique(data, if ok then Some(input.Input(data)) else None, Decoded(data));
    }

    /** No frames can be made out in the bytes. */
    static ghost predicate Malformed(data: seq<uint8>) {
      data == [] || (data[0] / 2 % 2 == 1 && forall views :: !LaidOut(data, views))
    }

    /** A new call: nothing sent or noted yet, the feedback cleared, and the input
      * decoded. */
    method Start(data: seq<uint8>, ghost pid: nat) returns (ok: bool, input: InputBuffer)
      requires Usable(pid)
      modifies `sent, `waits, `plan, `lastRun, `fileFaults, `refused, `sendFaults, `moments, feedback, feedback.extra
      ensures Usable(pid) && Safe(data) && sent == [] && waits == [] && moments == [] && fileFaults == sendFaults == 0
      ensures Planned(data) && lastRun == bridge.runId && feedback.imports == []
      ensures fresh(input) && fresh(input.packets)
      ensures ok ==> input.Within(data) && Decoded(data) == Some(input.Input(data))
      ensures !ok ==> Malformed(data) && Decoded(data) == None
    {
      Reset(pid);
      ok, input := DecodeNew(data);
      SetPlan(data, pid);
    }

    method Reset(ghost pid: nat)
      requires Usable(pid)
      modifies `sent, `waits, `lastRun, `fileFaults, `refused, `sendFaults, `moments, feedback, feedback.extra
      ensures Usable(pid) && sent == [] && waits == [] && moments == [] && fileFaults == sendFaults == 0
      ensures lastRun == bridge.runId && feedback.imports == []
    {
      sent, waits, lastRun, moments := [], [], bridge.runId, [];
      fileFaults, refused, sendFaults := 0, false, 0;
      feedback.Clear();
    }

    ghost method SetPlan(data: seq<uint8>, pid: nat)
      requires Usable(pid) && moments == [] && sent == [] && waits == [] && lastRun == bridge.runId
      modifies `plan
      ensures Usable(pid) && Safe(data) && Planned(data)
    {
      var x := Decoded(data);
      plan := if x.Some? then PlanOf(x.value) else Plan([], []);
      NothingYet(data);
      DecodedIs(data);
      forall y | IsDecoding(data, Some(y)) ensures plan == PlanOf(y) {
        DecodingUnique(data, x, Some(y));
      }
    }

    lemma NothingYet(data: seq<uint8>)
      requires moments == [] && sent == [] && bridge.sys.w.runId <= lastRun
      ensures Safe(data)
    {
    }

    /** fuzzServer.  An input that does not decode changes nothing but the feedback,
      * which is cleared.  For any other input a return concerns the run that this
      * very call began, and an exit has one of a few reasons. */
    method Serve(data: seq<uint8>, pid: nat, fuel: nat)
        returns (outcome: Outcome, delivered: bool, ghost run: nat)
      requires Usable(pid)
      modifies this, bridge, bridge.counts, feedback, feedback.extra, snapshot, snapshot.counts, host
      ensures Planned(data) && lastRun == old(bridge.runId)
      ensures outcome.Returned? ==> Usable(pid)
      ensures Decoded(data).None? ==> outcome == Returned(-1) && !delivered && sent == [] && moments == []
      ensures Decoded(data).None? ==>
                && feedback.imports == [] && file == old(file) && bridge.sys == old(bridge.sys)
                && Malformed(data)
      ensures Decoded(data).Some? ==> Answered(data, run, outcome, delivered)
      ensures outcome.Exited? ==>
                || fileFaults > 0 || host.failures > old(host.failures)
                || (TheRun() == NotBegun && BeginRefused(old(AtRest())))
                || (OwnRun(run) && RunRefused(run, old(host.now)))
      ensures outcome == Pending ==> host.rounds >= old(host.rounds) + fuel
      ensures Decoded(data).Some? && outcome.Returned? ==> OwnRun(run)
    {
      var decodes, input := Start(data, pid);
      if !decodes {
        return Returned(-1), false, 0;
      }
      outcome, delivered, run := ServeInput(data, input, pid, fuel);
    }
  }
}
