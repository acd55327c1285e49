# A verified model of the Apache coverage fuzzer's bridge

The fuzzer runs libFuzzer inside one Apache child process. Every child counts the
edges it executes in one shared map, and the controller turns those counts into
libFuzzer's feedback, one input at a time. This project models the parts on which
the truth of that feedback rests, and proves what they promise:

- **The coverage bridge** (`covbridge.c`). A controller and many worker threads in
  several processes share a run id, a completed run, a controller id, an overflow
  flag, an array of counters and one packed 64-bit gate word, and use nothing but
  atomic loads, stores, fetch-adds and compare-exchanges. Any process may die
  between any two accesses, and the next controller takes over.
  `Bridge.dfy` is the step machine, one access to the map a step;
  `BridgeInvariant.dfy`, `WorkerSteps.dfy` and `ControllerSteps.dfy` hold the
  inductive invariant and its proof; `BridgeTheorems.dfy` and `BridgeHistories.dfy`
  draw the conclusions, and `OverflowFlag.dfy` those about the overflow flag;
  `Scenarios.dfy` gives particular histories.
- **The same code as methods.** `CovBridge.dfy` has the functions of `covbridge.c`
  as methods of a class with the packed word and the counter array in it
  (`GateWord.dfy`, `Interference.dfy`). Between any two accesses every other thread
  and process may take any number of steps, and each access is proved to be one
  step of the machine. `Host.dfy` stands for the clock, the allocator and the
  scheduler.
- **Around the bridge.** `Guards.dfy` numbers the guards and creates the map;
  `Hooks.dfy` has Apache's connection hooks; `Feedback.dfy` has libFuzzer's extra
  counters; `FuzzServer.dfy` takes one input from its preservation on disk to its
  feedback.
- **Framing** (`Framing.dfy`): the multipacket encoder, and the decoders in C and
  in Python.

## Assumptions

- Interleavings are sequentially consistent.
- One live process at a time is the controller, by the lock on `logs/fuzzer.lock`
  (`fuzzer.c:457-475`): taking the lock is a step that needs it free, and a process
  that dies frees it. A process id is not used again.
- A thread works on one connection at a time: it begins, suspends, resumes and ends
  connections as the hooks of `fuzzer.c:579-637` do, and makes tagged guard calls
  only between those calls. The machine's worker steps have this shape; `Hooks.dfy`
  shows that the hooks call the bridge so, and end a connection once.
- In the machine a deadline may be found passed at any test. In the methods the
  readings of the clock never decrease, a timeout takes at least the time that was
  asked for, and readings and allocations that fail are counted.
- The retry loops have no bound in the source. The methods take a number `fuel` of
  rounds and answer `None`, or `Pending`, for a call that has gone round that often
  and is still at it.
- `cb_thread_resume`'s and `cb_connection_end`'s tests for run id 0, and the tests
  for a map that does not exist yet, are not reached in `Bridge.dfy`: connections
  have the nonzero run id that the admission returned, and the map exists.

## What was found

- FINALIZING does not always have a finalizer. After a claim stored the new run id
  (`covbridge.c:204`) and before it stores the gate (205), the finalizer may look
  at the run id (366), find its run replaced and return ESTALE, leaving the old
  gate in FINALIZING with nobody to clear it. The claim's own store does so, and a
  controller that dies in between leaves it to the next claim.
  `Scenarios.FinalizerGone` is such a history; `Scenarios.FinalizerLeaves` says
  that this look is exactly the step at which it happens; `BridgeTheorems.Phases`
  gives the finalizer whenever the gate's run is the current one.
- After a takeover the finalizer of the replaced run may store its own id over a
  completion (370), which makes the wait for a finished run time out
  (`Scenarios.CompletionLost`). It never ends a wait too early. It takes a live
  finalizer of the replaced run that is between its load of the run id and its
  store when the next run is opened: without one, completion is exact after any
  takeovers (`BridgeHistories.CompletionUndisturbed`).
  `BridgeTheorems.WaitBroken` names exactly the steps that undo a completed wait.
  `BridgeTheorems.CompletionSettles` covers histories with takeovers, and
  `BridgeTheorems.CompletionComplete` those without.
- Three error branches cannot be reached under the assumptions: EINVAL in
  `cb_connection_end` (348-350), ESTALE in `cb_cancel` (260-263), and the test of
  the run id after the wait for a snapshot (438). The methods prove so where the
  branch stands.
- The encoder checks neither the multipacket flag nor the limit of 64 packets that
  `README.md:43` states: decoding what it made gives back its arguments if and only
  if the flag is set and there are at most 64 packets (`Framing.RoundTrip`).

## Model

| member | source | states |
|---|---|---|
| WorkerSteps.WorkerKeeps | covbridge.c:285-381 | every worker step, from guard load to the finalizer's last CAS, keeps the whole invariant |
| ControllerSteps.TraceKeeps | covbridge.c:155-454 | every state of every interleaving, with deaths anywhere, satisfies the invariant |
| BridgeTheorems.ExactIsolation | covbridge.c:408-454 | unless live threads had adds of earlier runs pending when begin started zeroing, every count of a snapshot equals, as an integer, the number of guard calls made on that edge under the snapshot's run |
| BridgeTheorems.EdgeExact | covbridge.c:449-452 | a single edge that no such add has reached is exact as an integer, whatever happened to the others; and unless its counter wrapped, its count is the number of the run's calls only if none has |
| BridgeTheorems.NoStragglersExact | covbridge.c:224-238 | if no live thread was between gate load and fetch-add at the step at which begin found the gate idle, the snapshot is exact as integers, whatever takeovers and deaths came before |
| BridgeTheorems.DrainedNoStrays | covbridge.c:188-198 | as long as no claim gave up waiting, there are no such threads |
| BridgeTheorems.BoundedContamination | covbridge.c:102-119 | in any history the counts of a snapshot, summed over the edges, exceed the number of calls of its run by at most the number of adds that live threads had pending from earlier runs, one each at most; no call is missing among the adds behind a count, and a count that has not wrapped is exactly the number of its adds |
| BridgeTheorems.StraysOrigin | covbridge.c:224-238 | the adds that may spoil a run are those that live threads had pending at the very step at which begin found the gate idle for it |
| BridgeTheorems.OneAddPerThread | covbridge.c:110-115 | the pending adds of live threads and the live threads inside the guard are equally many |
| BridgeTheorems.ContaminationByStalledThreads | covbridge.c:188-243 | the sum of a snapshot's counts exceeds the number of calls of its run by at most the number of live threads that were between gate load and fetch-add when begin started zeroing |
| OverflowFlag.OverflowMeansWrap | covbridge.c:114-118 | unless live threads were inside the guard when begin started zeroing, a raised overflow flag means that some edge was called at least 2^64 times in the current run |
| OverflowFlag.DrainedNoMarks | covbridge.c:188-198 | as long as no claim gave up waiting, no live thread was about to raise the flag when begin started zeroing |
| BridgeTheorems.ActiveConserved | covbridge.c:285-361 | the gate's active field is the number of counted connections of the gate's run, deaths included, and no end call has found it at zero |
| BridgeTheorems.Phases | covbridge.c:352-379 | ENABLED means the current run and no FINALIZING; FINALIZING means nobody is counted, and one finalizer while the run is current; no run has two finalizers |
| BridgeTheorems.OnceEach | covbridge.c:241-243 | no run id is enabled twice or finalized twice, and only enabled runs that nobody shut are finalized |
| Scenarios.FinalizerGone | covbridge.c:204-205 | a history in which FINALIZING is left without a finalizer between the two stores of a claim |
| Scenarios.FinalizerLeaves | covbridge.c:366-369 | a step takes the finalizer away from a gate that stays in FINALIZING if and only if it is the finalizer's look at a replaced run id |
| BridgeTheorems.CompletionSound | covbridge.c:425-442 | a snapshot means that the run was finalized, that somebody was admitted, that all admitted have ended and returned, and that the gate is idle at this run |
| BridgeTheorems.CompletionSettles | covbridge.c:362-379 | for a run neither shut nor cancelled, the gate is idle if and only if all admitted connections' end calls returned; the completion then stands if and only if no replaced run's finalizer was the last to store one at this gate |
| BridgeTheorems.CompletionComplete | covbridge.c:425-427 | without takeovers the wait condition holds if and only if at least one connection was admitted and every admitted one's end call has returned |
| BridgeHistories.CompletionUndisturbed | covbridge.c:366-379 | after any takeovers: if no live finalizer of another run was between its load and its store when begin opened this run, the wait condition holds if and only if at least one connection was admitted and every admitted one's end call has returned |
| BridgeTheorems.WaitBroken | covbridge.c:370 | a step undoes a wait that is over if and only if it is another run's finalizer storing its id, or one of the controller's own stores in a claim, a begin or a cancel |
| Scenarios.CompletionLost | covbridge.c:370 | a history with a takeover in which everybody has returned and the wait condition does not hold |
| Scenarios.WholeRun | covbridge.c:408-454 | a history from claim to a snapshot with one counted call, without takeover |
| BridgeTheorems.BeginUndisturbed | covbridge.c:224-243 | from its idle check to its gate store, begin has an idle gate, no counted connection and no finalizer of that run |
| BridgeTheorems.BeginExclusive | covbridge.c:236-243 | in that stretch no step but begin's changes the gate or the run id |
| BridgeTheorems.RunIdHeld | covbridge.c:241 | without takeovers the run id changes only when no connection is counted |
| BridgeTheorems.BeginHasEpoch | covbridge.c:218-235 | begin after a claim reports neither EPERM nor EOVERFLOW |
| BridgeTheorems.ClaimEpochs | covbridge.c:172-178 | a claim is refused for want of epochs if and only if the run id is at least 2^42 - 2 |
| BridgeTheorems.ClaimedHasEpoch | covbridge.c:173-178 | a successful claim leaves the map owned, with the gate at the current run and an epoch below the 42-bit limit |
| BridgeHistories.HistoryGrows | covbridge.c:203-208 | run id and gate run never decrease, and no logged event is ever undone |
| BridgeHistories.TakeoverFence | covbridge.c:200-209 | after a claim's gate store, no step of a thread busy with an older run changes the gate or the run id, and its end calls can only report ESTALE |
| BridgeHistories.RunIdsIncrease | covbridge.c:224-245 | the ids that begin returns increase strictly over any history of controllers |
| BridgeHistories.NoneAdmittedAfter | covbridge.c:293-311 | a finalized or cancelled run admits nobody ever after |
| BridgeHistories.SnapshotAdmitsNoneAfter | covbridge.c:293-311 | after a snapshot nobody is ever admitted to its run again |
| BridgeHistories.CancelFinal | covbridge.c:248-283 | after a cancel returned 0 or EBUSY no snapshot of that run succeeds, under any controller |
| BridgeHistories.CancelDrains | covbridge.c:270-282 | after a cancel the run is never published, and its gate is exactly idle once the remaining connections left |
| BridgeHistories.CancelThenBegin | covbridge.c:225-229 | after a cancel returned 0 a begin at that run id is not refused with EBUSY |
| BridgeTheorems.CancelSettles | covbridge.c:258-276 | the load or CAS that ends a cancel's loop keeps that the gate counts a connection if and only if the gate it met does, and leaves it closed |
| BridgeTheorems.CancelAnswers | covbridge.c:277-282 | the cancel then answers EBUSY exactly for that, with the completion erased |
| BridgeTheorems.CountedAdmitted | covbridge.c:306-311 | a gate that counts a connection has admitted one to its run |
| GateWord.DecodeEncode | covbridge.c:55-69 | packing and unpacking a gate that fits gives the gate back |
| GateWord.EncodeDecode | covbridge.c:55-69 | every word is the packing of exactly one gate that fits |
| GateWord.SameWord | covbridge.c:306-308 | a CAS compares words exactly when it compares records |
| GateWord.ForRunIdle | covbridge.c:55-57 | the shift of a 42-bit run id is the idle gate of that run |
| GateWord.WithFlag | covbridge.c:242 | or-ing in a flag sets that field alone |
| GateWord.Increment | covbridge.c:307 | adding one to a word whose active field is not full carries into no other field |
| GateWord.Decrement | covbridge.c:352 | taking one from a word whose active field is not zero borrows from no other field |
| GateWord.ClearEnabled | covbridge.c:185 | masking out ENABLED clears that field alone |
| Interference.BetweenThread | covbridge.c:285-381 | whatever the others do between two accesses of a thread, they leave the thread's own state alone |
| Interference.BetweenController | covbridge.c:212-246 | between two accesses of the controller nobody changes the run id, the owner or an idle gate |
| Interference.BetweenOutsider | covbridge.c:208 | no step of the others makes a process the controller that does not claim the map |
| CovBridge.SharedMap.constructor | covbridge.c:123-153 | a fresh map shows the initial state of the machine |
| CovBridge.SharedMap.GuardHit | covbridge.c:102-119 | a tagged call of the run being measured is in its counter when the guard returns; an untagged one is not recorded |
| CovBridge.SharedMap.ConnectionBegin | covbridge.c:285-314 | a nonzero result is the run of a connection newly counted and the thread's tag; 0 changes nothing, and at a moment of the call the gate was closed, or full, which is when EOVERFLOW is left, or another run's; the only other outcome is still to be in the loop after the given number of rounds |
| CovBridge.SharedMap.ThreadPause | covbridge.c:316 | the tag is dropped |
| CovBridge.SharedMap.ThreadResume | covbridge.c:318-325 | the tag is taken back if and only if at a moment of the call the gate is enabled for the run; if not, the run was shut |
| CovBridge.SharedMap.ConnectionEnd | covbridge.c:327-381 | 0 means the connection is no longer counted, ESTALE that its run has been replaced, and EINVAL is never returned |
| CovBridge.SharedMap.EndDesired | covbridge.c:347-355 | the value swapped in is one connection less, or FINALIZING for the last one of an enabled run |
| CovBridge.SharedMap.Finalize | covbridge.c:362-379 | the last leaver ends in Ended or, only if its run has been replaced, in Stale |
| CovBridge.SharedMap.ClaimController | covbridge.c:155-210 | EINVAL exactly for a negative timeout; for any other, and a clock that works, EOVERFLOW exactly from run id 2^42 - 2 on; a clock error only if the clock failed; the wait for connections is given up only when the time asked for has passed; a claim leaves an idle gate at the next run id, above every enabled run, with an epoch left; not timing out keeps it true that no claim gave up waiting |
| CovBridge.SharedMap.LoadOwner | covbridge.c:218-220 | whatever the others do before it, the load finds the controller's id for the controller and another one for every other process |
| CovBridge.SharedMap.BeginRunId | covbridge.c:212-246 | EPERM exactly for a process that is not the controller, without a step of its own; for the controller begin succeeds whenever the gate is idle and an epoch is left, reports EBUSY only if the gate was not idle at the call, EOVERFLOW only at run id 2^42 - 1, and opens a new, empty run with the next id, its counters zero unless live threads had adds pending |
| CovBridge.SharedMap.CancelRunId | covbridge.c:248-283 | EINVAL exactly for a process that is not the controller or a run id other than the current one; else 0 or EBUSY, both of which record the run as cancelled, and never ESTALE: EBUSY if and only if at the moment of the call at which the gate was seen or made closed it counted a connection, which then has been admitted to this run; 0 leaves the gate idle |
| CovBridge.SharedMap.WaitSnapshot | covbridge.c:408-454 | EINVAL exactly for a process that is not the controller, no buffer, run id 0 or a timeout that is not positive; success finds the gate idle and fills the buffer with, for every edge, the number of calls made under the run's tag, unless live threads had older adds pending when the run was begun; ETIMEDOUT means that the wait condition did not hold and that the time asked for has passed, EOVERFLOW that the overflow flag was up and, without stragglers, that some edge was called at least 2^64 times in this run, any other error that the clock or the allocator failed |
| CovBridge.SnapshotBuffer.Reserve | covbridge.c:391-406 | a buffer that is large enough is kept; failure changes nothing |
| Guards.Runtime.Register | covbridge.c:85-100 | a new section gets the next numbers, a repeated or empty one changes nothing, and one that is late or would bring the guards above 1048576 ends the process |
| Guards.Runtime.Init | covbridge.c:123-153 | EALREADY if there is a map, EINVAL without a layout id or guards, and otherwise, unless `mmap` fails, a map with one zero counter for each numbered guard |
| Guards.Runtime.TraceGuard | covbridge.c:107-114 | the guard addresses a counter inside the map, for every guard of every section |
| Guards.Runtime.NumbersFill | covbridge.c:97-99 | a number belongs to exactly one guard if it is between 1 and nslots, and to none otherwise |
| Guards.Runtime.Apart | covbridge.c:94-99 | guards of an earlier section have smaller numbers |
| Feedback.ReplaySums | covbridge.c:463-481 | after a clear, any imports at any offsets leave each byte at the sum of its counts or at 255 if that is less, and bytes outside at 0 |
| Feedback.OrderIrrelevant | covbridge.c:474-479 | the bytes do not depend on the order of the imports |
| Feedback.ExtraCounters.Clear | covbridge.c:463 | every one of the 1048576 bytes is 0, and no import is left |
| Feedback.ExtraCounters.Add | covbridge.c:465-481 | accepted exactly for mode 1, at least one slot and no slot beyond byte 1048576; then each byte in the range becomes old byte plus count, or 255 if that is less, and every other byte, or on refusal every byte, stays as it was |
| Feedback.ExtraCounters.BytesAreSums | covbridge.c:475-478 | the array that libFuzzer reads holds min(255, sum) in every byte |
| Framing.DecodingUnique | fuzzer.c:151-189 | no byte string has two decodings, so decoders that answer the encoded input agree on every byte string |
| Framing.RoundTrip | generate-interesting-corpus.py:21-30 | decoding an encoding gives back flags and packets if and only if the flag is set and there are at most 64 packets |
| Framing.TooManyRejected | send-test-case.py:53-54 | more than 64 packets have no decoding |
| Framing.NoDecoding | fuzzer.c:172-180 | a short header, a zero or overlong frame, or a 65th frame means that no input encodes to these bytes |
| Framing.DecodingBytes | fuzzer.c:151-189 | a decoded input is its bytes: without flag bit 2 the one packet is all but the first, with it the packets are 1 to 64 stretches one behind the other, each after its size in two bytes, high one first |
| Framing.NoLayout | fuzzer.c:172-180 | bytes without a decoding are empty, or have flag bit 2 and cannot be cut up so |
| Framing.Raw | generate-interesting-corpus.py:17-18 | a raw input decodes to its one packet |
| Framing.Multipacket | generate-interesting-corpus.py:21-30 | fails exactly for no packets or a packet outside 1 to 65535 bytes, and otherwise is the flags and, packet by packet, two length bytes, the high one first, and the packet |
| Framing.InputBuffer.Decode | fuzzer.c:151-189 | accepts exactly the encodings; without flag bit 2 the one view is all bytes but the first, with it the views are 1 to 64 stretches that lie one behind the other, each after its size in two bytes, high one first, and a rejection means that there are no such stretches |
| Framing.ParseFuzzerInput | send-test-case.py:35-58 | accepts exactly the encodings and returns the encoded input, whose packets are the stretches of bytes just described |
| FuzzServer.Fuzzer.Serve | fuzzer.c:330-436 | at every moment at which the run of this call is under way and its counts not imported, the input is on disk, and what was sent, in that run only, is a prefix of the plan; on return no file is left, the gate is idle at the run that this call began, and so the next begin is refused only when run ids are used up; it returns -1 exactly if the connection was refused, and 0 means that the bytes of libFuzzer are min(255, count) of a snapshot of that run, which are its calls unless live threads had older adds pending; sent whole if and only if no send or response failed; it exits with 2 whenever a call on the file fails, and else only if the clock or the allocator failed, the gate was not idle at the call, run ids are used up, somebody had been admitted when the connection was refused, or the wait for this very run timed out after 7 seconds, found a counter wrapped or took a snapshot with no slot or more than 1048576 |
| FuzzServer.Fuzzer.Prepare | fuzzer.c:353-360 | success means that the input is on disk and that a run, with the next id and never enabled before, is under way; it fails only with a call on the file, at a gate that was not idle, or without run ids |
| FuzzServer.Fuzzer.WriteCurrentInput | fuzzer.c:63-96 | it succeeds unless a call on the file fails, and then the file holds exactly the input; a failure leaves the file as it was unless removing it failed too |
| FuzzServer.Fuzzer.Unlink | fuzzer.c:98-108 | success means that there is no file, whether or not there was one |
| FuzzServer.Fuzzer.SendAll | fuzzer.c:222-236 | it succeeds unless a send fails, and puts all the bytes on the wire, and otherwise a prefix of them |
| FuzzServer.Fuzzer.SendMultipacketData | fuzzer.c:291-311 | success completes the plan with the packets in order, and with flag bit 4 a response was awaited behind every packet but the last |
| FuzzServer.Fuzzer.Deliver | fuzzer.c:380-389 | success means that the wire carries the prelude if flagged and then every packet, and nothing else, and that responses were awaited where they should |
| FuzzServer.Fuzzer.DeliveredOnWire | fuzzer.c:284-311 | byte by byte: with flag bit 1 a delivered input is the prelude, behind which a response was awaited, and then its packets, otherwise the packets alone; these are all bytes but the first, or with flag bit 2 the framed stretches one behind the other without their length bytes, a response awaited behind all but the last if flag bit 4 is set and none otherwise |
| FuzzServer.Fuzzer.KeptOnDisk | fuzzer.c:353-433 | at no moment has a byte been sent and nothing been imported without the whole input on disk |
| FuzzServer.Fuzzer.Abandon | fuzzer.c:363-377 | a refused connection returns -1 only with this run cancelled and the file gone, removed after the cancel; it exits only if removing failed or somebody had been admitted to the run |
| FuzzServer.Fuzzer.Finish | fuzzer.c:411-435 | 0 is returned only after the import and with the file gone, and the file is not removed before the import; it exits only for a failing system call, or if the wait for this run was refused or its slots do not fit |
| FuzzServer.Fuzzer.FeedbackIsExact | fuzzer.c:415-425 | one import at offset 0 makes byte i the lesser of 255 and count i, and every byte beyond 0 |
| Hooks.ConnectionState.PreConnection | fuzzer.c:594-613 | a state exists exactly for an admitted connection, which the thread holds and is tagged for |
| Hooks.ConnectionState.Finish | fuzzer.c:579-592 | the first call ends the connection; every later one takes no step |
| Hooks.ConnectionState.Suspend | fuzzer.c:622-627 | the connection is parked and the thread untagged |
| Hooks.ConnectionState.Resume | fuzzer.c:629-637 | a parked connection is taken up again, tagged if and only if at a moment of the call the gate was enabled for its run; an ended one is left alone |

## Left out

- Weak memory: whether the acquire and release annotations suffice is not shown.
- Liveness: a cancel may wait forever for a finalizer whose process died, and the CAS loops have no fairness; what is proved about completion is what holds once the end calls have returned.
- CovBridge.SharedMap.WaitSnapshot: the layout id that is copied into the snapshot is not modelled.
- CovBridge.SharedMap.ClaimController: the lock and the test of the server before the driver starts belong to the caller.
- GateWord: words are naturals below 2^64 with bitwise operations defined on them, not machine bit vectors.
- FuzzServer.Fuzzer.Serve: the child-stopping hook, which may remove the file of an input in flight, is not modelled.
- FuzzServer.Fuzzer.SendPrelude: waiting for a response either succeeds or fails, by an arbitrary choice, and does not change the wire; how long it takes is not modelled.
- FuzzServer.Fuzzer.Unlink: the file is the one of this process, and its name always fits.
- Framing.InputBuffer.Decode: a null pointer for the data or the result is not modelled.
- `mmap`, `fork`, `fcntl`, clocks and sleeping: an allocated array, a step that kills a process, the lock assumption and arbitrary choices stand for them.
- `lockControllerFile` and `launchFuzzer`: the lock is the TakeLock step of the machine; threads and their start are not modelled.
- Apache, APR and LLVM themselves, profile file names, module registration, logging, the health check, and the literals of HTTP requests.
- The seed table of `generate-interesting-corpus.py` and its HTTP/2 and TLS encoders, the replay tool's command line, `build-check/check_build.py` and the shell scripts: fixed data, text matching and user interface, on which no count depends.
