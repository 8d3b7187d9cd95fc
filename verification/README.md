# sRPC, verified

This project models the parts of sRPC, an RPC library with TCP and DPDK transports, whose behaviour
is hardest to see from the code, and proves what they keep for every input, over every run or in
every reachable state. Every claim is a theorem about the model, checked by Dafny.

| file | what it models |
|---|---|
| `LockQueue.dfy`, `LockModel.dfy` | the request queue of the asynchronous locks and the rule by which it grants |
| `WaitDie.dfy`, `WoundDie.dfy` | the wait-die and the wound-die lock: on values, over runs, and as implemented |
| `Deadlock.dfy` | many such locks and the wait-for relation between transactions |
| `TimeoutLock.dfy` | the timeout lock and the alarm that all of them share |
| `LockGroup.dfy` | all-or-nothing locking of a group, with its countdown |
| `Handshake.dfy` | the DPDK connection handshake, connection ids and packet dispatch |
| `Basics.dfy` | bytes, optional values and little-endian numbers |
| `Marshal.dfy`, `Framing.dfy` | the chunked marshal with shared chunks, and TCP framing on top of it |
| `SparseInt.dfy`, `Codec.dfy` | variable-length integers bit for bit, and the container codec with its two readers |
| `Yapps.dfy` | the fixpoints of the parser generator: nullable, first and follow |
| `Dag.dfy` | the scheduler over many queues |
| `ThreadPool.dfy` | the work-stealing thread pool and its shutdown |
| `Buffers.dfy` | the growable message buffer and the reordering of the remote log |

Where the source updates objects in place, a class does, and its methods are proved against functions
on values; runs are sequences of steps of those functions. What an operation promises is stated besides
on the states before and after it, without those functions. Callbacks are entries of a log. A descriptor
may move any number of bytes at a time, but none only if none is ready. The network is the set of packets
ever sent, so loss, repetition and reordering need no steps of their own.

Some properties one would expect hold of the code only under a condition. In each case a member shows an
input or a run that fails, and others say when it holds:

| property | fails | holds when |
|---|---|---|
| wound-die locks do not deadlock | `RefuserCanDeadlock` | no transaction that refused a wound waits (`NeverDeadlocks`, `WaitingRefuserDeadlocks`) |
| `Alarm::run` fires all due alarms | `DueAlarmCanBeHeldBack` | no alarm that is not due has a smaller id than a due one (`AllDueFireIff`) |
| a lock group releases all it was granted | `ForgottenGrant` | no lock is added that it already holds (`AlwaysTracksIff`) |
| connection ids tell connections apart | `AcceptCanOverwrite`, `LateAckCanDivert` | no step clashes (`RunIff`; `AcceptClashIff` and its neighbours say when one does, `ClearRuns` which counters exclude it) |
| server ports are distinct | `PortsRepeat` | while the counter has not run through 16 bits (`PortsDistinct`) |
| shared chunks are safe from writes | `Clobber` | the other marshal has no bytes left in the array written to (`SurvivesIff`) |
| v64 values read back | `ByteCanBeLost` | and only when the value is outside the 8-byte class, where `dump` fills nine bytes and returns eight, or the buffer happens to hold the ninth (`TakeSent`) |
| DAG nodes enter the white queue once | `RepeatedQueueEntersTwice` | the first queue is not named again (`EntersAgainIff`, `EntersOnce`) |
| the thread pool runs every job | `JobCanBeLate` | it was pushed before its queue was drained (`RunsIffNotLate`) |
| the remote log writes in order | `RepeatBreaksOrder` | the id is not done with yet (`OutOfOrderIff`) |

## Model

| member | source | states |
|---|---|---|
| `LockQueue.GrantShape` | src/misc/alock.hpp:201-260 | What sanity_check looks for follows from the grant rule (granted iff no earlier request conflicts): FREE iff empty; WLOCKED iff the front is a granted writer and all others wait; RLOCKED iff exactly a maximal run of readers at the front is granted, as many as are counted |
| `LockQueue.RegrantIsRange` | src/misc/alock.hpp:170-193 | When the requests owed a grant are exactly a range of waiters, recomputing all grants is the same as granting that range, and the callbacks are those of the range in order |
| `LockQueue.RegrantKeeps` | src/misc/alock.cpp:101-180 | Recomputing grants keeps the reader and writer counts and the lock status |
| `LockQueue.RemoveSound` | src/misc/alock.cpp:101-180 | Removing a request never leaves an unjustified grant behind |
| `LockModel.AbortLedger` | src/misc/alock.cpp:101-180 | Aborting keeps the callback ledger: every issued request has been answered exactly once, by yes or no, unless it still waits, when it has not been answered; holders were answered yes |
| `LockModel.DestroyLedger` | src/misc/alock.cpp:8-18 | Destroying the lock keeps the ledger: as nobody waits afterwards, every request ever issued has been answered exactly once |
| `LockModel.IssuedIds` | src/misc/alock.cpp:25 | Grants carry ids the lock has issued, from 1 on, so the next request gets one that nobody was granted |
| `LockModel.AbortBase` | src/misc/alock.cpp:101-180 | Aborting any id, queued or not, keeps ids distinct and every request granted exactly when nothing ahead conflicts |
| `LockModel.AbortMeaning` | src/misc/alock.cpp:101-180 | The model step does what Aborts says of the two states: id is in no request of the new queue, the others are there in the same order, changed only from waiting to holding where nothing is in the way, no is called iff id waited, and nothing happens if id is not queued or the lock is destroyed |
| `LockModel.DestroyMeaning` | src/misc/alock.cpp:8-18 | The model step does what Destroys says: an empty queue, and no for each waiter, in queue order |
| `LockEffects.RemoveFirstWriter` | src/misc/alock.cpp:123-138 | The first writer can only wait under a read lock, and when it gives up, exactly the run of readers behind it is owed a grant |
| `LockEffects.RemoveWaiterQuiet` | src/misc/alock.cpp:117-141 | Whoever leaves from behind another writer unblocks nobody |
| `LockEffects.RemoveReader` | src/misc/alock.cpp:143-156 | When a reader unlocks, nobody is owed a grant unless it was the last one; then the queue is empty or the writer now in front is owed it, alone |
| `LockEffects.RemoveWriter` | src/misc/alock.cpp:157-177 | When the writer unlocks, exactly the writer now in front, or the run of readers now in front, is owed a grant |
| `WaitDieModel.VLockPreserves` | src/misc/alock.cpp:20-65 | Every request, admitted or refused, keeps the invariant: conflicting requests stand in strictly decreasing priority value, and a request is granted exactly when unblocked |
| `WaitDieModel.AbortPreserves` | src/misc/alock.cpp:101-180 | Every abort keeps that invariant |
| `WaitDieModel.VLockLedger` | src/misc/alock.cpp:20-65 | Every request keeps the callback ledger |
| `WaitDieModel.VLockMeaning` | src/misc/alock.cpp:20-99 | The model step does what Asks says: the newcomer enters iff its priority is smaller than that of every queued request it conflicts with, holds at once iff there is none, and is told no otherwise |
| `WaitDieModel.RunsAreSafe` | src/misc/alock.cpp:8-180 | After every run of requests, aborts and destruction: priority order, grant rule and callback ledger hold |
| `WaitDie.CanAcquire` | src/misc/alock.cpp:31-32 | The test on status and writer count that lets a request in at once holds exactly when nothing in the queue conflicts with it, and then wait-die would admit it at any priority |
| `WaitDie.WaitDieLock.DecideWait` | src/misc/alock.cpp:67-99 | The scan from the back stops at the first writer, yet decides admission against every conflicting request in the queue; the verify(0) behind the reader case is unreachable |
| `WaitDie.WaitDieLock.VLock` | src/misc/alock.cpp:20-65 | A request enters, behind all others, iff it is older than every queued request it conflicts with; it holds at once iff there is none; otherwise it is told no. All earlier requests stay as they are (Asks, on the two states alone) |
| `WaitDie.WaitDieLock.Abort` | src/misc/alock.cpp:101-180 | The request leaves, the others stay in order, and whoever nothing is in the way of any more is told yes; it is told no iff it waited. Without such a request, or once destroyed, nothing happens (Aborts, on the two states alone) |
| `WaitDie.WaitDieLock.AbortWaiter` | src/misc/alock.cpp:117-141 | Aborting a waiter grants exactly those owed it, in order, and then answers the waiter no |
| `WaitDie.WaitDieLock.UnlockReader` | src/misc/alock.cpp:143-156 | Unlocking a reader equals removing it and recomputing all grants |
| `WaitDie.WaitDieLock.UnlockWriter` | src/misc/alock.cpp:157-177 | Unlocking the writer equals removing it and recomputing all grants |
| `WaitDie.WaitDieLock.ReadAcquire` | src/misc/alock.hpp:162-193 | Grants a run of waiting readers: status, count and callbacks, all others untouched |
| `WaitDie.WaitDieLock.WriteAcquire` | src/misc/alock.hpp:156-160 | Grants one waiting writer: status and callback, all others untouched |
| `WaitDie.WaitDieLock.Destroy` | src/misc/alock.cpp:8-18 | The list is emptied and exactly the waiters are told no, in queue order (Destroys, on the two states alone) |
| `WoundDieModel.ScanClearsWay` | src/misc/alock.cpp:194-235 | After the scan every conflicting request still queued is older than the newcomer or a holder that refused a wound |
| `WoundDieModel.ScanGood` | src/misc/alock.cpp:194-235 | The scan keeps ids distinct, every grant justified, and the ordering of what it leaves |
| `WoundDieModel.ScanLedger` | src/misc/alock.cpp:194-235 | The scan answers no exactly to the waiters it removes and yes to nobody |
| `WoundDieModel.VLockPreserves` | src/misc/alock.cpp:237-307 | Every request, with any holders refusing, keeps the invariant: ahead of a waiter stand only older conflicting requests and holders that refused a wound |
| `WoundDieModel.AbortPreserves` | src/misc/alock.cpp:309-381 | Every abort keeps that invariant |
| `WoundDieModel.VLockLedger` | src/misc/alock.cpp:237-307 | Every request keeps the callback ledger |
| `WoundDieModel.VLockMeaning` | src/misc/alock.cpp:194-307 | The model step does what Asks says: the survivors of the scan stay in order, the newcomer stands behind them, and exactly those nothing is in the way of hold and are told |
| `WoundDieModel.ScanMeaning` | src/misc/alock.cpp:194-235 | The scan from the back, with its early end, wounds exactly the requests that conflict, are not older and have nobody older behind them (for a writer: no older writer) |
| `WoundDieModel.OlderStay` | src/misc/alock.cpp:194-235 | Nobody older than the newcomer is wounded, and nobody it does not conflict with |
| `WoundDieModel.RunsAreSafe` | src/misc/alock.cpp:182-381 | After every run of requests, wounds, aborts and destruction: ordering, grant rule and callback ledger all hold |
| `WoundDie.OwedAfterScan` | src/misc/alock.cpp:259-303 | Whatever the scan removed, the requests owed a grant are exactly the run the three status cases collect |
| `WoundDie.EraseMid` | src/misc/alock.hpp:332-353 | Removing a wounded request with the status changes of wound keeps status and reader count in step with the holders left |
| `WoundDie.WoundDieLock.WoundAt` | src/misc/alock.hpp:332-353 | A waiter is answered no and leaves; a holder is asked and leaves iff it agrees, else it is marked; both verifys hold |
| `WoundDie.WoundDieLock.ScanAndWound` | src/misc/alock.cpp:194-235 | The in-place scan from the back leaves the same queue and makes the same callbacks in the same order as the model scan |
| `WoundDie.WoundDieLock.GrantAfterScan` | src/misc/alock.cpp:259-303 | Granting by status equals recomputing all grants; none of its verifys can fail |
| `WoundDie.WoundDieLock.VLock` | src/misc/alock.cpp:237-307 | Exactly the conflicting requests that are not older and that the scan gets to are wounded: waiters are told no, holders are asked and leave unless they refuse; the newcomer enters behind those left, and whoever nothing is in the way of is told yes (Asks, on the two states alone) |
| `WoundDie.WoundDieLock.Abort` | src/misc/alock.cpp:309-381 | The request leaves, the others stay in order, and whoever nothing is in the way of any more is told yes; it is told no iff it waited. Without such a request, or once destroyed, nothing happens (Aborts, on the two states alone) |
| `WoundDie.WoundDieLock.AbortWaiter` | src/misc/alock.cpp:324-344 | Aborting a waiter grants exactly those owed it, in order, and then answers the waiter no |
| `WoundDie.WoundDieLock.UnlockReader` | src/misc/alock.cpp:346-358 | Unlocking a reader equals removing it and recomputing all grants |
| `WoundDie.WoundDieLock.UnlockWriter` | src/misc/alock.cpp:359-378 | Unlocking the writer equals removing it and recomputing all grants |
| `WoundDie.WoundDieLock.Destroy` | src/misc/alock.cpp:182-192 | The list is emptied and exactly the waiters are told no, in queue order (Destroys, on the two states alone) |
| `WaitDieSystem.WaitsForYounger` | src/misc/alock.cpp:67-99 | In any reachable state of any number of locks, a transaction waits only for transactions of larger priority value |
| `WaitDieSystem.ReachableInv` | src/misc/alock.cpp:8-180 | Every run of any number of locks keeps the invariant of each, and each request its transaction's priority |
| `WaitDieSystem.NeverDeadlocks` | src/misc/alock.cpp:20-180 | No run of any number of wait-die locks, one priority per transaction, has a cycle in its wait-for relation |
| `WaitDieSystem.SomebodyRuns` | src/misc/alock.cpp:20-180 | From every transaction a chain of waits leads to one that waits nowhere |
| `WoundDieSystem.WaitsForOlder` | src/misc/alock.cpp:194-307 | In any reachable state a transaction waits only for older ones and for transactions that refused a wound |
| `WoundDieSystem.NeverDeadlocks` | src/misc/alock.cpp:182-381 | If no transaction that refused a wound waits, there is no cycle, and from every transaction a chain of waits leads to one that waits nowhere |
| `WoundDieSystem.WaitingRefuserDeadlocks` | src/misc/alock.cpp:194-307 | The condition cannot be weakened: in every reachable state in which a transaction that refused a wound waits, there is a deadlock already or one more legal request makes one |
| `WoundDieSystem.RequestCloses` | src/misc/alock.cpp:200-211 | If a holder waits at another lock, the request of whom it waits for, refused by that holder, closes a cycle |
| `WoundDieSystem.RefuserCanDeadlock` | src/misc/alock.cpp:194-307 | Without that condition two locks and two transactions can deadlock |
| `WaitGraph.ClimbingNeverDeadlocks` | src/misc/alock.cpp:20-381 | Waits that climb in rank, except towards transactions that wait nowhere, cannot close a cycle |
| `WaitGraph.ChainToRunner` | src/misc/alock.cpp:20-381 | If waits climb so, following them from any transaction ends at one that waits nowhere |
| `TimeoutModel.VLockInv` | src/misc/alock.cpp:383-471 | A request keeps the invariant of its lock: status and reader count agree with the granted requests, under FREE nobody waits, under RLOCKED only writers wait, under WLOCKED one writer alone holds, and waiters and alarms match one to one |
| `TimeoutModel.AbortInv` | src/misc/alock.cpp:521-588 | An abort of any id keeps it, including one that serves the queue |
| `TimeoutModel.TimeOutInv` | src/misc/alock.hpp:566-574 | An alarm that fires keeps it |
| `TimeoutModel.VLockLedger` | src/misc/alock.cpp:383-471 | A request keeps the answers: at most one each, none while waiting, yes for holders, no after a timeout |
| `TimeoutModel.AbortLedger` | src/misc/alock.cpp:521-588 | So does an abort, whomever it serves |
| `TimeoutModel.TimeOutLedger` | src/misc/alock.hpp:566-574 | So does a timeout, also for a request that no longer waits |
| `TimeoutModel.DestroyLedger` | src/misc/alock.cpp:591-615 | After the destructor every request of the list has been answered exactly once |
| `TimeoutModel.IssuedIds` | src/misc/alock.cpp:393 | Grants carry ids the lock has issued, from 1 on |
| `TimeoutModel.ServeAgrees` | src/misc/alock.cpp:473-519 | Serving a queue in which nothing is granted leaves status and reader count in agreement with what was granted, and no reader waiting under a read lock |
| `TimeoutModel.ServeAlarms` | src/misc/alock.cpp:473-519 | Serving disarms exactly the alarms of those served |
| `TimeoutModel.RunsAreSafe` | src/misc/alock.cpp:383-615 | In every state of every run of any number of locks that share one alarm: all those invariants, and at most one answer per request: none while it waits, yes for a holder, no after a timeout |
| `TimeoutModel.AlarmsNeverDangle` | src/misc/alarm.hpp:61-76 | A pending alarm always finds its lock and its request, and that request still waits |
| `Deadlines.NeverEarly` | src/misc/alock.cpp:442-451 | In every run, as long as a request waits, its alarm is set for exactly the time it came plus the patience of its lock; it times out only if some tick since was later than that |
| `Deadlines.RunTimesOut` | src/misc/alarm.hpp:60-78 | A run of the alarm times a waiter out iff no alarm set up to then is still to come; if alarms are due in the order they were set, iff the clock has passed its deadline |
| `Deadlines.PatienceKeepsOrder` | src/misc/alock.cpp:442-451 | In every run with one patience for all locks and a clock that does not run backwards, alarms are due in the order they were set |
| `TimeoutPromises.VLockMeaning` | src/misc/alock.cpp:383-471 | The model step does what Asks says: granted iff no holder conflicts, else waiting with the alarm at now plus patience, else refused |
| `TimeoutPromises.LockableIff` | src/misc/alock.cpp:412-413 | The status test decides whether a holder conflicts |
| `TimeoutPromises.AbortMeaning` | src/misc/alock.cpp:521-588 | The model step does what Aborts says: the request leaves, those next in line come to hold iff it was the last holder, and exactly the alarms of those who no longer wait go |
| `TimeoutPromises.LastIff` | src/misc/alock.cpp:551-566 | The counter decides whether the request that leaves is the last holder |
| `AlarmRun.AllDueFireIff` | src/misc/alarm.hpp:61-80 | After run no due alarm is pending iff no alarm that is not due has a smaller id than a due one |
| `AlarmRun.DueAlarmCanBeHeldBack` | src/misc/alarm.hpp:61-81 | Requests to two locks lead to a state in which run leaves a due alarm pending |
| `AlarmRun.UniformPatienceFiresAll` | src/misc/alarm.hpp:61-80 | If alarms are due in the order they were set, all due alarms fire |
| `AlarmRun.FireThenRun` | src/misc/alarm.hpp:61-80 | What run leaves pending does not depend on firing the first due alarm before |
| `AlarmRun.HeldReached` | src/misc/alock.cpp:442-451 | Two locks of different patience, each held by one writer with another waiting, are reached by six calls |
| `Expiry.FireExpires` | src/misc/alarm.hpp:61-76 | Firing times out exactly the waiters whose alarm is gone afterwards, and changes no other request |
| `TimeoutLocks.TimeoutLocks.VLock` | src/misc/alock.cpp:383-471 | A request is granted iff no holder conflicts with it; otherwise it waits, behind all others, with an alarm set for now plus the patience of the lock, or is told no if the lock has none (Asks, on the two states alone) |
| `TimeoutLocks.TimeoutLocks.LockAll` | src/misc/alock.cpp:473-519 | The two loops serve the first waiter and, if it reads, every waiting reader; status, count, callbacks in order and alarms removed are those of the served |
| `TimeoutLocks.TimeoutLocks.DoTimeout` | src/misc/alock.hpp:566-574 | Equals the model: only a request that still waits times out and is answered no |
| `TimeoutLocks.TimeoutLocks.Fire` | src/misc/alarm.hpp:64-73 | Fires one alarm iff it is due, and times out exactly its request |
| `TimeoutLocks.TimeoutLocks.Abort` | src/misc/alock.cpp:521-588 | The request leaves; if it was the last holder, the first waiter, and with a reader all waiting readers, are granted and told yes; the alarms of those who no longer wait, and no others, are disarmed (Aborts, on the two states alone) |
| `TimeoutLocks.TimeoutLocks.ExeNext` | src/misc/alarm.hpp:61-76 | Fires the alarm of least id iff it is due, and times out exactly its request |
| `TimeoutLocks.TimeoutLocks.Run` | src/misc/alarm.hpp:79-81 | Fires exactly the due alarms ahead of the first, by id, that is not due, and times out exactly the waiters whose alarm is gone |
| `TimeoutLocks.TimeoutLocks.Destroy` | src/misc/alock.cpp:591-615 | Answers no to exactly the waiters, in queue order, once each, and disarms exactly their alarms |
| `GroupModel.RoundOutcome` | src/misc/alock.cpp:618-672 | For every order of answers: the group calls back once, when and only when every member of a non-empty set has answered; yes iff all were granted, else no followed by the abort of everything held; with nothing to lock it never calls back |
| `GroupModel.VerifiesHold` | src/misc/dball.hpp:63-77 | The countdown never runs over or fires twice, and the group is in a status the verify accepts |
| `GroupModel.TracksIff` | src/misc/alock.cpp:648-653 | In a round a grant is forgotten iff a lock the group already holds is granted again |
| `GroupModel.AlwaysTracksIff` | src/misc/alock.hpp:645-660 | Nothing is forgotten, whatever the members answer, iff no lock is added that the group already holds |
| `GroupModel.HoldsAllGrants` | src/misc/alock.hpp:596-597 | If no held lock is added again, a group holds exactly the grants of all its rounds |
| `GroupModel.ForgottenGrant` | src/misc/alock.hpp:662-672 | A lock held, added again and granted again: its first grant is not released when the group fails |
| `GroupModel.FailureReleasesAll` | src/misc/alock.hpp:662-672 | If no held lock is added again, the failing round of a life calls back no and aborts exactly the grants of all its rounds, each once (for ids as the locks issue them, from 1 on) |
| `LockGroup.DragonBall.Trigger` | src/misc/dball.hpp:63-77 | Counts one answer and says whether it was the last |
| `LockGroup.ALockGroup.LockAll` | src/misc/alock.cpp:618-645 | Starts a round: a new countdown over exactly the locks collected |
| `LockGroup.ALockGroup.Finish` | src/misc/alock.cpp:630-638 | Calls back yes and holds, or calls back no and aborts everything held |
| `LockGroup.ALockGroup.OnYes` | src/misc/alock.cpp:648-653 | Takes the model step for a granted member |
| `LockGroup.ALockGroup.OnNo` | src/misc/alock.cpp:655-658 | Takes the model step for a denied member |
| `LockGroup.ALockGroup.AbortAllLocked` | src/misc/alock.hpp:662-672 | Aborts every held lock that has an id, with that id, once each, and nothing else |
| `LockGroup.ALockGroup.UnlockAll` | src/misc/alock.hpp:688-693 | Releases exactly what is held |
| `ConnId.IdInjective` | src/rpc/dpdk_transport/transport_ev_loop.cpp:205-209 | A packed id determines both ends |
| `ConnId.IdParts` | src/rpc/dpdk_transport/transport_ev_loop.cpp:40-65 | The masks and shifts of accept and connect cut out and replace just the part they mean |
| `HandshakeInv.AckReaches` | src/rpc/dpdk_transport/transport_ev_loop.cpp:417-424 | A packet whose id is in the table reaches a connection with its very sender at its very port, and once that is through, one to the port it came from |
| `HandshakeInv.StepKeeps` | src/rpc/dpdk_transport/transport_ev_loop.cpp:31-277 | Every step of any host that does not clash keeps the invariant, under loss, duplication and reordering and whatever the counters do; a step clashes when it files a connection under an id in use, or when an acknowledgement changes a connection that is through |
| `HandshakeInv.RunsKeep` | src/rpc/dpdk_transport/transport_ev_loop.cpp:31-530 | The invariant holds in every state of every run without a clash |
| `HandshakeInv.StepKeepsIff` | src/rpc/dpdk_transport/transport_ev_loop.cpp:31-530 | From a state that satisfies the invariant a step keeps it iff it does not clash |
| `HandshakeInv.RunIff` | src/rpc/dpdk_transport/transport_ev_loop.cpp:31-530 | Of all runs exactly those without a clash satisfy the invariant in every state |
| `HandshakeTheorems.ConnectAgrees` | src/rpc/dpdk_transport/transport_ev_loop.cpp:256-277 | In every run without a clash: once connect has returned, the server table holds the mirror connection, and each end is filed under the id that packets from the other carry |
| `HandshakeTheorems.PartnersUnique` | src/rpc/dpdk_transport/transport_ev_loop.cpp:201-215 | No host has two connections between the same two ports with one peer |
| `HandshakeTheorems.RoutedToPeer` | src/rpc/dpdk_transport/transport_ev_loop.cpp:416-468 | A data packet whose id is in a thread table selects the object that mirrors its sender, and the two are the ends of one connection, unless two server ends face each other and both hosts use a local port twice |
| `HandshakeTheorems.EndsAgree` | src/rpc/dpdk_transport/transport_ev_loop.cpp:255-276 | Of two settled connections with mirrored addresses one dialled and one accepted, unless both share their local port with another connection |
| `HandshakeTheorems.ReplyFindsSender` | src/rpc/dpdk_transport/transport.hpp:464-485 | A reply made by swapping addresses carries the id under which the sender files its connection |
| `HandshakeTheorems.DialledAgain` | src/rpc/dpdk_transport/transport_ev_loop.cpp:73-81 | A repeated dial builds nothing, changes only the counter, and is answered with the port assigned before |
| `HandshakeTheorems.AcceptedForGood` | src/rpc/dpdk_transport/transport_ev_loop.cpp:127-128 | What a dialled id was answered with never changes, nor does the connection behind it |
| `HandshakeTables.RunsTell` | src/rpc/dpdk_transport/transport_ev_loop.cpp:343-360 | In every run without a clash every thread has every connection that is through, in its table under its id or still in its ring |
| `HandshakeTables.CallIsAnswered` | src/rpc/dpdk_transport/transport_ev_loop.cpp:416-468 | Once connect has returned and a thread of the server has emptied its ring, the client can send; that thread finds the other end and answers; a thread of the client whose ring is empty finds the answer |
| `HandshakeTables.InstallTells` | src/rpc/dpdk_transport/transport_ev_loop.cpp:354 | Taking one connection off a ring loses no other |
| `HandshakeTables.CanInstall` | src/rpc/dpdk_transport/transport_ev_loop.cpp:349-355 | As long as its ring has something, a thread can take it, without a clash |
| `DpdkTransport.EachAnswered` | src/rpc/dpdk_transport/transport_ev_loop.cpp:445-468 | Packets found are answered one for one, in order |
| `HandshakePorts.PortsDistinct` | src/rpc/dpdk_transport/transport.cpp:74-75 | In every run, clashes or not, the server ports of a host are distinct, and so are its client ports, as long as the counter in question has not run through 16 bits |
| `HandshakePorts.AcceptClashIff` | src/rpc/dpdk_transport/transport_ev_loop.cpp:58-96 | Accepting a new id overwrites an entry iff the host has itself dialled that peer and is connected between the very same ports; then both hosts have given the port in question out on both sides |
| `HandshakePorts.DialClashIff` | src/rpc/dpdk_transport/transport_ev_loop.cpp:201-215 | Dialling overwrites an entry iff the peer has dialled this host between the very same ports; then the server counter has passed the client counter |
| `HandshakePorts.SettleClashIff` | src/rpc/dpdk_transport/transport_ev_loop.cpp:255-260 | connect ends without an entry of its own iff the peer has dialled this host between the ports assigned; then both hosts have given a port out on both sides |
| `HandshakePorts.AckClashIff` | src/rpc/dpdk_transport/transport_ev_loop.cpp:499-512 | An acknowledgement changes a connection that is through iff it reaches a server connection, or a client connection that was assigned the configured port of its server while the acknowledgement names another |
| `HandshakePorts.ClearRuns` | src/rpc/dpdk_transport/transport_ev_loop.cpp:31-530 | A run never clashes if on every host neither counter leaves 16 bits, the server counter does not pass 9000 unless the host never dials, and the configured port is not assigned |
| `HandshakePorts.ClearNeverShares` | src/rpc/dpdk_transport/transport_ev_loop.cpp:60 | Under that condition no local port is used twice, so RoutedToPeer always gives the other end |
| `HandshakeRuns.AcceptCanOverwrite` | src/rpc/dpdk_transport/transport_ev_loop.cpp:96 | A run from the start in which accept files a new connection in the place of a client connection that is through |
| `HandshakeRuns.LateAckCanDivert` | src/rpc/dpdk_transport/transport_ev_loop.cpp:504-505 | A run in which a late acknowledgement sends a connection that is through to another port than its id says |
| `HandshakeRuns.PortsRepeat` | src/rpc/dpdk_transport/transport_ev_loop.cpp:60 | A run in which two server connections of one host share a port, one request having been repeated 65535 times |
| `HandshakeRuns.Connects` | src/rpc/dpdk_transport/transport_ev_loop.cpp:167-277 | Dial, accept, acknowledgement and return together: both hosts have the two ends, when the four ids needed are free |
| `HandshakeRuns.Repeats` | src/rpc/dpdk_transport/transport_ev_loop.cpp:60-81 | A request delivered again, any number of times, only moves the counter |
| `DpdkTransport.Transport.AcceptConn` | src/rpc/dpdk_transport/transport_ev_loop.cpp:31-133 | Equals the model step and sends exactly its packets |
| `DpdkTransport.Transport.StartDialling` | src/rpc/dpdk_transport/transport_ev_loop.cpp:183-232 | Equals the model dial, with the request sent |
| `DpdkTransport.Transport.FinishDialling` | src/rpc/dpdk_transport/transport_ev_loop.cpp:255-276 | Equals the model step that moves the connection to the id with the assigned port |
| `DpdkTransport.Transport.TellThreads` | src/rpc/dpdk_transport/transport_ev_loop.cpp:111-125 | Every thread ring gets the connection once, at its end |
| `DpdkTransport.Transport.OnConAck` | src/rpc/dpdk_transport/transport_ev_loop.cpp:499-512 | Equals the model step; an unknown id changes nothing |
| `DpdkTransport.Transport.ProcessRequests` | src/rpc/dpdk_transport/transport_ev_loop.cpp:382-530 | Every data packet of a burst whose id is in the thread's table is answered, in order, with addresses exchanged; all others are counted as dropped |
| `DpdkTransport.Transport.ProcessSmReq` | src/rpc/dpdk_transport/transport_ev_loop.cpp:343-357 | Each connection taken off the ring is in the thread's table under its id, the last one of an id winning; all other ids, rings and tables stay as they are |
| `Marshal.Marshal.Write` | src/misc/marshal.cpp:156-183 | Appends to the byte queue; whatever other marshals hold of shared arrays behind the write position keeps its bytes |
| `Marshal.Marshal.Read` | src/misc/marshal.cpp:185-217 | Takes the longest prefix up to n off the byte queue |
| `Marshal.Marshal.Peek` | src/misc/marshal.cpp:219-240 | Returns that prefix and changes nothing |
| `Marshal.Marshal.ReadFromFd` | src/misc/marshal.cpp:246-272 | Terminates; appends exactly the bytes the descriptor has ready, however it splits them, and spares what other marshals hold behind the write position |
| `Marshal.Marshal.WriteToFd` | src/misc/marshal.cpp:330-352 | Terminates; hands over as much of the content as the descriptor has room for, however it splits it, and keeps the rest |
| `Marshal.Marshal.ReadFromMarshal` | src/misc/marshal.cpp:268-327 | Moves n bytes from the front of one marshal to the end of another, by sharing or copying, and leaves the two apart, so that this can be repeated |
| `Marshal.Marshal.WriteBeside` | src/misc/marshal.cpp:156-183 | What a write to one marshal does to the content of another that shares its last array: the part that reaches the other's first window replaces just those bytes |
| `Marshal.Marshal.ShareAll` | src/misc/marshal.cpp:272-307 | Moves bytes by sharing chunks without writing to any array |
| `Marshal.Marshal.CopyOver` | src/misc/marshal.cpp:308-316 | Fills up the last chunk by copying, even when its array is shared with the source |
| `Marshal.Marshal.SetBookmark` | src/misc/marshal.cpp:354-374 | Sets n bytes aside at the end of the content and returns their places, across chunk borders |
| `Marshal.Marshal.WriteBookmark` | src/misc/marshal.hpp:249-255 | Replaces exactly the bytes set aside |
| `Marshal.Marshal.ContentSizeSlow` | src/misc/marshal.cpp:144-154 | Adding up the chunks gives the size kept in the field and the length of the byte queue |
| `Marshal.Marshal.EmptyIff` | src/misc/marshal.hpp:226-233 | The size field is zero iff nothing is left to read |
| `Marshal.ApartIsBehind` | src/misc/marshal.cpp:275-281 | A slice taken by sharing stays out of the way of whatever the source writes later |
| `Marshal.ApartDrained` | src/misc/marshal.cpp:185-217 | It stays so when more is read off the source |
| `Marshal.ApartAfterRead` | src/misc/marshal.cpp:308-316 | Having read k bytes off the source leaves room to copy them behind a slice of the same array |
| `Marshal.SurvivesIff` | src/misc/marshal.cpp:275-281 | What a marshal has left survives whatever another one writes iff the two do not share an array in which it still has bytes |
| `Marshal.AfterMove` | src/misc/marshal.cpp:268-307 | Right after a move by sharing, the source is in danger iff the last chunk of the slice has room and the source has bytes left |
| `Marshal.Clobber` | src/misc/marshal.cpp:275-278 | Two bytes are written, the first is taken off into a slice, a third is written to the slice: the source then reads the third in place of the second, for all bytes |
| `Marshal.MarksStable` | src/misc/marshal.cpp:354-374 | A bookmark names the same content positions after any later writes |
| `FramingModel.SizeRoundTrip` | src/rpc/client.cpp:449-456 | The size field reads back, whatever follows it |
| `FramingModel.ParseInPieces` | src/rpc/server.cpp:111-130 | Parsing a stream in two goes is parsing it at once |
| `FramingModel.ParseEncode` | src/rpc/server.cpp:111-130 | Parsing undoes framing, whatever follows |
| `FramingModel.RestIncomplete` | src/rpc/server.cpp:111-130 | What the loop leaves holds no complete frame |
| `FramingModel.StepKeeps` | src/rpc/client.cpp:415-469 | Every submit, partial write and fragmented read keeps: delivered bodies plus those on the way are the submitted ones |
| `FramingModel.RunsKeep` | src/rpc/server.cpp:99-130 | That holds in every state of every run |
| `FramingModel.DeliveredInOrder` | src/rpc/server.cpp:99-130 | In every run the bodies delivered are the first of those submitted, in order, each once; only an incomplete frame is buffered; when nothing is on the way all are delivered |
| `Tcp.Sender.Begin` | src/rpc/client.cpp:444-447 | Opens a message without disturbing the frames waiting |
| `Tcp.Sender.Put` | src/rpc/client.cpp:446-447 | Adds to the open body only |
| `Tcp.Sender.End` | src/rpc/client.cpp:452-469 | Turns the open body into a complete frame behind those waiting |
| `Tcp.Sender.HandleWrite` | src/rpc/client.cpp:327-343 | Sends as much of what is pending as the socket has room for and keeps the rest |
| `Tcp.Receiver.HandleRead` | src/rpc/server.cpp:80-130 | Hands out exactly the complete frames of what was buffered plus what arrived, each in a marshal of its own, and keeps the rest; bytes of others behind the end of the buffer, such as earlier requests, stay as they are and stay behind it |
| `Tcp.Receiver.Serve` | src/rpc/server.cpp:99-130 | After any number of calls all requests handed out meanwhile still hold their bodies, which are those of the whole stream so far |
| `Tcp.Receiver.ServeOnce` | src/rpc/server.cpp:99-130 | One more call keeps the bodies of all requests handed out before |
| `Tcp.Receiver.CutFrames` | src/rpc/server.cpp:111-130 | The parse loop terminates with exactly the complete frames |
| `Tcp.Receiver.HasFrame` | src/rpc/server.cpp:112-114 | Peeking decides whether a complete frame is buffered |
| `Tcp.Receiver.TakeFrame` | src/rpc/server.cpp:115-119 | Takes the frame at the front and leaves what follows |
| `Epsilon.EpsilonExact` | pylib/yapps/parsetree.py:227-232 | When no node's equation is violated, a node is flagged iff it derives the empty string, for every grammar, left-recursive or not |
| `Epsilon.NullableFlagged` | pylib/yapps/parsetree.py:380-650 | A node that derives the empty string is flagged at the fixpoint |
| `Epsilon.SequenceNullable` | pylib/yapps/parsetree.py:432-443 | A sequence derives the empty string when all its children do |
| `Epsilon.OneNullable` | pylib/yapps/parsetree.py:399-408 | A nonterminal, choice or plus derives it when its target, an alternative or its child does |
| `FirstFollow.FirstComplete` | pylib/yapps/parsetree.py:344-657 | At the fixpoint every token that can begin a string derived from a node is in the node's first list |
| `FirstFollow.FollowComplete` | pylib/yapps/parsetree.py:344-657 | At the fixpoint every token that can come after a node, in whatever any node derives, is in its follow list; where it can come last, its follow list has all of the outer one |
| `FirstFollow.FollowsChild` | pylib/yapps/parsetree.py:456-467 | What the later children of a sequence derive is covered by the follow list of a child; if that can be nothing, so is what follows the sequence |
| `Exactness.ListsExact` | pylib/yapps/parsetree.py:344-657 | At the fixpoint, lists that hold nothing without a reason hold exactly what the grammar calls for |
| `Exactness.FirstIs` | pylib/yapps/parsetree.py:340-470 | A token is in a first list iff the node opens with it, through targets, alternatives, wrapped children and children behind nullable ones, or opens with a nullable node whose follow list has it |
| `Exactness.FirstWithoutNullable` | pylib/yapps/parsetree.py:451-470 | Without nullable nodes a first list has just the tokens the node opens with |
| `Exactness.FollowIs` | pylib/yapps/parsetree.py:456-470 | A token is in a follow list iff it is in the first list of what comes next, in a sequence or in another round, to a node that ends where this one ends |
| `Exactness.BeginsIff` | pylib/yapps/parsetree.py:340-657 | If every node derives something, the tokens a node opens with are exactly those that begin the strings it derives |
| `Exactness.FirstDown` | pylib/yapps/parsetree.py:413-416 | A nonterminal starts with nothing its target does not start with, so equating the two adds nothing |
| `Exactness.TerminalFirst` | pylib/yapps/parsetree.py:362-366 | The first list of a terminal is empty or just its token, so resetting it never shrinks it |
| `FirstFollow.TotalBound` | pylib/yapps/parsetree.py:222-239 | All lists together are bounded by the tokens of the grammar |
| `Generator.Generator.Setup` | pylib/yapps/parsetree.py:380-650 | Flags only grow, only nodes that derive the empty string are flagged, and a pass that changes nothing has checked the whole tree |
| `Generator.Generator.ComputeEpsilon` | pylib/yapps/parsetree.py:227-232 | The first loop terminates for every grammar with exact flags |
| `Generator.Generator.AddTo` | pylib/yapps/parsetree.py:138-143 | Lists only grow, without duplicates, by as much as is counted and by nothing without a reason; if nothing changed, everything was there |
| `Generator.Generator.UpdateTerminal` | pylib/yapps/parsetree.py:362-366 | Ends with just the token, without ever shrinking a list |
| `Generator.Generator.UpdateNonTerminal` | pylib/yapps/parsetree.py:413-416 | If nothing changed, first and follow lists equal the target's as sets |
| `Generator.Generator.UpdateSequence` | pylib/yapps/parsetree.py:450-470 | Puts no token into a list without a reason; if nothing changed, the first list covers each child up to the first that is not nullable, and each child's follow list covers what comes next |
| `Generator.Generator.UpdateChoice` | pylib/yapps/parsetree.py:502-513 | If nothing changed, the first list covers those of the alternatives, and the follow lists are equal as sets |
| `Generator.Generator.UpdateWrapper` | pylib/yapps/parsetree.py:580-584 | If nothing changed, the child's first list is covered, the follow lists are equal as sets, and for a repetition the child may follow itself |
| `Generator.Generator.Update` | pylib/yapps/parsetree.py:344-657 | Lists only grow, every element added is counted, and an update that changes nothing has checked the whole tree |
| `Generator.Generator.ComputeFirstFollow` | pylib/yapps/parsetree.py:234-239 | The second loop terminates for every grammar in a state that satisfies every node's equations |
| `Generator.Generator.Calculate` | pylib/yapps/parsetree.py:222-239 | Terminates for every grammar; then flags are exact and the lists are exact: a token is in a first list iff the node opens with it, or opens with a nullable node it trails, and in a follow list iff it starts what comes next to a node that ends where this one ends |
| `CachedQueue.TryPop` | src/utils/mpr_queue.h:34-47 | The cached queue pops like a plain one |
| `CachedQueue.Push` | src/utils/mpr_queue.h:49-55 | Pushes like a plain one |
| `CachedQueue.Peek` | src/utils/mpr_queue.h:57-74 | Shows the first element and leaves the contents as they are |
| `DagModel.PushKeeps` | src/utils/mpr_dag.h:67-107 | Pushing a node with distinct queue ids keeps the invariant |
| `DagModel.PopKeeps` | src/utils/mpr_dag.h:109-153 | Popping the node that was taken keeps it, queue by queue |
| `DagModel.GetWhiteKeeps` | src/utils/mpr_dag.h:162-187 | Taking the first white node keeps it |
| `DagModel.RunsKeep` | src/utils/mpr_dag.h:67-187 | The invariant holds in every state of every run of nodes that name no queue twice |
| `DagPromises.PushMeaning` | src/utils/mpr_dag.h:67-107 | The model step does what LinesUp says, for nodes that name queues repeatedly too: copies at the end of each queue named, white iff all were empty |
| `DagPromises.PopMeaning` | src/utils/mpr_dag.h:109-153 | The model step does what Pops says: one entry less at the front of each of its queues, no other queue touched, nodes changed only from black to white |
| `DagRepeats.PushLike` | src/utils/mpr_dag.h:67-107 | Pushing a node with repeated queue ids does what pushing it with each id once does, but for extra copies |
| `DagRepeats.PopLike` | src/utils/mpr_dag.h:109-153 | Popping one does too, unless the first queue is named again |
| `DagRepeats.Matched` | src/utils/mpr_dag.h:67-187 | Every run of nodes that do not name their first queue again is matched, state by state, by one in which no node names a queue twice |
| `DagRepeats.RunnableIffFront` | src/utils/mpr_dag.h:67-153 | In every such run a node is out of black iff it is at the front of all its queues |
| `DagRepeats.NeverTogether` | src/utils/mpr_dag.h:67-153 | Two nodes that share a queue are never runnable together |
| `DagRepeats.SomebodyRuns` | src/utils/mpr_dag.h:109-153 | As long as a node is left, some node is runnable |
| `DagRepeats.EntersOnce` | src/utils/mpr_dag.h:100-105 | A node has entered the white queue exactly once if it is out of black, and not at all otherwise |
| `DagRepeats.PoppedInPushOrder` | src/utils/mpr_dag.h:109-153 | Nodes that share a queue are popped in push order |
| `DagModel.RepeatedQueueEntersTwice` | src/utils/mpr_dag.h:129-146 | A node pushed with one queue named twice enters the white queue twice |
| `DagModel.EntersAgainIff` | src/utils/mpr_dag.h:115-147 | Whatever else is queued, a node at the front of all its queues goes back to the white queue while it is popped iff the first queue it names is named again |
| `DagModel.AloneEntersTwiceIff` | src/utils/mpr_dag.h:67-153 | Pushed into the empty scheduler, taken and popped, a node has entered the white queue twice iff the first queue it names is named again, and once otherwise |
| `DagScheduler.Scheduler.PushNode` | src/utils/mpr_dag.h:67-107 | The node stands at the end of each queue it names, as often as it names it, and is white iff all of them were empty; nothing else changes (LinesUp, on the two states alone) |
| `DagScheduler.Scheduler.TakeWhite` | src/utils/mpr_dag.h:162-187 | Takes the first white node and marks it |
| `DagScheduler.Scheduler.PopQueue` | src/utils/mpr_dag.h:115-147 | Each queue yields the node being popped, and the next node goes white iff it is now at the front of all its queues |
| `DagScheduler.Scheduler.PopNode` | src/utils/mpr_dag.h:109-153 | The node is gone from the front of each of its queues and from no other place; only black nodes change, to white, and just these join the white queue, so that afterwards a node is out of black iff it is at the front of all its queues; the source's assertions hold |
| `ThreadPoolModel.StepKeeps` | src/base/threading.cpp:116-222 | Every step of callers, workers and destructor keeps: each pushed job is queued, held or run, once in all, and each queue keeps its pill until its own worker exits |
| `ThreadPoolModel.RunsKeep` | src/base/threading.cpp:116-222 | That holds in every state of every run |
| `ThreadPoolModel.AtMostOnce` | src/base/threading.cpp:137-222 | Under every interleaving a job runs at most once and only after being pushed |
| `ThreadPoolModel.EveryJobRuns` | src/base/threading.cpp:116-135 | When the destructor is done, every job that was not pushed after its queue was drained has run exactly once, even if its caller passed the stop test first and pushed later |
| `ThreadPoolModel.RunsIffNotLate` | src/base/threading.cpp:137-144 | And a job pushed after that never runs: when the destructor is done, a pushed job has run iff it was not late |
| `ThreadPoolModel.JobCanBeLate` | src/base/threading.cpp:116-144 | A run in which a caller that had passed the stop test pushes when the destructor is done |
| `ThreadPoolModel.NeverStuck` | src/base/threading.cpp:116-132 | In every reachable state before the end the destructor, or the worker it waits for, can take a step |
| `ThreadPoolModel.ShutdownEnds` | src/base/threading.cpp:116-222 | From every reachable state the steps of the destructor and of the workers it waits for bring the shutdown to its end |
| `ThreadPoolModel.NoneForgotten` | src/base/threading.cpp:137-144 | Exactly the jobs that were pushed are on record, and whoever was let in has pushed or is about to |
| `ThreadPoolModel.RoundRobin` | src/base/threading.cpp:141-142 | n calls in a row get n different queues, whatever happens in between |
| `ThreadPoolProgress.FindsWork` | src/base/threading.cpp:173-219 | A worker that starts over, left to itself, runs a job if one is at the front of its own queue, or if that is empty and one is at the front of a queue it steals from |
| `ThreadPoolModel.OwnPillOnly` | src/base/threading.cpp:189-198 | A pill leaves a queue only to the worker it is meant for, which exits with that step |
| `ThreadPoolModel.ExitIsOwn` | src/base/threading.cpp:209-212 | A worker exits only by its own step, at the pill at the front of its own queue |
| `ThreadPoolModel.ExitedAfterItsJobs` | src/base/threading.cpp:116-123 | When a worker has exited, every job queued ahead of its pill has left its queue |
| `ThreadPoolWorkers.ThreadPool.RunAsync` | src/base/threading.cpp:137-141 | Until the destructor begins it lets a caller in with a new job, as the model does; afterwards it refuses without effect |
| `ThreadPoolWorkers.ThreadPool.WorkerStep` | src/base/threading.cpp:173-219 | Each step of a worker's loop, with sleeping, stealing and the blocking pop, made of operations on the queues, refines the model step, so every theorem about runs holds of it |
| `ThreadPoolWorkers.ThreadPool.DrainQueue` | src/base/threading.cpp:125-132 | Terminates; runs exactly the jobs left in the queue, oldest first |
| `SparseInt.SizesAgree` | src/base/basetypes.cpp:8-58 | The first byte that dump writes announces exactly val_size of the value, for every 64-bit integer |
| `SparseInt.ClassFaithful` | src/base/basetypes.cpp:101-157 | Below the 8-byte class the first byte keeps its share of the value, and all bits above are its sign |
| `SparseInt.RoundTrip64` | src/base/basetypes.cpp:207-228 | load undoes dump on the bytes written, whatever follows, for every 64-bit integer |
| `SparseInt.EightIff` | src/base/basetypes.cpp:158-168 | In the 8-byte class the announced bytes read back iff the byte that happens to follow is the one left out |
| `SparseInt.ByteCanBeLost` | src/base/basetypes.cpp:158-168 | 281474976710657 is read back as 281474976710656 when a zero byte follows |
| `SparseInt.EightLoads` | src/base/basetypes.cpp:158-168 | In the 8-byte class the announced bytes read back as the value with the byte that happens to follow as its lowest |
| `SparseInt.TakeSent` | src/misc/marshal.hpp:438-447 | A v64 read off a stream takes exactly the bytes sent and has the size taken; it is the value sent iff no byte was lost or the buffer happened to hold it |
| `SparseInt.DumpsAgree` | src/base/basetypes.cpp:60-99 | dump of a 32-bit integer equals dump of the same 64-bit integer |
| `SparseInt.LeastSize` | src/base/basetypes.cpp:8-58 | What is read from k bytes, k below 8, has size at most k: no shorter encoding reads as the value |
| `SparseInt.HighFirst` | src/base/basetypes.cpp:101-180 | dump writes the highest byte first; the first byte is the size prefix and the top bits |
| `SparseInt.RoundTrip32` | src/base/basetypes.cpp:184-205 | The 32-bit load undoes the 32-bit dump, whatever follows |
| `SparseInt.ReplyLength` | src/rpc/client.cpp:367-382 | For every transaction id, error code and stack contents the client's subtraction, from the sizes of the values it read, gives the exact length of the unread reply, even when the id was read back wrong |
| `SparseIntBuffers.DumpI64` | src/base/basetypes.cpp:101-181 | The buffer holds the encoding and the announced size is returned |
| `SparseIntBuffers.LoadBytes` | src/base/basetypes.cpp:184-228 | Stripping the prefix and extending the sign in place gives the bytes of the value |
| `SparseIntBuffers.LoadI64` | src/base/basetypes.cpp:207-228 | Equals the decoder that RoundTrip64 is about |
| `SparseIntBuffers.LoadI32` | src/base/basetypes.cpp:184-205 | Equals the decoder that RoundTrip32 is about |
| `Codec.RoundTrip` | src/rpc/dpdk_transport/transport_marshal.hpp:229-527 | For every nested type and every order of walking sets and maps, decoding what was encoded gives back the value and exactly what follows |
| `Basics.LeRoundTrip` | src/rpc/dpdk_transport/transport_marshal.hpp:229-283 | Fixed-width integers read back |
| `Codec.RoundTripAll` | src/misc/marshal.hpp:493-518 | The same for element sequences |
| `Codec.RoundTripPairs` | src/misc/marshal.hpp:533-545 | The same for the entries of a map |
| `Codec.EncodeLaid` | src/rpc/dpdk_transport/transport_marshal.hpp:285-368 | The encoder writes the wire format, said without it: numbers and lengths low byte first, the parts of a pair, the elements of a container, and key and value of an entry one behind the other |
| `Basics.LeDigits` | src/rpc/dpdk_transport/transport_marshal.hpp:229-283 | Integers travel as their digits to base 256, the lowest first |
| `Codec.SetOrder` | src/rpc/dpdk_transport/transport_marshal.hpp:324-356 | Whatever order a set is walked in, it reads back as that set |
| `Codec.MapOrder` | src/rpc/dpdk_transport/transport_marshal.hpp:335-368 | Whatever order a map is walked in, it reads back as that map |
| `TransportMarshal.TransportMarshal.Put` | src/rpc/dpdk_transport/transport_marshal.hpp:229-368 | Writes exactly the encoding at the offset and keeps what is before it |
| `TransportMarshal.TransportMarshal.Get` | src/rpc/dpdk_transport/transport_marshal.hpp:375-527 | Reads exactly one value off the packet |
| `TransportMarshal.TransportMarshal.GetPairs` | src/rpc/dpdk_transport/transport_marshal.hpp:488-500 | Inserting entries as they come, an earlier key winning, gives the map of the pairs read |
| `MarshalReader.Get` | src/misc/marshal.hpp:407-572 | The chunked marshal decodes exactly the same values, whatever chunks they are spread over |
| `MarshalReader.GetPairs` | src/misc/marshal.hpp:533-572 | Inserting entries as they come, an earlier key winning, gives the map of the pairs read |
| `TransportMarshal.TransportMarshal.Write` | src/rpc/dpdk_transport/transport_marshal.hpp:129-135 | Copies at the offset and moves it; nothing else changes |
| `TransportMarshal.TransportMarshal.Read` | src/rpc/dpdk_transport/transport_marshal.hpp:118-123 | Takes bytes at the offset and moves it |
| `GrowableBuffer.Buf.Readjust` | src/mq/buf.cpp:23-32 | Terminates for every size, makes room, keeps the content; the assertion in realloc never fails |
| `GrowableBuffer.Buf.Realloc` | src/mq/buf.cpp:37-50 | Moves the content to the front of a new array |
| `GrowableBuffer.Buf.Write` | src/mq/buf.cpp:52-57 | Appends to the byte queue |
| `GrowableBuffer.Buf.Read` | src/mq/buf.cpp:59-70 | Takes the longest prefix up to n |
| `GrowableBuffer.Buf.Peek` | src/mq/buf.cpp:72-81 | Returns it and changes nothing |
| `RemoteLog.WritesInOrder` | apps/rlog/log_service_impl.cpp:24-37 | For every order of arrival of distinct ids from 1 on: exactly 1 to done are written, in order; only ids above done + 1 wait; done + 1 has not arrived |
| `RemoteLog.OutOfOrderIff` | apps/rlog/log_service_impl.cpp:31-35 | A message breaks the order iff its id was done with before it came |
| `RemoteLog.LateIsWritten` | apps/rlog/log_service_impl.cpp:31-35 | A message whose id is done with is written at once, after its successors |
| `RemoteLog.RepeatBreaksOrder` | apps/rlog/log_service_impl.cpp:31-35 | One id twice: both messages are written, and that is in order for no set of arrivals |
| `RemoteLog.RLogService.Log` | apps/rlog/log_service_impl.cpp:24-37 | Takes the step of the model for its source and leaves other sources alone |

## Left out

- Callbacks that call back into the object that makes them; every call is modelled as atomic, also where the source has its mutexes commented out.
- ALockGroup with wounding: a wounded member is dropped by `OnWound`, but the round theorems are about rounds in which nobody is wounded.
- WoundDieSystem.NeverDeadlocks: a state in which a refuser waits need not be deadlocked yet, so the condition is sufficient for the state, and `WaitingRefuserDeadlocks` is its converse one request later.
- The clock: the time is a parameter, fixed during one `Alarm::run`.
- HandshakePorts.AcceptClashIff: like its three neighbours it is about hosts whose counters are within 16 bits; beyond that, `RunIff` still says which runs keep connections apart.
- HandshakePorts.ClearRuns: the condition is sufficient; runs that overstep it may still be free of clashes, and `RunIff` covers those.
- Packets of other programs, packet types other than RR, CON and CON_ACK (RR_BG goes to a ring, unknown types are dropped), MAC addresses, memory pools, ring capacities, and `connect` with a malformed address.
- ConnId.IdParts: shifts and masks are division and remainder; host and network order are one byte swap.
- `Marshal::write` of no bytes into a chunk with room fails a debug assertion; the model appends nothing. The list of chunks is a sequence, so links between chunks, reference counts and release are not modelled; the arrays they share are.
- Counters as machine integers: `write_cnt_`, sizes, ids and indices do not overflow in the model.
- `TCPClient::handle_read`: it does not skip the rest of a reply whose transaction id is unknown, so it is not the loop modelled here; futures, their timeouts and the pending table are left out as well.
- Negative and over-long packet sizes: bodies are below 2^31 bytes, as `begin` and `end` make them.
- `Marshal <<` of strings and containers: it writes lengths as v64 and `Marshal >>` reads them as i64, so there is no round trip to state.
- Codec.RoundTrip: integers and doubles are their bytes, and containers have fewer than 2^31 elements, the range of the loop variable.
- TransportMarshal.TransportMarshal.Get: reading beyond the packet, which the source does not check, is excluded; so is reading beyond the content in `MarshalReader.Get`, which the source refuses with a verify.
- Exactness.FollowIs: the follow lists are described as the source computes them; they are shared by all nodes that end in one place, so a repetition's has what starts its child, which need not be able to come after it.
- ThreadPoolProgress.FindsWork: a worker that blocks on its own queue after a fruitless round stays there, as in the source, whatever comes into other queues.
- Yapps code generation, its scanner tests and warnings, and error messages for missing rules (a missing rule is its own target, as in the source).
- DagModel.RunsKeep: is about nodes that name no queue twice; `DagRepeats.Matched` carries its consequences over to all others that do not name their first queue again.
- DagScheduler.Scheduler.PopNode: demands a queue id, because the source dereferences NULL without one, and a node that names no queue twice; queue capacities and interruption are not modelled.
- The thread pool's sleeping times; its stealing order is arbitrary; a pool without workers, where `run_async` divides by zero, takes no jobs.
- GrowableBuffer.Buf.Realloc: sizes are at least 2, below which the growth loop would not end; buffers start at 1 MB. Sockets and allocation failure are left out.
- RemoteLog.WritesInOrder: levels and time stamps of messages are left out.
- `aggregate_qps`, statistics, CPU affinity, coroutines and events, configuration, generated stubs, benchmarks and language bindings.
