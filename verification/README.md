# Verification of the socket library

This project models the stateful core of a C++ TCP/TLS socket library in Dafny and proves what its two servers, its
poll registry, its slot pool and its retry loops guarantee over every run.

The library has two servers. The request server runs one event loop over a poll registry, accepts clients into a pool
of 32 connection objects, assembles header-and-payload requests from whatever pieces the socket delivers, hands them to
a user handler and writes the responses back piece by piece. The broadcast server has a monitor thread that accepts and
removes clients while other threads call `dropAll`, `write`, `await`, `awaitClose` and `close`; clients removed by
`dropAll` are kept alive for one round of the monitor by a pending-destruction list, because the monitor still holds
raw pointers to them.

## How the project is laid out

| file | what it holds |
|---|---|
| `Sockets.dfy` | result codes, bytes, sizes cast to 32 bits, vector search and erase |
| `EventListener.dfy` | the poll registry (two parallel vectors), its refinement of one map, and the listener class |
| `ObjectPool.dfy` | the FIFO slot allocator, its laws over every run, and the class |
| `FramingMachine.dfy`, `Connection.dfy` | the incremental framing machine as functions, and the connection class that fills its buffers in place |
| `Framing.dfy` | a reference parser over the whole stream, the refinement theorem, conservation, progress |
| `RequestLoop.dfy`, `RequestRuns.dfy`, `RequestRounds.dfy` | the event loop as a step system, its invariant, and the theorems about every run |
| `RequestServer.dfy` | the event loop as an object over listener, pool and connections, proved equal to the step system |
| `BroadcastProtocol.dfy` | the broadcast server as a step system: one step per lock section, socket call or callback |
| `BroadcastHolders.dfy`, `BroadcastLists.dfy`, `BroadcastSafety.dfy` | the invariant, in three layers |
| `BroadcastRuns.dfy`, `BroadcastOutcomes.dfy`, `BroadcastAlignment.dfy`, `BroadcastRounds.dfy` | the theorems about every session |
| `BroadcastWitnesses.dfy` | concrete sessions for the expectations that fail |
| `BroadcastThreads.dfy` | the steps of one thread, with those of the others in between, as runs of the server |
| `BroadcastServer.dfy` | the broadcast server as an object: its lock sections, and the monitor, `dropAll` and `close` built from them |
| `BroadcastWrite.dfy`, `ClientConnect.dfy` | the retry loops against an arbitrary environment |

The functions that describe a step or a run are the specification; the classes and loops are proved to compute them,
and the theorems are about them.

## Assumptions

Each is a fact about the surroundings that the theorems need, and each appears in the text as a definition or as an
enabling condition.

- One session: a broadcast server is opened once and closed once, because closing the listener forgets nothing
  (src/implementation/SocketEvent_Linux.cpp:78-81). `close` releases the lists only when no `dropAll` is still closing
  and reporting its clients (`CallerEnabled`, the case `CloseRest`).
- The kernel hands out only descriptors that are not open (`FdIsFree`, in both servers).
- `poll` reports requested bits and error bits only, and no error on the accept descriptor (`EventListener.PollAnswer`),
  since the disconnect branch casts the context unconditionally (src/implementation/SocketBroadcastServer.cpp:126).
- The handler keeps to its buffers (`Handler.Valid`): a header of at least one byte, payload and response sizes within
  the configured size. It may depend on the earlier requests of the same connection.
- A successful send or receive moves at least one byte and at most what was asked (`FitsHeader`, `FitsPayload`,
  `FitsResponse`, `Channel.Valid`); from src/implementation/SocketResult.hpp:94-109 and
  src/implementation/ServerActiveSocket.cpp:56-75.
- The client mutex and the listener's mutex are separate. A listener call is one step, and it can fall inside the
  critical section of `dropAll`.

## Where the code differs from what one would expect

Each of these is proved with the exact condition under which it happens, and where a run says more, with the run.

- Accepting a 33rd client dereferences a null connection: `RequestRuns.AcceptCrashesIff`, `RequestRuns.CrashIsReachable`.
- A descriptor reused before the current batch ends lets a stale disconnect remove the poll entry of a live client:
  `BroadcastAlignment.AlignmentBreaksIff`, `BroadcastAlignment.SessionAlignedIff`,
  `BroadcastWitnesses.ReuseLeavesClientUnpolled`.
- The disconnect callback of a client can run before its connect callback: `BroadcastOutcomes.CallbackOrder`,
  `BroadcastWitnesses.DisconnectMayOvertakeConnect`.
- `await` can answer success with zero clients, exactly when something empties the active list between its two
  sections and nobody is pushed after that: `BroadcastOutcomes.AwaitIsLinearizable`,
  `BroadcastWitnesses.AwaitMayReportZero`.
- `awaitClose` is documented as a barrier between rounds (readme.md:719). It is one for later writes, but it can answer
  success before the descriptors of dropped clients are closed: `BroadcastOutcomes.RoundBarrier`,
  `BroadcastOutcomes.AwaitCloseLeavesOpenIff`, `BroadcastWitnesses.AwaitCloseMayPrecedeClose`.
- The result of a broadcast `write` speaks only of the last client of its snapshot, and a client that uses up its
  retries leaves a success with -1 bytes: `BroadcastWrite.FullSuccessReachesAllIff`,
  `BroadcastWrite.UnsizedSuccessIsIncompleteIff`.
- `connect` with zero retries answers success without a call: `ClientConnect.SuccessMeansConnectedIff`. A TCP wait that
  times out uses two retries, so all the configured attempts are made exactly when every attempt but the last fails
  hard: `ClientConnect.AllAttemptsMadeIff`, `ClientConnect.GivingUp`, `ClientConnect.ThreeRetriesTwoAttempts`.

## Model

| member | source | states |
|---|---|---|
| `EventListener.CollectsReady` | src/implementation/SocketEvent_Linux.cpp:158-226 | wait yields one event per ready descriptor, in the order of the poll vector |
| `EventListener.AlignedIsSound` | src/implementation/SocketEvent_Linux.cpp:82-157 | with aligned vectors and distinct descriptors, the entry found for a descriptor is the one at its own index |
| `EventListener.WaitIsSound` | src/implementation/SocketEvent_Linux.cpp:158-226 | no event of wait has a null context, no context is repeated, and every ready descriptor is reported |
| `EventListener.ReadyBits` | src/implementation/SocketEvent_Linux.cpp:175-181 | wait reports a descriptor exactly when poll set any bit for it |
| `EventListener.EventKinds` | src/implementation/SocketEvent_Linux.cpp:195-218 | the kind of each event, bit by bit: an error, hang-up or invalid descriptor is a disconnect whatever else is set; else input is an accept on the accept descriptor and a read on any other; output alone is a write |
| `EventListener.RemoveKeepsSound` | src/implementation/SocketEvent_Linux.cpp:134-157 | a removal never leaves a polled descriptor without a context, even when it takes the poll entry of another one |
| `EventListener.AddRefinesMap` | src/implementation/SocketEvent_Linux.cpp:82-126 | adding an unknown context keeps the vectors aligned and is a map update |
| `EventListener.AddRequests` | src/implementation/SocketEvent_Linux.cpp:82-126 | what a new entry asks poll for, bit by bit, and that only an accept entry sets the accept descriptor |
| `EventListener.RemoveKeepsAlignmentIff` | src/implementation/SocketEvent_Linux.cpp:134-157 | a removal keeps the two vectors aligned exactly when its pointer and its descriptor are both known or both unknown |
| `EventListener.RemoveRefinesMap` | src/implementation/SocketEvent_Linux.cpp:134-157 | a removal of a known context is a map removal, and neither its pointer nor its descriptor is left |
| `EventListener.RegistryRefinesMap` | src/implementation/SocketEvent_Linux.cpp:82-157 | any legal sequence of add, modify and remove keeps the vectors aligned and equal to the same sequence on one map from descriptor to context and interest |
| `EventListener.WaitReadsMap` | src/implementation/SocketEvent_Linux.cpp:158-226 | each ready descriptor is a key of the map, and its event carries the context the map holds for it |
| `EventListener.WaitReadsOnlyMap` | src/implementation/SocketEvent_Linux.cpp:158-226 | the k-th event of wait is the map's entry for the k-th ready descriptor, so wait observes nothing but the map |
| `EventListener.SocketMultiEventListener.AddEvent` | src/implementation/SocketEvent_Linux.cpp:82-126 | the object pushes onto both vectors, and records the accept descriptor |
| `EventListener.SocketMultiEventListener.RemoveEvent` | src/implementation/SocketEvent_Linux.cpp:134-157 | the two search loops erase the first poll entry with the descriptor and the first context with the pointer |
| `EventListener.SocketMultiEventListener.ModifyEvent` | src/implementation/SocketEvent_Linux.cpp:127-133 | remove, then add with the new interest |
| `EventListener.SocketMultiEventListener.Classification` | src/implementation/SocketEvent_Linux.cpp:171-226 | the nested loops of wait compute exactly the events of the ready descriptors: errors first, then accept, read, write |
| `ObjectPool.AcquireKeepsConsistent` | src/implementation/ObjectPool.hpp:21-34 | acquire fails exactly when the queue is empty; otherwise a raw slot becomes live and nothing else changes |
| `ObjectPool.ReleaseKeepsConsistentIff` | src/implementation/ObjectPool.hpp:36-49 | releasing a slot keeps queue and storage consistent exactly when the slot is live; a pointer outside the storage changes nothing |
| `ObjectPool.Conservation` | src/implementation/ObjectPool.hpp:13-49 | free and live slots together are the capacity |
| `ObjectPool.FifoLaw` | src/implementation/ObjectPool.hpp:13-49 | over any legal run capacity is constant, the queue stays consistent, and slots leave the queue in the order they entered it |
| `ObjectPool.ReleasedSlotWaits` | src/implementation/ObjectPool.hpp:21-49 | a released slot is handed out only after every slot that was free at its release |
| `ObjectPool.ObjectPool.constructor` | src/implementation/ObjectPool.hpp:13-19 | every slot starts raw and queued in ascending order |
| `ObjectPool.ObjectPool.Acquire` | src/implementation/ObjectPool.hpp:21-34 | pops the queue, builds the object in that slot, or answers none |
| `ObjectPool.ObjectPool.Release` | src/implementation/ObjectPool.hpp:36-49 | clears the slot and queues it last, or ignores a pointer outside the storage |
| `Connection.SocketConnection.constructor` | src/implementation/SocketConnection.hpp:26-35 | buffers of the header size and of the configured size, all zero, reading a header |
| `Connection.SocketConnection.ReadHeader` | src/implementation/SocketConnection.cpp:19-39 | one receive into the header buffer in place, then the payload size and mode once it is full |
| `Connection.SocketConnection.ReadPayload` | src/implementation/SocketConnection.cpp:41-54 | one receive into the payload buffer in place, then the handler once it is full |
| `Connection.SocketConnection.RunTask` | src/implementation/SocketConnection.cpp:88-121 | calls the handler according to the mode and names the next state |
| `Connection.SocketConnection.WriteResponse` | src/implementation/SocketConnection.cpp:56-69 | sends from where the last send stopped, finished at the response size |
| `Connection.SocketConnection.Flush` | src/implementation/SocketConnection.cpp:71-86 | zeroes the three buffers and all counters |
| `Connection.SocketConnection.OnReadable` | src/implementation/SocketRequestServer.cpp:115-149 | a read event runs the function of the state, stores the next one, and flushes when finished |
| `Connection.SocketConnection.OnWritable` | src/implementation/SocketRequestServer.cpp:151-168 | a write event sends, and flushes when the response is complete |
| `Framing.ServeAppend` | src/implementation/SocketConnection.cpp:19-121 | the reference parser on a longer stream continues where it stopped on the shorter one |
| `Framing.ServeConserves` | src/implementation/SocketConnection.cpp:19-54 | the reference parser's frames and its rest are the stream, byte for byte |
| `Framing.ServeIsMaximal` | src/implementation/SocketConnection.cpp:19-54 | it stops only where no whole frame is left |
| `Framing.ServeRoundTrip` | src/implementation/SocketConnection.cpp:19-54 | any list of well-formed frames, sent as bytes, is parsed back into that list |
| `Framing.ReplayIsFramed` | src/implementation/SocketConnection.cpp:19-121 | after every history of events the connection is where the reference parser stands, and its unused buffer space is zero |
| `Framing.ConsumedIsDelivered` | src/implementation/SocketConnection.cpp:19-69 | over every history the bytes consumed are those the receives delivered, and the bytes emitted as many as the sends took |
| `Framing.WriteEventSends` | src/implementation/SocketConnection.cpp:56-69 | one write event sends exactly the bytes taken from where the last one stopped, and finishes exactly when the total reaches the response size |
| `Framing.FramingRefinement` | src/implementation/SocketConnection.cpp:19-121 | for every stream that starts with the bytes delivered and every chopping of reads and writes, the requests handled are a prefix of the reference's and the bytes emitted are the first of its output, as many as the sends took; all of them once the input is delivered and the output drained |
| `Framing.ReplayConserves` | src/implementation/SocketConnection.cpp:21-53 | the bytes the socket delivered are the completed frames and the filled prefixes; no byte of the next request is taken early |
| `Framing.FramesAreHandled` | src/implementation/SocketConnection.cpp:19-121 | a client whose delivered bytes are whole frames gets exactly those handled, in order |
| `Framing.NoCarryOver` | src/implementation/SocketConnection.cpp:71-121 | whenever a read event makes a handler run, in any mode and for the n-th request as for the first, the payload buffer beyond the declared size and the whole output buffer are zero |
| `Framing.ProductiveEventProgresses` | src/implementation/SocketConnection.cpp:19-69 | an event that moves a byte, or finishes an empty response, completes the request or lowers (phase, bytes left) |
| `Framing.CompletedNeverDrops` | src/implementation/SocketConnection.cpp:19-69 | no event takes a completed request back |
| `Framing.RequestFinishes` | src/implementation/SocketConnection.cpp:19-69 | the productive events of one unfinished request are at most its header, payload and response bytes, whatever unproductive events come in between |
| `Framing.EnoughEventsFinish` | src/implementation/SocketConnection.cpp:19-69 | more productive events than a header and two full buffers hold complete a request |
| `RequestLoop.StartHolds` | src/implementation/SocketRequestServer.cpp:65-74 | the invariant of the loop holds before the first poll |
| `RequestLoop.AcceptKeepsRegistry` | src/implementation/SocketRequestServer.cpp:94-105 | an accept with a free slot keeps registry and live slots in agreement |
| `RequestLoop.DisconnectKeepsRegistry` | src/implementation/SocketRequestServer.cpp:106-113 | so does a disconnect |
| `RequestLoop.ModifyKeepsRegistry` | src/implementation/SocketRequestServer.cpp:122-167 | so does the switch between read and write interest |
| `RequestLoop.CollectedBatchAgrees` | src/implementation/SocketRequestServer.cpp:77-91 | every event of a poll points at a live slot whose state fits its kind |
| `RequestLoop.DispatchLeavesOthers` | src/implementation/SocketRequestServer.cpp:87-175 | dispatching one event changes no other live connection, its buffers or its slot |
| `RequestLoop.StepKeepsInv` | src/implementation/SocketRequestServer.cpp:75-175 | every poll and every dispatch keeps pool, registry, batch and client accounts in agreement |
| `RequestRuns.InterestAgreesWithState` | src/implementation/SocketRequestServer.cpp:115-168 | between events a live connection has write interest exactly while it writes a response, read interest otherwise, and is never left finished |
| `RequestRuns.NoEventIsIgnored` | src/implementation/SocketRequestServer.cpp:115-168 | the arms that ignore an event are unreachable |
| `RequestRuns.PoolRegistryBijection` | src/implementation/SocketRequestServer.cpp:94-113 | live slots are exactly the registered clients, free plus live is 32, and slots, descriptors and identities are not shared |
| `RequestRuns.EveryClientIsAccounted` | src/implementation/SocketRequestServer.cpp:94-113 | every accepted client is live or departed, with one connect callback and, if departed, one disconnect callback |
| `RequestRuns.AcceptCrashesIff` | src/implementation/SocketRequestServer.cpp:98-103 | an accept dereferences null exactly when all 32 slots are live |
| `RequestRuns.AcceptedIsServed` | src/implementation/SocketRequestServer.cpp:94-105 | with a free slot an accept makes the client live in a slot that was free, from an empty connection, registered, and changes no other client |
| `RequestRuns.FailedAcceptIsIgnored` | src/implementation/SocketRequestServer.cpp:98-105 | an accept that fails changes nothing but the batch |
| `RequestRuns.DisconnectedIsReleased` | src/implementation/SocketRequestServer.cpp:106-113 | a disconnect frees the slot and the descriptor of its own client and changes no other |
| `RequestRuns.CrashIsReachable` | src/implementation/SocketRequestServer.cpp:98-103 | a run of 33 connections does it, with any handler |
| `RequestRuns.ClientsRunAlone` | src/implementation/SocketRequestServer.cpp:75-175 | projection: in any interleaved run each client's connection is the one its own events produce alone |
| `RequestRuns.ProjectedCarries` | src/implementation/SocketRequestServer.cpp:75-175 | the client's own events carry exactly the bytes its socket delivered and took over the whole script |
| `RequestRuns.ServerRefinesReference` | src/implementation/SocketRequestServer.cpp:75-175 | end to end: among any other clients, the requests of a client, live or departed, and the bytes sent to it are those of the reference parser on the stream its socket delivered |
| `RequestRounds.RoundsAreARun` | src/implementation/SocketRequestServer.cpp:75-175 | the nested loops amount to a run of the step system, so the theorems about every run hold of them |
| `RequestRounds.EveryReadyIsDispatched` | src/implementation/SocketRequestServer.cpp:77-175 | each ready descriptor of a poll is dispatched once in its round, in order, unless a dispatch before it crashes the server |
| `RequestRounds.FailureEndsLoop` | src/implementation/SocketRequestServer.cpp:77-85 | a failed wait ends the loop, whatever would come after |
| `RequestRounds.TimeoutsChangeNothing` | src/implementation/SocketRequestServer.cpp:77-81 | a wait that times out changes nothing and the loop goes on |
| `RequestRounds.RoundsCompose` | src/implementation/SocketRequestServer.cpp:75-175 | rounds without a failed wait are served one after the other |
| `RequestServer.SocketRequestServer.constructor` | src/implementation/SocketRequestServer.cpp:65-73 | the server starts with the accept context registered and an empty pool |
| `RequestServer.SocketRequestServer.HandleAccept` | src/implementation/SocketRequestServer.cpp:94-105 | a new connection object in a free slot, announced and registered for reading, all others untouched; or the crash on a null connection when no slot is free |
| `RequestServer.SocketRequestServer.HandleDisconnected` | src/implementation/SocketRequestServer.cpp:106-113 | reported, unregistered and released |
| `RequestServer.SocketRequestServer.HandleRead` | src/implementation/SocketRequestServer.cpp:115-149 | the connection of one slot moves, and goes to write interest when a response is due; every other connection keeps its buffers |
| `RequestServer.SocketRequestServer.HandleWrite` | src/implementation/SocketRequestServer.cpp:151-168 | the connection of one slot moves, and goes back to read interest when the response is out |
| `RequestServer.SocketRequestServer.Dispatch` | src/implementation/SocketRequestServer.cpp:87-175 | one dispatch on the objects is one step of the step system and keeps the server valid |
| `RequestServer.SocketRequestServer.Run` | src/implementation/SocketRequestServer.cpp:75-178 | the outer loop over polls that time out, fail or report events leaves the state the step system gives, up to a crash |
| `BroadcastSafety.InitHolds` | src/implementation/SocketBroadcastServer.cpp:12-59 | the invariant holds after open |
| `BroadcastSafety.StepKeepsInv` | src/implementation/SocketBroadcastServer.cpp:61-208 | every step of the monitor and of any caller keeps it |
| `BroadcastRuns.ReclamationSafety` | src/implementation/SocketBroadcastServer.cpp:72-190 | in every interleaving each client the monitor can reach is owned by the active list, the pending list or a dropAll in its critical section, and is not freed |
| `BroadcastRuns.NoNullContext` | src/implementation/SocketBroadcastServer.cpp:83-130 | no batch holds a null or repeated context, and a disconnect never names the accept context |
| `BroadcastRuns.ListAgreement` | src/implementation/SocketBroadcastServer.cpp:93-190 | the registered contexts are the accept context and the active clients, but for the client in transit or those a dropAll is detaching; pending clients are apart from both |
| `BroadcastOutcomes.ExactlyOnceDeparture` | src/implementation/SocketBroadcastServer.cpp:124-208 | each accepted client is in exactly one of four stages, is closed at most once, and is reported only after its close; after close() every client was closed once |
| `BroadcastOutcomes.LeaversAreReportedOnce` | src/implementation/SocketBroadcastServer.cpp:124-208 | a client that leaves by the disconnect arm or by dropAll gets exactly one close and one disconnect callback, whatever races |
| `BroadcastOutcomes.RestIsClosedSilently` | src/implementation/SocketBroadcastServer.cpp:333-365 | a client still active at close() is closed once and never reported |
| `BroadcastOutcomes.CallbackOrder` | src/implementation/SocketBroadcastServer.cpp:108-121 | the disconnect callback overtakes the connect callback exactly while a dropped client is still to be announced |
| `BroadcastOutcomes.AwaitCloseCountsActive` | src/implementation/SocketBroadcastServer.cpp:317-331 | while the server is open the final check of awaitClose answers a timeout with the exact number of active clients, and success exactly when there is none |
| `BroadcastOutcomes.AwaitCloseAnswersIff` | src/implementation/SocketBroadcastServer.cpp:317-331 | awaitClose answers closed exactly when monitoring is off, a timeout exactly when it is on with somebody active, success otherwise |
| `BroadcastOutcomes.RoundBarrier` | src/implementation/SocketBroadcastServer.cpp:317-331 | after awaitClose succeeds, no client that had entered before is in the snapshot of a later write |
| `BroadcastOutcomes.AwaitCloseLeavesOpenIff` | src/implementation/SocketBroadcastServer.cpp:317-331 | then a departed client's descriptor is still open exactly while its remover has not closed it |
| `BroadcastOutcomes.RunEmptiesIff` | src/implementation/SocketBroadcastServer.cpp:118-190 | a run leaves the active list empty exactly when it starts empty and pushes nobody, or some swap, close or erase of the only client empties it and nobody is pushed after |
| `BroadcastOutcomes.AwaitIsLinearizable` | src/implementation/SocketBroadcastServer.cpp:296-315 | a successful await saw an active client and carries the number of active clients of its second section; that is zero exactly when the list was emptied in between for good, and no lower than before when nobody left |
| `BroadcastOutcomes.AwaitAnswersIff` | src/implementation/SocketBroadcastServer.cpp:296-315 | await answers closed exactly when a section it reached found monitoring off, a timeout exactly when the first was open with nobody active |
| `BroadcastOutcomes.AwaitedClientsDoNotReturn` | src/implementation/SocketBroadcastServer.cpp:296-315 | a client active at the first section and not at the second is never active again |
| `BroadcastRounds.ExitsIff` | src/implementation/SocketBroadcastServer.cpp:72-87 | the monitor leaves its loop exactly when a poll fails or when it finds monitoring off at the top |
| `BroadcastRounds.MonitorStaysUp` | src/implementation/SocketBroadcastServer.cpp:72-87 | until monitoring is stopped, the monitor has exited exactly when some poll has failed, however many timed out |
| `BroadcastRounds.StopEndsPolling` | src/implementation/SocketBroadcastServer.cpp:72-87 | after a stop the monitor takes at most the one snapshot it was already about to take |
| `BroadcastRounds.MonitorFollowsProgram` | src/implementation/SocketBroadcastServer.cpp:61-168 | in every session the monitor's sections come in the order of its program, from the steps alone |
| `BroadcastRounds.EveryoneIsPolledForInput` | src/implementation/SocketBroadcastServer.cpp:93-122 | every registered descriptor is polled for input and nothing else |
| `BroadcastRounds.RoundPollsSnapshot` | src/implementation/SocketBroadcastServer.cpp:83-91 | whatever the callers do before poll answers, the batch has one event for each ready descriptor of the registry at the snapshot |
| `BroadcastRounds.BatchIsTakenUpInOrder` | src/implementation/SocketBroadcastServer.cpp:89-168 | no event of a batch is skipped or taken up twice |
| `BroadcastRounds.BatchIsHandled` | src/implementation/SocketBroadcastServer.cpp:89-168 | each event is taken up by the step for its kind and its own client, and the batch ends only after the last |
| `BroadcastRounds.PendingSinceClear` | src/implementation/SocketBroadcastServer.cpp:74-81 | the pending list holds exactly the clients handed over by a dropAll since the monitor last cleared it |
| `BroadcastRounds.WriteTargetsActive` | src/implementation/SocketBroadcastServer.cpp:216-220 | until it returns, a write targets exactly the clients that were active at its snapshot, each once |
| `BroadcastAlignment.AlignmentBreaksIff` | src/implementation/SocketEvent_Linux.cpp:134-157 | a step of the broadcast server breaks the alignment of the vectors exactly when it is a stale disconnect on a reused descriptor |
| `BroadcastAlignment.SessionAlignedIff` | src/implementation/SocketBroadcastServer.cpp:61-190 | over a session the vectors are always aligned exactly when no such step occurs |
| `BroadcastAlignment.SessionWithoutReuseIsAligned` | src/implementation/SocketBroadcastServer.cpp:61-190 | no reuse of a batch's descriptors before the batch ends is enough |
| `BroadcastWitnesses.DisconnectMayOvertakeConnect` | src/implementation/SocketBroadcastServer.cpp:108-121 | a session in which the disconnect callback comes first |
| `BroadcastWitnesses.AwaitMayReportZero` | src/implementation/SocketBroadcastServer.cpp:296-315 | a session in which await succeeds with zero clients |
| `BroadcastWitnesses.AwaitCloseMayPrecedeClose` | src/implementation/SocketBroadcastServer.cpp:317-331 | a session in which awaitClose succeeds while a dropped client's descriptor is open |
| `BroadcastWitnesses.ReuseLeavesClientUnpolled` | src/implementation/SocketEvent_Linux.cpp:134-157 | a session in which a reused descriptor leaves an active client registered but not polled |
| `BroadcastThreads.ScheduleIsARun` | src/implementation/SocketBroadcastServer.cpp:61-208 | a thread's turns with anything the others do in between are a run of the whole server, so the theorems about every session hold of it |
| `BroadcastThreads.RunIsASchedule` | src/implementation/SocketBroadcastServer.cpp:61-208 | every run of the whole server is such a schedule of any one thread, with a tail it takes no part in |
| `BroadcastThreads.MonitorStands` | src/implementation/SocketBroadcastServer.cpp:61-168 | whatever the callers do, the monitor finds itself where it stood, and the only sections it can take are those its program has there |
| `BroadcastThreads.DropStands` | src/implementation/SocketBroadcastServer.cpp:170-208 | so does a dropAll, whatever the monitor and the other callers do |
| `BroadcastServer.SocketBroadcastServer.constructor` | src/implementation/SocketBroadcastServer.cpp:12-59 | open registers the accept descriptor and leaves a valid server |
| `BroadcastServer.SocketBroadcastServer.ErasePeer` | src/implementation/SocketBroadcastServer.cpp:124-161 | the disconnect arm takes the client off the active list, or finds that a dropAll already has |
| `BroadcastServer.SocketBroadcastServer.DispatchEvent` | src/implementation/SocketBroadcastServer.cpp:89-166 | the switch performs, for every event and every interleaving, exactly the monitor steps of the schedule |
| `BroadcastServer.SocketBroadcastServer.MonitorClient` | src/implementation/SocketBroadcastServer.cpp:61-168 | the monitor's nested loops perform every schedule of the step system, interleaved with any callers, and leave a valid server |
| `BroadcastServer.SocketBroadcastServer.CallDropAll` | src/implementation/SocketBroadcastServer.cpp:170-208 | so do calls of dropAll, interleaved with the monitor and any other callers |
| `BroadcastServer.SocketBroadcastServer.Close` | src/implementation/SocketBroadcastServer.cpp:333-365 | close stops the monitor, and when the others have let it exit leaves a valid server with empty lists and every client closed exactly once |
| `BroadcastServer.SocketBroadcastServer.AwaitClients` | src/implementation/SocketBroadcastServer.cpp:296-315 | await, with anything happening while it waits and between its two sections, answers from the state each section finds |
| `BroadcastServer.SocketBroadcastServer.AwaitClose` | src/implementation/SocketBroadcastServer.cpp:317-331 | awaitClose answers from the state its final check finds |
| `BroadcastServer.SocketBroadcastServer.ReleaseAll` | src/implementation/SocketBroadcastServer.cpp:333-365 | close() closes every remaining client and empties both lists |
| `BroadcastWrite.DeliveryIsPrefixAndBounded` | src/implementation/SocketBroadcastServer.cpp:226-289 | one client gets a prefix of the buffer; timeouts are at most max_retries, waits at most retries plus size; the result tells used-up retries, completion and failure apart |
| `BroadcastWrite.DeliveryFollowsChannel` | src/implementation/SocketBroadcastServer.cpp:226-289 | against the channel's own answers: every turn before the last answered success or a timeout, the first other answer is returned with the bytes taken, and sends, bytes and timeouts are those of the channel |
| `BroadcastWrite.WriteClient` | src/implementation/SocketBroadcastServer.cpp:226-289 | the retry loop terminates and hands over that prefix with that result |
| `BroadcastWrite.UnsizedSuccessIsIncompleteIff` | src/implementation/SocketBroadcastServer.cpp:221-289 | success with -1 bytes always means an incomplete delivery exactly when there is something to deliver and, if a send is tried at all, the size does not itself cast to -1 |
| `BroadcastWrite.Write` | src/implementation/SocketBroadcastServer.cpp:210-294 | every client of the snapshot is served on its own; the result is 0 bytes for none, else that of the last |
| `BroadcastWrite.FullSuccessReachesTheLast` | src/implementation/SocketBroadcastServer.cpp:281-293 | success with the full size holds exactly when the last client got a non-empty buffer whole, or used up its retries with a size that casts to -1 |
| `BroadcastWrite.FullSuccessReachesAllIff` | src/implementation/SocketBroadcastServer.cpp:281-293 | it means that every client got the whole buffer exactly when there is no client or nothing to send, or the size does not cast to -1 and there is one client or no send is tried |
| `ClientConnect.RunTcp` | src/implementation/SocketClient.cpp:48-82 | the TCP loop: hard errors are retried, a timed-out wait takes two retries |
| `ClientConnect.RunHandshake` | src/implementation/SocketClient.cpp:84-118 | the handshake loop: only timed-out waits take a retry, hard errors return |
| `ClientConnect.RunProbe` | src/implementation/SocketClient.cpp:121-157 | the probe loop: a timed-out wait is a success |
| `ClientConnect.Connect` | src/implementation/SocketClient.cpp:39-161 | the three loops in order, each only after the one before it succeeded |
| `ClientConnect.ConnectConsumes` | src/implementation/SocketClient.cpp:39-161 | the calls consume the environment's answers in order, and all of them while connect is still waiting |
| `ClientConnect.ConnectWaits` | src/implementation/SocketClient.cpp:52-157 | in each loop a wait follows each pending attempt and nothing else |
| `ClientConnect.AskingToWaitIsNotReturned` | src/implementation/SocketClient.cpp:57-134 | by name, in-progress and need-to-be-blocked: in every loop a call is a wait exactly when the attempt before it answered one of them, and connect returns one only when a wait itself answers it |
| `ClientConnect.ConnectSucceedsIff` | src/implementation/SocketClient.cpp:52-160 | with a retry, connect succeeds exactly when TCP succeeded, then a handshake attempt, then a probe that succeeded or waited in vain |
| `ClientConnect.ConnectReturnsLastAnswer` | src/implementation/SocketClient.cpp:52-160 | the result is the last answer unchanged, but for a probe wait that timed out |
| `ClientConnect.HardErrorIsReturned` | src/implementation/SocketClient.cpp:84-157 | a hard handshake or probe error ends the call with that error |
| `ClientConnect.ConnectIsBounded` | src/implementation/SocketClient.cpp:52-157 | TCP attempts and handshake timeouts are each at most max_retries, probe timeouts at most one |
| `ClientConnect.AllAttemptsMadeIff` | src/implementation/SocketClient.cpp:52-78 | max_retries TCP attempts are made exactly when every attempt but the last fails hard |
| `ClientConnect.GivingUp` | src/implementation/SocketClient.cpp:52-82 | when the TCP loop gives up, attempts and timeouts together are max_retries, or one more with the timed-out wait last; when every wait timed out only half of the attempts are made, rounded up |
| `ClientConnect.ThreeRetriesTwoAttempts` | src/implementation/SocketClient.cpp:52-78 | with three retries and two waits in vain, connect gives up after two attempts |
| `ClientConnect.SuccessMeansConnectedIff` | src/implementation/SocketClient.cpp:52-160 | success always stands for an established connection exactly when max_retries is not zero |

## Left out

- Sockets, `poll`, `fcntl`, address resolution and OpenSSL: their answers are parameters of the steps and methods.
- The Windows listener: its registry logic is that of the Linux file.
- The condition variable of `await` and `awaitClose`: anything may happen before their sections, and prompt wake-up is not modelled.
- Liveness of peer-close detection, and the flag that `close` sets outside the mutex: they depend on the kernel and the scheduler.
- Reopening after `close`, opening twice, and listening failures: one session is modelled.
- Writes to a descriptor that another thread closed meanwhile: what the kernel does with them is not modelled.
- The stacks of the broadcast server's threads: where a thread stands between two sections is an ordinary field of the class in `BroadcastServer.dfy`, and a schedule says who runs when.
- The bytes of a broadcast `write` inside the step system: a write is there a snapshot of clients, and its bytes are the subject of `BroadcastWrite`.
- The event kind that `wait` stores behind the context pointer: the model returns it beside the context.
- `addEvent` with the kinds undefined and disconnected: nothing calls it so, and the requested bits would be unset.
- The per-connection worker thread and the slow mode's task: nothing starts the worker, and the slow mode calls no handler, as in the source.
- `SocketClient` reads and writes: on would-block its write adds -1 to the written size, so it has no clean delivery law.
- The client's pauses between retries and the timeouts themselves: no property depends on their length.
- Broadcast clients whose socket container is empty: `write` skips them, and only successfully accepted clients enter the list.
- Server-side TLS: every method of it throws.
- Cipher strings, error-code tables and the TLS error classification: finite tables.
- The public wrapper classes and the shallow-copied socket container: they forward calls.
