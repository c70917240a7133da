# A model of the OTLogin server

OTLogin accepts TCP connections, reads one encrypted login packet from each, answers with a
character list and closes. This project states in Dafny what its connection, protocol, message,
dispatcher and scheduler code does, and proves what that code keeps over whole runs. Everything is
written against the repository's C++ sources; file and line numbers below are theirs.

Verify it with `dafny verify dfyconfig.toml` (Dafny 4.11).

## How the model is laid out

**The lifecycle.** `ConnectionState` holds the fields of a `Connection` as a value and what each
locked member function does to them. `World` is the whole running server: connections, protocols,
pooled messages, the dispatcher's queue, the scheduler's events, posted `onStop` handlers. Every
function that runs under a lock is one atomic step (`WorldSteps`); the dispatcher's `delegate` and
`sendAll` are several steps each, so that network handlers run in between. Uses of a deleted
protocol, a released connection or message, a null pointer, a header without room, and the source's
own error lines are the `alarms` of a step. `WorldInvariant` states the invariant part by part,
`World...Proofs` and `WorldRuns` show that every step of every interleaving keeps it, and
`WorldTheorems`, `WorldForward` and `WorldLeak` say what follows for all runs. `WorldCounts` says what
m_pendingWrite and m_pendingRead count, `WorldEffects` what the single steps do, `WorldAlarms` that no
misuse is silent, and `WorldLogin` what follows when each delegate asks for one message, not an autosend
one, as the login protocol's does. `WorldReach` gives runs that reach what the theorems speak of.

`Connections` and `MessagePools` are the same operations as classes over mutable fields and object
references; `Refinement` shows that closing and sending do the same there as in a `World`.

**Queues.** `Dispatchers` (tasks added at both ends), `Schedulers`, `SchedulerSpec` and
`SchedulerIds` (event ids against the priority queue), `OutputPool` (the ageing of messages in
`sendAll`).

**The wire.** `Words` (little-endian values, overwriting a part of a buffer), `Messages` (the
16384-byte message buffer), `TypedFields` (lists of put and get calls), `Xtea`, `Adler`, `Wire`
(framing, header and checksum handling, decryption), `WireRoundTrip` (sender against receiver),
`ServicePorts` (which service gets the first packet).

**Clocks and text.** `Premium`, `Limits` (both per-address limiters), `Text` (splitting, replacing,
SQL literals).

## Conditions and findings

- `putPadding` refuses silently, so an encrypted frame is accepted exactly up to a body of 16358
  bytes, while the typed writers allow 16361 (`WireRoundTrip.FrameRoundTrip`).
- A timeout handler that waits for the lock while `onStop` runs follows the null `m_socket`, when the
  connection has a failed or pending read (or write). No other step of any run does anything that
  must not happen (`WorldTheorems.AlarmsExactly`), and this one is reached by a refused client whose
  read timer expires as its connection is closed (`WorldReach.NullSocketIsReached`).
- A connection whose `closeConnection` finds a write pending stays in CLOSING for ever, and is never
  released (`WorldLeak.ClosingForever`, `WorldLeak.ReleasedExactly`); an ordinary rejected login leads
  there (`WorldReach.LeakIsReached`).
- A message of the login protocol never waits in `m_addQueue` or `m_autoSend`, so `sendAll` never sends
  (`WorldLogin.LoginQueuesEmpty`, `WorldLogin.SendAllSendsNothing`). This is what keeps two orders of
  locking apart: `sendAll` holds the pool's lock where `Connection::send` takes the connection's
  (src/net/outputmessage.cpp:77 and 105), and `parsePacket` holds the connection's where
  `getOutputMessage` takes the pool's (src/net/connection.cpp:384, src/net/outputmessage.cpp:151). With a
  delegate that asks twice a message does wait (`WorldReach.SecondMessageWaits`).
- Only a thread that found the queue empty when it went to wait pops an event early, and it does with
  every event popped within 50 ms of the adds made since then (`SchedulerSpec.EarlyExactly`).
- An id that is used again makes the scheduler drop a pending event, or run one that was stopped,
  exactly when a queued event with that id is still active, or was stopped and is due no later than
  the new one (`SchedulerIds.RepeatedIdExactly`). The repository only uses generated ids; those are
  fresh as long as no event stays queued across 2^32 - 1 adds (`SchedulerSpec.GeneratedRunIsFresh`).
- A pass of `sendAll` leaves `m_autoSend` ordered exactly when the messages that it moves there were
  queued in the order of their frames, none older than the last that remains
  (`OutputPool.OrderedExactly`). Use inside dispatcher frames gives that; `OutputPool.OutsideFramesUnordered`
  is a case outside. The clock counts milliseconds and is at least 10000, so that the subtractions do
  not wrap around.
- With `lastDay` 0 and counted premium days the premium clock depends on when it is first called;
  `Premium.SecondCallDecides` gives the exact condition for two calls, `Premium.LateCallsTogether` for
  any number.
- An empty key makes `replaceString` run forever (`Text.EmptyKeyNeverEnds`), and an empty separator
  `explodeString`, unless the limit is 1 to 65534 (`Text.EmptySeparatorEnds`).
- `acceptConnection` judges a window only when a later attempt ends it
  (`Limits.RejectedWhileBanned`).
- The results on `acceptConnection` ask for a clock that never goes back and stays 10000 ms below
  2^64; its counter has 32 bits, and the tallies say so (`Limits.Tallied`).
- `explodeString` counts its pieces in 16 bits: a limit of 65535 is no limit.

## Model

| member | source | states |
|---|---|---|
| WorldTheorems.AlarmsExactly | src/net/connection.cpp:214-288 | a step of a run takes an error branch or uses a dead object if and only if it is a timeout, with something failed or pending, of a connection whose onStop has run; it then follows the null m_socket |
| WorldTheorems.NothingGoesWrong | src/net/connection.cpp:182-212 | apart from such timeouts no step takes an error branch or uses a dead object |
| WorldAlarms.Uses | src/net/connection.cpp:214-288 | in any world, reachable or not, using a deleted protocol, a released connection, a null socket or a null connection raises the alarm for it |
| WorldAlarms.FrameAlarms | src/net/outputmessage.h:90-102 | so does framing with less than 8 bytes of header room |
| WorldAlarms.CloseAlarms | src/net/connection.cpp:182-212 | closeConnection raises one for each: a connection not listed, a wrong state, a deleted protocol, a null socket |
| WorldAlarms.ReleaseAlarms | src/protocol/protocol.cpp:103-117 | so do the release callbacks and delegate for what they find dead |
| WorldAlarms.MessageAlarms | src/net/outputmessage.cpp:121-141 | so does the release of a message that is still referred to, or not handed out, or whose protocol is deleted |
| WorldAlarms.SendAlarms | src/net/connection.cpp:472-534 | so does each way of send |
| WorldAlarms.DelegateAlarms | src/protocol/protocollogin.cpp:153-306 | so do a delegate's calls on a deleted protocol |
| WorldAlarms.StopAlarms | src/net/connection.cpp:52-64 | so does onStop with a null socket or for a connection that is not listed |
| WorldAlarms.DropAlarms | src/net/connection.cpp:610-628 | so do closing a null socket and reading from it |
| WorldAlarms.DeliverAlarms | src/net/connection.cpp:422-445 | so does a packet for a null or deleted protocol |
| WorldAlarms.FirstAlarms | src/protocol/protocollogin.cpp:57-155 | so does a first packet for a deleted protocol |
| WorldTheorems.DelegateIsSafe | src/protocol/protocollogin.cpp:153-306 | from being popped to its return, delegate's protocol is not deleted and its connection is non-null, points back at it and is still listed |
| WorldTheorems.DelegateBeforeClose | src/net/connection.cpp:86-98 | a queued delegate is ahead of any queued closeConnection of its connection |
| WorldTheorems.RefCountsExact | src/net/outputmessage.cpp:121-200 | every m_refCount is the number of messages that point at the object |
| WorldTheorems.DeletedOnce | src/protocol/protocol.cpp:103-117 | a protocol is deleted at most once, and then nothing refers to it |
| WorldTheorems.ClosedOnce | src/net/connection.cpp:182-306 | the body of closeConnection runs at most once, onStop is posted at most once with no message left, and finds the connection listed |
| WorldTheorems.OneWriteEach | src/net/connection.cpp:472-534 | m_pendingWrite is 0 or 1, at most one write per connection is outstanding, and the slow-connection branch is never taken |
| WorldTheorems.MessagePartition | src/net/outputmessage.cpp:115-174 | each message is exactly one of free, live, awaiting its single release |
| WorldTheorems.ProtocolPartition | src/protocol/protocol.cpp:103-117 | each protocol is exactly one of attached, awaiting its single releaseProtocol, deleted |
| WorldTheorems.FreeList | src/net/outputmessage.h:104-116 | the free list has no duplicates and holds only messages without pointers and with header room 8 |
| WorldTheorems.FramedOnce | src/net/outputmessage.cpp:56-113 | an allocated message is framed at most once on every path, which takes its header room exactly from 8 to 0 |
| WorldCounts.WriteCompletes | src/net/connection.cpp:560-584 | in every run a write that completes on an open connection leaves m_pendingWrite at 0 and none outstanding, whatever was sent before |
| WorldCounts.PendingWritesExact | src/net/connection.cpp:512-584 | where no start of a write throws, m_pendingWrite of an open connection is the number of its outstanding writes |
| WorldCounts.OneReadEach | src/net/connection.cpp:315-470 | where no start of a read throws, an open connection has exactly one read outstanding, and m_pendingRead is 1 |
| WorldCounts.StepCounts | src/net/connection.cpp:315-584 | every step that does not throw keeps both counters right |
| WorldEffects.AcceptOpens | src/net/server.cpp:146-178 | an accepted socket is an open listed connection whose header is being read |
| WorldEffects.HeaderDecides | src/net/connection.cpp:340-380 | a header that failed or announces a bad size closes an open connection, any other leads to the read of the packet |
| WorldEffects.BadPacketCloses | src/net/connection.cpp:382-408 | a packet that failed or comes too often closes an open connection |
| WorldEffects.FirstPacketDecides | src/protocol/protocollogin.cpp:57-155 | without a service, or with a bad key, the connection is closed; an accepted packet queues the delegate behind everything and reading goes on |
| WorldEffects.RejectedIsAnswered | src/protocol/protocollogin.cpp:43-55 | a rejected packet leaves its answer framed once and being written, and the close queued behind everything |
| WorldEffects.TimeoutDecides | src/net/connection.cpp:610-628 | a timeout of an open connection with something pending shuts the socket, clears both counters and queues the close; otherwise it changes nothing |
| WorldEffects.WriteShuts | src/net/connection.cpp:560-584 | a write that fails, or completes when the connection is not open any more, shuts the socket |
| WorldEffects.DelegateGets | src/net/outputmessage.cpp:143-200 | a delegate's message is its own protocol's and connection's, unframed and with full header room, and comes from the end of the free list |
| WorldEffects.DelegateSends | src/net/connection.cpp:472-534 | on an open idle connection send counts one write, and the framed message is being written |
| WorldEffects.SecondIsQueued | src/net/connection.cpp:494-505 | while a write is pending send puts the message at the back of m_addQueue, unframed |
| WorldEffects.DelegateCloses | src/protocol/protocollogin.cpp:305 | a delegate's close queues closeConnection at the back, once |
| WorldEffects.AutoIsQueued | src/net/outputmessage.cpp:176-184 | an autosend message goes to the back of m_autoSend |
| WorldEffects.QueuedMoves | src/net/outputmessage.cpp:80-96 | sendAll takes m_addQueue from the front; an expired message is framed once and dropped |
| WorldEffects.EventsGoFirst | src/scheduler.cpp:60-68 | a due event becomes the first task of the dispatcher |
| WorldEffects.ReleasesGoFirst | src/net/outputmessage.cpp:115-119 | the release of a message nothing else refers to becomes the first task |
| WorldEffects.MessageIsFreed | src/net/outputmessage.cpp:121-141 | a released message is last in the free list, with header room 8, and its two objects have one reference less each |
| WorldEffects.DeletedExactly | src/protocol/protocol.cpp:103-117 | releaseProtocol deletes its protocol if and only if no message refers to it, else it is scheduled again |
| WorldEffects.StoppedExactly | src/net/connection.cpp:257-264 | releaseConnection posts onStop if and only if no message refers to its connection, else it is scheduled again |
| WorldEffects.OnStopErases | src/net/connection.cpp:52-64 | onStop takes exactly its connection from the manager's list |
| WorldForward.RunForwardOnly | src/net/connection.cpp:86-255 | connection states only move forward, CLOSING and CLOSED for good, deletions are never undone |
| WorldForward.StaysDeleted | src/net/outputmessage.cpp:143-200 | nothing is attached to a protocol after its deletion, at any later time |
| WorldLeak.ClosingForever | src/net/connection.cpp:86-98 | a connection in CLOSING stays there in every later state, listed and never released |
| WorldLeak.ReleasedExactly | src/net/connection.cpp:203-209 | closeConnection leads to the release of its connection if and only if no write is pending or one has failed |
| WorldLogin.LoginQueuesEmpty | src/protocol/protocollogin.cpp:43-306 | in every run of the login protocol m_autoSend and m_addQueue are empty |
| WorldLogin.SendAllSendsNothing | src/net/outputmessage.cpp:75-113 | in such a run neither loop of sendAll takes a message, so it calls into no connection |
| WorldLogin.LoginSendsAtOnce | src/net/connection.cpp:472-510 | in such a run a delegate's message is written at once or refused, never queued |
| WorldLogin.OneMessageEach | src/net/connection.cpp:422-445 | in such a run an open connection with a write outstanding has no delegate left that could send |
| WorldLogin.StepQuiet | src/net/connection.cpp:340-534 | every step keeps the queues empty and, for each open connection, writes plus delegates that have yet to send at one after its first packet and at none before |
| WorldRuns.RunAtRest | src/net/connection.cpp:86-306 | the invariant holds in every state of every run |
| WorldRuns.StepKeeps | src/tasks.cpp:28-66 | every step of every thread but a late timeout keeps the invariant and raises no alarm |
| WorldRuns.LateStep | src/net/connection.cpp:610-628 | a late timeout changes nothing but that it follows the null m_socket |
| WorldReach.BusyWorldIsReached | src/protocol/protocollogin.cpp:157-306 | a run of the login protocol exists that ends inside a delegate with a write outstanding and the close queued |
| WorldReach.LoginIsCompleted | src/protocol/protocollogin.cpp:57-306 | a run of the login protocol exists in which the answer is written, its message freed, the connection closed, the protocol deleted and onStop run; its whole last state |
| WorldReach.SecondMessageWaits | src/net/connection.cpp:494-505 | a delegate that asks twice reaches a message in m_addQueue |
| WorldReach.LeakIsReached | src/protocol/protocollogin.cpp:43-55 | five steps of a rejected login reach a connection that stays in CLOSING |
| WorldReach.NullSocketIsReached | src/net/connection.cpp:610-642 | eight steps of a refused client reach the null m_socket |
| WorldConnProofs.CloseKeeps | src/net/connection.cpp:86-98 | a close request keeps the invariant, whatever the state |
| WorldConnProofs.DropSocketKeeps | src/net/connection.cpp:610-628 | closing socket and connection from a handler keeps the invariant |
| WorldConnProofs.ReadFailureKeeps | src/net/connection.cpp:586-608 | a read error keeps the invariant |
| WorldConnProofs.StartReadKeeps | src/net/connection.cpp:315-338 | starting a read, which may throw, keeps the invariant |
| WorldTaskProofs.RunCloseKeeps | src/net/connection.cpp:182-212 | closeConnection finds its connection in REQUEST_CLOSE and keeps the invariant |
| WorldTaskProofs.RunReleaseConnKeeps | src/net/connection.cpp:257-306 | releaseConnection waits for the messages of a connection or posts its one onStop |
| WorldTaskProofs.RunReleaseProtoKeeps | src/protocol/protocol.cpp:103-117 | releaseProtocol waits for the messages of a protocol or deletes it |
| WorldPoolProofs.AllocKeeps | src/net/outputmessage.cpp:143-200 | allocating a message counts it on both objects and keeps the invariant |
| WorldPoolProofs.RunReleaseMsgKeeps | src/net/outputmessage.cpp:121-141 | a release callback finds its message owned and unreferenced, and keeps the invariant |
| WorldPoolProofs.TakenIsFree | src/net/outputmessage.cpp:152-170 | the message that is handed out is referred to by nobody |
| WorldSendProofs.FrameKeeps | src/protocol/protocol.cpp:33-60 | framing an unframed message never finds too little header room |
| WorldSendProofs.SendKeeps | src/net/connection.cpp:472-534 | each way of send keeps the invariant, with at most one write started |
| WorldSendProofs.DropKeeps | src/net/outputmessage.cpp:115-119 | the last reference to a message queues its release exactly once |
| WorldStepProofs.WrittenKeeps | src/net/connection.cpp:560-584 | onWrite, with or without an error, keeps the invariant |
| WorldStepProofs.ExpireKeeps | src/net/outputmessage.cpp:80-96 | an expired message is framed and let go |
| WorldStepProofs.MoveKeeps | src/net/outputmessage.cpp:80-96 | moving a queued message to either end of m_autoSend keeps the invariant |
| WorldStepProofs.FrontKeeps | src/net/outputmessage.cpp:98-112 | sending the front of m_autoSend keeps the invariant |
| WorldStepProofs.StopKeeps | src/net/connection.cpp:52-64 | onStop erases a connection that is listed, once |
| WorldStepProofs.FireKeeps | src/scheduler.cpp:60-68 | an event pushed to the front of the queue overtakes no delegate's protection |
| WorldStepProofs.PopKeeps | src/tasks.cpp:28-66 | popping a task keeps the invariant |
| WorldRuns.AcceptKeeps | src/net/server.cpp:146-178 | a new connection, with or without a protocol, keeps the invariant |
| WorldRuns.HeaderKeeps | src/net/connection.cpp:340-380 | parseHeader keeps the invariant on every path |
| WorldRuns.PacketKeeps | src/net/connection.cpp:382-470 | parsePacket keeps the invariant on every path |
| WorldRuns.DisconnectKeeps | src/protocol/protocollogin.cpp:43-55 | answering with an error from a network thread keeps the invariant |
| WorldRuns.FirstMessageKeeps | src/protocol/protocollogin.cpp:57-155 | each outcome of the first packet keeps the invariant; delegate is queued while the connection is OPEN |
| WorldRuns.RunKeeps | src/tasks.cpp:48-64 | running any popped callback keeps the invariant |
| WorldRuns.CloseStepKeeps | src/protocol/protocollogin.cpp:157-306 | the delegate's close of its connection finds it |
| Refinement.CloseEffect | src/net/connection.cpp:182-212 | the step for closeConnection changes connection, events, posted handlers and protocol as the contract of the class's method says, and nothing else |
| Refinement.SendEffect | src/net/connection.cpp:472-534 | the step for send changes connection, outstanding writes and queue as the contract of the class's method says |
| Refinement.SendHeader | src/net/connection.cpp:483-492 | sending frames a message exactly when it is not queued or forces a close |
| Connections.Connection.OnStop | src/net/connection.cpp:266-286 | the socket is gone afterwards; a second run would follow the null m_socket |
| Connections.Connection.Close | src/net/connection.cpp:86-98 | only an OPEN connection asks for its close, once, at the back of the queue |
| Connections.Connection.CloseSocket | src/net/connection.cpp:214-255 | an open socket is closed and both counters are cleared; a null one is followed |
| Connections.Connection.CloseConnection | src/net/connection.cpp:182-212 | the whole effect on the connection, its protocol and the queues, on each of its three ways |
| Connections.FinishedFields | src/net/connection.cpp:182-212 | field by field: a pending write that has not failed leaves the connection CLOSING, anything else closes socket and connection and posts onStop when nothing refers to it |
| Connections.Connection.ReleaseConnection | src/net/connection.cpp:257-264 | rescheduled while messages refer to it, else onStop is posted |
| Connections.Connection.Send | src/net/connection.cpp:472-510 | which of refuse, write, force a close, queue happens, and its effect |
| Connections.Connection.InternalSend | src/net/connection.cpp:512-534 | the write counter and the outstanding write, also when starting it throws |
| Connections.Connection.OnWrite | src/net/connection.cpp:560-584 | the effect of a completed write for each error code and state |
| Connections.Connection.HandleReadError | src/net/connection.cpp:586-608 | the effect of a read error |
| Connections.Connection.HandleWriteError | src/net/connection.cpp:644-666 | the effect of a write error |
| Connections.Connection.OnReadTimeout | src/net/connection.cpp:610-618 | a connection with a pending or failed read loses socket and state |
| Connections.Connection.OnWriteTimeout | src/net/connection.cpp:620-628 | the same for writes |
| Connections.ProtocolObject.ReleaseProtocol | src/protocol/protocol.cpp:103-117 | rescheduled while messages refer to it, else deleted |
| MessagePools.MessagePool.GetOutputMessage | src/net/outputmessage.cpp:143-174 | null exactly without a connection or after shutdown; else the last free message or a new one, counted on both objects; the counts stay exact |
| MessagePools.MessagePool.Configure | src/net/outputmessage.cpp:176-200 | the message's new fields, and exact counts |
| MessagePools.MessagePool.InternalReleaseMessage | src/net/outputmessage.cpp:121-141 | the message goes to the end of the free list without pointers; each object it pointed at has one reference less, with the counts of the pool exact; which null pointers are warned about, also when just one is null |
| MessagePools.MessagePool.ReleaseMessage | src/net/outputmessage.cpp:115-119 | the release callback is queued at the front |
| MessagePools.Counted | src/net/outputmessage.cpp:176-200 | one more message changes the count of its own two objects by one and no other |
| Dispatchers.Dispatcher.AddTask | src/tasks.cpp:68-93 | where the callback is put, and when the thread is woken |
| Dispatchers.Dispatcher.TakeTask | src/tasks.cpp:28-66 | the head of the queue is taken |
| Dispatchers.FrontTaskIsNext | src/tasks.cpp:28-93 | after any history, a task added at the front is the next one taken, whatever is added at the back before, and the rest of the queue is undisturbed |
| Dispatchers.BackTasksInOrder | src/tasks.cpp:28-93 | callbacks added at the back are taken in the order they were added, whatever is pushed to the front |
| Dispatchers.EveryTaskOnce | src/tasks.cpp:28-93 | none is lost or taken twice |
| Schedulers.Scheduler.AddEvent | src/scheduler.cpp:75-118 | refused with id 0 unless running; else a non-zero id, which was not active if ids are unique; when the thread is woken |
| Schedulers.Scheduler.StopEvent | src/scheduler.cpp:120-139 | true exactly when a pending event bears the id, which is then stopped |
| Schedulers.Scheduler.TakeEvent | src/scheduler.cpp:41-66 | a least event is popped, and run exactly when it is pending |
| SchedulerSpec.Delay | src/scheduler.h:44-50 | no delay is shorter than 50 ms, longer ones are kept |
| SchedulerSpec.NextId | src/scheduler.cpp:81-90 | generated ids are from 1 to 2^32 - 1 |
| SchedulerSpec.StepKeeps | src/scheduler.cpp:27-139 | unique ids and the fate of every queued event are kept by a step if and only if an added id is fresh |
| SchedulerSpec.FatesAreFinal | src/scheduler.cpp:47-71 | a stopped or dispatched event stays so |
| SchedulerSpec.PopsTheRightEvent | src/scheduler.cpp:33-66 | the popped event has the least expiration, which has passed on the timed branch; it is dispatched exactly when pending |
| SchedulerSpec.StopsPendingOnly | src/scheduler.cpp:120-139 | stopEvent succeeds exactly for pending events |
| SchedulerSpec.StoppedOrDispatched | src/scheduler.cpp:27-139 | over a run with fresh ids each accepted event is exactly one of pending, stopped, dispatched |
| SchedulerSpec.StepKeepsTimes | src/scheduler.cpp:33-43 | what is queued while the thread waits is due as late as the wait tells, whatever the ids |
| SchedulerSpec.EarlyExactly | src/scheduler.cpp:33-43 | over every run, an early pop follows a wait for a signal; a pop within 50 ms of the adds since then is early if and only if it does |
| SchedulerSpec.TimeoutIsDue | src/scheduler.cpp:41-43 | over every run, whatever the ids, what a timeout pops is due |
| SchedulerSpec.WaitsForSignal | src/scheduler.cpp:35-39 | the thread waits for a signal if and only if it found the queue empty |
| SchedulerSpec.WaitsForTheNext | src/scheduler.cpp:39-40 | otherwise its deadline is the least expiration in the queue |
| SchedulerSpec.DueWhenAsked | src/scheduler.h:44-50 | an accepted event is queued as pending, due its delay after its making, but not less than 50 ms |
| SchedulerSpec.GeneratedId | src/scheduler.cpp:79-90 | the n-th generated id is ((n - 1) mod (2^32 - 1)) + 1 |
| SchedulerSpec.LastEventCounts | src/scheduler.cpp:79-90 | m_lastEvent of a run is the number of generated ids, counted that way |
| SchedulerSpec.IdsRepeatAfterAll | src/scheduler.cpp:79-90 | the ids that addEvent gives out in a run are never 0 and distinct within any 2^32 - 1 consecutive generated ones, and no further |
| SchedulerSpec.FreshExactly | src/scheduler.cpp:79-95 | a generated id is fresh if and only if no queued event is a multiple of 2^32 - 1 adds old |
| SchedulerSpec.GeneratedRunIsFresh | src/scheduler.cpp:79-95 | in a run of generated ids in which no event stays queued across 2^32 - 1 adds every added id is fresh |
| SchedulerSpec.GeneratedRunFates | src/scheduler.cpp:27-139 | in such a run each accepted event is exactly one of pending, stopped, dispatched |
| SchedulerSpec.ShortRun | src/scheduler.cpp:79-95 | a run of at most 2^32 - 1 adds is such a run |
| SchedulerIds.RepeatedIdExactly | src/scheduler.cpp:47-57 | after an add some order of pops drops a pending event or runs a stopped one if and only if a queued event with the id is active, or stopped and due no later |
| SchedulerIds.WhatGoesWrong | src/scheduler.cpp:47-71 | what such a pop does to the event's fate |
| SchedulerIds.RepeatedIdExamples | src/scheduler.cpp:92-95 | one case of either kind |
| OutputPool.OutputMessagePool.MoveQueued | src/net/outputmessage.cpp:79-96 | the first loop of sendAll |
| OutputPool.OutputMessagePool.SendOld | src/net/outputmessage.cpp:98-112 | the second loop of sendAll |
| OutputPool.OutputMessagePool.SendAll | src/net/outputmessage.cpp:75-113 | one whole pass, in which each message ends in one queue or is framed once |
| OutputPool.OutputMessagePool.Configure | src/net/outputmessage.cpp:176-200 | an autosend message is stamped with the frame time and goes to the back |
| OutputPool.PassConserves | src/net/outputmessage.cpp:75-113 | sendAll neither loses nor doubles a message |
| OutputPool.FrameSettles | src/net/outputmessage.cpp:41-113 | after a frame m_autoSend is ordered and holds nothing older than 10 ms before the frame |
| OutputPool.RunSettles | src/net/outputmessage.cpp:41-113 | so after any number of frames under a clock that never goes back |
| OutputPool.ExpiredAreGone | src/net/outputmessage.cpp:79-96 | a message older than 10000 ms leaves both queues within two passes |
| OutputPool.PassSends | src/net/outputmessage.cpp:75-113 | a pass sends exactly the old messages at the front of m_autoSend and the queued ones of the ages in between, each once |
| OutputPool.AgesOf | src/net/outputmessage.cpp:77-96 | dropped are exactly the queued messages older than 10000 ms, sent those older than 10 ms but not older than that, kept the others |
| OutputPool.SentNotDropped | src/net/outputmessage.cpp:83-96 | a queued message more than 10 but not more than 10000 ms old is sent and not dropped |
| OutputPool.PassLeaves | src/net/outputmessage.cpp:79-112 | what a pass leaves in m_autoSend: what was not old, and behind it the queued messages not old, in order |
| OutputPool.OrderedExactly | src/net/outputmessage.cpp:79-112 | a pass leaves m_autoSend ordered if and only if those queued messages are, and none is older than the last that remains |
| OutputPool.OutsideFramesUnordered | src/net/outputmessage.cpp:88-93 | used outside frames, the pool loses its order |
| Words.DecodeEncode | src/net/networkmessage.h:57-66 | reading a stored value gives it back |
| Words.EncodeDecode | src/net/networkmessage.h:36-48 | storing a read value gives the bytes back |
| Words.EncodedShort | src/net/networkmessage.h:57-66 | two bytes are stored low byte first |
| Words.EncodedLong | src/net/networkmessage.h:57-66 | four bytes are stored low byte first |
| Messages.NetworkMessage.PutValue | src/net/networkmessage.h:57-66 | a value is written little-endian at the position, or dropped whole |
| Messages.NetworkMessage.PutText | src/net/networkmessage.cpp:42-54 | a string is written whole with its length, or dropped whole |
| Messages.NetworkMessage.PutPaddingBytes | src/net/networkmessage.cpp:56-63 | padding grows the size, not the position, or is refused |
| Messages.TextsExactly | src/net/networkmessage.cpp:42-54 | which texts are stored, in numbers: up to 8192 bytes with a length in front, ending before 16370 |
| Messages.PaddingExactly | src/net/networkmessage.cpp:56-63 | padding is bytes 0x33 behind the message, counted in the size, and refused where it would reach 16370 |
| Messages.NetworkMessage.GetValue | src/net/networkmessage.h:36-48 | the value at the position, or 0 near the end of the buffer |
| Messages.NetworkMessage.GetString | src/net/networkmessage.cpp:22-40 | the text behind its length, or of a given size, or nothing when it would leave the buffer; peeking leaves the position |
| Messages.NetworkMessage.GetRaw | src/net/networkmessage.h:51 | the rest of the message, or a prefixed text where nothing is left |
| Messages.NearTheEnd | src/net/networkmessage.h:36-48 | a value is read exactly where it ends before byte 16384 |
| Messages.PeekIsRead | src/net/networkmessage.cpp:22-40 | peeking at a text gives what reading gives and leaves the message alone |
| Messages.SizedText | src/net/networkmessage.cpp:22-40 | a text of a given size is read at the position, or two bytes behind it when peeking |
| Messages.NetworkMessage.DecodeHeader | src/net/networkmessage.cpp:65-70 | the size from the first two bytes |
| Messages.NetworkMessage.Header | src/net/outputmessage.h:90-102 | a header grows the message backwards, or is refused without room |
| Messages.NetworkMessage.PutCryptoHeader | src/net/outputmessage.h:56-63 | checksum and size go in front of the message |
| TypedFields.WritesWhole | src/net/networkmessage.h:57-66 | a field is stored whole or leaves no trace |
| TypedFields.ImageBytes | src/net/networkmessage.cpp:42-54 | the bytes of each kind of field, low byte first, and a text's two-byte length |
| TypedFields.FitsExactly | src/net/networkmessage.h:96 | which fields are stored, in numbers |
| TypedFields.BodyIsStored | src/net/networkmessage.cpp:42-54 | for any fields m_size is m_position - 8, m_position is at most 16369, and the body is the stored fields |
| TypedFields.StoredFieldsReadBack | src/net/networkmessage.cpp:22-54 | reading the kinds of the stored fields gives exactly the stored fields |
| Adler.AdlerChecksum | src/tools.cpp:582-604 | the blocked loop computes the per-byte sums of section 8.2 of RFC 1950, and 0 for empty or overlong input |
| Adler.AddBlock | src/tools.cpp:592-601 | in a block of at most 5552 bytes neither accumulator reaches 2^32 |
| Adler.SumsAreReduced | src/tools.cpp:588-603 | the two sums are the plain and the weighted total modulo 65521 |
| Adler.Halves | src/tools.cpp:603 | for 1 to 16384 bytes the low half is 1 plus the plain sum, the high half the weighted sum, each modulo 65521 |
| Adler.KnownChecksum | src/tools.cpp:582-604 | the checksum of the nine bytes of "Wikipedia" |
| Adler.NoMultiple | src/tools.cpp:587 | 65521 divides no product of a byte and a smaller number |
| Adler.OneByteDetected | src/tools.cpp:582-604 | changing one byte changes the checksum |
| Adler.SwapDetected | src/tools.cpp:582-604 | swapping two unequal bytes changes the checksum |
| Xtea.RoundsInverse | src/protocol/protocol.cpp:135-140 | n decryption rounds undo n encryption rounds |
| Xtea.SumMeets | src/protocol/protocol.cpp:164 | 32 * 0x9E3779B9 is 0xC6EF3720 modulo 2^32, where decryption starts |
| Xtea.BytesInverse | src/protocol/protocol.cpp:119-190 | decryption undoes encryption for any number of blocks and any key |
| Xtea.KnownBlock | src/protocol/protocol.cpp:130-144 | one block in the buffer's byte order, under one key, and its cipher text |
| Xtea.Assignment0 | src/protocol/protocol.cpp:137 | the new v0 of an encryption round in shifts, exclusive or and sums of 32-bit words, for all words |
| Xtea.Assignment1 | src/protocol/protocol.cpp:139 | the same for v1 |
| Xtea.Reversal1 | src/protocol/protocol.cpp:167 | the new v1 of a decryption round |
| Xtea.Reversal0 | src/protocol/protocol.cpp:169 | the same for v0 |
| Xtea.Encrypt | src/protocol/protocol.cpp:130-144 | the in-place loop encrypts exactly the given bytes |
| Xtea.Decrypt | src/protocol/protocol.cpp:160-174 | the in-place loop decrypts exactly the given bytes |
| Wire.Protocol.Encrypt | src/protocol/protocol.cpp:119-145 | padding if it fits, then encryption of the padded length |
| Wire.Protocol.Decrypt | src/protocol/protocol.cpp:147-190 | which messages are rejected, and what an accepted one becomes |
| Wire.Protocol.OnSendMessage | src/protocol/protocol.cpp:33-60 | the framed message for each setting of the three flags |
| Wire.PacketReader.ParseHeader | src/net/connection.cpp:340-366 | which sizes are refused; reads, checksum and decryption of any other stay in the buffer |
| Wire.PacketReader.ParsePacket | src/net/connection.cpp:411-420 | whether the checksum matches, and that it is then skipped |
| Wire.WhichSizes | src/net/connection.cpp:345-366 | an announced size is taken exactly from 1 to 16367, and becomes m_size with two more |
| Wire.WhichChecksum | src/net/connection.cpp:411-420 | without payload the checksum has to be 0, else that of the payload; only a right one is skipped |
| Wire.WhichDecrypted | src/protocol/protocol.cpp:147-190 | a message is decrypted if and only if its size is 6 more than whole blocks and the inner length fits |
| WireRoundTrip.CipherSizes | src/net/networkmessage.cpp:56-63 | the encrypted part is whole blocks exactly up to a body of 16358 bytes |
| WireRoundTrip.SentFrame | src/protocol/protocol.cpp:33-60 | framing takes m_outputBufferStart from 8 to 0, and what is sent is size, checksum, cipher |
| WireRoundTrip.OtherSettings | src/protocol/protocol.cpp:33-60 | raw messages are left alone; without encryption or checksum the frame is the length and the body, with the checksum and outer length, or enciphered |
| WireRoundTrip.FrameIsRead | src/net/connection.cpp:340-420 | a receiver in any state finds header and checksum of such a frame good |
| WireRoundTrip.FrameRoundTrip | src/protocol/protocol.cpp:33-190 | for every key and body the receiver gets exactly the body at position 8 with its size if and only if it has at most 16358 bytes; longer ones are rejected |
| WireRoundTrip.FieldsArrive | src/net/networkmessage.h:35-66 | the fields stored by a sender are the fields the receiver reads |
| ServicePorts.ServicePort.MakeProtocol | src/net/server.cpp:222-232 | the first service with the id that needs no checksum or has one, or none |
| ServicePorts.ServicePort.FirstPacket | src/net/connection.cpp:411-442 | a first packet goes to the protocol the connection has, else to the first service that accepts it, else to nobody |
| ServicePorts.GoodPacketArrives | src/net/server.cpp:222-232 | a first packet with a right checksum goes to the first service with the id in its seventh byte, whatever that service asks for, and is dropped if and only if none bears the id |
| ServicePorts.DamageIsSeen | src/net/connection.cpp:411-442 | a packet damaged by one changed byte or two swapped ones fails its checksum, and reaches a protocol only through a service without checksums |
| Premium.Account.UpdatePremium | src/io/io.cpp:139-175 | the new clock, and that the account is saved exactly when it changed |
| Premium.StartsClock | src/io/io.cpp:146-151 | counting starts at the time of the first call from 86400 on, with all days left |
| Premium.DaysAreCounted | src/io/io.cpp:153-168 | each whole day since lastDay takes one premium day and moves lastDay on by 86400, as long as there are enough |
| Premium.Cleared | src/io/io.cpp:169-173 | without counted days a clock that is a day old is cleared, and nothing else happens |
| Premium.CountsDown | src/io/io.cpp:139-175 | until a day after the expiry the expiry is kept and less than a day is left to count, then the clock is cleared |
| Premium.ExpiryIsKept | src/io/io.cpp:155-168 | lastDay + 86400 * premiumDays is unchanged until the premium runs out |
| Premium.SecondCallDecides | src/io/io.cpp:139-175 | exactly when a call may be left out because another follows |
| Premium.OneCallIsEnough | src/io/io.cpp:139-175 | with lastDay set, any nondecreasing sequence of calls leaves what one call at the last time leaves |
| Premium.LateCallsTogether | src/io/io.cpp:146-153 | without lastDay but with counted days such a sequence does so if and only if all its calls from 86400 on came at its last time |
| Limits.ConnectionManager.AcceptConnection | src/net/connection.cpp:142-180 | the answer is a function of the address's own attempts; other addresses are untouched |
| Limits.BlockFromHistory | src/net/connection.cpp:149-177 | count, window start and block time follow from the attempt times |
| Limits.RejectedWhileBanned | src/net/connection.cpp:161-177 | an attempt is rejected if and only if it is within 10000 ms of a window start that began a block |
| Limits.BlockIsEarned | src/net/connection.cpp:164-176 | a block follows only a window of more than 1000 ms with more than 10 tallied attempts |
| Limits.RenewsBlock | src/net/connection.cpp:164-176 | a block is renewed exactly when more than 10 attempts were tallied since it began |
| Limits.ConnectionManager.AddAttempt | src/net/connection.cpp:112-140 | the address's own history grows by the attempt |
| Limits.ConnectionManager.IsDisabled | src/net/connection.cpp:100-110 | decided by the address's own history |
| Limits.SecondsMeans | src/net/connection.cpp:109-128 | a timeout in milliseconds counts in whole seconds, in integers without division |
| Limits.CounterGoesRound | src/net/connection.cpp:128-136 | after n counted attempts in a row the counter is ((n - 1) mod (T + 1)) + 1 |
| Limits.DisabledWhen | src/net/connection.cpp:100-110 | exactly when an address is disabled, and that the counter then is T + 1 |
| Limits.OneProtocolNeverDisabled | src/net/connection.cpp:108-109 | a client of a single protocol id is never disabled |
| Text.EscapeBlob | src/database.cpp:289-312 | the literal that is printed |
| Text.LiteralRoundTrip | src/database.cpp:289-312 | read as a literal of section 9.1.1 of the MySQL 8.0 Reference Manual it is consumed exactly and means the input, before any text that does not begin with a quote |
| Text.EscapedIsHarmless | src/database.cpp:289-312 | no zero byte, line break or control-Z is left, and each quote and backslash is escaped |
| Text.ReplaceString | src/tools.cpp:141-154 | terminates, reports whether the key occurs, and joins the pieces between its occurrences with the value |
| Text.ExplodeString | src/tools.cpp:227-249 | the pieces of the split with that limit, all but the last trimmed when asked, for every separator with which it ends |
| Text.WhatIsTrimmed | src/tools.cpp:235-247 | exactly the pieces before the last are trimmed, of spaces at their ends |
| Text.EmptySeparator | src/tools.cpp:227-249 | with an empty separator, as many empty pieces as the limit says and then the whole text |
| Text.EmptySeparatorEnds | src/tools.cpp:232-245 | an empty separator is found at every turn, and the counter ends the loop if and only if the limit is 1 to 65534 |
| Text.LimitedPiecesAreFree | src/tools.cpp:227-249 | a split has at most limit + 1 pieces, and only the last may hold the separator, only when the limit is used up |
| Text.LimitedExactly | src/tools.cpp:227-249 | a limit keeps the first pieces of the unlimited split, and one for the rest of the text |
| Text.Trims | src/tools.cpp:475-479 | trimming takes spaces only, and leaves none at either end |
| Text.ReplaceIsSplitAndJoin | src/tools.cpp:141-154 | replacing is joining the unlimited split with the value |
| Text.JoinPieces | src/tools.cpp:227-249 | joining a split, limited or not, with its separator gives the text back |
| Text.PiecesAreFree | src/tools.cpp:227-249 | no piece of an unlimited split holds the separator |
| Text.EmptyKeyNeverEnds | src/tools.cpp:147-151 | an empty key is found again at every turn with nothing consumed |
| Text.FindIsFirst | src/tools.cpp:147 | the search gives the first occurrence from a position on |

## Left out

- Data races below the locks: a reference count that is changed under one lock and read under another is read and written in one atomic step here.
- Sockets, asio, timers and threads: completion handlers are steps with any error code, and a timeout handler of any connection may run at any time.
- Shutdown of the dispatcher, the scheduler, the pool and the connection manager, apart from the state tests in AddTask, AddEvent and GetOutputMessage.
- m_outputBuffer, getOutputBuffer and writeOutputBuffer of Protocol: nothing in the repository calls them.
- FIFO delivery per connection: the code does not give it.
- RSA decryption, hashing, configuration, SQL execution and what a login answer says: a first packet is one of no service, bad key, rejected, accepted.
- The locks themselves: that the login protocol's steps never take two of them in opposite orders is argued above from the empty queues, not stated. Runs outside `WorldLogin` let a delegate ask for any number of messages, autosend ones too, so that their results hold for every protocol on this pool.
- DBInsert, the database worker pool, bans, formatting and character predicates: other machinery or easy members.
- Class inheritance: NetworkMessage and OutputMessage are one class in Messages, and a separate one in MessagePools.
- In the lifecycle model the age of a message is open, so that sendAll may expire or move any message; OutputPool has the exact ages.
- OutputPool.OutputMessagePool.SendAll: each message takes one of the ways written, refused or queued again, chosen freely, because the connections are in World.
- OutputPool.OutputMessagePool.SendOld: the same.
- Schedulers.Scheduler.TakeEvent: requires a non-empty queue where it pops, as the source does without saying so: its untimed wait has no spurious wakeups.
- Messages.NetworkMessage.GetValue: requires a position inside the buffer, beyond which the source reads foreign memory.
- Messages.NetworkMessage.GetString: requires the same where it reads a length.
- MessagePools.MessagePool.InternalReleaseMessage: a message that is not handed out may point at any object but those whose references the pool counts; no caller of the source has one that does.
- Text.ExplodeString: requires a limit of 1 to 65534 when the separator is empty; otherwise it does not end.
- Xtea.Encrypt: words are little-endian, as on the machines the server is built for.
