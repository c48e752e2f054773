# Verified models of the message passing and communication layers

This project models the parts of the C++ communication stack whose correctness
rests on several functions, threads or objects at once, and proves what holds
of them in every run. Check it with `dafny verify dfyconfig.toml`.

**Request and reply** (`ClientSections`, `ServerSections`, `RequestReply`,
`RequestReplyInvariant`, `RequestReplyCalls`, `RequestReplyEngine`,
`RequestReplySafety`, `RequestReplyTheorems`, `RequestReplyCallers`,
`RequestReplyLedgers`, `RequestReplyPayload`, `RequestReplyRaces`). A client
connection has one reply slot, a queue of sends over a preallocated pool, and a
drain loop that releases its lock around transmissions and callbacks; the QNX
server connection has one preallocated reply buffer and a pool of notification
buffers. Both ends are one transition system: a step is the code between two lock or unlock points, there
is one engine thread and any number of calling threads, and transmissions
succeed or fail freely. The locked sections are also given as methods of
classes, proved against the functions that the transition system is built of.
The system records who is responsible for emptying the slot; that record is
history only and no step depends on it.

`Safe` collects what one expects of every state: at most one request under way
and the slot holding its callback, the slot occupied while the queue is being
transmitted, the async command linked at most once, no lost wake-up, every
accepted callback run once or held once and none held after the frame it refers
to is gone, every message resolved once and transmitted in the order of
acceptance. A stop that overlaps calls can break it. `Orderly` is the exact condition: a guard on the state that
a step finds, for each of the five kinds of step that can go wrong. A run is
safe in all its states if and only if all its steps are orderly
(`SafeIffOrderly`); a step that is not breaks `Safe` at once (`StepSafeIff`).
The ordinary case, a SendWaitReply whose slot a stop takes and whose
transmission then fails, is orderly (`ReturnsHarmlessly`). Callers can ensure
that runs are orderly by keeping calls that would occupy the slot away from a
stop, and overtaken ones from the next connection
(`UndisturbedRunsAreOrderly`); they need to do nothing on a connection without
`truly_async` and without SendWaitReply (`WithoutAsyncAndWaits`). The ledgers of
buffers and payloads hold in every run, orderly or not.

**Lifecycle.** Starting, stopping and restarting a connection, with threads
interleaving between any two accesses to the stop reason, the state and the
engine's command queue.

**TimedQueue, UnixSlots, FrameCodec, QnxSlots.** The engines: the ordered
command queue against a bag from which the earliest entry is taken; the two
endpoint tables and what is dispatched through them while handlers change them;
the frames on a Unix socket.

**SampleTracker, Subscription.** The lock-free count of samples, the objects
that carry them, and their use by Subscribe, Unsubscribe and GetNewSamples.

**Discovery, SkeletonMoves, SkeletonOffer.** Searches that fail part of the
way, parent and child references across moves, and the order in which elements
are prepared, values sent and discovery told.

Operating system calls, bindings, user callbacks and their timing are
parameters: a result is either an argument of a step or an element of a script
that says what happens at the k-th call.

Where the code does not do what one would expect, the model follows the code,
a lemma gives a concrete run, and another gives the condition under which the
expected property holds:

- A stop that overtakes a call already past its state check can let the call
  return while the stop is still to run its callback, which refers to the call's
  frame, against the comment in the code (`CallbackOutlivesCall`), let two
  requests be outstanding and transmit out of order (`LateRequest`), lose a
  callback (`CallbackLost`), leave the slot occupied for good (`ReachSlotStuck`,
  `StuckStays`), link the async command twice (`LinkedTwice`,
  `EnterLinksTwiceIff`), or let a command left over from the stop take the slot
  of a later call (`CommandOvertakes`). A connection stopped from within the
  callback of a failed transmission can lose the slot of a call that comes
  before the callback returns (`ReturnEmptiesSlot`).
- A drained buffer returns to the pool before it is transmitted, so a later
  message can overwrite it (`PayloadOverwritten`, `WirePayload`).
- An empty reply callback given to SendWithCallback makes a queued message a
  plain send. A direct one is a request, and its reply calls the empty callback
  without the check that the other callers of a callback make.
- Stop() from the kStarting state callback, which the interface allows, can
  leave a ready connection that can never be stopped (`StopWhileStarting`,
  `SwitchSoundIffNotRestarting`).
- A stop while the connect command is pending makes SwitchToStopState begin in
  kReady, against its assertion (`ReadyReplacesStopping`,
  `StoppingWhenSwitching`); one with no restart or connect under way does not
  (`StopWithoutConnect`).
- CleanUpOwner with a null owner removes the entries without owner, against
  its documentation (`NullOwnerRemovesNothingIff`), and before the epoch the
  result of ProcessQueue is ambiguous (`TellsEmptyIff`).
- Frame lengths and the receive buffer's size are truncated to 16 bits, and a
  stream cut off within a header can pass for an empty frame (`RoundTripIff`,
  `CutOffFailsIff`).
- A pulse outlives 65536 reuses of its slot (`StalePulseDelivered`).
- Allocate goes round again after a success when more was asked for than
  available, against its comment (`SuccessLoopsAgainIff`).
- When a search fails, a binding on which it was started is not told to stop if
  the identifiers used on it occur again among those not reached
  (`FailedSearchIsUndone`, `DuplicateIsNotStopped`), and an erased handler is
  still called while another call to it runs (`ErasedHandlerIsCalledIff`).
- A failed offer leaves elements prepared that a stop does not withdraw
  (`FailedOfferIsNotUndone`, `StopWithdrawsIff`).

## Model

| member | source | states |
|---|---|---|
| `RequestReplyTheorems.SafeIffOrderly` | score/message_passing/client_connection.cpp:98-613 | a run, whatever stops it contains, is safe in all its states if and only if every step meets the guard that `Orderly` gives for it |
| `RequestReplyTheorems.StepSafeIff` | score/message_passing/client_connection.cpp:98-613 | from a state with the joint invariant a step leads to a safe state if and only if it meets its guard, and then the invariant holds again; a failed return of an overtaken SendWaitReply that finds the slot empty, or an empty callback nobody waits behind, meets it |
| `RequestReplyTheorems.StepKeepsInv` | score/message_passing/client_connection.cpp:98-613 | an orderly step of any thread, the engine or the server keeps the joint invariant of slot, queue, pool, callbacks, wire and server queue |
| `RequestReplyTheorems.DisorderIsUnsafe` | score/message_passing/client_connection.cpp:98-613 | a step that does not meet its guard makes the next state unsafe |
| `RequestReplyTheorems.OrderlyRunsKeepInv` | score/message_passing/client_connection.cpp:98-613 | the invariant holds in every state up to which every step was orderly, for any number of user threads |
| `RequestReplyTheorems.AtMostOneRequestOutstanding` | score/message_passing/client_connection.cpp:193-275 | at most one request is under way in a connection, counting the wire, the handler, the server's queue and the engine; the slot then holds the callback of just that request and nothing is transmitted from the queue |
| `RequestReplyTheorems.RepliesReachTheirRequests` | score/message_passing/client_connection.cpp:463-479 | every reply ever delivered went to the callback of the request it answers, with a payload the handler gave for that request |
| `RequestReplyTheorems.OneReplyBufferIsEnough` | score/message_passing/qnx_dispatch/qnx_dispatch_server.cpp:76-95 | the handler never replies while the single reply buffer is still linked into the queue |
| `RequestReplyTheorems.NoLostWakeUp` | score/message_passing/client_connection.cpp:499-560 | a queued message means an occupied slot; an occupied slot means an armed command, a sender whose callback is in it, a draining engine or an outstanding request; the command is never linked twice; and a transmission from the queue keeps the slot occupied |
| `RequestReplyTheorems.CallbacksRunExactlyOnce` | score/message_passing/client_connection.cpp:237-277 | every accepted callback has run once or is held in exactly one place; refused ones never run |
| `RequestReplyTheorems.CallersOutlastTheirCallbacks` | score/message_passing/client_connection.cpp:169-232 | while the callback of a SendWaitReply is held anywhere, its call has not returned |
| `RequestReplyTheorems.WireOrderIsAcceptanceOrder` | score/message_passing/client_connection.cpp:112-151 | attempts in turn are made on the open connection at most once per message and in the order the lock accepted them; every accepted message is resolved once, in the hand of a call or of the engine, or queued, and what is still to come in turn was accepted later than what was attempted |
| `RequestReplySafety.InvIsSafe` | score/message_passing/client_connection.cpp:98-613 | the joint invariant implies everything that is expected of a state |
| `RequestReplySafety.EnterLinksTwiceIff` | score/message_passing/client_connection.cpp:499-514 | a call's section links the async command a second time if and only if it arms and finds the command linked |
| `RequestReplySafety.LateTransmitIsUnsafe` | score/message_passing/client_connection.cpp:211-215 | a SendWaitReply that lost the slot to a stop and succeeds on the next connection puts a second request there, or one whose callback is not in the slot |
| `RequestReplySafety.EarlyReturnDangles` | score/message_passing/client_connection.cpp:198-229 | one that fails and returns while the stop runs its callback leaves a callback that refers to its frame |
| `RequestReplySafety.LateReturnIsUnsafe` | score/message_passing/client_connection.cpp:216-229 | and outside its guard a failed return does that, or links the command twice, or loses the callback of another call, or empties the slot of a request or transmission under way |
| `RequestReplySafety.OvertakingAsyncIsUnsafe` | score/message_passing/client_connection.cpp:507-560 | one that finds messages but not its own slot takes the slot of a request under way or of a call |
| `RequestReplySafety.LateResetIsUnsafe` | score/message_passing/client_connection.cpp:533-545 | an error callback that returns when the slot has passed to a call or a request loses that call's callback or leaves the request without its slot |
| `RequestReplyCallers.UndisturbedRunsAreOrderly` | score/message_passing/client_connection.cpp:562-599 | a run is orderly if, while SwitchToStopState runs, no call is past its checks in SendWaitReply nor, with truly_async, past its checks at all, a failed call returns then only with nothing queued and its callback not running, and overtaken calls have returned when the connection is up again; calls may transmit by themselves throughout |
| `RequestReplyCallers.ResolvedInSequence` | score/message_passing/client_connection.cpp:112-151 | in a run in which moreover no call transmits by itself while a stop runs, what was transmitted or dropped so far is the beginning of what was accepted |
| `RequestReplyCallers.WithoutAsyncAndWaits` | score/message_passing/client_connection.cpp:112-275 | without truly_async and SendWaitReply every run is orderly, whenever it stops |
| `RequestReplyPayload.WirePayload` | score/message_passing/client_connection.cpp:516-560 | in every run: an entry popped at one step and transmitted at a later one carries the payload accepted for it if and only if no message was queued in between or the first one that was has an equal payload; otherwise it carries that one's |
| `RequestReplyPayload.DirectPayload` | score/message_passing/client_connection.cpp:211-215 | in every run: a call that transmits by itself attempts to transmit the payload accepted for it, in turn or too late |
| `RequestReplyPayload.AcceptedPayload` | score/message_passing/client_connection.cpp:98-110 | what is recorded as accepted for a message is what its caller gave |
| `RequestReplyPayload.BufferUntil` | score/message_passing/client_connection.cpp:98-110 | until its transmission a popped buffer is at the head of the pool unchanged, or has the payload of the first message queued since |
| `RequestReplyLedgers.SendBuffersAreConserved` | score/message_passing/client_connection.cpp:98-110 | in every run, orderly or not: pool, queue and the buffers lost to stop drains together are exactly the preallocated buffers, so a send is refused exactly when queue and losses use them all |
| `RequestReplyLedgers.NotifyBuffersAreConserved` | score/message_passing/qnx_dispatch/qnx_dispatch_server.cpp:97-137 | in every run: each notification buffer is in exactly one of pool and queue, and a notification is refused exactly when all are queued |
| `RequestReplyEngine.ReplyFindsItsRequest` | score/message_passing/client_connection.cpp:463-471 | a reply in the engine's hand finds the slot still holding its request's callback |
| `RequestReplyEngine.LoopKeepsInv` | score/message_passing/client_connection.cpp:516-560 | one turn of the drain loop from any state at its head keeps the joint invariant |
| `RequestReplyEngine.StopDropKeepsInv` | score/message_passing/client_connection.cpp:586-598 | one turn of the stop drain keeps the joint invariant |
| `RequestReplyRaces.PayloadOverwritten` | score/message_passing/client_connection.cpp:520-532 | a run in which a buffer returned to the pool before its transmission is overwritten and the second payload is sent twice |
| `RequestReplyRaces.ReturnsHarmlessly` | score/message_passing/client_connection.cpp:216-229 | a run in which the overtaken call fails and returns after the stop: both steps are orderly, its callback has run once and the connection is as before |
| `RequestReplyRaces.CallbackOutlivesCall` | score/message_passing/client_connection.cpp:198-229 | a run in which it returns while the stop still holds its callback |
| `RequestReplyRaces.LateRequest` | score/message_passing/client_connection.cpp:211-215 | a run in which it succeeds on the next connection: two requests are outstanding, and transmitted against the order of acceptance |
| `RequestReplyRaces.CallbackLost` | score/message_passing/client_connection.cpp:211-222 | a run in which it fails there and empties the slot of a later call: that callback is lost and two requests are outstanding |
| `RequestReplyRaces.ReachSlotStuck` | score/message_passing/client_connection.cpp:572-599 | a run in which a call queues during a stop and leaves a slot occupied that nobody will empty |
| `RequestReplyRaces.StuckStays` | score/message_passing/client_connection.cpp:112-151 | such a slot stays occupied, and everything sent is queued or refused, until the next stop |
| `RequestReplyRaces.LinkedTwice` | score/message_passing/client_connection.cpp:499-514 | a run in which two calls past their checks arm around a stop: the command is linked while it is linked |
| `RequestReplyRaces.CommandOvertakes` | score/message_passing/client_connection.cpp:507-560 | a run in which the command left over from a stop takes the slot of a later SendWaitReply, whose callback is then held nowhere |
| `RequestReplyRaces.ReturnEmptiesSlot` | score/message_passing/client_connection.cpp:533-545 | a run in which an error callback stops the connection and, on its return, the slot of a call is emptied |
| `ClientSections.ClientConnection.constructor` | score/message_passing/client_connection.cpp:60-76 | all preallocated buffers start in the pool, in order |
| `ClientSections.ClientConnection.TryQueueMessage` | score/message_passing/client_connection.cpp:98-110 | refuses exactly when the pool is empty; otherwise the pool's first buffer takes the payload and goes to the end of the queue |
| `ClientSections.ClientConnection.Send` | score/message_passing/client_connection.cpp:112-151 | the whole locked section refines SendSection |
| `ClientSections.ClientConnection.SendWaitReply` | score/message_passing/client_connection.cpp:193-212 | the section up to the unlocked transmission refines WaitSection |
| `ClientSections.ClientConnection.SendWaitReplyFailed` | score/message_passing/client_connection.cpp:216-229 | after a failed transmission the slot is emptied, or the queue is armed when it is not empty |
| `ClientSections.ClientConnection.SendWithCallback` | score/message_passing/client_connection.cpp:249-275 | the whole locked section refines CallbackSection |
| `ClientSections.ClientConnection.ArmSendQueueUnderLock` | score/message_passing/client_connection.cpp:499-514 | the slot is overwritten with an empty callback and the command linked |
| `ClientSections.ClientConnection.NextToSend` | score/message_passing/client_connection.cpp:518-525 | one entry leaves the queue, its buffer goes to the head of the pool, its callback to the slot |
| `ClientSections.ClientConnection.NextToDrop` | score/message_passing/client_connection.cpp:586-589 | the stop drain pops without giving the buffer back |
| `ServerSections.ReplyAppends` | score/message_passing/qnx_dispatch/qnx_dispatch_server.cpp:76-95 | a reply appends its packet to what the client will read, when no reply is queued |
| `ServerSections.ReplyAppendsIff` | score/message_passing/qnx_dispatch/qnx_dispatch_server.cpp:76-95 | and for every queue exactly when no reply is queued, or the queued one has an equal payload |
| `ServerSections.NotifyAppends` | score/message_passing/qnx_dispatch/qnx_dispatch_server.cpp:97-137 | a notification appends its packet and keeps every buffer in one place |
| `ServerSections.ReadIsFifo` | score/message_passing/qnx_dispatch/qnx_dispatch_server.cpp:209-261 | a read hands out the oldest packet and returns a notification buffer to the pool |
| `ServerSections.PoolEmptyIffAllQueued` | score/message_passing/qnx_dispatch/qnx_dispatch_server.cpp:97-137 | ENOBUFS happens exactly when all notification buffers are queued |
| `ServerSections.ServerRefinesFifo` | score/message_passing/qnx_dispatch/qnx_dispatch_server.cpp:76-261 | over any history with replies one at a time, the preallocated structures behave as a plain bounded FIFO of packets |
| `ServerSections.ServerConnection.constructor` | score/message_passing/qnx_dispatch/qnx_dispatch_server.cpp:47-52 | all notification buffers start in the pool |
| `ServerSections.ServerConnection.Reply` | score/message_passing/qnx_dispatch/qnx_dispatch_server.cpp:76-95 | the size check, then the locked section of a reply |
| `ServerSections.ServerConnection.Notify` | score/message_passing/qnx_dispatch/qnx_dispatch_server.cpp:97-137 | the size check, the refusal on an empty pool, then the locked section of a notification |
| `ServerSections.ServerConnection.HasSomethingToRead` | score/message_passing/qnx_dispatch/qnx_dispatch_server.cpp:198-203 | true exactly when a packet is queued |
| `ServerSections.ServerConnection.ProcessReadRequest` | score/message_passing/qnx_dispatch/qnx_dispatch_server.cpp:209-261 | hands out the oldest packet and pops it, or answers that there is none |
| `Lifecycle.StepKeepsSound` | score/message_passing/client_connection.cpp:297-440 | every step of restarts, stops and connects keeps the invariant, when no clean-up overtakes a restart |
| `Lifecycle.CalmRunsAreSound` | score/message_passing/client_connection.cpp:297-440 | so it holds after every such run |
| `Lifecycle.StopsOncePerSession` | score/message_passing/client_connection.cpp:601-613 | between two restarts one stop attempt wins and SwitchToStopState begins once, carried by exactly one thread or command until then |
| `Lifecycle.DescriptorsAreClosed` | score/message_passing/client_connection.cpp:566-573 | opened minus closed descriptors is one exactly while one is stored; a new one is only stored where there is none; a stopped connection has none and nothing left that could open one |
| `Lifecycle.StoppingWhenSwitching` | score/message_passing/client_connection.cpp:562-566 | a winner of the stop set kStopping at a step of this session, and the state asserted by SwitchToStopState holds if and only if no step since then set kReady or kStarting |
| `Lifecycle.StopWithoutConnect` | score/message_passing/client_connection.cpp:297-317 | a stop whose winner sets kStopping while no restart, connect command, connection attempt or stored descriptor not yet ready is under way finds kStopping until SwitchToStopState ends |
| `Lifecycle.SwitchSoundIffNotRestarting` | score/message_passing/client_connection.cpp:562-573 | the clean-up keeps the connection sound if and only if no restart is waiting to enqueue its connect command |
| `Lifecycle.RetryDelays` | score/message_passing/client_connection.cpp:381-391 | the retry delay grows by a third, rounded up, until 3750 ms is passed, and never exceeds 5000 ms |
| `Lifecycle.ReachStoppedInCallback` | score/message_passing/client_connection.cpp:329-351 | Stop() called where the kStarting callback runs goes through to kStopped before the connect command exists |
| `Lifecycle.StopWhileStarting` | score/message_passing/client_connection.cpp:329-351 | from there the connection still becomes ready, with its stop reason spent |
| `Lifecycle.UnstoppableForever` | score/message_passing/client_connection.cpp:299-317 | and no call and no event ever closes it again |
| `Lifecycle.ReadyReplacesStopping` | score/message_passing/client_connection.cpp:353-440 | a stop while the connect command is pending: SwitchToStopState begins in kReady |
| `TimedQueue.TimedCommandQueue.RegisterTimedEntry` | score/message_passing/timed_command_queue.cpp:29-45 | the ordered list gains the entry, after everything due no later; as a bag it gains just that entry |
| `TimedQueue.TimedCommandQueue.RegisterImmediateEntry` | score/message_passing/timed_command_queue.cpp:24-27 | the same at the epoch |
| `TimedQueue.TimedCommandQueue.ProcessQueue` | score/message_passing/timed_command_queue.cpp:47-67 | whatever callbacks register or clean up meanwhile: repeatedly the earliest due entry is taken, in the end nothing due is left, and the result is the earliest time left or TimePoint{} |
| `TimedQueue.TimedCommandQueue.CleanUpOwner` | score/message_passing/timed_command_queue.cpp:69-81 | exactly the owner's entries go; the others keep their order; nothing is executed |
| `TimedQueue.ExecutionIsDetermined` | score/message_passing/timed_command_queue.cpp:47-67 | what runs, in which order, and what is left depends only on the bag of entries and on what happens meanwhile |
| `TimedQueue.ExecutedOnce` | score/message_passing/timed_command_queue.cpp:47-67 | no registration is executed twice or is still pending after its execution |
| `TimedQueue.NothingIsLost` | score/message_passing/timed_command_queue.cpp:47-81 | what is pending at any point is executed later, cleaned up for its owner, or still pending |
| `TimedQueue.DueInOrder` | score/message_passing/timed_command_queue.cpp:47-67 | left alone, exactly the due entries run, in order of time and registration, and exactly the others remain |
| `TimedQueue.TellsEmptyIff` | score/message_passing/timed_command_queue.h:57-66 | TimePoint{} tells an empty queue from a non-empty one if and only if the given time is not before the epoch |
| `TimedQueue.NullOwnerRemovesNothingIff` | score/message_passing/timed_command_queue.h:68-79 | a null owner removes nothing, as documented, if and only if every entry has an owner |
| `UnixSlots.RegisterKeepsTable` | score/message_passing/unix_domain/unix_domain_engine.cpp:95-129 | the arrays and the list stay consistent and gain exactly the new endpoint |
| `UnixSlots.UnpollKeepsTable` | score/message_passing/unix_domain/unix_domain_engine.cpp:143-154 | they stay consistent and lose exactly the endpoint of that slot |
| `UnixSlots.ChangesAccount` | score/message_passing/unix_domain/unix_domain_engine.cpp:131-154 | whatever is registered and unregistered, an endpoint with a disconnect handler is still registered or has had it called |
| `UnixSlots.UnixDomainEngine.constructor` | score/message_passing/unix_domain/unix_domain_engine.cpp:24-59 | the table and the timer queue start empty |
| `UnixSlots.UnixDomainEngine.RegisterPosixEndpoint` | score/message_passing/unix_domain/unix_domain_engine.cpp:95-129 | the loop picks the first free slot, or appends |
| `UnixSlots.UnixDomainEngine.UnpollEndpoint` | score/message_passing/unix_domain/unix_domain_engine.cpp:143-154 | frees the slot in both arrays and the list, then calls the disconnect handler, if there is one; no handler is ever called twice or while its endpoint is registered |
| `UnixSlots.UnixDomainEngine.UnregisterPosixEndpoint` | score/message_passing/unix_domain/unix_domain_engine.cpp:131-141 | frees the slot that holds the endpoint and calls its disconnect handler, if a slot does; otherwise does nothing |
| `UnixSlots.UnixDomainEngine.ProcessCleanup` | score/message_passing/unix_domain/unix_domain_engine.cpp:288-302 | whatever the disconnect handlers do to the table and the timer queue: nothing of the owner's from before is left, nothing from before appears, other owners lose only what handlers unregistered, an endpoint with a handler is gone if and only if the handler was called, and in the end the owner's commands, also those the handlers enqueued, are gone from the queue and the others are not |
| `UnixSlots.InputsAreCurrent` | score/message_passing/unix_domain/unix_domain_engine.cpp:316-328 | in every run of dispatch passes the table is consistent, and an input handler about to be called belongs to the registration polled in its slot, with an event reported, not unregistered since |
| `UnixSlots.PassServesAll` | score/message_passing/unix_domain/unix_domain_engine.cpp:316-328 | by the end of a pass each reported registration was served exactly once, unless it was unregistered |
| `FrameCodec.RoundTripIff` | score/message_passing/unix_domain/unix_domain_engine.cpp:191-267 | a frame arrives as sent, with the rest of the stream untouched, if and only if its length is below 65536 and at most the truncated buffer size, or zero |
| `FrameCodec.RoundTrip` | score/message_passing/unix_domain/unix_domain_engine.cpp:191-267 | so every frame up to the buffer size arrives when that is at most 65535 |
| `FrameCodec.StreamRoundTripIff` | score/message_passing/unix_domain/unix_domain_engine.cpp:191-267 | repeated receiving yields the frames sent, in order, if and only if each of them fits |
| `FrameCodec.EndOfStream` | score/message_passing/unix_domain/unix_domain_engine.cpp:240-244 | after them the stream is empty and the next receive reports EPIPE |
| `FrameCodec.OversizeLeavesPayload` | score/message_passing/unix_domain/unix_domain_engine.cpp:248-251 | a frame too long is refused with EMSGSIZE and its payload stays in the stream |
| `FrameCodec.CutOffFailsIff` | score/message_passing/unix_domain/unix_domain_engine.cpp:235-264 | a stream cut off within a frame is reported as a failure if and only if the cut is not after the first byte, nor after the second with a zero low length byte |
| `FrameCodec.Receiver.ReceiveBytes` | score/message_passing/unix_domain/unix_domain_engine.cpp:253-257 | fills a prefix of the buffer from the stream and nothing beyond |
| `FrameCodec.Receiver.ReceiveProtocolMessage` | score/message_passing/unix_domain/unix_domain_engine.cpp:218-267 | refines Receive, puts the payload at the start of the buffer, and never writes beyond the truncated buffer size |
| `QnxSlots.PackThenUnpack` | score/message_passing/qnx_dispatch/qnx_dispatch_engine.cpp:96-108 | unpacking a packed value gives it back, within 64 bits |
| `QnxSlots.UnpackThenPack` | score/message_passing/qnx_dispatch/qnx_dispatch_engine.cpp:96-108 | and every 64-bit value is the packing of its unpacking |
| `QnxSlots.OpKeepsInv` | score/message_passing/qnx_dispatch/qnx_dispatch_engine.cpp:369-491 | the nonce stays the reuse count modulo 65536, and an occupied slot holds the registration of its latest reuse |
| `QnxSlots.PulseReaches` | score/message_passing/qnx_dispatch/qnx_dispatch_engine.cpp:257-293 | over any run, a pulse is delivered if and only if its slot is occupied and was reused a multiple of 65536 times since, and to its own registration if and only if it was not reused at all |
| `QnxSlots.StalePulseDelivered` | score/message_passing/qnx_dispatch/qnx_dispatch_engine.cpp:271-279 | after 65536 reuses a pulse of the first registration reaches the last |
| `QnxSlots.QnxDispatchEngine.RegisterPosixEndpoint` | score/message_passing/qnx_dispatch/qnx_dispatch_engine.cpp:368-426 | occupies a slot as the table says, and the pulses it registers carry that slot and its current nonce |
| `QnxSlots.QnxDispatchEngine.UnselectEndpoint` | score/message_passing/qnx_dispatch/qnx_dispatch_engine.cpp:460-491 | the endpoint is in no slot afterwards; the pulses taken back from the server are exactly those registered for it, and none if it had no slot; its disconnect handler is called in either case |
| `SampleTracker.SamplesAreConserved` | score/mw/com/impl/sample_reference_tracker.cpp:137-187 | over every interleaving, spurious failures included: available, held by running calls, in factories and in guards add up to the maximum, so the assertion in Deallocate holds |
| `SampleTracker.ReturnsAllOrSawNone` | score/mw/com/impl/sample_reference_tracker.cpp:137-172 | Allocate returns all it was asked for, or none were available at some moment after its last success |
| `SampleTracker.SuccessLoopsAgainIff` | score/mw/com/impl/sample_reference_tracker.cpp:147-168 | after a success the loop goes round again if and only if more was asked for than was available |
| `SampleTracker.SampleReferenceTracker.constructor` | score/mw/com/impl/sample_reference_tracker.cpp:120-123 | starts with everything available |
| `SampleTracker.SampleReferenceTracker.Allocate` | score/mw/com/impl/sample_reference_tracker.cpp:137-172 | with interference before each exchange: the count changes by what was taken and what others did, and falling short means the last count read was zero; undisturbed it takes as many as there are |
| `SampleTracker.SampleReferenceTracker.Reset` | score/mw/com/impl/sample_reference_tracker.cpp:174-178 | sets both counts |
| `SampleTracker.SampleReferenceTracker.Give` | score/mw/com/impl/sample_reference_tracker.cpp:180-187 | adds the samples given back |
| `SampleTracker.SampleReferenceGuard.Move` | score/mw/com/impl/sample_reference_tracker.cpp:44-47 | the new guard holds what the other held, and the other nothing |
| `SampleTracker.SampleReferenceGuard.Assign` | score/mw/com/impl/sample_reference_tracker.cpp:49-62 | its own sample goes back, the other's moves in; assigning to itself changes nothing |
| `SampleTracker.SampleReferenceGuard.Deallocate` | score/mw/com/impl/sample_reference_tracker.cpp:69-76 | gives its sample back once |
| `SampleTracker.TrackerGuardFactory.Move` | score/mw/com/impl/sample_reference_tracker.cpp:84-88 | the count moves and the other keeps none |
| `SampleTracker.TrackerGuardFactory.TakeGuard` | score/mw/com/impl/sample_reference_tracker.cpp:103-118 | a guard exactly when one is left, counted down |
| `SampleTracker.TrackerGuardFactory.Destroy` | score/mw/com/impl/sample_reference_tracker.cpp:90-96 | gives back what is left |
| `Subscription.LiveSamplesAreBounded` | score/mw/com/impl/proxy_event_base.cpp:115-172 | in every run, nested receivers included: while subscribed, samples in use and reserved never exceed the count the subscription was opened with; otherwise there are none |
| `Subscription.ResetOnlyWhenUnused` | score/mw/com/impl/proxy_event_base.cpp:115-146 | the tracker is reset only when nothing is in use, and a Subscribe while subscribed changes nothing and finds the count set |
| `Subscription.UnsubscribeTerminatesIff` | score/mw/com/impl/proxy_event_base.cpp:148-172 | Unsubscribe ends the process if and only if it is subscribed and a sample, or a guard of a GetNewSamples around it, is in use |
| `Subscription.InnermostKeepsInv` | score/mw/com/impl/proxy_event.h:221-260 | each exchange of Allocate, the delivery of a sample and the return of the receiver keep the account, with samples dropped by other threads in between |
| `Subscription.StepKeepsInv` | score/mw/com/impl/proxy_event.h:221-260 | and so does every other step, also when not subscribed |
| `Subscription.ProxyEventBase.Subscribe` | score/mw/com/impl/proxy_event_base.cpp:115-146 | refines SubscribeTo, refusals included |
| `Subscription.ProxyEventBase.Unsubscribe` | score/mw/com/impl/proxy_event_base.cpp:148-172 | refines UnsubscribeFrom |
| `Discovery.FailedSearchIsUndone` | score/mw/com/impl/service_discovery.cpp:85-136 | when a binding refuses, neither map mentions the handle and other searches are as before; the bindings called are told to stop one for one if and only if no identifier not reached equals one that was, and each at least once if and only if one of the identifiers used on it is not met again |
| `Discovery.DistinctIsEnough` | score/mw/com/impl/service_discovery.cpp:85-136 | so pairwise different identifiers are enough |
| `Discovery.DuplicateIsNotStopped` | score/mw/com/impl/service_discovery.cpp:224-262 | two equal identifiers on one binding around a refused one on another: the first binding is never told to stop |
| `Discovery.StoppedSearchIsUndone` | score/mw/com/impl/service_discovery.cpp:176-208 | starting and then stopping a search restores both maps and tells the binding of each identifier to stop, once per identifier |
| `Discovery.ServiceDiscovery.StartFindService` | score/mw/com/impl/service_discovery.cpp:85-136 | refines StartSearch: all searches running, or what the undoing leaves |
| `Discovery.ServiceDiscovery.StartOnBindings` | score/mw/com/impl/service_discovery.cpp:106-110 | calls the bindings in order up to the first refusal |
| `Discovery.ServiceDiscovery.StopFindService` | score/mw/com/impl/service_discovery.cpp:176-208 | erases the handle from both maps, tells the binding of each stored identifier to stop, and returns the last error |
| `Discovery.ServiceDiscovery.EraseEqual` | score/mw/com/impl/service_discovery.cpp:247-260 | the erase-while-iterating loop removes exactly the equal entries |
| `Discovery.ServiceDiscovery.RemoveUnusedInstanceIdentifiers` | score/mw/com/impl/service_discovery.cpp:224-262 | erases all entries equal to an identifier after the last used one |
| `Discovery.ServiceDiscovery.UndoSearch` | score/mw/com/impl/service_discovery.cpp:113-130 | the undoing leaves no entry of the handle and tells the bindings of the identifiers that are not among the unused ones to stop |
| `Discovery.ServiceDiscovery.StoreInstanceIdentifiers` | score/mw/com/impl/service_discovery.cpp:284-291 | adds one entry per identifier |
| `Discovery.ServiceDiscovery.Destroy` | score/mw/com/impl/service_discovery.cpp:48-61 | for every handle the bindings of its stored identifiers are told to stop, once per identifier and in order, and none is left |
| `Discovery.ErasedHandlerIsCalledIff` | score/mw/com/impl/service_discovery.cpp:316-325 | after its erasure a handler can be called if and only if a call to it has been running without interruption since |
| `Discovery.CalledAfterErasure` | score/mw/com/impl/service_discovery.cpp:316-325 | a notification during a running call still begins a call after StopFindService |
| `SkeletonMoves.SkeletonBase.Move` | score/mw/com/impl/skeleton_base.cpp:98-123 | takes the entries over and names itself as parent in each element; the other base keeps none |
| `SkeletonMoves.SkeletonBase.Assign` | score/mw/com/impl/skeleton_base.cpp:130-161 | the same, onto an existing base |
| `SkeletonMoves.SkeletonBase.Update` | score/mw/com/impl/skeleton_base.h:160-194 | re-targets one entry |
| `SkeletonMoves.Element.constructor` | score/mw/com/impl/skeleton_base.h:132-152 | registers itself under a new key |
| `SkeletonMoves.Element.Move` | score/mw/com/impl/skeleton_event.h:185-195 | takes key and parent over and re-targets its entry |
| `SkeletonMoves.Element.Assign` | score/mw/com/impl/skeleton_field.h:323-340 | the same, onto an existing element |
| `SkeletonMoves.MoveConstruct` | score/mw/com/impl/skeleton_base.cpp:98-123 | a whole skeleton moved to a new one, base first, then the members in order: every entry names the new member and every member the new base |
| `SkeletonMoves.MoveAssign` | score/mw/com/impl/skeleton_base.cpp:130-161 | the same by assignment, whatever the target referred to before |
| `SkeletonMoves.MoveRepeatedly` | score/mw/com/impl/skeleton_base.cpp:98-161 | any number of moves by construction or assignment, also back onto moved-from objects, ends in a linked skeleton with the same keys |
| `SkeletonMoves.MoveBase` | score/mw/com/impl/proxy_base.cpp:40-64 | the base of a proxy, or of a skeleton, moved by construction: with the members not yet moved, the new base and all old members name each other |
| `SkeletonMoves.MoveMember` | score/mw/com/impl/proxy_event.h:190-198 | one member moved by construction, of a proxy or a skeleton: the entries of those already moved name the new ones, the others still the old ones |
| `SkeletonMoves.MoveMembers` | score/mw/com/impl/proxy_event.h:190-198 | all members moved by construction, in order: every entry names the new member and every member the base |
| `SkeletonOffer.ToldWhenReady` | score/mw/com/impl/skeleton_base.cpp:203-262 | over any history, whenever discovery is told every event and field is ready and every field has sent a value |
| `SkeletonOffer.SentWhenReady` | score/mw/com/impl/skeleton_event.h:219-240 | an element's binding sees Send only if its PrepareOffer succeeded since its last PrepareStopOffer, and a deferred value is the last one copied by an Update |
| `SkeletonOffer.OfferTellsIff` | score/mw/com/impl/skeleton_base.cpp:203-262 | one call tells discovery, as its last act, if and only if every check passed and every binding agreed |
| `SkeletonOffer.OfferSucceedsIff` | score/mw/com/impl/skeleton_base.cpp:203-262 | and reports success if and only if discovery agreed too |
| `SkeletonOffer.StopWithdrawsIff` | score/mw/com/impl/skeleton_base.cpp:264-289 | a stop of an offered skeleton first tells discovery and then withdraws; every element ends up withdrawn if and only if the skeleton counted as offered, or none was prepared |
| `SkeletonOffer.FailedOfferIsNotUndone` | score/mw/com/impl/skeleton_base.cpp:237-247 | an event prepared by an offer that failed later stays prepared, and a stop does not withdraw it |
| `SkeletonOffer.PrepareEventsOutcome` | score/mw/com/impl/skeleton_base.cpp:163-179 | the events stage succeeds exactly when every event binding agrees, and then every event is offered |
| `SkeletonOffer.PrepareFieldOutcome` | score/mw/com/impl/skeleton_field_base.h:59-100 | a field passes if and only if its binding agrees and, the first time, its handler and value are set and the value is sent; other fields are untouched |
| `SkeletonOffer.PrepareFieldKeepsInv` | score/mw/com/impl/skeleton_field_base.h:59-100 | what a field remembers agrees with the log through every outcome |
| `SkeletonOffer.UpdateKeepsInv` | score/mw/com/impl/skeleton_field.h:350-364 | an update is put aside until the first value was sent, and sent directly afterwards |
| `SkeletonOffer.SendFirstKeepsInv` | score/mw/com/impl/skeleton_field.h:408-422 | the value put aside is sent, and forgotten only when that succeeds |
| `SkeletonOffer.UnprepareKeepsInv` | score/mw/com/impl/skeleton_event_base.h:77-84 | the binding is told only if the flag was set |
| `SkeletonOffer.SkeletonBase.OfferServiceEvents` | score/mw/com/impl/skeleton_base.cpp:163-179 | the loop refines PrepareEvents |
| `SkeletonOffer.SkeletonBase.PrepareFieldOffer` | score/mw/com/impl/skeleton_field_base.h:59-100 | refines PrepareField |
| `SkeletonOffer.SkeletonBase.OfferServiceFields` | score/mw/com/impl/skeleton_base.cpp:181-201 | the loop refines PrepareFields |
| `SkeletonOffer.SkeletonBase.Offer` | score/mw/com/impl/skeleton_base.cpp:203-262 | refines OfferService |
| `SkeletonOffer.SkeletonBase.StopOffer` | score/mw/com/impl/skeleton_base.cpp:264-289 | refines StopOfferService |

## Left out

- RequestReplyTheorems.SafeIffOrderly: that there is no lost wake-up is part of it outside SwitchToStopState only, which empties the slot itself.
- RequestReplyTheorems.WireOrderIsAcceptanceOrder: a Send with neither ordering flag transmits without the lock and is not in the acceptance order. An attempt on a closed descriptor counts as a drop, and one that fails after its call has lost the slot to a stop is recorded apart from those in turn.
- RequestReplyTheorems.RepliesReachTheirRequests: what the call of an empty callback does is left open, and the delivery is recorded as any other.
- RequestReplyTheorems.OneReplyBufferIsEnough: the handler replies at most once per request, and a transmission reported as failed never arrives.
- RequestReplyEngine.StopDropKeepsInv: the model may release the lock between any two turns of the stop drain, where the code keeps it across empty callbacks; this only adds behaviours.
- Lifecycle.CalmRunsAreSound: one restart at a time, the check of kStopped and the reset of the reason as one step, and the first connect on the engine thread (no sync_first_connect).
- TimedQueue.TimedCommandQueue.CleanUpOwner: what other threads register while the lock is released to destroy a callback.
- UnixSlots.InputsAreCurrent: poll() is taken to report no events for negative descriptors, as IEEE Std 1003.1-2017 says, and to be followed by a pass only when it reports some.
- FrameCodec.RoundTripIff: a receive call returns fewer bytes than asked for only at the end of the stream; errors of the calls themselves are passed through by the code and not modelled.
- QnxSlots.QnxDispatchEngine.RegisterPosixEndpoint: the registration of the pulses with the server and its failures.
- SampleTracker.SamplesAreConserved: without Reset; memory orders weaker than sequential consistency.
- Subscription.LiveSamplesAreBounded: Allocate may return after any number of exchanges, which includes every count it can have read; Subscribe, Unsubscribe and GetNewSamples are called by one thread at a time; samples are dropped by any; the binding hands out no samples when not subscribed and leaves a subscription only by Unsubscribe.
- Discovery.FailedSearchIsUndone: no StopFindService for the same handle from within the binding's StartFindService. The overload for a single identifier is the case of one identifier.
- Discovery.ServiceDiscovery.StopFindService: the multimap lists the entries of a handle in the order of their insertion, where the code leaves it open.
- SkeletonMoves.MoveConstruct: the maps of events, fields and methods are one map keyed by kind and name. The event inside a field is not registered with the base and keeps naming the old one. A proxy moves by construction in the same way and shares the model; move assignment of a ProxyEvent calls itself and is not modelled.
- SkeletonOffer.ToldWhenReady: method bindings, tracing, mocks and the moves of the flags are left out.
- Logging in the client connection, the server's identification of clients, and the dispatch of received messages to server callbacks.
- The connection set-up of both engines, timers, pipes and signals, and the Unix server connection.
- Configuration, identifiers, serialization, tracing, methods and generic elements of the communication layer, which would only add easy members.
