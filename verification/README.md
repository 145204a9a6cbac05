# Verified model of the PubSub+ messaging API for Go

The repository wraps a native messaging library; what it adds in Go are concurrent protocols
around bounded buffers, tables and signal channels, and a few codecs. This project models that
layer in Dafny and proves what it guarantees: for every run, every interleaving and every input,
and where a guarantee is not unconditional, exactly when it holds.

## What is modelled

**State machines.** `Pipeline`, `DirectProtocol`, `PersistentProtocol`, `RequestReplyProtocol`,
`ExecutorProtocol`, `PublisherLifecycle` and `ServiceLifecycle` interleave any number of callers with the goroutines of
the code, one atomic operation (a channel operation, a compare-and-swap, a load, a critical section)
a step. Native return codes, timers, broker acknowledgements and replies are free choices. A run is
a sequence of actions; `StepKeeps` shows that each step keeps the invariant, and the theorems speak
of every run.

- `Pipeline` is the buffered publish path that the direct, persistent and request/reply publishers
  share, with the task buffer of `internal/impl/publisher/buffer` as it is written. Two facts of that
  code shape the results. When a grace period ends, the signal that interrupts a waiting task closes
  before the signal that stops the Run loop, so another task can start in between and pop the message
  of the interrupted one. And `TerminateNow` does not wait for the task in hand. The comments at
  `persistent_message_publisher_impl.go:718-721` and `736-737` assume otherwise; the model follows the
  code, states exactly when each pop is a task's own, and `PipelineRaces` exhibits both runs.
  `PipelineFates` follows each message: the first task that pops another's message loses that message
  for good, and at most one task finds the buffer drained. The exact conditions below rest on that.
- `DirectProtocol` adds the failure events that the drain and the send task submit to the event
  executor, and its closing.
- `PersistentProtocol` adds the correlation table, the one context thread that delivers
  acknowledgements, the wait for them, and the two drains.
- `ReplyDesk` holds the sections under `rxLock` of the request/reply publisher as functions;
  `RequestReplyProtocol` runs them against the publish path, the outcome closures and `Terminate`, and
  `RequestReplySignals` and `RequestReplyStranded` count the signals that each request gets.
- `ExecutorProtocol` interleaves `Submit`, `resize`, `Terminate` and `Run` with their two locks.

**Objects.** `Executor`, `DirectPublisher`, `PersistentPublisher`, `RequestReplyPublisher`,
`LifecycleObjects`, `PendingTable`, `ReplyTopic`, `SdtContainer`, `ConfigMaps` and `CorrelationTag`
hold the same code in its own form: classes, loops and updates in place, each method proved against
what it is for. A method is one thread's passage through the code; where the code panics (a send on a
closed channel, a second close) the model has a precondition or a proof that it does not happen.
`PendingTable` is one class for the tables of `receiver.go` and `endpoint_provisioner.go`, which have
the same shape.

**Codecs.** `SdtCodec` (typed fields, writer as a relation over every map order, reader as a function),
`ConfigTree` (dotted keys, paths and nested maps), `CorrelationTag` on machine words, `ReplyTopic`.

## What the results mean

- Each accepted message is sent, failed or counted as undelivered, and only one of these, if and only
  if every task that popped the buffer found its own message there. After a user's `Terminate` that
  means that no task popped after another was interrupted. `PipelineRaces` has a whole run in which the
  counts balance although a message is lost.
- A persistent publisher resolves every context exactly once and empties its table, after `Terminate`
  as after an unsolicited termination, if and only if no acknowledgement was between lookup and delete
  when `drainAckTable` took the lock, every task that popped found its own message, and no task found
  its entry gone. `PersistentRaces` has a whole run for an overlap, for a pop after an interruption, and
  for an unsolicited termination. In every case the accepted calls are accounted for, and the wait for
  acknowledgements ends neither early nor late.
- The failure listener of a direct publisher hears exactly once of each unsent message after an
  unsolicited termination under a condition of the same kind; `DirectRaces` has a run in which it hears
  of one message twice and of another never.
- Request/reply: channels close at most once, replies reach only their own request, the graceful wait
  covers every request that it saw, after `Terminate` nobody waits in vain, and a signal that has to
  wait while it holds `rxLock` waits for somebody who does not need that lock. An unsolicited
  termination can leave closures waiting; `RequestReplyStranded` says which, and `RequestReplyRaces` has
  a run.
- A waiter on `disconnectFuture` has no owner exactly while the service is Connected, and a run
  reaches that.
- Structured data comes back normalised exactly if no string in it contains a NUL.
- A reply topic gives its id back exactly if its prefix has nothing, or only zeros, after the last slash.

## Model

| member | source | states |
|---|---|---|
| Executor.DoubledIsScale | internal/impl/executor/executor.go:139 | doubling keeps the scale of the form 1024 * 2^k |
| Executor.Executor.constructor | internal/impl/executor/executor.go:153-164 | a new executor is open, empty, and has scale and capacity 1024 |
| Executor.Executor.Submit | internal/impl/executor/executor.go:103-134 | accepts exactly while not closed; the pending tasks become old + [task]; grows only when the channel was full |
| Executor.Executor.Resize | internal/impl/executor/executor.go:138-150 | moves the pending tasks, in order, to a channel of twice the capacity; neither the transfer nor a close blocks or panics |
| Executor.Executor.Terminate | internal/impl/executor/executor.go:90-98 | closes once and keeps the pending tasks; a second call changes nothing |
| Executor.Executor.Run | internal/impl/executor/executor.go:59-74 | every accepted task is executed, in order; then terminateComplete is closed if the executor is, and otherwise Run waits |
| ExecutorProtocol.StepKeeps | internal/impl/executor/executor.go:59-150 | every atomic step of any number of Submit, Terminate and the one Run keeps the locks, capacities and the queue consistent |
| ExecutorProtocol.RunsAreFifo | internal/impl/executor/executor.go:59-74 | in every run accepted tasks = executed ++ task in hand ++ queue, across resizes; none accepted twice; Submit returns true exactly for the accepted ones, and false only once closed |
| ExecutorProtocol.RunsNeverPanic | internal/impl/executor/executor.go:90-150 | no step sends to a closed channel or closes a channel twice |
| ExecutorProtocol.RunSeesNoResize | internal/impl/executor/executor.go:63-72 | while Run receives, no submitter holds the write lock, its channel is the current one, and a closed one was closed by Terminate |
| ExecutorProtocol.CompletionMeansAllRan | internal/impl/executor/executor.go:73-88 | terminateComplete is closed only when every accepted task has been executed, and nothing is accepted afterwards |
| ExecutorProtocol.CapacityIsScale | internal/impl/executor/executor.go:136-160 | in every reachable state the scale is 1024 * 2^k, and it is the capacity of the channel, or during a resize that of the channel to come |
| ExecutorProtocol.ResizeNeverBlocks | internal/impl/executor/executor.go:124-149 | during a resize the next transfer, and after it the send, always has a free slot |
| PipelineTheorems.TaskBufferHasRoom | internal/impl/publisher/buffer/publisher_task_buffer.go:72-87 | until the drain, Submit finds room for the task of every message that got into the message buffer, and queues it |
| Pipeline.StepKeeps | internal/impl/publisher/persistent_message_publisher_impl.go:640-682 | every atomic step of publish calls, Run loop, send task and terminator keeps buffer, tasks, signals and counts consistent |
| PipelineTheorems.BufferAndTasksAlign | internal/impl/publisher/persistent_message_publisher_impl.go:651-679 | before the drain: message buffer = stranded messages of interrupted tasks, then the task in hand, the queued tasks in order, then those whose Submit was refused |
| PipelineTheorems.TaskPopsItsOwnMessage | internal/impl/publisher/persistent_message_publisher_impl.go:735-766 | a task about to pop finds a message before any drain; it is its own exactly if as many messages were drained as tasks interrupted |
| PipelineTheorems.InterruptionNeedsCause | internal/impl/publisher/direct_message_publisher_impl.go:513-525 | a task is interrupted only after the task signal closed at the end of a grace period or in an unsolicited termination, or after the service went down |
| PipelineTheorems.RefusedTaskNeedsShutdown | internal/impl/publisher/buffer/publisher_task_buffer.go:72-87 | Submit refuses a task only after the Run loop ended or the drain began |
| PipelineTheorems.SendsFollowPushOrder | internal/impl/publisher/direct_message_publisher_impl.go:508-529 | successful native sends are in push order, each message at most once, whatever the WOULD_BLOCK retries |
| PipelineFates.FatesStepKeeps | internal/impl/publisher/direct_message_publisher_impl.go:505-568 | every atomic step keeps what is known of each message: removed at most once, at most one native result, and what an astray pop takes is never sent, failed or drained; at most one task finds the buffer empty |
| PipelineTheorems.EachMessageOnce | internal/impl/publisher/direct_message_publisher_impl.go:156-263 | at the end each pushed message is exactly one of sent, failed and undelivered if and only if every task that popped found its own message; for a user's Terminate, if and only if no task popped after another was interrupted |
| PipelineTheorems.GracefulDelivery | internal/impl/publisher/buffer/publisher_task_buffer.go:89-108 | a user's Terminate within its grace period, while the service is up, interrupts no task and accounts for each message once |
| PipelineTheorems.DeliveryAccounting | internal/impl/publisher/direct_message_publisher_impl.go:156-222 | accepted calls = pushed = sent + failed + undelivered, up to the one task of an unsolicited termination that may find the buffer drained |
| PipelineTheorems.AcceptedCallsOwnMessages | internal/impl/publisher/direct_message_publisher_impl.go:461-500 | each accepted publish call owns exactly one message and each message one call |
| PipelineTheorems.ClosesOnce | internal/impl/publisher/direct_message_publisher_impl.go:183-190 | no signal channel and not the message buffer is closed twice, in any run |
| PipelineTheorems.TerminateEndsTheLoop | internal/impl/publisher/buffer/publisher_task_buffer.go:89-108 | after the task buffer's Terminate has returned, its Run loop is over |
| PipelineRaces.NextTaskPopsInterruptedMessage | internal/impl/publisher/buffer/publisher_task_buffer.go:99-107 | a run in which the task after an interrupted one pops the interrupted message |
| PipelineRaces.SentMessageReportedUndelivered | internal/impl/publisher/buffer/publisher_task_buffer.go:110-114 | a run in which TerminateNow lets a sent message be drained as undelivered |
| PipelineRaces.LostAndSentUndelivered | internal/impl/publisher/direct_message_publisher_impl.go:183-213 | a whole run of a user's Terminate in which the counts balance, but one message is lost and the other both sent and counted as undelivered |
| NativeSend.Send | internal/impl/publisher/direct_message_publisher_impl.go:508-529 | the retry loop ends at the first answer that is not WOULD_BLOCK followed by writable, with its outcome |
| NativeSend.SentAtMostOnce | internal/impl/publisher/direct_message_publisher_impl.go:508-529 | among the attempts made, exactly one succeeds if the outcome is delivered, and none otherwise |
| DirectPublisher.Publisher.Publish | internal/impl/publisher/direct_message_publisher_impl.go:436-500 | the message and its task are queued exactly if the buffer is open and has room and the select does not prefer the interrupt; otherwise nothing changes, and the call waits, or reports overflow or already terminated |
| DirectPublisher.Publisher.SendTask | internal/impl/publisher/direct_message_publisher_impl.go:505-568 | an interruption leaves buffer and events alone; otherwise one message is popped and either disposed of or reported as one failure, with a ready event if the buffer was full |
| DirectPublisher.Publisher.DrainQueue | internal/impl/publisher/direct_message_publisher_impl.go:326-345 | counts what is left in the buffer, empties it, and with a listener submits exactly one failure event per undelivered message, in order |
| DirectPublisher.Publisher.UnsolicitedTermination | internal/impl/publisher/direct_message_publisher_impl.go:224-263 | while no task is in hand, one failure event per undelivered message reaches the event executor before it closes; the error carries their count |
| DirectPublisher.Publisher.Notify | internal/impl/publisher/direct_message_publisher_impl.go:336-341 | the event executor accepts the event exactly if it is not closed, after all earlier ones |
| DirectProtocol.StepKeeps | internal/impl/publisher/direct_message_publisher_impl.go:326-345 | every atomic step of publish calls, send task, drain, terminator and event executor keeps the books of the failure events |
| DirectTheorems.DrainEventsAreTheDrained | internal/impl/publisher/direct_message_publisher_impl.go:326-345 | in every run the drain of an unsolicited termination submits exactly one event for each message that it takes, in order, all accepted; without a listener, and in a user's Terminate, none |
| DirectTheorems.FailureEventsAreTheFailures | internal/impl/publisher/direct_message_publisher_impl.go:530-549 | without an unsolicited termination the listener is told of each failed send once, in order, and of nothing else |
| DirectTheorems.OneEventPerUnsentMessage | internal/impl/publisher/direct_message_publisher_impl.go:224-263 | after an unsolicited termination the listener hears exactly once of each accepted message that was not sent, and of no other, if and only if no task popped another's message, no event came after the executor closed, and no task that had sent found its message drained |
| DirectRaces.ReportedTwiceAndNever | internal/impl/publisher/buffer/publisher_task_buffer.go:110-114 | a whole run in which TerminateNow lets one message be reported twice, and another one neither sent nor reported |
| PersistentTheorems.IdsAreUnique | internal/impl/core/publisher.go:324-332 | correlation ids are positive and differ between messages |
| PersistentTheorems.ResolvedByTheRightParty | internal/impl/publisher/persistent_message_publisher_impl.go:735-766 | an acknowledgement resolves only a context whose message was sent, a send error only one that failed, the drain exactly the drained ones; none is both acknowledged and failed |
| PersistentProtocol.StepKeeps | internal/impl/publisher/persistent_message_publisher_impl.go:103-127 | every step of publishes, send task, acknowledgements, Terminate and the drains keeps the books of every context |
| PersistentTheorems.ResolutionLaw | internal/impl/publisher/persistent_message_publisher_impl.go:201-348 | after a user's Terminate or an unsolicited termination each context was resolved once for its message or still has an entry, up to counted exceptions: at most one overlap, and one context too many for each astray pop, for the at most one empty pop, and for each entry found gone |
| PersistentTheorems.ResolvedExactlyOnce | internal/impl/publisher/persistent_message_publisher_impl.go:201-348 | after either way to terminate every context is resolved exactly once and the table is empty, if and only if no acknowledgement overlapped drainAckTable, every task that popped found its own message, and none found its entry gone |
| PersistentTheorems.TerminateResolvesExactlyOnce | internal/impl/publisher/persistent_message_publisher_impl.go:201-299 | after a user's Terminate the table is empty, and every context is resolved exactly once if and only if no acknowledgement overlapped drainAckTable and no task popped after another was interrupted |
| PersistentTheorems.GracefulResolution | internal/impl/publisher/persistent_message_publisher_impl.go:225-266 | within the grace period and while the service is up, every context is resolved exactly once if and only if no acknowledgement overlapped drainAckTable |
| PersistentTheorems.AcceptedAreAccountedFor | internal/impl/publisher/persistent_message_publisher_impl.go:268-298 | accepted calls = acknowledged + send-failed + undelivered + unacknowledged (less one for an overlap), and Terminate's error carries exactly the last two counts, nil if both are 0 |
| PersistentTheorems.UnsolicitedAccounting | internal/impl/publisher/persistent_message_publisher_impl.go:301-348 | the same counts after an unsolicited termination, with the entries left in the table and the empty pop and entries found gone as correction |
| PersistentTheorems.WakesExactlyWhenDrained | internal/impl/publisher/persistent_message_publisher_impl.go:108-126 | correlationComplete closes at most once; while Terminate waits it is closed exactly if the table is empty; Terminate is woken only when every context that it saw was acknowledged |
| PersistentTheorems.LastAckCloses | internal/impl/publisher/persistent_message_publisher_impl.go:108-126 | the close is the step of the acknowledgement that removes the last entry, and of no other, unless that entry was swept while the acknowledgement overlapped drainAckTable |
| PersistentRaces.AcknowledgedAndUnacknowledged | internal/impl/publisher/persistent_message_publisher_impl.go:103-113 | a run in which an acknowledgement between lookup and delete overlaps drainAckTable and its context is resolved twice |
| PersistentRaces.LostAndCountedTwice | internal/impl/publisher/persistent_message_publisher_impl.go:201-299 | a whole run of Terminate in which the context of an interrupted message is never resolved and that of a sent one twice |
| PersistentRaces.ResolvedTwiceAndNever | internal/impl/publisher/persistent_message_publisher_impl.go:301-348 | a whole run of an unsolicited termination in which one accepted context is resolved twice and the other never, with no entry left |
| PersistentPublisher.Publisher.PublishUnbuffered | internal/impl/publisher/persistent_message_publisher_impl.go:613-627 | a failed native publish under a new id leaves the table as it was, a successful one adds exactly its own entry; only a message without a context is disposed of |
| PersistentPublisher.Publisher.AckHandler | internal/impl/publisher/persistent_message_publisher_impl.go:103-127 | a known id is resolved once and deleted, and completion is signalled exactly if asked for while terminating and the table is now empty; an unknown id does nothing |
| PersistentPublisher.Publisher.SendTask | internal/impl/publisher/persistent_message_publisher_impl.go:704-767 | what an interrupted, rejected or delivered task does to table, resolutions, buffer, disposed messages and ready events |
| PersistentPublisher.Publisher.DrainQueue | internal/impl/publisher/persistent_message_publisher_impl.go:418-429 | counts and empties the buffer and resolves each context found there, in order |
| PersistentPublisher.UndeliveredIsEach | internal/impl/publisher/persistent_message_publisher_impl.go:562-580 | when every message has a context, the drain resolves each of them exactly once, in order |
| PersistentPublisher.Publisher.DrainAckTable | internal/impl/publisher/persistent_message_publisher_impl.go:432-445 | counts the entries, resolves each exactly once in some order, and empties the table |
| PersistentPublisher.Publisher.Shutdown | internal/impl/publisher/persistent_message_publisher_impl.go:276-298 | both drains; nil exactly if nothing was left, and otherwise the two counts |
| ReplyDesk.CreateValid | internal/impl/publisher/request_reply_message_publisher_impl.go:773-783 | a new request gets a new id and open channels; every other request keeps its place |
| ReplyDesk.SignalValid | internal/impl/publisher/request_reply_message_publisher_impl.go:763-771 | a signal goes to an open channel as long as Terminate has not closed them all |
| ReplyDesk.ReplyValid | internal/impl/publisher/request_reply_message_publisher_impl.go:863-891 | a reply finds an empty channel, changes only the request with its id, and only the first one does |
| ReplyDesk.CloseReplyValid | internal/impl/publisher/request_reply_message_publisher_impl.go:721-761 | closing a request removes exactly its id, closes neither channel twice, and touches no other request |
| ReplyDesk.CloseAllValid | internal/impl/publisher/request_reply_message_publisher_impl.go:274-293 | the last section of Terminate closes no result channel twice and leaves completion signalled once |
| RequestReplyProtocol.StepKeeps | internal/impl/publisher/request_reply_message_publisher_impl.go:530-891 | every step of publishes, send task, signals, replies, outcome closures and Terminate keeps the table sound |
| RequestReplyTheorems.ClosesAtMostOnce | internal/impl/publisher/request_reply_message_publisher_impl.go:721-761 | each request's result and sentChan, and correlationComplete, are closed at most once |
| RequestReplyTheorems.RunsNeverPanic | internal/impl/publisher/request_reply_message_publisher_impl.go:763-771 | no signal on a closed sentChan, no second close of a result channel or of requestCorrelateComplete |
| RequestReplyTheorems.GracefulWait | internal/impl/publisher/request_reply_message_publisher_impl.go:236-253 | if Terminate is woken by correlationComplete, every request that was in the table when it asked has had its handler called or its publish fail |
| RequestReplyTheorems.WakeupIsNotLost | internal/impl/publisher/request_reply_message_publisher_impl.go:746-757 | while Terminate waits, an empty table means that completion is signalled |
| RequestReplyTheorems.RepliesAreOwn | internal/impl/publisher/request_reply_message_publisher_impl.go:853-858 | at most one reply per request, its own; an id is in the table exactly until its publish has failed or its outcome has returned |
| RequestReplyTheorems.RepliesAreToSentRequests | internal/impl/publisher/request_reply_message_publisher_impl.go:785-853 | every reply that a closure takes or returns belongs to a request whose message was sent natively |
| RequestReplyTheorems.ReplyGoesToItsRequest | internal/impl/publisher/request_reply_message_publisher_impl.go:863-891 | a reply changes only the request with its id, once, never blocks, and without such a request changes nothing |
| RequestReplyTheorems.NobodyIsStranded | internal/impl/publisher/request_reply_message_publisher_impl.go:265-297 | once a user's Terminate has returned, every closure that still waits can go on |
| RequestReplySignals.StepKeepsSignals | internal/impl/publisher/request_reply_message_publisher_impl.go:644-771 | every step keeps the count of signals: no request ever gets or is owed more than one from its task and one from the drain |
| RequestReplySignals.WaitingSignalIsServed | internal/impl/publisher/request_reply_message_publisher_impl.go:763-771 | a signal that finds its channel full, and so waits under rxLock, is the second for its request, whose call or closure can take its next step towards the first one without rxLock |
| RequestReplyStranded.StrandedExactlyIf | internal/impl/publisher/request_reply_message_publisher_impl.go:306-341 | after an unsolicited termination a waiting closure can proceed if and only if, for the signal, its message was dealt with by its own task or drained, or, for the reply, one has come or there is a timeout |
| RequestReplyStranded.NobodyMissesTheSignal | internal/impl/publisher/request_reply_message_publisher_impl.go:306-341 | if no task popped another's message, every closure that still waits for its signal after an unsolicited termination can proceed |
| RequestReplyStranded.StepKeepsHearing | internal/impl/publisher/request_reply_message_publisher_impl.go:644-771 | every step keeps: a request has or is owed a signal exactly if its task ended or its message was drained, and it holds its reply until the closure takes it |
| RequestReplyRaces.RequestStranded | internal/impl/publisher/request_reply_message_publisher_impl.go:790-799 | a whole run of an unsolicited termination after which the closure of an accepted request, with a timeout, waits for a signal that nobody will send |
| RequestReplyPublisher.Publisher.CreateReplyCorrelation | internal/impl/publisher/request_reply_message_publisher_impl.go:773-783 | a new entry under a new id, and no other change |
| RequestReplyPublisher.Publisher.SignalRequestCorrelationSent | internal/impl/publisher/request_reply_message_publisher_impl.go:763-771 | the signal is put on the channel of the entry under the id, if any, and on no other; it waits exactly if that channel is full, and then nothing changes |
| RequestReplyPublisher.Publisher.HandleReplyMessage | internal/impl/publisher/request_reply_message_publisher_impl.go:863-891 | taken exactly if the id is known, has had no reply, and its channel is open; then the channel holds just this reply |
| RequestReplyPublisher.Publisher.CloseReplyCorrelation | internal/impl/publisher/request_reply_message_publisher_impl.go:721-761 | the entry goes, its channels are closed or emptied, and completion is signalled exactly for the last entry once asked for |
| RequestReplyPublisher.Publisher.SignalUndelivered | internal/impl/publisher/request_reply_message_publisher_impl.go:401-416 | counts the undelivered messages and signals each pending request among them, and no other, up to the first one whose channel is full |
| RequestReplyPublisher.Publisher.UnblockAll | internal/impl/publisher/request_reply_message_publisher_impl.go:274-293 | completion is signalled and every pending request's result channel is closed |
| PublisherLifecycle.StepKeeps | internal/impl/publisher/message_publisher_impl.go:94-160 | every atomic step of any number of Start and Terminate calls keeps states, futures and owners consistent |
| PublisherLifecycle.StateMovesForward | internal/impl/publisher/message_publisher_impl.go:94-160 | the state never moves back |
| PublisherLifecycle.OwnersAreForever | internal/impl/publisher/message_publisher_impl.go:108-146 | at most one call proceeds with the start and at most one will complete the termination |
| PublisherLifecycle.FuturesCompleteOnce | internal/impl/publisher/request_reply_message_publisher_impl.go:116-135 | startFuture and terminateFuture are each completed at most once, also when the start fails |
| PublisherLifecycle.WaitersHaveOwners | internal/impl/publisher/message_publisher_impl.go:117-154 | a call that waits finds its future completed, or a unique owner that can take its next step |
| PublisherLifecycle.CallsAgree | internal/impl/publisher/message_publisher_impl.go:117-160 | all calls that report the outcome of the start, or of the termination, report the same one; a failed start leaves the publisher terminated |
| ServiceLifecycle.StepKeeps | internal/impl/messaging_service_impl.go:130-164 | every atomic step of Connect, Disconnect and down events keeps states, futures and owners consistent |
| ServiceLifecycle.TeardownHappensOnce | internal/impl/messaging_service_impl.go:196-216 | the transport is closed at most once and each future completed at most once; the disconnect future only after the close |
| ServiceLifecycle.StateMovesForward | internal/impl/messaging_service_impl.go:130-164 | the state never moves back |
| ServiceLifecycle.ConnectWaitersAreServed | internal/impl/messaging_service_impl.go:131-137 | a call that waits for connectFuture finds it completed or its owner at work |
| ServiceLifecycle.DisconnectWaiterIsServed | internal/impl/messaging_service_impl.go:341-349 | a call that waits for disconnectFuture is without an owner exactly while the service is Connected |
| ServiceLifecycle.UnservedWaiter | internal/impl/messaging_service_impl.go:341-349 | a run that reaches such a wait |
| ServiceLifecycle.CallsAgree | internal/impl/messaging_service_impl.go:341-369 | all calls that report an outcome report the same one; a reported disconnection finds the transport closed |
| LifecycleObjects.BasicMessagePublisher.Start | internal/impl/publisher/message_publisher_impl.go:94-130 | the first start of a running service decides state and startFuture; every other call reports what was decided, or an illegal state |
| LifecycleObjects.BasicMessagePublisher.Terminate | internal/impl/publisher/message_publisher_impl.go:132-160 | always ends terminated; the first call decides the result that every call returns |
| LifecycleObjects.MessagingService.Connect | internal/impl/messaging_service_impl.go:130-164 | the first call decides; a failed attempt leaves the service Connected; later calls report |
| LifecycleObjects.MessagingService.Disconnect | internal/impl/messaging_service_impl.go:341-369 | only a Connected service is disconnected, and its transport closed, once |
| LifecycleObjects.MessagingService.DownAndDisconnect | internal/impl/messaging_service_impl.go:196-216 | a down event and a Disconnect in either order close the transport once, and the first of them decides what Disconnect reports |
| PendingTable.Table.NewCorrelation | internal/impl/core/receiver.go:311-319 | a new id and an empty result channel with room for one event |
| PendingTable.Table.Request | internal/impl/core/endpoint_provisioner.go:115-139 | if the native call accepts the operation it is pending, unless its answer came before the call returned and is in the channel; if not, the table is as before |
| PendingTable.Table.HandleEvent | internal/impl/core/receiver.go:329-340 | a pending operation gets exactly this event, without blocking, and leaves the table; an unknown id does nothing |
| PendingTable.Table.Terminate | internal/impl/core/endpoint_provisioner.go:93-112 | every pending operation gets exactly one event, the termination error, and the table is empty; a second call does nothing |
| PendingTable.Table.Take | internal/impl/core/receiver.go:329-340 | the event that a caller takes is that of its own operation |
| CorrelationTag.ToCorrelationTag | internal/impl/core/publisher.go:346-358 | the sixteen bytes are the little-endian bytes of the two ids |
| CorrelationTag.FromCorrelationTag | internal/impl/core/publisher.go:360-370 | decodes exactly the tags of sixteen bytes |
| CorrelationTag.TagRoundTrip | internal/impl/core/publisher.go:346-370 | every pair of 64-bit ids comes back from its tag |
| CorrelationTag.UntagRoundTrip | internal/impl/core/publisher.go:360-370 | every 16-byte tag is the tag of the ids that it decodes to; no other length decodes |
| CorrelationTag.AcknowledgementReachesItsPublisher | internal/impl/core/publisher.go:372-387 | an acknowledgement calls the handler of the publisher in its tag, with the message id in its tag, or nothing |
| ReplyTopic.TopicRoundTrip | internal/impl/core/publisher.go:159-218 | the id comes back from prefix ++ sixteen hex digits exactly if the prefix has nothing or only zeros after its last slash; a wrong id never does |
| ReplyTopic.SlashPrefixRoundTrip | internal/impl/core/publisher.go:209-218 | in particular for every prefix that is empty or ends in a slash |
| ReplyTopic.TopicsAreDistinct | internal/impl/core/publisher.go:194-200 | different ids give different topics and correlation ids |
| ReplyTopic.ReplyHandlers.AddRequestorReplyHandler | internal/impl/core/publisher.go:152-201 | the handler is registered under a new id, unless the subscription fails, which leaves the handlers as they were |
| ReplyTopic.ReplyHandlers.RemoveRequestorReplyHandler | internal/impl/core/publisher.go:203-236 | a topic without an id is ignored, a failing unsubscribe keeps the handler, and otherwise exactly the handler of the topic's id goes |
| ReplyTopic.AddThenRemove | internal/impl/core/publisher.go:152-236 | adding a handler and removing it by its topic leaves the handlers as they were |
| SdtCodec.RoundTrip | internal/impl/message/message_impl.go:569-605 | parsing what was written for a NUL-free value gives the normalised value, whatever the order of each map |
| SdtCodec.RoundTripExactlyIfNulFree | internal/ccsmp/ccsmp_container.go:186-249 | it does so exactly if no string, name or key at any depth contains a NUL |
| SdtCodec.OrderDoesNotMatter | internal/impl/message/outbound_message_builder_impl.go:395-403 | two writes of a value that visit its maps in different orders parse alike |
| SdtCodec.NormaliseIsIdempotent | internal/impl/message/message_impl.go:588-591 | normalising twice is normalising once |
| SdtCodec.CString | internal/ccsmp/ccsmp_container.go:366-377 | a string crosses the C boundary unchanged exactly if it has no NUL |
| SdtContainer.AddItemToContainer | internal/impl/message/outbound_message_builder_impl.go:415-487 | succeeds exactly if no item at any depth has an unsupported type, and then appends one field that encodes the item under the key |
| SdtContainer.SdtMapToContainer | internal/impl/message/outbound_message_builder_impl.go:395-403 | writes every entry of the map once, in some order, exactly if all are supported |
| SdtContainer.SdtStreamToContainer | internal/impl/message/outbound_message_builder_impl.go:405-413 | writes every element in order, exactly if all are supported |
| SdtContainer.ParseData | internal/impl/message/message_impl.go:569-605 | the recursive reader over cursors computes the parse of a field, for every kind |
| SdtContainer.ParseMapFields | internal/impl/message/message_impl.go:528-547 | collects the fields by name from a map container, and nil from another |
| SdtContainer.ParseStreamFields | internal/impl/message/message_impl.go:549-566 | collects the fields in order from a stream container, and nil from another |
| SdtContainer.WriteThenRead | internal/impl/message/message_impl.go:528-605 | writing and reading a supported value gives its normalised form exactly if it is NUL-free |
| ConfigTree.JoinOfSplit | pkg/solace/config/format_utils.go:49 | splitting a key at its dots loses nothing |
| ConfigTree.SplitOfJoin | pkg/solace/config/format_utils.go:37 | dot-free segments come back from the joined key |
| ConfigTree.InsertIntoBuilt | pkg/solace/config/format_utils.go:51-70 | one key fails exactly if a path in the tree is a prefix of its own or the other way round, and otherwise builds the larger tree |
| ConfigTree.NestSucceedsIffPrefixFree | pkg/solace/config/format_utils.go:46-73 | nestMap succeeds exactly if no key's segments are a proper prefix of another's, and neither that nor its result depends on the order |
| ConfigTree.FlattenOfNest | pkg/solace/config/format_utils.go:29-73 | flattenMap(nestMap(m)) == m |
| ConfigTree.NestOfFlatten | pkg/solace/config/format_utils.go:29-73 | nestMap(flattenMap(t)) succeeds for every tree with dot-free keys, and is t if t has no empty map below the root |
| ConfigTree.EmptyMapIsLost | pkg/solace/config/format_utils.go:29-73 | a tree with an empty map below the root does not come back |
| ConfigMaps.InsertPath | pkg/solace/config/format_utils.go:49-70 | the walk with its aliased pointer fails exactly where the tree function does, and otherwise leaves the maps of the larger tree |
| ConfigMaps.NestMap | pkg/solace/config/format_utils.go:46-73 | an error exactly on a prefix clash; otherwise the fresh maps are exactly those of the one tree |
| ConfigMaps.FlattenMap | pkg/solace/config/format_utils.go:29-43 | every leaf below a map is in the result under its joined path, and nothing else is |
| ConfigMaps.NestThenFlatten | pkg/solace/config/format_utils.go:29-73 | nesting and flattening in the heap gives the flat map back, or an error exactly on a prefix clash |
| ConfigMaps.FlattenThenNest | pkg/solace/config/format_utils.go:29-73 | flattening and nesting in the heap never fails for dot-free keys, and gives the same tree back exactly if no map below the root is empty |

## Left out

- Executor.Executor.Run: one passage up to its end or to the point where it has to wait; ExecutorProtocol interleaves Run with submissions.
- Pipeline.StepKeeps: pushes are named by their order under bufferPublishLock; how long a call waits for a lock, and which of several ready select cases Go prefers, are free choices.
- PipelineTheorems.EachMessageOnce: for an unsolicited termination it speaks of the moment when the Run loop is over, because the code does not wait for it; so do PersistentTheorems.ResolvedExactlyOnce and DirectTheorems.OneEventPerUnsentMessage.
- DirectProtocol.StepKeeps: failure events only; readiness events, which go through the same executor, are in DirectPublisher.
- DirectPublisher.Publisher.UnsolicitedTermination: with no task in hand; DirectTheorems.OneEventPerUnsentMessage has the general case.
- RequestReplyProtocol.StepKeeps: the error of a down event, which the drain of an unsolicited termination passes on as the outcome of the send, is assumed not to be nil.
- RequestReplyTheorems.RunsNeverPanic: buffered mode only; in unbuffered mode a signal can meet a sentChan that Terminate closed.
- RequestReplyTheorems.NobodyIsStranded: a user's Terminate; after an unsolicited termination RequestReplyStranded.StrandedExactlyIf says who is.
- RequestReplyPublisher.Publisher.SignalUndelivered: takes the correlation ids of the drained messages, and stops where it has to wait.
- RequestReplySignals.WaitingSignalIsServed: that the caller runs its outcome closure is up to the caller.
- PersistentPublisher.Publisher.AckHandler: an acknowledgement that meets no other step; the interleavings are in PersistentProtocol.
- PersistentPublisher.Publisher.SendTask: the delivery of receipts to a listener or a blocked caller is recorded as a resolution; the listener itself is left out.
- LifecycleObjects.BasicMessagePublisher.Start: one call with no other under way; the interleavings are in PublisherLifecycle.
- LifecycleObjects.BasicMessagePublisher.Terminate: one call with no other under way, as above.
- LifecycleObjects.MessagingService.Connect: one call with no other under way; the interleavings are in ServiceLifecycle.
- LifecycleObjects.MessagingService.Disconnect: one call with no other under way, as above.
- PublisherLifecycle.StepKeeps: the work between the state changes is one step with a free outcome.
- PendingTable.Table.NewCorrelation: the id is drawn and the entry made in one step; an entry made after terminate stays pending in both.
- PendingTable.Table.Request: of what other threads may do between its two sections, only the answer to this operation is spelled out.
- ReplyTopic.ReplyHandlers.AddRequestorReplyHandler: the counter is assumed not to wrap; strconv and strings are given by their definitions.
- SdtContainer.AddItemToContainer: native calls succeed; what a failed write leaves in the container is not stated.
- SdtCodec.RoundTrip: floating-point values are carried as bits, and a 64-bit platform is assumed for int and uint.
- ConfigMaps.NestMap: leaf values are not maps.
- Unbuffered (direct) backpressure of the direct and request/reply publishers: one native call without buffer or task.
- Deadlock freedom and progress: Run of the executor can park on an empty channel while it holds the read lock; only safety is stated.
- Wrap-around of message and correlation ids at 2^64, and of the executor's scale.
- Metrics, logging, finalizers, message memory, readiness listeners beyond the ready event, and real time.
- The release of a reply that arrives just as its timer fires; the value is dropped by the closing select, as in the code.
- The lock that onReplyMessage takes, and cache requests, message receivers, endpoint properties, builders and validators.
