# A verified model of the JSON-RPC client engine

This project models the message engine of `jsonrpc-client-rs` and proves what it keeps over whole runs: the client
multiplexer, the server part inside it, the weak/strong selector that feeds them, and the notification handler that
routes subscriptions.

## How it is organised

Each machine appears twice: as an object whose methods update fields the way the Rust code does, and as a state
machine on values. The contract of every method equates the new state of the object with the state machine's step, and
the theorems are about all runs of the state machine. The client and the notification handler start in a reached state
and every poll leads from a reached state to a reached one, so a theorem about reached states holds of the objects.

| file | content |
|---|---|
| `Futures.dfy` | answers of polled streams; a stream is the script of its answers |
| `IdGenerator.dfy` | the counter behind request ids and the keys of pending futures, a wrapping `u64` |
| `SelectWeak.dfy` | the selector, as state machine and as object |
| `JsonRpc.dfy` | messages, parameters, what a text on the wire decodes to |
| `ServerModel.dfy`, `Server.dfy` | registry, dispatch and drivers of requests, as state machine and as object |
| `DriverProofs.dfy` | what a request must be answered with, and how many polls that takes |
| `ServerProofs.dfy`, `ServerProgress.dfy` | what every poll of the server keeps; how it answers in time, or fails |
| `ClientModel.dfy` | one poll of the client, and runs of it |
| `ClientLedger.dfy`, `ClientProofs.dfy` | the table of pending calls; the invariant of every poll |
| `ClientTheorems.dfy`, `ClientDrains.dfy`, `ClientBlind.dfy` | the promises of the client |
| `ClientSources.dfy` | all it takes in and gives out, against all it was handed and told |
| `ClientProgress.dfy` | every request its peer sends is answered |
| `ClientCauses.dfy` | which event each error stands for, and that the first one decides |
| `ClientReentry.dfy` | a client polled once more after it has ended |
| `Client.dfy` | the client object |
| `Duplex.dfy` | two clients wired to each other |
| `PubSub.dfy`, `NotificationHandler.dfy` | the notification handler, as state machine and as object |

Readiness is never fixed. A stream, a sink or a channel is a script of answers (`NotReady`, an item, the end, an
error); a script that is used up is not ready; a run may append to scripts between polls. Every finite behaviour of
every stream and sink is some script, so a statement for all scripts covers all of them. A handler is free: its future
answers `NotReady` as often as it likes, then gives any output or error, and may differ between two invocations with
the same arguments. The order in which the members of a batch are polled is free too. Whether a completion receiver is
still there matters only at the one moment something is sent to it, so a fixed set of dropped receivers covers every
time at which callers may drop them.

The history fields (`History`, `Log`) record what a machine did; no step of the client, of the selector or of the
notification handler depends on them, except that requests, jobs and calls are numbered in the order in which they come.

The id counter and the key counter wrap around at 2^64. The statements that need ids or keys to be fresh say so: they
hold for fewer than 2^64 - 1 calls, or futures pushed, of one client.

## Where the code and its documentation differ

- A batch with no members gets no answer (core/src/server.rs:381-389), although section 6 of the JSON-RPC 2.0
  specification asks for an Invalid Request response. The model follows the code.
- `should_shut_down` of the notification handler is not reset by a later subscription (pubsub/src/lib.rs:292-309), so
  it may end with live subscribers. One that resolves while its messages go on does so exactly if it consumed a
  subscription after the last removal (`PubSub.EndsWithSubscribersIff`); `PubSub.MayEndWithSubscribers` gives such a run.
- The documentation of `Client::new` (core/src/lib.rs:268-273) says the client resolves once all handles *and futures*
  are resolved. A call future gives up its sender when its message is sent (core/src/lib.rs:170-175), so a client may
  resolve with calls still waiting. Nothing here claims otherwise.
- A client that has failed takes `fatal_error` out (core/src/lib.rs:502-505). If it were polled once more, it would
  drive its server again, and poll a finished future exactly if the retry of its parked payload does not fail and the
  round gets to such a future before one that fails (`ClientReentry.ReentryIff`); `ClientReentry.ReentryHappens` gives a
  run. A client that has resolved keeps `shutting_down` and never does so. All other theorems about runs are about runs
  that stop polling a client once it has ended, as the contract of futures demands.

## Model

| member | source | states |
|---|---|---|
| Ids.IdGenerator.constructor | core/src/id_generator.rs:9-11 | the first identifier is 1 |
| Ids.IdGenerator.NextInt | core/src/id_generator.rs:19-23 | hands out the counter and advances it, wrapping at 2^64 |
| Ids.BumpCounts | core/src/id_generator.rs:13-17 | the counter after n identifiers is the n-th of the sequence, wrap-around included |
| Ids.FreshBelowBound | core/src/id_generator.rs:13-23 | below the bound all identifiers differ and equal their position |
| Ids.SameIdIff | core/src/id_generator.rs:13-23 | in general two identifiers are the same iff their positions are congruent modulo 2^64 |
| SelectWeak.SelectWithWeak.constructor | utils/src/select_weak.rs:11-22 | a fresh selector starts with the weak side |
| SelectWeak.SelectWithWeak.CheckWeak | utils/src/select_weak.rs:46-57 | the weak side's end is remembered and reported as not ready |
| SelectWeak.SelectWithWeak.Poll | utils/src/select_weak.rs:68-82 | one poll takes the step of the state machine and answers what it answers |
| SelectWeak.RefinesMerge | utils/src/select_weak.rs:25-31 | over any run the answers are an interleaving of a prefix of each stream, in order, nothing lost or doubled |
| SelectWeak.StrongIsServed | utils/src/select_weak.rs:27-28 | a ready strong item waits behind at most one weak answer |
| SelectWeak.WeakIsServed | utils/src/select_weak.rs:27-28 | a ready weak item waits behind at most one strong answer |
| SelectWeak.OnlyStrongEnds | utils/src/select_weak.rs:31 | in any run the merge has ended only if the strong stream has |
| SelectWeak.EndsWithinTwoPolls | utils/src/select_weak.rs:68-81 | an exhausted strong stream is reported within two polls, after at most one weak answer |
| SelectWeak.AfterTheEnd | utils/src/select_weak.rs:68-81 | polled after its strong stream has ended the merge ends again iff it is the strong side's turn or the weak side has nothing; else it hands out what the weak side has |
| JsonRpc.MethodTextIs | core/src/lib.rs:553-567 | the request of a call carries its id, name and parameters unchanged, unless a value does not serialise |
| JsonRpc.NoteTextIs | core/src/lib.rs:580-592 | the request of a notification carries its name and parameters unchanged, unless a value does not serialise |
| JsonRpc.ResponseTextIs | core/src/lib.rs:453-457 | a response is sent unchanged, unless a value does not serialise |
| JsonRpc.SerializeTwice | core/src/lib.rs:569-577 | converting parameters a second time changes nothing and cannot fail |
| ServerMachine.HandlerMap.Add | core/src/server.rs:137-148 | adds under a free name, refuses a taken one and then changes nothing |
| ServerMachine.HandlerMap.Remove | core/src/server.rs:151-157 | removes the name and returns its handler, or reports there was none |
| ServerMachine.Server.constructor | core/src/server.rs:277-288 | a new server has no handlers and no futures |
| ServerMachine.Server.PushFuture | core/src/server.rs:290-293 | a future goes into the ordered table under the next key |
| ServerMachine.Server.DrainHandlerChan | core/src/server.rs:295-318 | the drain loop applies and answers every ready registry message, and keeps the channel unless it is closed |
| ServerMachine.Server.Poll | core/src/server.rs:325-340 | the round over the futures in key order, its early exit on an error, and what it sends; the books of a healthy server are kept |
| ServerMachine.Server.PollFuture | core/src/server.rs:327-331 | one future of the table is polled in place; what it sends goes to the response channel; if it goes on waiting it has less to wait for |
| ServerMachine.Server.ProcessRequest | core/src/server.rs:352-402 | dispatch, the eager poll, and what becomes of the driver and of its answer; a request whose futures are all ready is answered at once |
| ServerProofs.DrainFrame | core/src/server.rs:295-318 | a drain consumes exactly the items before the channel's first other answer, in order, loses none of the rest, closes the channel iff that answer is the end, and touches no future |
| ServerProofs.PutInserts | core/src/server.rs:290-293 | inserting keeps the table in key order, replaces an entry under the same key and keeps every other |
| ServerProofs.RegisteredIff | core/src/server.rs:137-157 | a handler is registered iff some message added it while its name was free and none removed the name since |
| DriverProofs.PollChildrenOk | core/src/server.rs:373-380 | whatever the polling order, a batch has collected the outputs of exactly its finished members, new ones last |
| DriverProofs.DispatchIs | core/src/server.rs:163-189 | each call of a request is given to the handler of its name and kind with its own arguments; without one it comes to method-not-found, invalid-request or nothing |
| DriverProofs.PollDriverOk | core/src/server.rs:357-393 | one poll of a driver finishes it with the right answer sent, breaks it by a handler's error or the closed channel, or leaves it waiting, for a single call exactly if its future or the channel is not ready, for a batch with less to wait for |
| DriverProofs.WaitBound | core/src/server.rs:357-393 | a driver never has to wait longer than its handlers and the channel ask for |
| DriverProofs.RightAnswerIs | core/src/server.rs:357-393 | the right answer of a request is what its calls give, call by call |
| DriverProofs.OneOutputPerCall | core/src/server.rs:163-189 | a batch owes one output for each method call and invalid member, with its id if handlers echo it, none for a notification |
| ServerProofs.PollServerOk | core/src/server.rs:325-340 | a poll of a healthy server keeps all books, polls no finished future and leaves none in the table unless it fails |
| ServerProofs.ProcessRequestOk | core/src/server.rs:352-402 | taking a request keeps all books |
| ServerProgress.AnsweredAtOnce | core/src/server.rs:394-400 | a request whose futures are all ready is answered when it is taken, with what its calls give, and nothing is kept |
| ServerProgress.CallAnsweredAtOnce | core/src/server.rs:357-372 | a single call that is ready sends its output as it is; a notification sends nothing |
| ServerProgress.RoundError | core/src/server.rs:325-333 | a round fails iff some future does, with the error of the first one, and kills the request of that future |
| ServerProgress.PollAdvances | core/src/server.rs:325-340 | a poll that does not fail brings every pending request one poll closer to its answer |
| ServerProgress.TakenAppends | core/src/server.rs:290-293 | taking a request leaves the pending ones and their fates as they are |
| ClientMachine.Client.constructor | core/src/lib.rs:288-318 | a new client is the start of the state machine |
| ClientMachine.Client.Poll | core/src/lib.rs:527-536 | one poll, with both ways into the shutdown; it leads to a reached state |
| ClientMachine.Client.HandleMessages | core/src/lib.rs:326-340 | the five stages in order, stopping at the first error |
| ClientMachine.Client.RetryParked | core/src/lib.rs:328-330 | the parked payload is taken out and offered again |
| ClientMachine.Client.SendPayload | core/src/lib.rs:342-352 | a payload the sink is ready for is sent, one it refuses is parked, one it fails on is lost with a transport error |
| ClientMachine.Client.PollServer | core/src/lib.rs:462-470 | the server is driven unless the client is shutting down |
| ClientMachine.Client.PollTransportRx | core/src/lib.rs:354-372 | the drain loop over the transport stream, and which answer or text ends it with which error |
| ClientMachine.Client.HandleTransportRxPayload | core/src/lib.rs:374-383 | requests go to the server, responses to their call, the rest is an error |
| ClientMachine.Client.HandleResponse | core/src/lib.rs:385-401 | a version 2.0 response completes the call with its id, with the value or the error it carries, and is otherwise ignored |
| ClientMachine.Client.PollOutgoingMessages | core/src/lib.rs:403-422 | messages are dequeued only while nothing is parked |
| ClientMachine.Client.HandleClientPayload | core/src/lib.rs:424-460 | calls are registered and sent, notifications completed and sent, responses sent, each with its own content, and what happens if they do not serialise |
| ClientMachine.Client.PollTransportTx | core/src/lib.rs:512-519 | the sink is flushed unless there is a fatal error; a failing flush is a transport error |
| ClientMachine.Client.HandleShutdown | core/src/lib.rs:478-506 | the stream is drained, the sink closed, and the result taken from the latch |
| ClientLedger.NewCall | core/src/lib.rs:426-436 | a call is registered under an id nobody waits for, or completed with the serialisation error |
| ClientLedger.AwaitedResponse | core/src/lib.rs:396-399 | the response of a pending call completes it and keeps the ledger |
| ClientLedger.StrayResponse | core/src/lib.rs:396-399 | a response nobody waits for keeps the ledger |
| ClientProofs.PollOk | core/src/lib.rs:527-536 | every poll keeps the invariant and the latch, and loses nothing the stream yields |
| ClientProofs.RunOk | core/src/lib.rs:527-536 | so does every run, whatever the surroundings add between polls |
| ClientTheorems.AnswerMatching | core/src/lib.rs:385-401 | a call waits until a 2.0 response with its id is processed; the first one after it was registered completes it with the value or the error it carries |
| ClientTheorems.IdLedger | core/src/lib.rs:508-510 | issued ids split into pending and completed, each completed at most once, and the next id is unused |
| ClientTheorems.AtMostOnce | core/src/lib.rs:472-476 | no completion channel is used twice |
| ClientTheorems.CallersAreTold | core/src/lib.rs:438-476 | exactly the receivers not dropped are told, in order, the outcome of their call or notification |
| ClientTheorems.LosslessOutput | core/src/lib.rs:403-460 | accepted payloads, then the parked one, are the requests and responses of the dequeued messages, with their own names and parameters, in order, until the sink fails |
| ClientTheorems.BackPressure | core/src/lib.rs:342-352 | what was sent is what the sink accepted; a refused payload is parked and offered again before any other; one is lost only to a failing sink |
| ClientSources.SinkAnswers | core/src/lib.rs:342-352 | over a run the answers recorded with the texts offered are those the sink gave, in order |
| ClientSources.RetriesFirst | core/src/lib.rs:328-330 | every poll outside a shutdown offers the parked payload first |
| ClientTheorems.FirstErrorWins | core/src/lib.rs:527-536 | the client fails with e iff e was the error that started the shutdown, and resolves iff that was a shutdown |
| ClientTheorems.FirstErrorIsRecorded | core/src/lib.rs:529-533 | the error that starts the shutdown is the one `handle_messages` returned |
| ClientCauses.RxCause | core/src/lib.rs:354-394 | reading ends with a shutdown at the end of the stream, a transport error if it fails, an invalid version or a deserialisation error at the first bad text, and well where it is not ready |
| ClientCauses.OutgoingCause | core/src/lib.rs:403-460 | taking messages ends with a shutdown at the end of the selector, a serialisation error at such a response, a transport error if the sink fails, and well if it refuses or nothing is ready |
| ClientCauses.MessagesCause | core/src/lib.rs:326-340 | `handle_messages` fails iff something goes wrong in one of its stages, with what the first such event stands for |
| ClientCauses.MessagesEndOnce | core/src/lib.rs:326-340 | these events leave no choice of the error |
| ClientCauses.PollCause | core/src/lib.rs:529-533 | the error that starts the shutdown of a reached client is the one the poll's first bad event stands for |
| ClientCauses.EndHasCause | core/src/lib.rs:527-536 | over a run the first bad event decides whether the client resolves or fails, and with what |
| ClientTheorems.ResolvesWhenClosed | core/src/lib.rs:485-505 | a client shutting down, or starting to, ends in the first poll in which closing the sink is done or fails; no other poll touches the closing |
| ClientTheorems.ShutdownIsFinal | core/src/lib.rs:478-506 | from then on nothing is dequeued, no id issued, nothing offered to the sink |
| ClientTheorems.NoFinishedFutureIsPolled | core/src/server.rs:325-340 | no server future is polled after it returned `Ready` or `Err` |
| ClientTheorems.RequestConservation | core/src/server.rs:352-402 | a request is pending under one unique key below the counter, or answered, or dead; answers with output are enqueued once each |
| ClientTheorems.RequestAnswer | core/src/server.rs:357-402 | an answered request carries exactly what its calls give, a dead one died of a handler's error or of the closed channel |
| ClientProgress.EveryRequestIsAnswered | core/src/server.rs:325-402 | while the client meets no error, every request taken is answered, with what its calls give, after at most one poll more than its slowest handler and the channel make it wait |
| ClientTheorems.BatchAnswer | core/src/server.rs:373-390 | a batch is answered by one response holding one output per method call or invalid member, with its id if handlers echo it, and not at all if there are none |
| ClientTheorems.CompletionOrderIrrelevant | core/src/server.rs:374-390 | two clients that took the same request, with the same handler results at any times in any order, give the same answer up to the order of a batch's outputs, unless one's response channel was closed |
| ClientSources.RegistryLinearises | core/src/server.rs:295-318 | over a run the registry messages consumed are all its channel held up to some position, applied in that order and each answered on its own channel for what it found; each request meets the registry of its moment |
| ClientSources.DequeuedMerges | core/src/lib.rs:403-422 | over a run the messages dequeued merge what the callers handed in with what the server enqueued, each in order; all others still wait in the selector |
| ClientSources.ReceivesAll | core/src/lib.rs:354-372 | over a run the texts received, then those still in the stream, are those handed in |
| ClientDrains.RequestsMeetFreshRegistry | core/src/lib.rs:331-334 | requests read by `handle_messages` are taken after exactly the registry messages ready in the channel were consumed, and meet the registry they leave |
| ClientDrains.Quiescence | core/src/lib.rs:326-340 | a poll that is not done, outside a shutdown, drained the stream, parked a payload or found no outgoing source ready, and flushed the sink |
| ClientDrains.ChannelErrorIsUnreachable | core/src/lib.rs:416-418 | the drain loop over outgoing messages never gets to its `unreachable!` |
| ClientDrains.ShutdownDelivers | core/src/lib.rs:478-484 | a pending call whose answer the stream yields during the shutdown is completed by it in that poll |
| ClientDrains.EnteringDelivers | core/src/lib.rs:527-536 | so it is in the poll that starts the shutdown |
| ClientBlind.DroppedCallersUnobservable | core/src/lib.rs:472-476 | two runs that differ in the dropped receivers agree on everything else |
| ClientReentry.RoundRepolls | core/src/server.rs:325-340 | a round polls a finished future iff it gets to one before a future that fails |
| ClientReentry.RepollsIff | core/src/lib.rs:326-340 | so does a poll of any client iff it is not shutting down, the retry of a parked payload does not fail, and its round does |
| ClientReentry.ReentryIff | core/src/lib.rs:502-505 | polled after its end, a resolved client never polls a finished future; a failed one does under exactly that condition |
| ClientReentry.ReentryHappens | core/src/server.rs:396-400 | two polls lead to such a client |
| Duplex.PollOnward | core/src/lib.rs:527-536 | a poll only adds to what was sent and enqueued, and every response dequeued was made by the server |
| Duplex.SysRunOk | core/src/lib.rs:374-383 | the two clients keep their invariants and the wires stay lossless and in order |
| Duplex.EndToEnd | core/src/lib.rs:374-401 | a call that is completed gets the value or error the peer's handler gave for the call's own name and parameters, or method-not-found if it had none |
| PubSub.Delivery | pubsub/src/lib.rs:311-338 | the sends attempted on a channel are the results routed to it, in order; no unfinished future is overwritten |
| PubSub.LifeCycle | pubsub/src/lib.rs:343-375 | subscribers and the wish to shut down follow the consumed messages; every job is polled before the handler ends |
| PubSub.JobAdvances | pubsub/src/lib.rs:326-337 | every poll brings the current future one step on, and no message is taken before it is done |
| PubSub.JobsArePaced | pubsub/src/lib.rs:326-337 | a job takes exactly as many polls as it asks for |
| PubSub.PollOutcome | pubsub/src/lib.rs:343-375 | what a poll takes and returns is decided by the selector's answers and the wish to shut down |
| PubSub.WaitsForSomething | pubsub/src/lib.rs:343-364 | a poll that is not done waits for its future or found neither stream ready |
| PubSub.ConsumedMerges | pubsub/src/lib.rs:343-364 | over a run the messages consumed merge the notifications and the control messages handed in, each in order; the rest is still in its stream |
| PubSub.SubscribedIff | pubsub/src/lib.rs:292-309 | a channel is subscribed to an id iff some message subscribed it and none later was about the subscription itself |
| PubSub.EndsWithSubscribersIff | pubsub/src/lib.rs:296-309 | a handler that resolves while its messages go on leaves a live subscriber iff a subscription was consumed after the last removal |
| PubSub.MayEndWithSubscribers | pubsub/src/lib.rs:292-309 | there is such a run |
| NotificationMachine.NotificationHandler.constructor | pubsub/src/lib.rs:271-290 | a new handler is the start of the state machine |
| NotificationMachine.NotificationHandler.HandleNewSubscription | pubsub/src/lib.rs:292-294 | a subscriber is registered, replacing an earlier one with its id |
| NotificationMachine.NotificationHandler.HandleRemoval | pubsub/src/lib.rs:296-309 | a subscriber is removed, an unsubscribe started, the wish to shut down renewed |
| NotificationMachine.NotificationHandler.HandleNewMessage | pubsub/src/lib.rs:311-324 | a result is sent to its subscriber, or dropped if there is none |
| NotificationMachine.NotificationHandler.ReadyForNextConnection | pubsub/src/lib.rs:326-337 | the current future is polled and let go of once done |
| NotificationMachine.NotificationHandler.Poll | pubsub/src/lib.rs:343-375 | one poll takes the step of the state machine and leads to a reached state |

## Left out

- JSON text and serde: texts are kept decoded. A single response decodes to a response, a request or batch of calls to a
  request, everything else (a batch of responses included) is malformed.
- HTTP and IPC transports, timeouts, TLS, executors and client creators: they are the scripts of the transport.
- The `jsonrpc_client!` macro, `ClientHandle` and `ServerHandle` futures: a caller is a message with a completion channel;
  the conversion of a result into the caller's type is left to serde.
- Task wake-up: readiness is an input and no liveness is claimed beyond quiescence. An error of the eager poll is stored
  and surfaces at the next poll of the server, whenever that is.
- Capacity of the channels: the response channel takes a message after any number of refusals, or reports that it is
  closed, as the surroundings decide.
- `Subscriber::subscribe` and the spawning of notification handlers, including the parsing of notification parameters.
- Dropping the server or a handler: clearing a registry that nobody uses any more.
- A payload still parked when the shutdown starts: `handle_shutdown` does not send it, and nothing is claimed about it
  but that it stays parked.
- ClientTheorems.IdLedger: freshness holds for fewer than 2^64 - 1 calls, because the counter has no guard against wrapping.
- ClientTheorems.RequestConservation: likewise for fewer than 2^64 - 1 futures in the life of one server. A message counts
  as enqueued in the poll that finishes its driver; a send on a bounded channel may have passed its message on while its
  future still waits, so that an answer is enqueued exactly when its request is settled is a property of this channel.
- ClientProgress.EveryRequestIsAnswered: assumes that the rounds of a batch reach its live members, which the executor of
  the futures has to see to; a future that waits for ever answers nothing.
- Duplex.EndToEnd: assumes that B's handlers answer with the id of the call they were given, that the wires lose and
  invent nothing (they may stall, end or fail), and that nobody hands a forged response to a client handle.
