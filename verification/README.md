# A verified model of async-ucx's protocols

async-ucx puts Rust futures on top of the UCX communication library. Most of it passes arguments to
foreign functions; what it adds of its own is a handful of small protocols, and this project models
those and proves what they promise:

- **Status words** (`StatusWords.dfy`): the 64-bit word that is null, a request or a sign-extended error.
- **Requests and wake-ups** (`Completion.dfy`, `Requests.dfy`): the check-register-check poll against
  completion callbacks, over recycled request memory that may hold a stale waker; and the operations
  that issue a request and await it.
- **Active messages** (`Scatter.dfy`, `AmMessage.dfy`, `AmStream.dfy`, `AmWorker.dfy`, `AmDelivery.dfy`,
  `Forgetting.dfy`, `AmRegistry.dfy`): the classification of incoming data, the receive routes and the
  in-place copy, the queue and its waiters, the registry of streams, the delivery of messages from UCX to
  the user, the conservation of the buffers that UCX lends, and which of them are lost.
- **Endpoints** (`Endpoint.dfy`, `EndpointObject.dfy`): the closed flag, the status and the weak
  reference lent to UCX, under interleaved clones, closes, drops and error-handler calls; and the
  greeting that hides connection set-up (`Greeting.dfy`).
- **Workers** (`EventLoop.dfy`, `KeepAlive.dfy`): the event loop that never sleeps on an event, and who
  keeps whom alive.

A protocol is a state machine: a function from a state and a labelled step to the next state, or none.
`Runs.dfy` says once what a run is and that what every step keeps, every run keeps. The objects that
the source updates in place are classes, whose methods are proved against the machines: a poll of a
`RequestHandle` is what `Completion` does to its slot and its future, the worker's two maps change as
`AmWorker` opens streams and sets handlers, a stream's and an endpoint record's methods are the functions
of `AmStream` and `Endpoint`, and a poll of `event_poll` is a run of `EventLoop` in which UCX does what it
did. The methods on message data and buffers are proved against functions and relations of their own
modules (`AmMessage`, `Scatter`). What those functions do is not taken for granted either: laws beside
them say what each step changes and leaves alone. `Wrappers.dfy` holds the option, result and poll types.

UCX is the environment, under these assumptions: a worker is used by one thread (so the streams and the
endpoints are modelled at the grain of whole polls and callbacks, while the wake-up protocol is modelled
in micro-steps anyway); a request's final status is visible no later than its callback; memory of a
request freed in flight is reused only after the callback; the error handler is not called for an
endpoint already marked closed; a receive of rendezvous data that UCX refuses leaves the buffer with the
caller, and one that it accepts takes it; a forced close in `Drop` counts as accepted, since the code
ignores the answer; arming succeeds only when no event is pending and then reports the next one; a stream
delivers bytes in order. `tokio::sync::Notify` stores one permit at most, wakes in order and passes on the
notification of a cancelled waiter. `AtomicWaker`'s register and wake are atomic.

Values that come from UCX's headers rather than from this repository are UCS_ERR_LAST = -100, the
statuses -9 (message truncated), -15 (busy) and -25 (connection reset), and the receive attribute bits
16 (data) and 17 (rendezvous).

Where the code promises less than one would expect, the lemma states exactly what it does promise:

- The copy into several buffers stops at the first empty one, so it delivers the whole payload exactly
  if the payload fits before that (`Scatter.WholePayloadIff`).
- A buffer that UCX was told is retained is forgotten, and then never given back, exactly if its payload is
  empty, if a data message is received into too little room, if UCX refuses to receive its rendezvous data,
  or if its message is still queued when the stream goes (`Forgetting.HowBuffersAreForgotten`,
  `Forgetting.ForgottenForGood`). A run takes each of the four ways (`Forgetting.EachWayHappens`).
- Endpoints can be cloned, but dropping any clone closes the connection for all of them; an open
  endpoint is one of which nothing was ever dropped (`Endpoint.EveryRunIsSafe`).
- A status reported by the error handler is overwritten by "connection reset" when the endpoint closes.
- A pointer whose low byte is zero would decode to "OK" (`StatusWords.PointersMayDecodeToOk`).
- The closed flag says that the crate knows of the closing, not that UCX does: while a close is polled, and
  after one that failed or was cancelled, the endpoint counts as open and is used
  (`Endpoint.WhenCallsComeLate`, `Endpoint.CallsDoComeLate`).
- Two polling loops on one worker keep it and each other alive through every run that kills neither
  (`KeepAlive.TwoLoopsNeverEnd`), and a worker may be left to just them (`KeepAlive.TwoLoopsAreReachable`).
- The greeting is invisible exactly if the accepting side's first receive gets it whole
  (`Greeting.GreetingIsInvisibleIffWhole`).

## Model

| member | source | states |
|---|---|---|
| `StatusWords.ExactlyOneKind` | ucx1-sys/src/lib.rs:25-31 | null, pointer and error words are disjoint and cover all 2^64 values |
| `StatusWords.PointerTestsAgree` | ucx1-sys/src/lib.rs:29-31 | the wrapping and the overflow-checked pointer tests agree on a word if and only if it is not null |
| `StatusWords.DecodeEncode` | ucx1-sys/src/lib.rs:33-35 | sign-extending an error status and reading the low byte back returns it, and the word is an error word |
| `StatusWords.EncodeDecode` | ucx1-sys/src/lib.rs:25-35 | a word is an error word exactly if it is the sign extension of the error status its low byte decodes to |
| `StatusWords.PtrStatusMeaning` | ucx1-sys/src/lib.rs:37-43 | `UCS_PTR_STATUS` is OK exactly for null, in-progress exactly for pointers, an error exactly for error words |
| `StatusWords.UnwrapErrIsSafe` | src/lib.rs:147-164 | `from_ptr(..).unwrap_err()` succeeds exactly on words that are neither null nor pointers, and never yields OK |
| `StatusWords.AcceptedWordsAreRequests` | src/ucp/endpoint/tag.rs:53-58 | the word `tag_recv` awaits is a request exactly if UCX did not return null |
| `StatusWords.PointersMayDecodeToOk` | ucx1-sys/src/lib.rs:33-35 | decoding an untested word reads OK exactly if its low byte is zero, which a pointer's may be |
| `Completion.EveryRunIsSafe` | src/ucp/endpoint/mod.rs:309-326 | in every interleaving of micro-steps, futures, recycled slots and drops: every parked future is woken or will be, every request is freed once when due and never otherwise, callbacks run once, slots are reused only after free and callback, no access meets a freed request, and futures report their own request's status |
| `Completion.StepKeepsInv` | src/ucp/endpoint/mod.rs:253-335 | each micro-step of handles, close loops and UCX keeps the invariant behind these claims |
| `Completion.StaleWakersOnlyNotify` | src/ucp/mod.rs:160-172 | a completion callback takes whatever waker it finds, stale or not, and outside its own slot it only notifies the futures polled with that waker; a request without callback keeps it |
| `Completion.SpuriousWakesParkAgain` | src/ucp/endpoint/mod.rs:311-318 | a future woken through a stale waker is parked again by its next poll, with its new waker registered |
| `Completion.CompletionReachesItsFuture` | src/ucp/endpoint/mod.rs:214-228 | completing the request of a parked future notifies it, and its next poll returns the published status |
| `Completion.SlotsChangeOnlySo` | src/ucp/mod.rs:160-172 | only UCX moves a request on, and only its future and its callback move the waker of a slot, so recycled memory keeps its stale waker and new memory has none |
| `Completion.OthersDoNotMove` | src/ucp/endpoint/mod.rs:311-326 | a step of UCX or of another future leaves a future as it is, but that a callback notifies it if it takes its waker |
| `Completion.CloseLoopYields` | src/ucp/endpoint/mod.rs:253-261 | while the request of a close runs, a turn of its loop yields, to be polled again, and changes nothing else |
| `Completion.CloseLoopEnds` | src/ucp/endpoint/mod.rs:253-258 | once the request is complete, the next turn ends the loop with the request's status and frees it |
| `Completion.PollAtOnceIsARun` | src/ucp/endpoint/mod.rs:311-318 | a poll without interleaving is a run of the micro-steps, so what holds of every run holds of it |
| `Completion.PollAtOnceIsLocal` | src/ucp/endpoint/mod.rs:311-318 | a poll reads and changes nothing but its own slot and future, which become what the poll of one request makes of them |
| `Requests.PollNormal` | src/ucp/endpoint/mod.rs:328-335 | pending while in progress, else the result of the final status |
| `Requests.RequestHandle.Poll` | src/ucp/endpoint/mod.rs:311-318 | leaves the request and the future as the state machine's poll does, and is ready exactly if the request is complete |
| `Requests.Await` | src/ucp/endpoint/mod.rs:309-326 | polled again only when its waker was woken, it still ends, once the request is complete, with the result of the final status and exactly one free |
| `Requests.AwaitOperation` | src/ucp/endpoint/mod.rs:219-231 | `flush`, and with the same dispatch `put` and `get`: success exactly if the operation ended with OK, else its error, whichever word UCX returned |
| `Requests.AwaitSend` | src/ucp/endpoint/am.rs:590-601 | `am_send`: the same, with the unwrap of the error word never failing and null never reaching the pointer test |
| `Requests.AwaitSized` | src/ucp/endpoint/stream.rs:26-37 | `stream_send` and `tag_send`: the length exactly if the operation ended with OK, else its error |
| `Scatter.CopyDataToIov` | src/ucp/endpoint/am.rs:193-214 | fails exactly if the total room is too small, and then writes nothing; else the buffers hold the data's prefix and are otherwise unchanged, and the count is what fits before the first empty buffer |
| `Scatter.FillBuffers` | src/ucp/endpoint/am.rs:200-213 | the copying loop on its own |
| `Scatter.TotalLength` | src/ucp/endpoint/am.rs:195-198 | the fold computes the length of the concatenated buffers |
| `Scatter.FilledPrefix` | src/ucp/endpoint/am.rs:200-213 | after k turns the first k buffers hold a prefix of the data without gaps, and what they held before after it |
| `Scatter.WholePayloadIff` | src/ucp/endpoint/am.rs:200-213 | the whole payload arrives exactly if it fits before the first empty buffer |
| `Scatter.NoEmptyBuffersDeliverAll` | src/ucp/endpoint/am.rs:193-214 | without empty buffers, enough total room delivers the whole payload |
| `Scatter.EmptyBufferStopsTheCopy` | src/ucp/endpoint/am.rs:203-205 | with an empty buffer first, a call with data to copy and room enough succeeds with 0 and leaves every buffer as it was |
| `AmMessage.ClassificationAgrees` | src/ucp/endpoint/am.rs:35-45 | a message keeps a buffer exactly if the callback answers in-progress and the payload is not empty; which flags make it eager, data or rendezvous, the data flag winning |
| `AmMessage.PayloadIsWhatCame` | src/ucp/endpoint/am.rs:35-54 | a message made from some bytes has them for its payload, except that rendezvous data is still to be received |
| `AmMessage.EffectsSettleTheBuffer` | src/ucp/endpoint/am.rs:192-298 | every receive or drop disposes of exactly the buffer the message holds, and only a truncated data receive or a refused rendezvous one forgets it |
| `AmMessage.AmMsg.RecvDataVectored` | src/ucp/endpoint/am.rs:192-298 | the outcome and the effect on UCX's buffer for every kind of data, the contents of the buffers for all but rendezvous data; the message is empty afterwards in every case |
| `AmMessage.AmMsg.RecvDataSingle` | src/ucp/endpoint/am.rs:182-189 | into one buffer with room enough: the payload in front, the rest unchanged; else truncation |
| `AmMessage.AmMsg.RecvData` | src/ucp/endpoint/am.rs:154-174 | eager and data messages yield their payload, empty ones the empty vector, rendezvous ones a vector of the announced length; nothing is read after release |
| `AmMessage.AmMsg.GetData` | src/ucp/endpoint/am.rs:139-144 | the payload of eager and data messages, none for rendezvous ones |
| `AmMessage.AmMsg.Drop` | src/ucp/endpoint/am.rs:340-359 | the buffer of an unreceived message is released exactly once |
| `AmMessage.RoutesAgree` | src/ucp/endpoint/am.rs:154-226 | three messages with the same payload, received as a vector, into one buffer and into several non-empty ones with room enough, yield the same bytes |
| `AmMessage.ReceiveRepeatedly` | src/ucp/endpoint/am.rs:154-298 | over any sequence of calls of the three routes on one message: the payload comes at most once, only the first call can yield bytes or fail, it alone settles UCX's buffer, and the message is empty from then on |
| `AmStream.EveryRunIsSafe` | src/ucp/endpoint/am.rs:386-423 | with any number of waiters, cancellations and unregistrations: while one is parked no permit is stored and each queued message has a notified waiter to fetch it; returned plus queued is what was pushed |
| `AmStream.NobodyWaitsBesideAMessage` | src/ucp/endpoint/am.rs:404-423 | once all notified waiters ran, nobody is parked while a message is queued |
| `AmStream.PendingMeansParked` | src/ucp/endpoint/am.rs:411-422 | a poll leaves its call parked exactly if it answers pending |
| `AmStream.WaitingCallsAreKnown` | src/ucp/endpoint/am.rs:386-423 | after every run, the parked and the notified calls are exactly those whose last poll was pending and that were not dropped since |
| `AmStream.NotificationsComeInTurn` | src/ucp/endpoint/am.rs:404-418 | a push, or dropping a call notified in vain, notifies the call parked longest and no other |
| `AmStream.PermitsAreStored` | src/ucp/endpoint/am.rs:404-418 | with nobody parked it stores a permit, which stays until a call parks |
| `AmStream.WhenACallEnds` | src/ucp/endpoint/am.rs:411-422 | a call returns nothing exactly if the stream is unregistered and drained, and waits exactly if it is registered and empty |
| `AmStream.UnregisteredStreamDrains` | src/ucp/endpoint/am.rs:398-422 | after unregistration the next calls return the messages left, in order, and every later call nothing |
| `AmStream.AmStreamInner.Callback` | src/ucp/endpoint/am.rs:404-408 | pushes at the end of the queue and notifies one waiter |
| `AmStream.AmStreamInner.SetUnregistered` | src/ucp/endpoint/am.rs:398-401 | sets the flag and nothing else, so parked waiters are not notified |
| `AmStream.AmStreamInner.WaitMsg` | src/ucp/endpoint/am.rs:411-422 | the loop, with its stored permit, does what the one-step poll of the state machine does, and is pending exactly if its call is parked |
| `AmWorker.EveryRunIsSafe` | src/ucp/endpoint/am.rs:34-492 | after any calls, callbacks, polls and drops: registry and UCX agree on every id and UCX points at live streams only, every stream is safe, and every retained buffer is queued once, held once, released once, handed over once or forgotten |
| `AmWorker.StepKeepsInv` | src/ucp/endpoint/am.rs:34-492 | each step keeps that invariant |
| `AmDelivery.EveryStreamLivesAlone` | src/ucp/endpoint/am.rs:379-492 | in every run of a worker each stream is as its own pushes, polls, cancellations and unregistration alone leave it |
| `AmDelivery.EveryWaitingCallIsKnown` | src/ucp/endpoint/am.rs:386-423 | so each stream of a worker knows exactly the calls that still wait on it |
| `AmDelivery.MessagesChangeOnlySo` | src/ucp/endpoint/am.rs:154-422 | a poll hands out the first queued message as it was queued, a receive empties it, a drop removes it, and nothing else touches a held message |
| `AmDelivery.DeliveredInOrder` | src/ucp/endpoint/am.rs:404-446 | in every run, what users were handed from a stream and then what it queues is what UCX delivered to it, id and data, in order |
| `AmDelivery.LentBuffersHoldWhatCame` | src/ucp/endpoint/am.rs:35-54 | in every run, a buffer that is still lent holds the bytes that came in it |
| `AmDelivery.DeliveredThenFetched` | src/ucp/endpoint/am.rs:404-446 | from any reachable state, bytes delivered on an id with an empty queue and then fetched are the payload of a message with that id |
| `AmDelivery.HandlesAreCounted` | src/ucp/endpoint/am.rs:428-464 | opening and cloning add one handle of a stream, dropping takes one, and nothing else changes their number |
| `AmDelivery.WhenAStreamGoes` | src/ucp/endpoint/am.rs:428-492 | a stream goes exactly with the last reference to it, a handle's or the registry's |
| `Forgetting.HowBuffersAreForgotten` | src/ucp/endpoint/am.rs:36-224 | a buffer is forgotten after a step exactly if it was before or the step forgets it in one of four ways, each told by the state and the step |
| `Forgetting.ForgottenIffSomeStepForgets` | src/ucp/endpoint/am.rs:34-492 | a run has forgotten a buffer exactly if one of its steps did so |
| `Forgetting.ForgottenForGood` | src/ucp/endpoint/am.rs:34-492 | a forgotten buffer is still lent after every later run and was neither released nor handed over |
| `Forgetting.EachWayHappens` | src/ucp/endpoint/am.rs:36-298 | for each of the four ways, a run from the start that forgets a buffer |
| `AmWorker.UnregisteredStreamGetsNoMore` | src/ucp/endpoint/am.rs:485-489 | nothing is ever pushed on an unregistered stream again |
| `AmWorker.UnregisteredStreamKeepsItsMessages` | src/ucp/endpoint/am.rs:398-422 | through every run, what an unregistered stream returned and what it still queues add up to the same messages in the same order |
| `AmWorker.OpeningAgainGivesTheSameStream` | src/ucp/endpoint/am.rs:428-464 | until another handler is registered for the id, `am_stream` shares the same stream, whatever UCX would answer |
| `AmRegistry.Worker.AmRegister` | src/ucp/endpoint/am.rs:469-492 | on success UCX has the handler passed and the stream it replaces is unregistered and removed; on failure nothing changes; both are the state machine's step for every state that matches the maps |
| `AmRegistry.Worker.AmStream` | src/ucp/endpoint/am.rs:428-464 | the open stream, or a new one published with UCX's pointer to it, or the error and no change; each is the state machine's step |
| `AmRegistry.RegisterIsAStep` | src/ucp/endpoint/am.rs:469-492 | replacing a handler in the maps keeps them matched with the state machine's handlers, registry and streams |
| `AmRegistry.PublishIsAStep` | src/ucp/endpoint/am.rs:428-464 | so does publishing a new stream |
| `Endpoint.EveryRunIsSafe` | src/ucp/endpoint/mod.rs:22-301 | under every schedule: no UCX call on a handle marked closed, the weak reference is out exactly while the endpoint is open and given back once, closed implies the reset status, open implies that nothing was ever dropped |
| `Endpoint.ClosingIsForGood` | src/ucp/endpoint/mod.rs:38-65 | a closed record never changes again, and an error status never returns to OK |
| `Endpoint.StatusIsTheLastReported` | src/ucp/endpoint/mod.rs:59-92 | in every run an open endpoint has the status that the error handler reported last, or OK, and a closed one was reset |
| `Endpoint.WhenACloseIsRefused` | src/ucp/endpoint/mod.rs:235-240 | a gentle close is refused exactly on an error status, with that error, a forced one exactly on a closed endpoint, with success |
| `Endpoint.ClosedEndpointsIssueNothing` | src/ucp/endpoint/mod.rs:198-301 | once an endpoint is marked closed, no close, drop or operation calls UCX |
| `Endpoint.StepPolling` | src/ucp/endpoint/mod.rs:248-266 | a close polls exactly from a pointer answer to an unrefused call until its request has ended or it is dropped |
| `Endpoint.EndpointsAreCounted` | src/ucp/endpoint/mod.rs:74-301 | in every run there are as many endpoints as were made and not dropped |
| `Endpoint.ClosedIffDroppedOrClosedWell` | src/ucp/endpoint/mod.rs:235-301 | a run leaves the endpoint closed exactly if it finished a drop, or finished a close to which UCX had answered null or whose request had ended with OK |
| `Endpoint.WhenCallsComeLate` | src/ucp/endpoint/mod.rs:235-301 | UCX has accepted a close exactly if the endpoint is marked or a close or drop is under way, failed or cancelled; a run calls UCX after that exactly if a step does so in one of the latter cases, never once it is marked |
| `Endpoint.CallsDoComeLate` | src/ucp/endpoint/mod.rs:248-272 | two runs that do: an operation while a close is polled, and a second close after one that failed |
| `Endpoint.HandlerIsSafeIffOpen` | src/ucp/endpoint/mod.rs:89-101 | the error handler's upgrade succeeds exactly if the endpoint is open; once it is closed the pointer would dangle |
| `Endpoint.LastDropFreesTheRecord` | src/ucp/endpoint/mod.rs:287-301 | when the last endpoint is gone, UCX holds no reference to the record |
| `Endpoint.ClosingAgain` | src/ucp/endpoint/mod.rs:235-240 | on a closed endpoint a gentle close fails with a reset connection, a forced one succeeds, neither asks UCX, and operations are refused |
| `EndpointObject.EndpointInner.Closed` | src/ucp/endpoint/mod.rs:38-53 | only the first call takes the weak reference back and sets the status |
| `EndpointObject.EndpointHandle.GetHandle` | src/ucp/endpoint/mod.rs:198-201 | lets a caller through exactly if the status is OK, and never once the endpoint is closed |
| `EndpointObject.EndpointHandle.Close` | src/ucp/endpoint/mod.rs:235-273 | an error status refuses a gentle close with that error, the mark lets a forced one succeed, both without asking UCX; else UCX is asked in that mode, the result is that of the operation, which is complete, the mark is set exactly on success, and a request is freed exactly if there was one |
| `EndpointObject.EndpointHandle.Drop` | src/ucp/endpoint/mod.rs:287-301 | leaves the endpoint closed, whichever clone is dropped, and asks UCX for a forced close exactly if it was open |
| `EndpointObject.EndpointHandle.ErrorHandler` | src/ucp/endpoint/mod.rs:59-95 | records every status but OK and leaves the endpoint open |
| `EndpointObject.OperateAfterError` | src/ucp/endpoint/mod.rs:59-201 | after the error handler reported an error, an operation is refused with that error |
| `EndpointObject.Create` | src/ucp/endpoint/mod.rs:82-123 | a fresh open record with one reference lent, or the error |
| `Greeting.GreetingIsInvisibleIffWhole` | src/ucp/endpoint/mod.rs:145-184 | for any chunking, the accepting user reads a prefix of what the connecting user sent, exactly if the first receive got all four bytes |
| `Greeting.ReadsAreWhatWasReceived` | src/ucp/endpoint/mod.rs:145-184 | whatever was swallowed, the accepting user reads every byte received after it, in order, and nothing else |
| `EventLoop.EveryRunIsSafe` | src/ucp/worker.rs:63-75 | over every interleaving of events: the loop never sleeps beside an unprocessed event that the descriptor does not report, and ends only with the last reference |
| `EventLoop.EventPoll.Poll` | src/ucp/worker.rs:66-72 | one poll, with events coming at every call and any answers to arming, is a run of the state machine in which UCX does exactly what it did; it suspends only with nothing pending and the descriptor armed and not readable, returns exactly with the last reference, and panics exactly if arming failed, with that error |
| `EventLoop.EventPoll.ArmOnce` | src/ucp/worker.rs:68-71 | an error from arming is a panic with that error, and nothing else is |
| `EventLoop.PanicsIffArmingFailed` | src/ucp/worker.rs:66-72 | in every run the loop ends in the panic exactly if its arming failed, and ends well exactly if it found that it had the last reference |
| `EventLoop.EventsAreConserved` | src/ucp/worker.rs:53-67 | in every run each event that came was processed once or is pending |
| `EventLoop.Start` | src/ucp/worker.rs:63-75 | the error of `event_fd` before the loop, else that poll from the loop's start |
| `EventLoop.UcxWorker.TryArm` | src/ucp/worker.rs:144-151 | OK means armed, busy means not, any other status is an error |
| `EventLoop.UcxWorker.Drain` | src/ucp/worker.rs:53-67 | the inner loop processes every pending event, those that come meanwhile included, as a run of the state machine |
| `EventLoop.UcxWorker.Polling` | src/ucp/worker.rs:51-56 | a turn drains the events and yields, or ends exactly if it holds the last reference |
| `KeepAlive.DestructionOrder` | src/ucp/worker.rs:15-48 | a destroyed worker has no endpoint left and all its endpoints were closed; a cleaned-up context has no worker left |
| `KeepAlive.PollingEndsIffLast` | src/ucp/worker.rs:51-56 | a polling loop ends exactly if its reference is the only one, and the worker ends with it |
| `KeepAlive.TwoLoopsNeverEnd` | src/ucp/worker.rs:51-56 | two loops on one worker keep it and each other alive through every run in which neither is killed |
| `KeepAlive.HoldersStayUntilTheyLetGo` | src/ucp/worker.rs:51-56 | each holder stays until the step that lets go of it, and a loop's turn lets go exactly as the last holder |
| `KeepAlive.WhenAWorkerGoes` | src/ucp/worker.rs:15-56 | a step ends a worker exactly if its only holder lets go |
| `KeepAlive.HoldersChangeOnlySo` | src/ucp/worker.rs:15-56 | the holders of a worker after a step are those who join and those who do not let go |
| `KeepAlive.ContextHoldersChangeOnlySo` | src/ucp/mod.rs:61-143 | the same for a context, whose holders are its users and the workers that are alive |
| `KeepAlive.WhenAContextGoes` | src/ucp/mod.rs:139-143 | a context is cleaned up exactly when its last holder lets go |
| `KeepAlive.EndpointsChangeOnlySo` | src/ucp/endpoint/mod.rs:74-301 | the clones of an endpoint are counted, it goes with the last of them, and the first close or drop of any marks it |
| `KeepAlive.KillingOneEndsTheOther` | src/ucp/worker.rs:51-56 | once one of two loops is killed and nobody else holds the worker, the other's next turn ends both |
| `KeepAlive.TwoLoopsAreReachable` | src/ucp/worker.rs:51-56 | a run from the start that leaves a worker to two loops |
| `KeepAlive.StepKeepsInv` | src/ucp/endpoint/mod.rs:22-301 | creations, clones, drops and turns keep holders and held in agreement |

## Left out

- UCX itself, its parameter structures, configuration, printing, logging, queries and build scripts: foreign or I/O.
- Listeners, address conversion, memory registration and remote keys: wrappers without state of their own.
- The names of the error codes: an error is told apart by its status only, so statuses the crate maps to "unknown" stay distinct.
- What a rendezvous receive writes and how it ends: the code ignores its final status, so the contracts fix only the length, the error word and who owns the buffer. The same holds of the status that `poll_stream` ignores.
- Message headers and replies: carried along unchanged, and replies bypass the endpoint's checks.
- The requests that UCX returns for a forced close in `Drop` and in the error handler: the code never frees them, and they are outside the conservation of requests. A close future dropped while pending leaves its request unfreed too, which `Completion` does model.
- Wake-ups of waiters that are parked when their stream is unregistered, and of an event loop that sleeps when its last outside owner goes: the code promises none.
- A descriptor that the runtime refuses to watch: `event_poll` panics before its loop. A poll during which events never end does not end either, and is no poll here.
- Several threads on one worker: the source marks `wait_msg` as not thread safe, and a poll of it is one step here.
- Destruction of a worker together with streams still in its registry: their queued messages would be forgotten like those of any destroyed stream.
- Wake-ups inside `AtomicWaker` when a registration and a wake race on several threads: both are single steps here.
- The total length of a call's buffers is unbounded: buffers that exist together cannot overflow a `usize`.
- EndpointObject.EndpointHandle.Close: polls alone, since other tasks that run while it yields are steps of `Endpoint`.
- AmMessage.AmMsg.RecvDataVectored: says nothing about the contents of the buffers after a rendezvous receive.
