# Verification of an asynchronous RPC stack

A Dafny model of the concurrent core of a C++17 RPC library and of the futures and locks it is
built on, with proofs of what that core promises. The model has six parts.

- **Futures and promises** (`FutureController`, `FutureLife`, `FutureSemantics`, `FutureMachine`,
  `FutureInvariant`, `FutureSteps`, `FutureTasks`, `FutureTheorems`, `FutureLaws`, `Promise`,
  `PromiseCode`). Client programs that build graphs with `then`, `catched` and `finally` run on a
  pool that executes tasks in any order. Each run is compared with a sequential evaluator in which
  flattening is a join.
- **TCP pipe** (`TcpFraming`, `TcpDirection`, `TcpInvariant`, `TcpOldest`, `TcpEndpoint`,
  `TcpResults`, `TcpCauses`).
  Length-prefixed frames over a socket that moves any number of bytes at a time, with timeouts,
  failures and cancellation.
- **RPC protocol** (`Bytes`, `TransferMessage`, `WireFormat`, `RequestMap`, `RequestCauses`,
  `RpcCalls`, `RpcOnce`, `RpcReplies`, `RpcDelivery`, `Heartbeat`).
  The wire codec, the map of outstanding requests, two peers calling each other, the heartbeat.
- **In-memory pipe** (`MemBuffer`, `MemBufferRuns`, `MemBufferOrder`, `MemCauses`, `Rendezvous`).
- **Server side** (`AcceptQueue`, `AcceptServer`, `AcceptCauses`, `ServerConnector`,
  `ConnectorCauses`, `ServerEndpoint`, `EndpointCauses`).
- **Ordered locks** (`TupleSort`, `OrderedLock`, `Deadlock`).

`Prelude`, `PipeOps`, `Ledger` and `Waiters` hold shared vocabulary.

## How to read it

One atomic step of a model is one block the code runs under a mutex, together with what it posts.
The thread pool is a bag of tasks run in any order and a strand is a queue. A timer that was
cancelled may still fire if its handler is already queued. A run is a sequence of states from the
initial one, each state following from the one before by some event; the theorems hold of every
state of every run.

Code that updates fields in place is a class. Its methods are proved against functions on values
(`ensures View() == F(old(View()))`), and the theorems about runs are about those functions: a
method that took another branch would not meet its function, and a function that did would break an
invariant. Two parts are built differently. In `Promise` the object's methods state their effect on
the object and its controller directly, and the histories of many objects and threads are a machine
of their own; `PromiseCode` proves that each method takes the objects and controllers in memory
where the matching act of the machine leads. In `OrderedLock` the methods state the mutex calls
they make, and `Deadlock` runs threads one such call at a time; both take the mutexes from
`InLockOrder`.
Whatever a promise has been given is recorded in order, so "exactly once" is a statement about the
length of that record. The modules named for causes and results go one step further: they say which
events give which result, in terms of the events themselves, and prove that in every run a result is
there if and only if such an event has taken place.

Two things one might expect are not so. Reads of the memory buffer are not always served in the
order they were issued: one that starts while a message is queued takes it even if an older read is
waiting. `MemBufferOrder.ReadsCanOvertake` is such a run, and `WhoIsServed` says exactly when the
read served is the oldest. The value-level tuple sort has no base case for the empty tuple, so the
agreement of the three sorts is stated for non-empty tuples.

## Model

| member | source | states |
|---|---|---|
| FutureController.Controller.constructor | common-lib/common-lib/thread/future/internal/future-controller.h:141-146 | a new controller is unsettled and has no callbacks |
| FutureController.Controller.SetOnSuccessAndFail | common-lib/common-lib/thread/future/internal/future-controller.h:164-206 | the two callbacks of a pair join the ends of their queues together and a drain of each side is posted, settled or not |
| FutureController.Controller.SetValueState | common-lib/common-lib/thread/future/internal/future-controller.h:261-276 | the value is stored and both drains are posted |
| FutureController.Controller.SetException | common-lib/common-lib/thread/future/internal/future-controller.h:278-291 | the exception is stored and both drains are posted |
| FutureController.Controller.ProcessOnSuccess | common-lib/common-lib/thread/future/internal/future-controller.h:352-379 | with a value every queued success callback is posted, in order, and the queue is emptied; with an exception they are discarded; unsettled, nothing happens |
| FutureController.Controller.ProcessOnFail | common-lib/common-lib/thread/future/internal/future-controller.h:382-409 | the mirror image for the failure side |
| FutureLife.HappenKeepsInv | common-lib/common-lib/thread/future/internal/future-controller.h:352-435 | every registration, completion, drain and call keeps each queue and its history equal to the registered callbacks of its side in order, and keeps a drain posted for a settled controller with a non-empty queue |
| FutureLife.NeverTwiceNeverWrongSide | common-lib/common-lib/thread/future/internal/future-controller.h:164-206 | in every run the calls executed are of success callbacks with a value or of failure callbacks with an exception, none before its outcome is there and none twice |
| FutureLife.ExactlyOnceWhenDrained | common-lib/common-lib/thread/future/internal/future-controller.h:352-435 | once a settled controller's tasks have run, both queues are empty and of every pair exactly the matching callback has been called, once, the other having been discarded |
| FutureTasks.StepKeeps | common-lib/common-lib/thread/future/internal/future-impl.h:149-202 | any task run in any state keeps the invariant that every controller holds, or will hold, what the evaluator assigns to it, and uses up exactly one step of the budget |
| FutureTheorems.NeverWrong | common-lib/common-lib/thread/future/internal/future-impl.h:94-147 | at every moment of every run whatever the client can observe is the evaluator's outcome, and no controller has both a value and an exception |
| FutureTheorems.NeverStuck | common-lib/common-lib/thread/future/internal/future-impl.h:204-278 | whichever task is picked next, all it relies on is there, the controller it owes an outcome to holds no value and no exception yet, as set_value_state asserts, and what any other controller holds it leaves alone |
| FutureTheorems.AtRest | common-lib/common-lib/thread/future/internal/future-controller.h:352-409 | with no task left every controller is settled and every queue is empty |
| FutureTheorems.ScheduleIndependence | common-lib/common-lib/thread/future/internal/future-impl.h:94-590 | for every program of then, catched and finally, with callbacks that return, throw, return a nested or an invalid future, and for every schedule: the run has the same length, ends with everything settled, and the result is exactly what the sequential evaluator computes |
| FutureLaws.ThenLaw | common-lib/common-lib/thread/future/internal/future-impl.h:149-202 | then: an exception passes by, a value is replaced by what the callback returns for it or throws |
| FutureLaws.CatchedLaw | common-lib/common-lib/thread/future/internal/future-impl.h:388-427 | catched: a value passes by, or becomes void with a void callback; an exception is replaced by what the callback returns or throws |
| FutureLaws.FinallyLaw | common-lib/common-lib/thread/future/internal/future-impl.h:475-591 | finally: the outcome passes by unless the callback throws |
| FutureLaws.ThenFutureLaw | common-lib/common-lib/thread/future/internal/future-impl.h:94-147 | then with a callback that returns a future comes to that future's own outcome, or to an error if it is invalid |
| FutureLaws.CatchedFutureLaw | common-lib/common-lib/thread/future/internal/future-impl.h:428-470 | the same for catched |
| FutureLaws.FinallyFutureLaw | common-lib/common-lib/thread/future/internal/future-impl.h:475-591 | finally with a callback that returns a future: the outcome passes by unless that future fails |
| FutureLaws.ProgramLaw | common-lib/common-lib/thread/future/internal/future-impl.h:204-212 | definitions take effect in order, and using a future that does not exist throws |
| FutureLaws.RunsObeyTheLaws | common-lib/common-lib/thread/future/internal/future-impl.h:94-591 | every finished run of a promise and one continuation shows the outcome these laws give |
| Promise.PromiseObject.Empty | common-lib/common-lib/thread/future/internal/promise.h:21-21 | a default promise has no controller and no duty |
| Promise.PromiseObject.constructor | common-lib/common-lib/thread/future/internal/promise.h:57-65 | a new promise owns a fresh unsettled controller and the duty to settle it |
| Promise.PromiseObject.Move | common-lib/common-lib/thread/future/internal/promise.h:67-75 | controller and duty pass to the new object, the old one keeps neither |
| Promise.PromiseObject.Assign | common-lib/common-lib/thread/future/internal/promise.h:77-91 | the duty overwritten is abandoned first, then controller and duty are taken over; self-assignment changes nothing |
| Promise.PromiseObject.Abandon | common-lib/common-lib/thread/future/internal/promise.h:99-109 | a pending duty ends with broken_promise, no duty with nothing |
| Promise.PromiseObject.ClaimCompletion | common-lib/common-lib/thread/future/internal/promise.h:111-121 | only one caller obtains the right to settle; an invalid or satisfied promise reports which |
| Promise.PromiseObject.SetValue | common-lib/common-lib/thread/future/internal/promise.h:123-139 | a claim that succeeds stores the value, any other reports its error and changes nothing |
| Promise.PromiseObject.SetException | common-lib/common-lib/thread/future/internal/promise.h:155-164 | the same for an exception, with a null exception refused |
| Promise.DutyIsConserved | common-lib/common-lib/thread/future/internal/promise.h:57-164 | over every sequence of construct, move, assign, settle and destroy, with competing threads: at most one object or thread holds a controller's duty, the controller is settled exactly when none does, its outcome is the first claimer's value or exception (or what storing the value threw), or broken_promise if nobody claimed it, never both value and exception |
| Promise.FirstOutcomeStands | common-lib/common-lib/thread/future/internal/promise.h:111-164 | an outcome once stored never changes |
| PromiseCode.PerformConstruct | common-lib/common-lib/thread/future/internal/promise.h:57-65 | a new promise object and its controller enter memory as the machine's construct act says |
| PromiseCode.PerformDefault | common-lib/common-lib/thread/future/internal/promise.h:21-21 | the same for a default promise |
| PromiseCode.PerformMoveConstruct | common-lib/common-lib/thread/future/internal/promise.h:67-75 | moving a promise into a new object is the machine's move act: every object and controller in memory is as it says |
| PromiseCode.PerformAssign | common-lib/common-lib/thread/future/internal/promise.h:77-91 | move assignment, to another object or to itself, is the machine's assign act, with the broken promise stored in the right controller and in no other |
| PromiseCode.PerformDestroy | common-lib/common-lib/thread/future/internal/promise.h:93-109 | destroying a promise is the machine's destroy act |
| PromiseCode.PerformBegin | common-lib/common-lib/thread/future/internal/promise.h:111-121 | claiming is the machine's begin act and reports the verdict the machine gives |
| PromiseCode.PerformFinish | common-lib/common-lib/thread/future/internal/promise.h:133-138 | settling after a claim is the machine's finish act, and the assertion of set_value_state holds |
| PromiseCode.PerformSetValue | common-lib/common-lib/thread/future/internal/promise.h:123-139 | set_value run without interruption is begin followed, if it claimed, by finish |
| PromiseCode.PerformSetException | common-lib/common-lib/thread/future/internal/promise.h:155-164 | set_exception run without interruption is begin followed, if it claimed, by finish |
| PromiseCode.PerformSetNull | common-lib/common-lib/thread/future/internal/promise.h:157-160 | a null exception is refused and memory stays as it is |
| Bytes.FromUint | rpc-lib/rpc-lib/internal/transfer-message/transfer-message.cpp:62-88 | the loop of shifts writes the big-endian digits |
| Bytes.ToUint | rpc-lib/rpc-lib/internal/transfer-message/transfer-message.cpp:34-60 | the accumulating loop computes the number the bytes stand for |
| Bytes.NumberOfBigEndian | rpc-lib/rpc-lib/internal/transfer-message/transfer-message.cpp:34-88 | reading back a number that fits its width gives that number |
| Bytes.BigEndianOfNumber | rpc-lib/rpc-lib/internal/transfer-message/transfer-message.cpp:34-88 | writing back what was read gives the same bytes |
| TransferMessage.AccessorsStayInBounds | rpc-lib/rpc-lib/internal/transfer-message/transfer-message.cpp:188-255 | on any buffer that passes its validity check every accessor answers, the size read fits 32 bits and every offset formed by adding to the start stays inside the buffer; up to the size the pipe lets through the offsets fit 32 bits too; no buffer passes both checks |
| TransferMessage.Fill | rpc-lib/rpc-lib/internal/transfer-message/transfer-message.cpp:98-156 | writing through the moving position appends exactly the given bytes to what was written before |
| TransferMessage.CreateReq | rpc-lib/rpc-lib/internal/transfer-message/transfer-message.cpp:257-285 | a payload over the limit is refused, any other gives the encoded request |
| TransferMessage.CreateRes | rpc-lib/rpc-lib/internal/transfer-message/transfer-message.cpp:287-315 | a payload over the limit is refused, any other gives the encoded response |
| TransferMessage.RequestRoundTrip | rpc-lib/rpc-lib/internal/transfer-message/transfer-message.cpp:197-285 | decoding an encoded request returns number, method index and payload, and the pipe accepts its size |
| TransferMessage.ResponseRoundTrip | rpc-lib/rpc-lib/internal/transfer-message/transfer-message.cpp:197-315 | decoding an encoded response returns number, code and payload, and the pipe accepts its size |
| TransferMessage.EncodingIsInjective | rpc-lib/rpc-lib/internal/transfer-message/transfer-message.cpp:257-285 | different requests never have the same encoding |
| WireFormat.ChecksAreExact | rpc-lib/rpc-lib/internal/transfer-message/transfer-message.cpp:160-174 | a buffer passes the request or response check exactly when it begins with an encoded request or response, whatever follows |
| WireFormat.RequestFields | rpc-lib/rpc-lib/internal/transfer-message/transfer-message.cpp:197-231 | from a buffer that begins with an encoded request the accessors read that request's number, method index and payload |
| WireFormat.ResponseFields | rpc-lib/rpc-lib/internal/transfer-message/transfer-message.cpp:197-255 | the same for responses |
| WireFormat.FrameLayout | rpc-lib/rpc-lib/internal/transfer-message/transfer-message.cpp:257-315 | byte by byte: type, four bytes of size, payload, eight bytes of number, method index or result code, every number most significant byte first |
| WireFormat.TcpFrameLayout | rpc-lib/rpc-lib/pipe/tcp-pipe/tcp-pipe-endpoint.cpp:56-97 | on a TCP pipe a message follows four bytes with its length, most significant first |
| TcpFraming.WholeFramesAreThoseWritten | rpc-lib/rpc-lib/pipe/tcp-pipe/tcp-pipe-endpoint.cpp:56-202 | if one stream of frames begins another stream followed by part of a frame, its payloads are the first payloads of the other |
| TcpFraming.NextPrefixIsAcceptable | rpc-lib/rpc-lib/pipe/tcp-pipe/tcp-pipe-endpoint.cpp:135-144 | a reader aligned with a correct writer finds an acceptable length in the next prefix |
| TcpFraming.NextFrameIsNotWhole | rpc-lib/rpc-lib/pipe/tcp-pipe/tcp-pipe-endpoint.cpp:98-202 | a reader that holds, after the whole frames taken, fewer bytes than their own length prefix announces has not received the next frame whole |
| TcpDirection.SocketState.Invalidate | rpc-lib/rpc-lib/pipe/tcp-pipe/tcp-pipe-endpoint.cpp:699-713 | the first close decides whether the socket was closed by failure or by the user |
| TcpDirection.Direction.CompleteAllOperations | rpc-lib/rpc-lib/pipe/tcp-pipe/tcp-pipe-endpoint.cpp:655-671 | every queued operation that has no result yet gets this one, in order, and the queue is emptied |
| TcpDirection.Direction.StartHeaderAsync | rpc-lib/rpc-lib/pipe/tcp-pipe/tcp-pipe-endpoint.cpp:456-480 | an open socket gets one header operation, a closed one ends all operations with the reason of the close |
| TcpDirection.Direction.StartPayloadAsync | rpc-lib/rpc-lib/pipe/tcp-pipe/tcp-pipe-endpoint.cpp:531-559 | a bad length closes the socket and fails all, otherwise one payload operation is issued |
| TcpDirection.Direction.SubmitAsync | rpc-lib/rpc-lib/pipe/tcp-pipe/tcp-pipe-endpoint.cpp:337-454 | a closed socket accepts nothing; otherwise the operation joins the queue last and starts the socket only if it is alone |
| TcpDirection.Direction.OnOperation | rpc-lib/rpc-lib/pipe/tcp-pipe/tcp-pipe-endpoint.cpp:561-653 | the moved bytes are added to the oldest operation, which goes on, completes and starts the next, or takes all down on an error |
| TcpDirection.Find | rpc-lib/rpc-lib/pipe/tcp-pipe/tcp-pipe-endpoint.cpp:359-362 | the search finds the first operation with the timer's number, or none |
| TcpDirection.Direction.TimerFired | rpc-lib/rpc-lib/pipe/tcp-pipe/tcp-pipe-endpoint.cpp:354-379 | the oldest operation is only marked as answered, any other leaves the queue, an unknown one changes nothing |
| TcpInvariant.EventKeeps | rpc-lib/rpc-lib/pipe/tcp-pipe/tcp-pipe-endpoint.cpp:456-671 | acceptance, partial moves, faults, handlers, timers and closing each keep the whole invariant of one direction |
| TcpEndpoint.OneInFlight | rpc-lib/rpc-lib/pipe/tcp-pipe/tcp-pipe-endpoint.cpp:456-559 | in every run a socket operation is outstanding exactly when the direction's queue is non-empty, it serves the oldest operation in the right phase and asks for at least one byte, and no later operation has moved any byte |
| TcpEndpoint.ExactlyOneResult | rpc-lib/rpc-lib/pipe/tcp-pipe/tcp-pipe-endpoint.cpp:574-671 | every accepted operation has exactly one result or is still queued for it, never both, and with nothing in flight all have theirs |
| TcpEndpoint.ResultsAreTrue | rpc-lib/rpc-lib/pipe/tcp-pipe/tcp-pipe-endpoint.cpp:574-653 | success means the whole frame moved, timeout that this operation's timer fired while the socket was open, canceled that it was the user who closed the socket, failed that a failure closed it, because the connection broke or a bad length was read (or that this direction read a bad length after the user's close) |
| TcpEndpoint.FiredByItsTimer | rpc-lib/rpc-lib/pipe/tcp-pipe/tcp-pipe-endpoint.cpp:354-379 | a timer counts as fired only through its own event on an open socket |
| TcpEndpoint.OnlyThoseBehindAreTakenOut | rpc-lib/rpc-lib/pipe/tcp-pipe/tcp-pipe-endpoint.cpp:354-379 | in every run an operation is taken out of its queue exactly when its own timer fires while it stands behind another |
| TcpEndpoint.OldestKeepsItsTurn | rpc-lib/rpc-lib/pipe/tcp-pipe/tcp-pipe-endpoint.cpp:362-371 | an operation that is oldest at some moment is never taken out afterwards, whatever its timer does: it is still the oldest, or its whole frame has moved, or the socket is closed and the direction has ended |
| TcpEndpoint.FirstCloserStands | rpc-lib/rpc-lib/pipe/tcp-pipe/tcp-pipe-endpoint.cpp:699-713 | who closed the socket is settled by the event that found it open, and never changes |
| TcpEndpoint.WireIsWholeFrames | rpc-lib/rpc-lib/pipe/tcp-pipe/tcp-pipe-endpoint.cpp:56-202 | the bytes on the wire are the whole frames of finished writes in order plus a beginning of one more: the oldest queued write or, after a close, the one cut off; a write its timer took out contributes no byte, before or after a close; every other write older than a finished one is finished, and while the socket is open every other accepted write is on the wire or still queued; a write that has ever been oldest is not taken out, so one that times out while oldest still sends its whole frame if the socket stays open |
| TcpEndpoint.FramesReachTheOldestRead | rpc-lib/rpc-lib/pipe/tcp-pipe/tcp-pipe-endpoint.cpp:561-653 | each frame goes to the read that is oldest: every older read has had a frame before or was taken out by its timer, every queued read is younger; it is given to that read or dropped whole if the read already had its result; a read that has ever been oldest is not taken out, so one that times out while oldest stays to take a frame whole |
| TcpEndpoint.ReaderTakesWhatWasWritten | rpc-lib/rpc-lib/pipe/tcp-pipe/tcp-pipe-endpoint.cpp:98-202 | for any two runs joined by a stream, whatever the chunks, the payloads the reader took are the writer's payloads in order and no bad length is ever met; a reader that waits for bytes has taken every payload it has received whole, and with all bytes received exactly the payloads sent whole |
| TcpCauses.EachResultHasItsCause | rpc-lib/rpc-lib/pipe/tcp-pipe/tcp-pipe-endpoint.cpp:337-671 | in every run a read or write has a result exactly when an earlier event gave it: its timer while its caller waited, the handler that completed its frame, or a handler that found a failure, a bad length or the socket closed; each with its own code and data |
| TcpCauses.TimersAnswer | rpc-lib/rpc-lib/pipe/tcp-pipe/tcp-pipe-endpoint.cpp:354-379 | a timer that fires while its caller waits answers at once, oldest or not: timeout on an open socket, otherwise canceled or failed by who closed it; nobody waits on it afterwards |
| TcpCauses.HandlersDoTheirWork | rpc-lib/rpc-lib/pipe/tcp-pipe/tcp-pipe-endpoint.cpp:561-653 | a failure or a bad length closes the socket and empties the queue, a completed frame takes its operation off the queue, anything else keeps the bytes and goes on, or ends the direction if the socket is closed |
| TcpCauses.AcceptedIsQueued | rpc-lib/rpc-lib/pipe/tcp-pipe/tcp-pipe-endpoint.cpp:337-454 | an operation accepted is queued last with its payload, timer and number |
| TcpCauses.ClosedExactly | rpc-lib/rpc-lib/pipe/tcp-pipe/tcp-pipe-endpoint.cpp:699-713 | in every run the socket is open exactly while nobody has closed it, and the closer is the user or a failure exactly by the event that found it open |
| RequestMap.Connection.constructor | rpc-lib/rpc-lib/internal/connection/connection.cpp:108-123 | no request is outstanding at first |
| RequestMap.Connection.AddRequestToMap | rpc-lib/rpc-lib/internal/connection/connection.cpp:334-346 | a fresh request is unsent, has no failure recorded, and its timer runs |
| RequestMap.Connection.Complete | rpc-lib/rpc-lib/internal/connection/connection.cpp:312-332 | an outstanding request is removed, its timer cancelled and its promise given the result; an unknown one changes nothing |
| RequestMap.Connection.ProcessRequestSent | rpc-lib/rpc-lib/internal/connection/connection.cpp:276-299 | a request with a recorded failure completes with it now, any other is marked sent |
| RequestMap.Connection.OnSent | rpc-lib/rpc-lib/internal/connection/connection.cpp:164-176 | each outcome of the write leads to its own completion code |
| RequestMap.Connection.CompleteReceiveRoutine | rpc-lib/rpc-lib/internal/connection/connection.cpp:348-380 | sent requests complete as canceled or failed by how the loop ended, unsent ones are marked so |
| RequestMap.EventKeeps | rpc-lib/rpc-lib/internal/connection/connection.cpp:148-182 | every racing event keeps each request accounted for |
| RequestMap.CompletesExactlyOnce | rpc-lib/rpc-lib/internal/connection/connection.cpp:312-380 | in every run each accepted request has completed at most once and otherwise has a live timer, or a send callback to come with a failure recorded; with no timer and no send callback left all have completed once |
| RequestMap.CodesTellAboutTheWrite | rpc-lib/rpc-lib/internal/connection/connection.cpp:148-182 | send codes only for writes that failed that way; canceled only if the write succeeded and the receive loop ended by a cancel while the request was outstanding, failed likewise by a failure |
| RequestMap.CompletionsStand | rpc-lib/rpc-lib/internal/connection/connection.cpp:312-332 | what a request completed with never changes |
| RequestCauses.EachCompletionHasItsCause | rpc-lib/rpc-lib/internal/connection/connection.cpp:148-380 | in every run a request has a completion exactly when an earlier event brought it while the request was outstanding: its response with its bytes, its timer, its write's failure with the matching code, or the end of the receive loop with canceled or failed as it ended |
| RequestCauses.HistoryIsTrue | rpc-lib/rpc-lib/internal/connection/connection.cpp:276-380 | the record of write results, of how the loop ended and of who was outstanding then is what the events were |
| RpcCalls.Channel.constructor | rpc-lib/rpc-lib/internal/channel/channel.cpp:14-18 | a channel numbers its calls from zero |
| RpcCalls.Channel.CallMethod | rpc-lib/rpc-lib/internal/channel/channel.cpp:22-46 | an oversized call is refused without using a number, one on an idle connection fails, any other is entered in the map and sent under the next 64-bit number |
| RpcCalls.ReceiverSees | rpc-lib/rpc-lib/internal/connection/connection.cpp:221-274 | from the bytes alone a connection takes every message for what its sender meant |
| RpcCalls.ServiceSeesTheCall | rpc-lib/rpc-lib/internal/service/service.h:61-120 | the service answers under the number, method index and payload of the call that was made: not_implemented, request_parse_error or response_too_big without bytes, or exactly the code and bytes the method replied |
| RpcReplies.MalformedRequestsAreRefused | rpc-lib/rpc-lib/internal/service/service.h:70-76 | bytes that are no request are answered invalid_request under number 2^64 - 1 |
| RpcReplies.OddResponsesAreTold | rpc-lib/rpc-lib/internal/channel/channel.cpp:47-93 | a malformed response is told as invalid_response, one with another number as unknown_error |
| RpcCalls.ChannelReadsTheReply | rpc-lib/rpc-lib/internal/channel/channel.cpp:47-93 | the channel turns a service's answer into ok with the same bytes, request_not_processed or response_parse_error, and into nothing else |
| RpcCalls.LeftKeeps | rpc-lib/rpc-lib/internal/connection/connection.cpp:221-266 | calling, delivering, losing, serving and every race of the request map keep what is on the wire true of its sender |
| RpcCalls.CallsAreAnsweredFaithfully | rpc-lib/rpc-lib/internal/channel/channel.cpp:42-93 | for both peers, with messages delayed, lost and reordered: ok means the other peer served this very call and the bytes are its answer, request_not_processed that it served and refused it; wrong type, wrong number and invalid buffer never happen |
| RpcCalls.RefusalsAreTrue | rpc-lib/rpc-lib/internal/channel/channel.cpp:37-40 | a call refused at once was too big, or was not and met a connection that was not running |
| RpcReplies.EachAnswerWasServed | rpc-lib/rpc-lib/internal/service/service.h:61-120 | in every run a peer has given an answer exactly when it served that call so at an earlier step |
| RpcReplies.CallersAreToldTheReply | rpc-lib/rpc-lib/internal/channel/channel.cpp:42-93 | a caller told ok has the bytes with which the method replied ok to this very call at an earlier step of the other peer; one told request_not_processed met a missing method, a request that does not parse, a reply too big or a failure code |
| RpcDelivery.DeliveriesTakeEffect | rpc-lib/rpc-lib/internal/connection/connection.cpp:221-274 | whatever arrives takes effect: a request reaches a worker, a response completes its outstanding request, a ping is answered, a pong ignored |
| RpcDelivery.CallsAreAdmittedExactly | rpc-lib/rpc-lib/internal/channel/channel.cpp:22-46 | a call too big is refused without a number, one made while not running is refused with one, any other is sent under the next number with its timer running |
| RpcDelivery.NoRequestVanishes | rpc-lib/rpc-lib/internal/connection/connection.cpp:148-274 | in every run each accepted call is on the wire, before a worker or answered, unless the transport lost it or the peer has no service |
| RpcDelivery.NoAnswerVanishes | rpc-lib/rpc-lib/internal/connection/connection.cpp:237-262 | in every run each answer is on the wire or its call is completed, unless the transport lost it |
| RpcOnce.NoCallIsServedTwice | rpc-lib/rpc-lib/internal/service/service.h:61-120 | in every run no service answers the same call number twice |
| Heartbeat.ConnectionWatcher.constructor | rpc-lib/rpc-lib/internal/connection/connection-watcher.cpp:4-6 | a new watcher counts as active and waits for nothing |
| Heartbeat.ConnectionWatcher.CheckAndDropActivityFlag | rpc-lib/rpc-lib/internal/connection/connection-watcher.cpp:8-13 | reports the flag and clears it |
| Heartbeat.ConnectionWatcher.SetActivityFlag | rpc-lib/rpc-lib/internal/connection/connection-watcher.cpp:15-19 | activity sets the flag and ends the waiting |
| Heartbeat.ConnectionWatcher.SetPingWaiting | rpc-lib/rpc-lib/internal/connection/connection-watcher.cpp:21-26 | the first unanswered ping sets the start, later ones keep it |
| Heartbeat.ConnectionWatcher.ProcessWatchEvent | rpc-lib/rpc-lib/internal/connection/connection.cpp:301-310 | a tick deactivates, or pings after a quiet period, or just drops the flag |
| Heartbeat.DeactivatesIff | rpc-lib/rpc-lib/internal/connection/connection-watcher.cpp:8-32 | a tick deactivates if and only if an earlier ping was followed by no dispatched message and more than the timeout has passed since it |
| Heartbeat.PingsIff | rpc-lib/rpc-lib/internal/connection/connection.cpp:301-310 | a tick pings exactly when nothing was dispatched since the tick before and it does not give up, again at every tick |
| Heartbeat.GivenUpIff | rpc-lib/rpc-lib/internal/connection/connection-watcher.cpp:8-32 | from the events alone: a connection is given up exactly when the second of two ticks with nothing dispatched between or since was over longer ago than the timeout |
| Heartbeat.SilentPeerIsGivenUp | rpc-lib/rpc-lib/internal/connection/connection.cpp:301-310 | with ticks at most one period apart a peer silent since a is given up by a + 3 periods + timeout |
| MemBuffer.Buffer.constructor | rpc-lib/rpc-lib/pipe/memory-pipe/mem-buffer.cpp:13-19 | a new buffer is valid and empty |
| MemBuffer.Buffer.WriteImpl | rpc-lib/rpc-lib/pipe/memory-pipe/mem-buffer.cpp:118-137 | a valid buffer takes a write that is in time at its end; the other results leave it alone |
| MemBuffer.Buffer.ResolveReadPromise | rpc-lib/rpc-lib/pipe/memory-pipe/mem-buffer.cpp:139-166 | the oldest message goes to the oldest waiting read, if there are both |
| MemBuffer.Buffer.ReadImpl | rpc-lib/rpc-lib/pipe/memory-pipe/mem-buffer.cpp:168-222 | a read of an invalid buffer ends at once, of a non-empty one takes the oldest message, of an empty one waits last |
| MemBuffer.Buffer.RemoveByTimeout | rpc-lib/rpc-lib/pipe/memory-pipe/mem-buffer.cpp:191-210 | a read still waiting ends with timeout and leaves the queue, any other is untouched |
| MemBuffer.Buffer.Invalidate | rpc-lib/rpc-lib/pipe/memory-pipe/mem-buffer.cpp:68-99 | the first invalidation drops the messages and ends every waiting read with its result, a later one does nothing |
| MemBufferRuns.MessagesAreConserved | rpc-lib/rpc-lib/pipe/memory-pipe/mem-buffer.cpp:118-222 | in every run messages taken, then queued, then dropped are the successful writes in the order asked; only invalidation drops |
| MemBufferRuns.NoReadStarves | rpc-lib/rpc-lib/pipe/memory-pipe/mem-buffer.cpp:26-49 | the smaller of queued messages and waiting reads never exceeds the resolve steps due, so at rest no read waits beside a message; after invalidation nothing is queued or waiting |
| MemBufferRuns.ReadsEndOnceAndTruly | rpc-lib/rpc-lib/pipe/memory-pipe/mem-buffer.cpp:51-99 | every read is on the strand, waiting or done, exactly one of them; success brings a message only this read took, canceled and failed come only from invalidation |
| MemCauses.FirstInvalidationStands | rpc-lib/rpc-lib/pipe/memory-pipe/mem-buffer.cpp:68-99 | a buffer is invalid exactly after an invalidation, and the first one decides between canceled and failed |
| MemCauses.EachWriteEndsTruly | rpc-lib/rpc-lib/pipe/memory-pipe/mem-buffer.cpp:118-137 | a write that runs is canceled by an invalid buffer, timed out if expired, and otherwise succeeds and queues its message |
| MemCauses.OtherwiseNoWriteEnds | rpc-lib/rpc-lib/pipe/memory-pipe/mem-buffer.cpp:26-49 | nothing else tells a writer anything, and only a valid buffer takes a write |
| MemCauses.EachReadHasItsCause | rpc-lib/rpc-lib/pipe/memory-pipe/mem-buffer.cpp:51-222 | in every run a read has a result exactly when an earlier event gave it: its timer or an invalidation while it waited, a message as it waited longest or as it started, or starting on an invalid buffer |
| MemCauses.ReadsAreIssued | rpc-lib/rpc-lib/pipe/memory-pipe/mem-buffer.cpp:51-66 | a read goes onto the strand and counts as started while valid exactly if the buffer was |
| MemBufferOrder.WhoIsServed | rpc-lib/rpc-lib/pipe/memory-pipe/mem-buffer.cpp:181-184 | at every step of every run that hands out a message: a resolve step serves the oldest read, a starting read that finds a message is the oldest if and only if no read is waiting |
| MemBufferOrder.ServedInIssueOrder | rpc-lib/rpc-lib/pipe/memory-pipe/mem-buffer.cpp:139-187 | as long as no read has started beside a queued message and a waiting read, reads are served in the order issued and before all that still have no result |
| MemBufferOrder.ReadsCanOvertake | rpc-lib/rpc-lib/pipe/memory-pipe/mem-buffer.cpp:181-184 | a run in which the second read gets its message before the first |
| Waiters.EraseMeant | rpc-lib/rpc-lib/pipe/memory-pipe/mem-pipe-env.cpp:190-204 | the erasing walk splits a queue into those meant and the rest |
| Waiters.KeptIsExact | rpc-lib/rpc-lib/pipe/memory-pipe/mem-pipe-env.cpp:183-205 | a cancel leaves exactly the waiters not meant, in their order |
| Waiters.RemovedIsExact | rpc-lib/rpc-lib/pipe/memory-pipe/mem-pipe-env.cpp:183-205 | a cancel takes exactly the waiters meant, in their order |
| Waiters.TimeoutIsExact | rpc-lib/rpc-lib/pipe/memory-pipe/mem-pipe-env.cpp:214-228 | a timeout takes exactly the one waiter |
| Rendezvous.MemPipeEnv.constructor | rpc-lib/rpc-lib/pipe/memory-pipe/mem-pipe-env.cpp:77-80 | nobody waits at first |
| Rendezvous.MemPipeEnv.CreateNewPipeEnd | rpc-lib/rpc-lib/pipe/memory-pipe/mem-pipe-env.cpp:130-181 | a call waits last if the other side is empty, otherwise it and the oldest of the other side get the two ends of a new buffer pair |
| Rendezvous.MemPipeEnv.CancelPendingEndpoints | rpc-lib/rpc-lib/pipe/memory-pipe/mem-pipe-env.cpp:183-212 | those meant leave their queue and are told canceled |
| Rendezvous.MemPipeEnv.RemovePromiseByTimeout | rpc-lib/rpc-lib/pipe/memory-pipe/mem-pipe-env.cpp:214-235 | a waiter still there leaves and is told timeout, anyone else is untouched |
| Rendezvous.EventKeeps | rpc-lib/rpc-lib/pipe/memory-pipe/mem-pipe-env.cpp:130-235 | every call, cancel and timeout keeps the queues and the record of pairs in agreement |
| Rendezvous.NeverBothWaiting | rpc-lib/rpc-lib/pipe/memory-pipe/mem-pipe-env.cpp:140-160 | in every run clients and servers never both wait, and both queues are in order of arrival |
| Rendezvous.OldestFirst | rpc-lib/rpc-lib/pipe/memory-pipe/mem-pipe-env.cpp:162-174 | whoever arrives is paired with the one of the other side that has waited longest |
| Rendezvous.EachCallEndsOnce | rpc-lib/rpc-lib/pipe/memory-pipe/mem-pipe-env.cpp:130-235 | every call waits or has exactly one outcome: paired, timed out or canceled |
| Rendezvous.OutcomesAreTrue | rpc-lib/rpc-lib/pipe/memory-pipe/mem-pipe-env.cpp:130-235 | an event gives a call an outcome exactly when it ends that call so, and takes no outcome away |
| Rendezvous.EachOutcomeHasItsCause | rpc-lib/rpc-lib/pipe/memory-pipe/mem-pipe-env.cpp:130-235 | in every run a call has timed out exactly when its timer fired while it waited, is canceled exactly when a cancel meant it while it waited, and has an end of a pair exactly when it arrived while the other side waited or had then waited longest itself |
| Rendezvous.WaitersAreWhoCalled | rpc-lib/rpc-lib/pipe/memory-pipe/mem-pipe-env.cpp:130-160 | whoever waits made a call of that side with that client id at an earlier step |
| Rendezvous.ArrivalsWait | rpc-lib/rpc-lib/pipe/memory-pipe/mem-pipe-env.cpp:140-160 | a call that finds nobody on the other side waits last in its own queue |
| Rendezvous.PairsAreShared | rpc-lib/rpc-lib/pipe/memory-pipe/mem-pipe-env.cpp:162-180 | the ends of a buffer pair belong to one server call and one client call and to no third |
| AcceptServer.TcpPipeServerEnv.constructor | rpc-lib/rpc-lib/pipe/tcp-pipe/tcp-pipe-server-env.cpp:187-203 | no operation and no accept at first |
| AcceptServer.TcpPipeServerEnv.StartOp | rpc-lib/rpc-lib/pipe/tcp-pipe/tcp-pipe-server-env.cpp:52-60 | an operation neither started nor cancelled starts an accept on a free acceptor |
| AcceptServer.TcpPipeServerEnv.CancelOp | rpc-lib/rpc-lib/pipe/tcp-pipe/tcp-pipe-server-env.cpp:97-115 | the first cancel of a started operation aborts the acceptor, of one not started returns the code to complete with, a second cancel does nothing |
| AcceptServer.TcpPipeServerEnv.CompleteOp | rpc-lib/rpc-lib/pipe/tcp-pipe/tcp-pipe-server-env.cpp:117-121 | the promise gets the result and its on_completed becomes due |
| AcceptServer.TcpPipeServerEnv.CreatePipe | rpc-lib/rpc-lib/pipe/tcp-pipe/tcp-pipe-server-env.cpp:205-226 | an operation joins the list last and is started only if it is alone |
| AcceptServer.TcpPipeServerEnv.OnTimeout | rpc-lib/rpc-lib/pipe/tcp-pipe/tcp-pipe-server-env.cpp:228-248 | the oldest operation is cancelled and stays, any other leaves the list and completes, an unknown one changes nothing |
| AcceptServer.TcpPipeServerEnv.OnCompleted | rpc-lib/rpc-lib/pipe/tcp-pipe/tcp-pipe-server-env.cpp:250-263 | only the oldest operation's completion removes it and starts the next, whose start assertions hold |
| AcceptServer.TcpPipeServerEnv.AcceptHandler | rpc-lib/rpc-lib/pipe/tcp-pipe/tcp-pipe-server-env.cpp:60-93 | a cancelled operation reports who cancelled it, any other how the accept went |
| AcceptServer.TcpPipeServerEnv.CancelPendingServerEndpoints | rpc-lib/rpc-lib/pipe/tcp-pipe/tcp-pipe-server-env.cpp:275-320 | those meant leave and complete, except the oldest, which is told to abort |
| AcceptQueue.EventKeeps | rpc-lib/rpc-lib/pipe/tcp-pipe/tcp-pipe-server-env.cpp:205-320 | creating, timing out, accepting, completing and cancelling keep the queue's discipline |
| AcceptQueue.OneAcceptAtATime | rpc-lib/rpc-lib/pipe/tcp-pipe/tcp-pipe-server-env.cpp:52-59 | in every run the oldest operation is started, the others neither started nor cancelled, and the only outstanding accept is the oldest one's |
| AcceptQueue.AbortsHitTheirTarget | rpc-lib/rpc-lib/pipe/tcp-pipe/tcp-pipe-server-env.cpp:97-110 | cancelling the acceptor aborts the accept of the operation that asked for it, or none |
| AcceptQueue.EachCreateEndsOnce | rpc-lib/rpc-lib/pipe/tcp-pipe/tcp-pipe-server-env.cpp:205-320 | each create promise is in the list or has exactly one result, and what struck the operation first decides which: success and failed mean that its accept succeeded or failed before its timer fired and before any caller cancelled it, timeout and canceled that the timer or a caller came first; at rest no operation is stranded |
| AcceptQueue.HistoryIsTrue | rpc-lib/rpc-lib/pipe/tcp-pipe/tcp-pipe-server-env.cpp:60-115 | the record of first causes is true: an event notes exactly the operations it strikes (the timer's own, those a cancel means, the one accepted), and a first cause never changes |
| AcceptCauses.WaitersAreWhoCalled | rpc-lib/rpc-lib/pipe/tcp-pipe/tcp-pipe-server-env.cpp:205-226 | whoever is in the list created an operation with that client id at an earlier step |
| AcceptCauses.CreatedJoinsLast | rpc-lib/rpc-lib/pipe/tcp-pipe/tcp-pipe-server-env.cpp:205-226 | a new operation joins the list last with its client id and has been given nothing |
| AcceptCauses.StruckAcceptIsAborted | rpc-lib/rpc-lib/pipe/tcp-pipe/tcp-pipe-server-env.cpp:97-115 | no cancel is forgotten: an outstanding accept whose operation's timer fired or whose caller cancelled it has been aborted |
| ServerConnector.ServerConnectorImpl.constructor | rpc-lib/rpc-lib/internal/connector/server-connector.cpp:89-105 | a new connector runs nothing and has posted nothing |
| ServerConnector.ServerConnectorImpl.CreatePipe | rpc-lib/rpc-lib/internal/connector/server-connector.cpp:173-225 | each accept is issued under a fresh connection id for its generation and entered in the future map |
| ServerConnector.ServerConnectorImpl.Start | rpc-lib/rpc-lib/internal/connector/server-connector.cpp:107-171 | a start while running throws and changes nothing, any other opens a new generation |
| ServerConnector.ServerConnectorImpl.StartPipeConnectAgain | rpc-lib/rpc-lib/internal/connector/server-connector.cpp:159-171 | the next accept is issued only while this generation runs |
| ServerConnector.ServerConnectorImpl.Stop | rpc-lib/rpc-lib/internal/connector/server-connector.cpp:258-272 | a running generation is ended, its futures cleared and the stop posted; an ended one changes nothing |
| ServerConnector.ServerConnectorImpl.NotifyOnNewConnection | rpc-lib/rpc-lib/internal/connector/server-connector.cpp:148-157 | a connection is reported only while its generation runs |
| ServerConnector.ServerConnectorImpl.EraseConnectionFutureFromMap | rpc-lib/rpc-lib/internal/connector/server-connector.cpp:274-284 | exactly that entry leaves the future map |
| ServerConnector.PhaseIsGrammar | rpc-lib/rpc-lib/internal/connector/server-connector.cpp:134-157 | notes accepted by the two-state automaton are whole generations followed by at most one open one |
| ServerConnector.GrammarHasPhase | rpc-lib/rpc-lib/internal/connector/server-connector.cpp:134-157 | and every such list is accepted |
| ServerConnector.EventKeeps | rpc-lib/rpc-lib/internal/connector/server-connector.cpp:159-272 | starts, stops, accepts and handshakes of any generation keep tokens, attempts, future map and notes in agreement |
| ServerConnector.NotificationGrammar | rpc-lib/rpc-lib/internal/connector/server-connector.cpp:134-171 | in every run whatever the strand has delivered is a prefix of (started new_connection* stopped)*, with distinct connection ids |
| ServerConnector.OneGenerationRuns | rpc-lib/rpc-lib/internal/connector/server-connector.cpp:159-171 | at most one token that has taken effect is true, and it is the current one |
| ServerConnector.StaleFailuresAreHarmless | rpc-lib/rpc-lib/internal/connector/server-connector.cpp:258-272 | the failure or late stop of another generation than the one running stops nothing and posts nothing |
| ServerConnector.ReportedInItsGeneration | rpc-lib/rpc-lib/internal/connector/server-connector.cpp:148-157 | a connection is reported only in the generation its accept was issued in |
| ConnectorCauses.EventsPostExactly | rpc-lib/rpc-lib/internal/connector/server-connector.cpp:134-171 | in every run a start posts started exactly when nothing runs, a stop or failed accept posts stopped exactly when its generation runs, a finished handshake posts the connection exactly when its generation runs, and nothing else posts |
| ConnectorCauses.ReportedExactly | rpc-lib/rpc-lib/internal/connector/server-connector.cpp:148-157 | in every run a connection has been reported exactly when its handshake ended at an earlier step while the generation that accepted it ran |
| ConnectorCauses.OneAcceptPerGeneration | rpc-lib/rpc-lib/internal/connector/server-connector.cpp:159-225 | while a generation runs it has exactly one accept outstanding |
| ConnectorCauses.AttemptsGoOn | rpc-lib/rpc-lib/internal/connector/server-connector.cpp:173-256 | an attempt is made for the running generation, goes from accept to handshake to end, and is then forgotten |
| ConnectorCauses.FuturesAreExact | rpc-lib/rpc-lib/internal/connector/server-connector.cpp:173-284 | the future map holds exactly the attempts in progress of the running generation |
| ServerEndpoint.ServerEndpointImpl.constructor | rpc-lib/rpc-lib/server-endpoint.h:114-119 | the map is empty at first |
| ServerEndpoint.ServerEndpointImpl.ProcessNewConnection | rpc-lib/rpc-lib/server-endpoint.h:129-166 | a connection enters the map and one more connected notification is posted for it, unless the endpoint is finalizing |
| ServerEndpoint.ServerEndpointImpl.RemoveEndpointFromMap | rpc-lib/rpc-lib/server-endpoint.h:186-196 | exactly the lost connection leaves the map |
| ServerEndpoint.ServerEndpointImpl.Finalize | rpc-lib/rpc-lib/server-endpoint.h:169-176 | every connection in the map is asked to disconnect and none will enter |
| ServerEndpoint.HappeningKeeps | rpc-lib/rpc-lib/server-endpoint.h:129-196 | every step of connector and endpoint together keeps map, lives and notes in agreement |
| ServerEndpoint.ConnectedThenDisconnected | rpc-lib/rpc-lib/server-endpoint.h:129-166 | each id is told connected at most once, then disconnected at most once, and only after the connector reported it; until finalization every id reported is told; the map holds exactly those connected and not lost |
| ServerEndpoint.NoneEntersAfterFinalize | rpc-lib/rpc-lib/server-endpoint.h:169-176 | after finalize the map only shrinks, nobody else is told connected, and all in the map have been asked to leave |
| EndpointCauses.ToldExactly | rpc-lib/rpc-lib/server-endpoint.h:129-166 | in every run an id has been told connected exactly when its report ran before finalization, has left the map exactly when it was lost, and has been told disconnected exactly when its loss was told |
| EndpointCauses.LossesCanBeTold | rpc-lib/rpc-lib/server-endpoint.h:155-165 | a connection in the map can be lost and a lost one can still be told of |
| EndpointCauses.AskedExactly | rpc-lib/rpc-lib/server-endpoint.h:169-176 | the endpoint finalizes when told to and asks exactly those then in its map to disconnect |
| TupleSort.BubblePermutes | common-lib/common-lib/mpl/internal/tuple-transform/sort-tuple.h:31-47 | a bubble pass only rearranges |
| TupleSort.BubbleMax | common-lib/common-lib/mpl/internal/tuple-transform/sort-tuple.h:31-47 | for a strict weak order a pass brings a greatest element last |
| TupleSort.SortPermutes | common-lib/common-lib/mpl/internal/tuple-transform/sort-tuple.h:62-73 | the sort only rearranges, for every comparator |
| TupleSort.SortSorts | common-lib/common-lib/mpl/internal/tuple-transform/sort-tuple.h:62-73 | for a strict weak order the result is sorted |
| TupleSort.RefSortAgrees | common-lib/common-lib/utils/internal/tuple-utils/sort-tuple.h:63-94 | the sort of references gives what the sort of types gives |
| TupleSort.IndicesPermute | common-lib/common-lib/utils/internal/tuple-utils/sort-tuple2.h:46-73 | the indexed sort reads every position exactly once |
| TupleSort.SortsAgree | common-lib/common-lib/utils/internal/tuple-utils/sort-tuple2.h:46-73 | for every non-empty tuple and every comparator the three sorts give the same tuple |
| TupleSort.NeighbourTestIsExact | common-lib/common-lib/synchronization/internal/ordered-lock/is-there-repeating-order-number.h:16-29 | comparing neighbours of the sorted tuple finds a repetition if and only if there is one anywhere |
| TupleSort.LastFirstTestIsExact | common-lib/common-lib/synchronization/internal/ordered-lock/compare-ordered-lockable-tuples.h:9-21 | last against first holds if and only if every order number of the one tuple is below every one of the other |
| OrderedLock.Lock.Empty | common-lib/common-lib/synchronization/internal/ordered-lock/ordered-lock-impl.h:8-13 | a default lock points at nothing and holds nothing |
| OrderedLock.Lock.Defer | common-lib/common-lib/synchronization/internal/ordered-lock/ordered-lock-impl.h:24-29 | a deferred lock has its mutexes and takes none |
| OrderedLock.Lock.Adopt | common-lib/common-lib/synchronization/internal/ordered-lock/ordered-lock-impl.h:31-36 | an adopting lock counts its mutexes as taken and calls none |
| OrderedLock.Lock.LockAll | common-lib/common-lib/synchronization/internal/ordered-lock/ordered-lock-impl.h:46-70 | mutexes are taken in sorted order; if one throws, those taken are released, latest first, and nothing else is called |
| OrderedLock.Lock.Unlock | common-lib/common-lib/synchronization/internal/ordered-lock/ordered-lock-impl.h:72-80 | all mutexes are released in reverse order |
| OrderedLock.Lock.Clear | common-lib/common-lib/synchronization/internal/ordered-lock/ordered-lock-impl.h:94-102 | the lock forgets its mutexes without releasing any |
| OrderedLock.Lock.MoveFrom | common-lib/common-lib/synchronization/internal/ordered-lock/ordered-lock.h:59-83 | assigning through the sorted references hands over every pointer to the slot of its type, whatever order the types were written in; what was held before is released; assigning a lock to itself changes nothing |
| OrderedLock.Lock.TakePointers | common-lib/common-lib/synchronization/internal/ordered-lock/ordered-lock.h:77-78 | after the assignment both sorted views point at the same mutexes |
| OrderedLock.Lock.PushBack | common-lib/common-lib/synchronization/internal/ordered-lock/ordered-lock-impl.h:104-144 | only the added mutexes are locked; if that throws the lock is as before, otherwise the grown lock takes over and its order is the old one followed by the added |
| OrderedLock.LockAdded | common-lib/common-lib/synchronization/internal/ordered-lock/ordered-lock-impl.h:129-134 | the temporary lock over the added mutexes takes them in order and gives them up without unlocking |
| OrderedLock.TakenInOrder | common-lib/common-lib/synchronization/internal/ordered-lock/ordered-lock-impl.h:53-70 | mutexes with distinct order numbers are taken in strictly increasing order, all of them |
| OrderedLock.ThrowingLockLeavesNothing | common-lib/common-lib/synchronization/internal/ordered-lock/ordered-lock-impl.h:53-70 | replaying the calls of a lock that throws leaves exactly what was held before; of one that succeeds adds its mutexes, which unlocking takes away again |
| OrderedLock.GrownLockOrder | common-lib/common-lib/synchronization/internal/ordered-lock/ordered-lock-impl.h:121-144 | the grown lock's order is the order in which the mutexes were really taken |
| Deadlock.EventKeeps | common-lib/common-lib/synchronization/internal/ordered-lock/ordered-lock-impl.h:46-144 | locking, growing, throwing and unlocking, mutex by mutex, keep mutual exclusion and increasing order |
| Deadlock.TakenInIncreasingOrder | common-lib/common-lib/synchronization/internal/ordered-lock/ordered-lock-impl.h:53-70 | in every run what a thread holds followed by what it will take is strictly increasing, and no mutex is held twice |
| Deadlock.NoCircularWait | common-lib/common-lib/synchronization/internal/ordered-lock/ordered-lock-impl.h:46-70 | for any number of threads the wait-for relation has no cycle |
| Deadlock.SomeThreadCanStep | common-lib/common-lib/synchronization/internal/ordered-lock/ordered-lock-impl.h:46-144 | whenever a thread holds or wants a mutex some thread can move, and whoever waits waits in the end for such a thread |
| Deadlock.WhereItBegan | common-lib/common-lib/synchronization/internal/ordered-lock/ordered-lock-impl.h:53-70 | a thread that is taking mutexes began a lock or a push_back earlier in the run, still holds all it held then, and has taken the first few of that lock's mutexes in lock order |
| Deadlock.ThrowGoesBackToBase | common-lib/common-lib/synchronization/internal/ordered-lock/ordered-lock-impl.h:57-64 | whenever the lock of a mutex throws, the thread's own steps, none of which can block, each unlock the mutex it locked last, until it holds exactly what it held at the step where that lock began |
| Deadlock.LockSetsOut | common-lib/common-lib/synchronization/internal/ordered-lock/ordered-lock-impl.h:46-56 | a lock sets out to take exactly its mutexes in their order |
| Deadlock.LockTakesAll | common-lib/common-lib/synchronization/internal/ordered-lock/ordered-lock-impl.h:46-70 | having taken the last of them a thread holds what it held when the lock began and then all its mutexes in order |
| Deadlock.UnlockReleasesAll | common-lib/common-lib/synchronization/internal/ordered-lock/ordered-lock-impl.h:72-80 | an unlock releases all a thread holds, latest first, by steps that cannot block |

## Left out

- Windows pipes and win-lib: they rest on operating system calls.
- Boost.Asio, sockets and clocks are the environment: a socket moves between one byte and what was asked for or fails, an aborted operation is seen only after a close, a clock never runs backwards.
- Protocol Buffers: payloads are byte sequences, and whether one parses is an arbitrary choice of the environment.
- Allocation failure, a throwing post, a throwing create_pipe and, outside promises, values whose copying throws do not happen.
- Callbacks that move out of a shared value: callbacks read their argument.
- Lifetime of controllers: weak pointers never expire while a pair is registered; get, wait and wait_for are not modelled.
- Future values are integers, and a callback that returns a future nests programs of finite depth.
- Disconnect callbacks of a pipe endpoint, and the transport between a connection and its pipe.
- Authenticators: a handshake succeeds or fails by arbitrary choice.
- Write-side start functions of the TCP endpoint are the same function as the read-side ones; only reads check the length.
- The lists of TCP operations and of create operations are written oldest first; the create operations meant are cancelled in that order rather than newest first.
- Waiting calls and reads are numbered when they are made, not when they begin to wait.
- Bytes.ToUint: adds the shifted bytes where the code combines them by bitwise or; the bytes do not overlap.
- TcpEndpoint.ReaderTakesWhatWasWritten: takes the bytes received to be a beginning of the bytes sent, which is what TCP provides.
- Heartbeat.SilentPeerIsGivenUp: assumes that the watch goes on long enough, that is, that a tick later than a + 2 periods + timeout takes place.
- RpcCalls.CallsAreAnsweredFaithfully: for fewer than 2^64 calls of each peer; after that numbers repeat.
- Deadlock.NoCircularWait: for threads that hold at most one ordered lock each, as the library demands.
- The console examples, type traits, value_proxy, function wrappers and buffer iterators: easy claims only.
