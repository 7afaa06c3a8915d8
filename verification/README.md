# A verified model of the go-xrpc connection

go-xrpc multiplexes calls, notifications and streams over one reliable message channel per
direction. Each endpoint of a connection is client and server at once. This project models that
connection protocol, the stream object and the metadata codec, and proves what users can rely on,
for every reachable state of two connected endpoints. Where the code gives less than its comments
or its users expect, the exact guarantee is proved and an explicit run shows where it ends.

## The parts

- `Packets`, `Streams`, `Protocol`: two endpoints as a state machine. A step is one operation of one
  goroutine. Acquiring invokesMu (announce, grant), handing a packet to the writer goroutine, writing,
  reading and every channel hand-off are separate steps. `Guard` says when a step can run, `Effect`
  what it does, `Emits` what it hands to the writer; a step reads the peer only through the wire.
- `CallInvariants`, `WireInvariants`, `StreamInvariants`, `Invariants`: one invariant per concern, each
  kept by every step, and `RunKeepsInv` for every run.
- `CallGuarantees`, `Cancellation`, `StreamGuarantees`, `StreamOrder`, `Deadlock`, `Liveness`, `Progress`, `Arrival`,
  `Teardown`: the guarantees; `Continuations` and `Shutdown`: what holds in every continuation of a run, and after
  serve's context has ended.
- `EndToEnd`, `StreamInputs`: the same guarantees stated from the step in which a user passes something in: what was
  passed, in every continuation, is what the other side gets.
- `Runs`: explicit runs that reach the states the guarantees leave open.
- `RpcStream`, `RpcConn`: the two objects as classes whose methods update their fields in place, tied
  to the values the machine steps by. `StreamMonitor`: the lock and the condition variable inside a
  stream, sub-step by sub-step, for any number of goroutines.
- `Serve`, `Handshake`, `ServeGuarantees`: the hello exchange, opening, sends and the deferred calls at both endpoints.
- `Base64`, `Metadata`: the metadata codec. `Rfc4648`: the standard, read bit by bit, against `Base64`. `Sums`: sums for termination measures.

Some findings, each proved below:

- A `processResponse` that has looked its call up blocks while it holds invokesMu. If the call's context
  ends before it receives, both wait for each other for ever, and no call of that endpoint can be
  registered or returned again. A blocked send gets stuck in no other way.
- The comment at xrpc/conn.go:425 says a cancelled call gets no response. The code marks a copy of the
  map entry (line 324), so a cancelled call is answered exactly when it would be without the
  cancellation.
- A cancel packet takes effect exactly when it is read while its request is registered in `cancels`. Read before the
  request's goroutine has got that far it is lost, and a call sends only one.
- Messages a stream handler sends before the client's `NewStream` has registered the stream are
  dropped. The loss is exactly what the client's reader had taken at the registration; a close among
  it is lost too, and then the client end stays open. A handler that hears from its client before it
  first sends loses nothing.
- A stream registered after cleanup stays open for ever, unless its own user closes it or its handler returns: one
  that a `NewStream` registers which resumes late, and one for a request that is accepted late.
- Nothing but cleanup unregisters a client stream. Its entry stays after it was closed, and what the reader takes for
  it is queued.
- A request can overtake the hello, because the hello is received from the queue and written in two
  steps (lines 257 and 258). It can exactly as long as the hello goroutine is not done and another packet can still be
  handed over and written; an endpoint that has heard anything but a hello from its peer is past that.
- If opening fails, the initialized channel is never closed and waiting calls wait for ever.
- A send can report success though nobody received its packet if and only if the connection was
  initialized and the write queue is closed, that is, once serve has returned from a connection that
  was open: the send panics and is recovered. The Done branch may be taken instead, unless
  `onConnOpen` put an unrelated context in place.
- After serve's context has ended, all calls return if and only if no response is stuck. Once the reader has stopped,
  one can get stuck if and only if one is being sent to its call or has arrived and still finds it.

## How the steps map to the code

| step | code |
|---|---|
| `DoStartCall`, `DoStartOpen`, `DoOpenInvoke` | xrpc/conn.go:561-582, 681-693 |
| `DoAnnounce`, `DoGrant` | `Lock` and what it guards, 601-610 |
| `DoSendRequest`, `DoServeEnd` | 612-618, 627-628, 666-673 |
| `CtxEnds`, `SendCancel` | 629-647 |
| `DoLockResponse`, `DoHandOver` | 455-471, 648 |
| `DoAccept`, `AcceptStream`, `DoReturn`, `DoDecide`, `DoRespond`, `StartHandler`, `DoRemoveCancel` | 334-453 |
| `DoRead`, `DoCancel`, `Dispatch` | 287-332, 490-518 |
| `DoRegister` | 697-703 |
| `StartSend`, `CloseStream`, `DoFinishClose`, `DoEndHandler`, `DoRecv` | xrpc/stream.go:104-204, xrpc/conn.go:473-488 |
| `Write`, `DoCleanup` | xrpc/conn.go:217-236, 520-537 |
| `Do` of `StreamMonitor` | xrpc/stream.go:86-170 |
| `DoLine`, `DoLife`, `DoUnwind`, `DoOpen`, `CanSend` of `Serve` | xrpc/conn.go:165-318, 539-559, 719-726 |

`EndToEnd.NothingIsLeftOut` lists when the steps of users and contexts can run: for every message, outcome, text and cause.

## Model

| member | source | states |
|---|---|---|
| CallInvariants.CallsKept | xrpc/conn.go:561-654 | Every step keeps the bookkeeping of outgoing calls: ids in range, `invokes` exactly the calls between registration and return, one lock announcement at a time, readers of invokesMu exactly the responses being sent, a channel per call that is closed exactly when the call has returned |
| WireInvariants.IssuedKept | xrpc/conn.go:584-654 | Every request on the wire was issued by the one call of its id and matches it; a cancel packet follows its request and comes from a call that left |
| WireInvariants.AnswersKept | xrpc/conn.go:334-453 | Every response answers exactly one request, that request has no other response, and its content is what the handler returned or the stream reply |
| WireInvariants.ResultsKept | xrpc/conn.go:455-467 | A call that ended through its channel holds the response it names, and a delivered response was taken by exactly that call |
| WireInvariants.CancelsKept | xrpc/conn.go:403-413 | With unique ids, the entries of `cancels` are those of the requests between registration and removal, each with its own request as target and none marked as cancelled |
| StreamInvariants.StreamKeepsTable | xrpc/stream.go:104-204 | Every step of a stream keeps, for each stream object: accepted messages are handed over or about to be, closes come last, numbers count from 1, everything dispatched is returned or queued in order |
| StreamInvariants.DispatchKeepsTaken | xrpc/conn.go:490-518 | Dispatching a message keeps the account of what was read: dropped before registration, received in order after it |
| Invariants.StepKeepsInv | xrpc/conn.go:287-706 | Every step of either endpoint keeps the whole invariant, including what one side has made of the other side's packets |
| Invariants.RunKeepsInv | xrpc/conn.go:287-706 | The invariant holds after every run |
| Invariants.IdsAreUnique | xrpc/conn.go:561-582 | No two requests an endpoint reads have the same id |
| Invariants.RequestIsFromCall | xrpc/conn.go:571-582 | The request a goroutine serves is the one its peer's call with that id sent |
| Invariants.ResultIsFromHandler | xrpc/conn.go:455-467 | A result taken from a channel was produced by the goroutine of the call's own request |
| Invariants.ClientHasServer | xrpc/conn.go:676-706 | Whoever has the client end of a stream has a peer that registered the server end for that very request |
| Invariants.AcceptedStreamIsFresh | xrpc/conn.go:371-378 | When a stream request is accepted neither end of its stream exists, so registering never replaces a stream |
| CallGuarantees.CallCorrelation | xrpc/conn.go:584-654 | Under any order of responses, an Invoke returns the outcome of the single handler run for its own id, service, method and input |
| CallGuarantees.AtMostOneResponse | xrpc/conn.go:420-453 | No request is answered twice and no notification at all |
| CallGuarantees.ResultChannelSafety | xrpc/conn.go:455-467 | No send on a closed channel, no second close, no close while someone sends, and `invokes` is exactly the calls between registration and deferred removal |
| CallGuarantees.CancelEntries | xrpc/conn.go:403-413 | The keys of `cancels` are exactly the unary requests between registration and return, and the cancelled flag is false in every stored entry of every reachable state |
| CallGuarantees.CancelReachesOnlyItsCall | xrpc/conn.go:319-328 | Reading a cancel packet changes nothing but the context of the running handler with that id |
| CallGuarantees.CancelledCallIsAnswered | xrpc/conn.go:334-453 | With serve's context alive, a finished request has its response if and only if the peer serves and can decode it and it is no notification, whether its context was cancelled or not, despite the comment at line 425; the response carries what the handler returned |
| Cancellation.CancelTakesEffect | xrpc/conn.go:316-328 | When a cancel packet is read, its one request was read before and not cancelled; then and in every continuation the context has the packet's cause if and only if the request was registered in `cancels` at that moment, and no cause otherwise |
| EndToEnd.CallIsAsPassed | xrpc/conn.go:565-582 | From the step in which a user starts a call or a notification, in every continuation: the call with the next id, and every request with that id the peer has, has the service, method and message that were passed in and is a notification if and only if it was to be one |
| EndToEnd.InvokeIsAnswered | xrpc/conn.go:584-654 | From that step, in every continuation in which the Invoke has returned through its channel: it returns what the one handler run for its id produced, a run of the service and method passed in on the message passed in |
| EndToEnd.OpenIsAsPassed | xrpc/conn.go:676-693 | From the step in which a user starts NewStream, in every continuation: the stream's number is the next id, and the one request made for it asks for the service and method passed in under that number |
| EndToEnd.OutcomeReachesCaller | xrpc/conn.go:418-453 | From the step in which a handler returns, in every continuation: its request's outcome is what it returned; the one response, if there is one, carries the message and no error text, or the text and no message; and so does what the caller got that took the response |
| EndToEnd.CancelIsAsPassed | xrpc/conn.go:629-647 | The call whose context ends hands over one cancel packet with its own id and the cause given; in every continuation the context of its handler is alive or has that cause |
| EndToEnd.HowCallsEnd | xrpc/conn.go:612-673 | In every reachable state: a returned notification reports success if and only if its request was handed over, and otherwise serve's context had ended; an Invoke that ends without a response has its cancel packet handed over, or serve's context had ended |
| EndToEnd.HandlersThatRun | xrpc/conn.go:346-417 | Which requests run a handler, from the service table and the message types alone: a unary one exactly when its method is listed and its message decodes; one without a service, when it is a StreamRequest that names a listed stream, registers that stream and starts its handler, and otherwise registers none |
| EndToEnd.WhenStreamsComeAndGo | xrpc/conn.go:473-478 | In every reachable state: a server stream is unregistered exactly when its handler has returned and none of its sends is under way, and then all it sent, a close included, was handed over in order; NewStream registers its stream exactly when its Invoke has returned a stream reply without an error, and once (lines 693-703) |
| EndToEnd.ConnectionSteps | xrpc/conn.go:217-252 | In every reachable state: no direction of the wire holds more unread packets than it has room for, writing waits only for room, reading only for something written, cleanup only for the reader's end; the end of serve's context, of the reader and of the writer change nothing else |
| Deadlock.DeadlockBoundary | xrpc/conn.go:455-467 | A blocked send has its call lock-free at or before the matching receive, and then the hand-over is at most two steps away, or its call went through a Done branch, and then neither it nor any writer of invokesMu can move; exactly one of the two |
| Deadlock.StuckForever | xrpc/conn.go:601-610 | A stuck pair stays stuck in every continuation, teardown included, and `invokes` never changes again |
| Deadlock.StuckBlocksTheEndpoint | xrpc/conn.go:601-610 | From then on no registered call of that endpoint returns, and no call that was not registered, Invoke or NewStream, gets to send; notifications take no lock and are not blocked |
| Deadlock.NoDeadlockWithoutDone | xrpc/conn.go:626-653 | If no call leaves through a Done branch, every blocked send has its call at or before the receive |
| Runs.DeadlockIsReached | xrpc/conn.go:629-647 | A run with both serve contexts alive in which a call's context ends between lookup and hand-over, and the endpoint is stuck |
| Runs.CancelledIsAnswered | xrpc/conn.go:319-328 | A run in which the cancel packet is read while the handler runs, cancels its context, and the response is handed over all the same |
| Runs.CancelIsLost | xrpc/conn.go:403-408 | A run in which the cancel packet is read before its request is registered: the handler runs, and in every continuation its context is not cancelled by the peer |
| Runs.PrefixIsLost | xrpc/conn.go:693-703 | A run in which everything the handler sent, its close included, is dropped before NewStream registers the stream; in every continuation without a close by the user or cleanup the client end stays open and empty and RecvMsg never returns |
| Runs.LateStreamStaysOpen | xrpc/conn.go:520-537 | A run in which NewStream registers a stream after cleanup; in every continuation in which its user does not close it, it stays open and registered and RecvMsg never returns |
| Runs.LateRequestStaysOpen | xrpc/conn.go:371-386 | A run in which a stream request is accepted after cleanup and its handler starts; in every continuation in which the handler neither closes the stream nor returns, the server end stays open and registered and RecvMsg never returns |
| Continuations.LateStreamIsOrphan | xrpc/conn.go:371-378 | Every stream registered after cleanup, by an incoming request or by NewStream, stays open and registered in every continuation in which its user does not close it and its handler does not return, and RecvMsg never returns |
| Continuations.ForgottenForever | xrpc/conn.go:473-488 | An open and empty client end whose server end has ended, with nothing of it unread, stays so in every continuation without a close by the user or cleanup |
| Continuations.LostIsWhatWasRead | xrpc/conn.go:693-703 | The messages of a stream lost, then and in every continuation, are exactly those the client's reader had taken when NewStream registered it; so none is lost if and only if it had taken none |
| Continuations.ListeningHandlerLosesNothing | xrpc/conn.go:371-386 | When the server end has received something before it first sends, the client end exists and, as long as it is registered, everything sent is received or on its way, in every continuation |
| Continuations.HandlerEndReachesPeer | xrpc/conn.go:473-488 | In every continuation of a handler's return with an error, or nil, on an open stream, with its endpoint's context alive and everything arrived: the client end is closed, with that text and after exactly the data since its registration, if and only if its registration did not miss the close; a client registered before the return never does |
| Continuations.SilentEnd | xrpc/conn.go:473-488 | A handler that returns the close error, or nil on a closed stream, sends nothing more in any continuation |
| Liveness.PendingMoves | xrpc/conn.go:217-252 | In an undisturbed state every pending call has some internal step that can run now, at one endpoint or the other, on a wire that holds as little as one unread packet |
| Liveness.ResponseFindsCall | xrpc/conn.go:455-471 | While no call gives up, a response that is not delivered yet finds its call registered and about to receive |
| Progress.StepDecreases | xrpc/conn.go:217-332 | Every internal step decreases the measure of the system |
| Progress.EveryCallCompletes | xrpc/conn.go:584-706 | With no context ending and resolvable requests, internal runs are bounded by the measure; when no internal step is left, every Invoke has returned through its channel, every Notify has handed over its request, and every NewStream has its stream, unless the ids were used up before it made its call |
| Arrival.QuietMeansDelivered | xrpc/conn.go:217-252 | In an undisturbed state in which no internal step is left, everything an endpoint handed over was written and read, and no stream has a message or a close under way |
| Arrival.ClientMessagesArrive | xrpc/stream.go:104-140 | When an undisturbed run has come to rest, a registered server end has received exactly what the client end sent, in order |
| Arrival.ServerMessagesArrive | xrpc/conn.go:494-508 | Then a registered client end has received everything the server end sent but what its reader had taken before its registration |
| Arrival.ClosesArrive | xrpc/stream.go:162-204 | Then a stream end not closed by its own side is closed if and only if its peer sent a close since the registration, with the first one's text; RecvMsg returned the data sent since the registration, in order, and after all of it that text |
| Arrival.HandlerEndArrives | xrpc/conn.go:473-488 | When an undisturbed run in which a handler returned with an error, or nil, on an open stream has come to rest, the client end is closed with that text after exactly the data since its registration if and only if the registration did not miss the close; a client registered before the return never does |
| StreamInputs.MessageIsAsPassed | xrpc/stream.go:104-124 | From the step in which SendMsg accepts a message, in every continuation with serve's context alive: the message stands next in the sent history, with the stream's number and side, the sequence number of its place modulo 2^64 and exactly the message passed in, after data only; and the peer's end, while registered, receives that and nothing else at that place |
| StreamInputs.MessageArrives | xrpc/stream.go:104-140 | When an undisturbed run after that step has come to rest, a registered peer end that was not closed by its own side and did not miss it at its registration has received the message passed in at that place, and RecvMsg returns it there; a server end misses none |
| StreamInputs.CloseIsAsPassed | xrpc/stream.go:190-204 | From the step in which CloseWithError finds the stream open, in every continuation with serve's context alive: the next message of the stream is a close with number 2 and the text passed in, or with number 0 and none, after data only |
| StreamInputs.CloseArrives | xrpc/stream.go:162-204 | When an undisturbed run after that step has come to rest, a registered peer end that was not closed by its own side and did not miss the close is closed with the text passed in |
| StreamInputs.HandlerEndIs | xrpc/conn.go:473-488 | What a handler's return sends: its error as a close with number 2 and its text, open or not; nil a close with number 0 on an open stream; nothing otherwise |
| StreamInputs.ClosedByOwnSide | xrpc/stream.go:162-204 | A stream end is closed from its own side only by its user, its handler's error or cleanup, and only while open; the close errors RecvMsg returned carry the text it was closed with, none if by its own side |
| Shutdown.ShutdownCompletes | xrpc/conn.go:626-653 | After serve's context has ended, an endpoint's calls wind down in at most as many steps as they have work left; when nothing is left to wind down, all have returned if and only if no response is stuck in its send |
| Shutdown.ShutdownBoundary | xrpc/conn.go:455-471 | When serve's context has ended, some order of winding down leaves a response stuck if and only if one is being sent to its call, or has arrived while its call is registered and not yet announced for removal; otherwise all calls return in whatever order they wind down |
| Shutdown.StickingBoundary | xrpc/conn.go:242-252 | Once the reader has stopped, some continuation leaves a response stuck if and only if one is being sent to its call, or has arrived while its call is registered and not yet announced for removal, whatever users and the peer do |
| StreamGuarantees.ClientToServerIsExact | xrpc/conn.go:371-386 | While the server's entry exists: what the client end sent is, in order and once each, what the server end received and what is in flight; received is returned plus queued; messages are numbered 1, 2, 3, … |
| StreamGuarantees.ServerToClientLosesAtMostAPrefix | xrpc/conn.go:494-508 | What the server end sent is what was dropped before registration, then what the client end received, then what is in flight; nothing is dropped after registration |
| StreamGuarantees.NoCrossTalk | xrpc/conn.go:494-504 | Every message a stream end received or queues was sent by the peer's end with the same id and the opposite side, though both endpoints number streams independently |
| StreamGuarantees.GracefulCloseKeepsData | xrpc/stream.go:126-204 | For a stream not closed locally, RecvMsg returned the received messages in order and then the peer's close error for ever; once all has arrived that is what the peer sent since registration, and the stream is closed if and only if a close is among it |
| StreamGuarantees.ErrorTextArrives | xrpc/stream.go:162-204 | Once everything has arrived, a stream whose peer sent data and then closed with a text is closed with that very text and received the data since registration |
| StreamOrder.MessagesFollowResponse | xrpc/conn.go:379-386 | While the serving endpoint's context is alive, every message a server end sends stands on the wire behind the response that opened its stream |
| StreamOrder.LossNeedsResponse | xrpc/conn.go:693-703 | A message of a stream is dropped before its registration only once the client has read the response, so the window of loss lies between reading the response and registering the stream |
| Teardown.CleanupClosesRegisteredStreams | xrpc/conn.go:520-537 | Cleanup empties the tables, closes exactly the registered streams, and in every continuation they stay closed and their receivers are released |
| Teardown.ClientEntriesStay | xrpc/conn.go:697-703 | In every continuation up to cleanup a client stream stays registered, closed or not, and receives whatever the reader takes for it; all data received that RecvMsg has not returned is in its queue |
| StreamMonitor.NoLostWakeup | xrpc/stream.go:86-140 | In every reachable monitor state, if a receiver is parked unsignalled then, with the lock free, the stream is open and every queued message has its own signalled receiver on the way; with the lock held the count is off by at most one |
| StreamMonitor.CloseReleasesReceivers | xrpc/stream.go:162-170 | Once a close is over, no receiver is parked |
| StreamMonitor.CounterIsAccurate | xrpc/stream.go:127-144 | The counter is the queued byte total plus a popped message not yet subtracted, minus a pushed one not yet counted; never negative, and exact whenever the lock is free |
| StreamMonitor.SubstepsMakeOperations | xrpc/stream.go:86-170 | Run under the lock, the sub-steps make up the push, pop and close the connection machine uses |
| StreamMonitor.CloseAmongOthers | xrpc/stream.go:158-170 | From the moment a goroutine begins a close with a text, whatever others do in between: a stream it finds open when it gets the lock is closed with that text, one it finds closed stays as it is |
| StreamMonitor.PushAmongOthers | xrpc/stream.go:85-94 | From the moment the reader begins to push a message, whatever others do in between: exactly that message is added at the end of the queue found and its bytes are counted |
| StreamMonitor.ReceiveAmongOthers | xrpc/stream.go:126-140 | From the moment a goroutine begins to receive, whatever others do in between: it takes the first message it finds and its bytes, or nothing when the stream is closed and empty, or parks and frees the lock |
| RpcStreams.RpcStream.constructor | xrpc/stream.go:65-79 | A new stream is open, empty and has sent nothing |
| RpcStreams.RpcStream.OnSocketRead | xrpc/stream.go:85-94 | The message goes to the end of the queue, its bytes are counted, and the histories still account for everything received |
| RpcStreams.RpcStream.GetCloseError | xrpc/stream.go:96-102 | StreamClosedError exactly when the peer gave no text, else the stream's number and the peer's text |
| RpcStreams.RpcStream.SendMsg | xrpc/stream.go:104-124 | On an open stream a message with the stream's number and side, the next sequence number modulo 2^64 and exactly what was passed in is accepted, and the machine's Send does the same; on a closed one the close error is returned, nothing changes and the machine has no such step |
| RpcStreams.RpcStream.RecvMsg | xrpc/stream.go:126-140 | For any interleaving of arrivals and other receivers during its waits: a message comes from the head of the queue, the close error only when closed and everything received was returned; a goroutine stays parked only when there is nothing to return, and waits at all only if the stream is found open and empty |
| RpcStreams.RpcStream.GetIncomingQueueLen | xrpc/stream.go:142-144 | The byte total of the queue, never negative |
| RpcStreams.RpcStream.CloseWithRemoteError | xrpc/stream.go:162-170 | Only the first close takes effect and keeps its text |
| RpcStreams.RpcStream.SendClose | xrpc/stream.go:172-188 | The close message gets the next number and joins the sent history |
| RpcStreams.RpcStream.CloseWithError | xrpc/stream.go:190-204 | Found open, it yields one close message with number 0 or 2, whatever happens before it closes the stream; a close that came in between keeps its text; found closed, nothing changes |
| RpcConns.RpcConn.constructor | xrpc/conn.go:95-122 | A new connection has no calls, cancel entries or streams |
| RpcConns.RpcConn.GetNextInvokeId | xrpc/conn.go:561-563 | The next id, zero after 2^64 - 1; the machine takes ids the same way |
| RpcConns.RpcConn.RegisterInvoke | xrpc/conn.go:601-604 | A fresh open channel is registered, and registered channels stay open and distinct; every machine state that shows the object shows it again after the first grant |
| RpcConns.RpcConn.UnregisterInvoke | xrpc/conn.go:605-610 | The channel is removed and closed without a panic, what stays registered is open; every machine state that shows the object shows it again after the last grant |
| RpcConns.RpcConn.FindInvoke | xrpc/conn.go:455-470 | The lookup finds an open channel or none, and finds one exactly when the machine's response goes on to send |
| RpcConns.RpcConn.CtxCancelled | xrpc/conn.go:319-327 | No state changes: the flag is set on a copy; the target found is the only request whose context the machine's step cancels |
| RpcConns.RpcConn.IsMarkedCancelled | xrpc/conn.go:425-431 | The test before responding is never true, in the object and in the machine |
| RpcConns.RpcConn.RegisterCancel | xrpc/conn.go:403-408 | An unmarked entry is stored, as the machine does when it accepts a unary request |
| RpcConns.RpcConn.RemoveCancel | xrpc/conn.go:409-413 | The entry is deleted, as the machine does in its last step of a unary request |
| RpcConns.RpcConn.RegisterServerStream | xrpc/conn.go:372-378 | A fresh server stream is registered under its own number |
| RpcConns.RpcConn.RegisterClientStream | xrpc/conn.go:697-703 | A fresh client stream is registered under its own number |
| RpcConns.RpcConn.DeleteServerStream | xrpc/conn.go:473-478 | The server stream is unregistered, the others stay |
| RpcConns.RpcConn.ProcessStreamMsg | xrpc/conn.go:490-518 | A message from the peer's server half changes exactly the client stream with its number, if registered, and never a server stream; and the other way round |
| RpcConns.RpcConn.CleanupStreams | xrpc/conn.go:520-537 | Both tables end empty and every stream that was in them is closed |
| RpcConns.CloseTable | xrpc/conn.go:524-527 | The loop closes every stream of one table, whatever order it takes, and none of the other |
| RpcConns.DispatchMatches | xrpc/conn.go:490-518 | The machine's dispatch has the effect of ProcessStreamMsg on both tables, and drops a message exactly when no stream is registered for it |
| RpcConns.RegistrationMatches | xrpc/conn.go:371-378 | The machine registers streams as the class does |
| RpcConns.RemovalMatches | xrpc/conn.go:520-537 | The machine unregisters and cleans up as the class does |
| RpcConns.CallsMatch | xrpc/conn.go:584-654 | No other step of a call changes the registered channels: a machine state that shows the object's `invokes` keeps showing it |
| RpcConns.CancelsMatch | xrpc/conn.go:319-328 | No other step of an endpoint, reading a cancel packet included, changes `cancels`: a machine state that shows the object's entries keeps showing them |
| Serve.StepKeepsPair | xrpc/conn.go:165-318 | Every step of serve at either endpoint keeps the invariant of the hello exchange, the opening and the teardown |
| Handshake.HelloComesFirst | xrpc/conn.go:255-273 | At most one hello is written; it is the first packet while no other packet was handed over, and once the peer has opened; with hand-off and write as one step it is unless the context ended before the hand-off |
| Handshake.HeardMoreMeansFirst | xrpc/conn.go:294-314 | An endpoint that has read anything but a hello has its own hello as its first packet, in every continuation |
| Handshake.OvertakingBoundary | xrpc/conn.go:255-273 | A hello not overtaken yet is in some continuation if and only if the socket is whole, the hello goroutine is not done, and another packet is held or can still be handed over, by an endpoint that is open or can still open; as the code is, a run in which no context ends and nothing fails suffices; serve's own closing of the socket ends the danger |
| Handshake.HelloErrorBoundary | xrpc/conn.go:294-318 | Between conforming endpoints nobody reports a duplicated hello, and an endpoint reports an invalid one in some continuation if and only if it has, or has no hello yet and the peer's was overtaken or still can be |
| Handshake.HandshakeIsSafe | xrpc/conn.go:255-285 | With hand-off and write as one step and hellos handed over, serve never ends with an invalid or duplicated hello |
| Handshake.RequestOvertakesHello | xrpc/conn.go:256-258 | With the two steps apart a run is reached in which a request overtakes the hello, with no context ended and nothing broken, and the peer then reports an invalid hello |
| ServeGuarantees.TeardownOrder | xrpc/conn.go:176-211 | When serve has returned, by any exit: the closed callback ran exactly once if and only if the connection was opened, before the streams were cleaned, without an error after a cancellation or a normal close and with the reader's error otherwise; the context was cancelled and then the write queue closed, last |
| ServeGuarantees.ReaderEndIsReported | xrpc/conn.go:182-252 | From the step in which reading fails on an open connection, by whatever error, in every continuation in which serve has returned: the whole list of what was seen, event by event, the closes of the socket with their status and the error of the closed callback included |
| ServeGuarantees.EarlyEndIsReported | xrpc/conn.go:195-205 | The same from the step in which the hello is not read, is no hello, or onConnOpen fails: the socket is closed with an internal error first, there is no closed callback, and the teardown ends as abnormal |
| ServeGuarantees.CallbackErrorMeans | xrpc/conn.go:182-252 | When serve has returned, the closed callback's error is missing if and only if the socket was last closed with a normal closure or as going away; otherwise it is the reader's error and the last close was abnormal |
| ServeGuarantees.FramesAreJudged | xrpc/conn.go:287-318 | From whatever peer: before the connection is active a frame is accepted if and only if it is a hello, afterwards if and only if it is not; the first refused one ends serve with an invalid hello and two closes of the socket, the other with a duplicated one and none so far |
| ServeGuarantees.SocketCloseCount | xrpc/conn.go:182-204 | When serve has returned, the socket was closed once if and only if the connection had opened and the reader did not end on a malformed frame, on which wspb.Read closes it first (xrpc/internal/wspb/wspb.go:36-38, 50-53): then twice; if it had not opened twice, and three times after a malformed frame or an invalid hello |
| ServeGuarantees.RecoveredOnlyAfterCancel | xrpc/conn.go:539-559 | A send finds the queue closed only after serve has cancelled its context |
| ServeGuarantees.SuccessWithoutHandOver | xrpc/conn.go:539-559 | A send can return nil without anyone receiving its packet if and only if the connection was initialized and the queue is closed, that is, serve has returned from an open connection; then no send hands anything over, and the Done branch can be taken exactly when the context in place is done, which it is unless an unrelated one was put in place |
| ServeGuarantees.SuccessesAreAccountedFor | xrpc/conn.go:539-559 | While the socket is whole, the sends that returned nil are exactly the packets on the wire and those a goroutine holds; always, these and the recovered sends are among them, and there are recovered ones only after serve returned and closed the socket |
| ServeGuarantees.WriterStopsForCause | xrpc/conn.go:217-236 | The writer goroutine stops only when the context is done, the queue is closed or the socket is broken; until then, on an open connection, it can always take a packet or write the one it has |
| ServeGuarantees.BrokenSwallowsFew | xrpc/conn.go:217-236 | From the moment the socket is broken, in every continuation: nothing more is written, and each of the hello and the writer goroutine takes at most one packet more, since each stops at its first failed write |
| ServeGuarantees.DroppedSendIsReportedSent | xrpc/conn.go:545-558 | For the default context and for an unrelated one, a run in which serve has returned and a send returns nil though nothing was handed over |
| ServeGuarantees.FailedOpeningBlocksCalls | xrpc/conn.go:197-211 | When opening fails, in every continuation no call, notification or stream ever gets to send |
| Base64.EncodedLength | xrpc/internal/util/util.go:93-103 | An unpadded encoding has length 0 mod 4 exactly when the input length is 0 mod 3, and never 1 mod 4; a padded one always 0 mod 4 |
| Base64.StringRoundTrip | xrpc/internal/util/util.go:93-103 | Each decoder inverts its own encoder on every byte string |
| Base64.DecodesBothForms | xrpc/internal/util/util.go:97-103 | The length-directed decoder returns every byte string from its unpadded and from its padded encoding |
| Base64.DecodingShrinks | xrpc/internal/util/util.go:97-103 | Decoded bytes are at most three quarters of the characters |
| Base64.AcceptanceOfDecodeBin | xrpc/internal/util/util.go:97-103 | Exactly which strings the decoder accepts: after ignored line breaks, those padded to a multiple of four with at most two padding characters when the whole length is 0 mod 4, else those over the alphabet without a single character left over |
| Base64.SameBytes | xrpc/internal/util/util.go:97-103 | Two accepted strings without line breaks decode to the same bytes if and only if, padding aside, they agree up to the unused low bits of the last character |
| Base64.DecodingIsNotInjective | xrpc/internal/util/util.go:97-103 | Two different strings that decode to the same byte |
| Rfc4648.EncodingIsStandard | xrpc/internal/util/util.go:93-95 | Character by character against section 4 of RFC 4648: the unpadded encoding has as many characters as cover the input's bits six at a time, and each is the entry of the standard's table for its six bits |
| Rfc4648.PaddingIsStandard | xrpc/internal/util/util.go:97-103 | The padded encoding is the unpadded one followed by two, one or no padding characters |
| Rfc4648.AlphabetIsStandard | xrpc/internal/util/util.go:97-103 | The decoder knows exactly the letters, the digits, plus and slash |
| Rfc4648.LineBreaksAreSkipped | xrpc/internal/util/util.go:97-103 | The decoder skips carriage returns and line feeds wherever they stand, and nothing else |
| Rfc4648.StandardExamples | xrpc/internal/util/util.go:93-103 | The examples of section 10 of RFC 4648 for one, two and three bytes |
| Metadata.LowerUndoesCanonical | xrpc/internal/util/util.go:55-63 | Canonical header names give lower-case keys back, so distinct keys never merge |
| Metadata.CanonicalSpelling | xrpc/internal/util/util.go:55-63 | How http.Header spells a name: of token characters, no lower-case letter first or after a hyphen and no upper-case one elsewhere, only the case changes; any other name stays as it is |
| Metadata.HeaderRoundTrip | xrpc/internal/util/util.go:105-118 | One value survives packing and unpacking if and only if the suffix `-bin` is not only in the lower-case form of the key, or the value is empty |
| Metadata.PackInvokeMetadata | xrpc/internal/util/util.go:26-39 | Whatever order the map is ranged over in, the pairs are those of each key in turn |
| Metadata.UnpackInvokeMetadata | xrpc/internal/util/util.go:41-53 | The result is the multimap the pairs fill under lower-case keys, empty without metadata |
| Metadata.InvokeRoundTrip | xrpc/internal/util/util.go:26-53 | For lower-case keys every list comes back in order under every iteration order, and exactly the keys with empty lists are lost |
| Metadata.InvokeMergesCases | xrpc/internal/util/util.go:26-53 | For keys of any case, the values under a lower-case key are the lists of the keys that agree with it, each whole and in order; as a multiset they do not depend on the iteration order |
| Metadata.PackHTTPHeaders | xrpc/internal/util/util.go:55-63 | Whatever order the map is ranged over in, the headers are those the encoded pairs fill under canonical names; every key's list stands under its canonical name in order and without gaps, and alone unless another key has the same name: unpadded base64 text that decodes to the value under a key that ends in the bytes of `-bin`, the value itself under any other |
| Metadata.UnpackHTTPHeaders | xrpc/internal/util/util.go:65-85 | Fails if and only if some value under a name whose lower-case form ends in the bytes of `-bin` is no text the decoder accepts; otherwise every header's list stands under its lower-case name in order and without gaps, decoded under such a name and as it is under any other; empty without headers |
| Metadata.HTTPRoundTrip | xrpc/internal/util/util.go:55-118 | For lower-case keys, under every pair of iteration orders, unpacking the packed headers gives the metadata back, binary values byte for byte, if and only if no list is empty; keys with empty lists are all that is lost |

## Left out

- The wire encoding of packets, websocket, TLS and HTTP: a direction of the connection is a reliable FIFO of typed packets.
- Flow control, windows and `SetWindow`: they change no behaviour in the code.
- The deque of a stream is a sequence; its code is not part of this model. `queueByteLen` is an unbounded integer instead of an int64.
- Logging, options, service registration, the set of connections of a server, dialling and listening, the code generator and the load-test tool: each is a one-branch fact next to the protocol. The service table is a fixed map, and a handler is a step that returns any outcome.
- Timeouts and deadlines: a context may end at any step.
- Formatting of error text (xrpc/conn.go:462 uses the text as a format string): an error is its text.
- Unmarshalling of a result or a stream message into the caller's type, after it was taken from the channel or the queue; marshalling errors before anything is sent.
- Calling Invoke directly with the empty service name: in the protocol machine only NewStream makes stream requests.
- Metadata in requests: the protocol machine does not carry it; the codec is modelled on its own.
- Ids beyond 2^64: the protocol machine starts no call once the ids are used up, so that ids are unique; `GetNextInvokeId` models the wrap-around.
- Several goroutines sending on one stream: each stream has one sending goroutine, and a stream handler is one goroutine.
- Queued writers of invokesMu: one writer announces itself at a time, the others wait for their turn to announce.
- Sends on the closed write queue inside the protocol machine: they count as failed there; module `Serve` has the recovered send and what it reports.
- Critical sections that touch one map (cancelsMu, the stream tables) or the state of one stream are one step of the protocol machine each; `StreamMonitor` has the sub-steps of a stream. SendMsg tests that the stream is open and takes its number in one step: a close that lands between the two changes neither. CloseWithError's test and its close are two steps.
- Which frames `wspb.Read` refuses: the reader may get a malformed one at any time.
- `ShutdownBoundary` is about the responses there when the context has ended; while the reader still runs it can read another one. `StickingBoundary` has the boundary over all continuations once it has stopped.
- The second call of `serve` on one connection, the hello timer (reading may fail at any time instead) and `onConnOpenReady`.
- Lower case of keys that are not ASCII: `Lower` changes the letters A to Z and leaves every other byte as it is.
- Header canonicalisation follows the documentation of Go's net/http; that code is not part of this model. Nor is that of encoding/base64.
- RecvMsg: the class method returns when the scenario of what happens during its waits is used up; `StreamMonitor.NoLostWakeup` says that nobody sleeps without reason.
