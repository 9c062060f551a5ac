# Cranker router: verified model

A Cranker router is a reverse proxy. Backend connectors open websockets to it and register under a
route; the router picks one of those sockets for each client request, sends the request over it and
streams the answer back. This project models the hard parts of the router in Dafny and proves what
they keep in every run. `dafny verify dfyconfig.toml` checks all of it.

| part | files |
|---|---|
| V3 upload flow control, a lock-free concurrent protocol | `FlowControl.dfy`, `FlowBound.dfy`, `FlowEffects.dfy`, `FlowSequential.dfy` |
| V3 stream layer: bytes, frames, one message at a time | `Utf8.dfy`, `Frames.dfy`, `Streams.dfy` |
| V3 theorems over runs of many requests | `Demux.dfy`, `Delivery.dfy`, `StreamEffects.dfy`, `Closing.dfy` |
| V3 objects, proved against `Streams` | `RouterSocketV3.dfy` |
| V1 response machine and its object | `V1Response.dfy`, `RouterSocketV1.dfy` |
| socket farm: choice from a queue, the farm object | `Scheduler.dfy`, `WebSocketFarm.dfy` |
| socket farm under concurrency | `FarmProtocol.dfy`, `FarmTokens.dfy`, `FarmHomes.dfy`, `FarmWakeUp.dfy`, `FarmSeen.dfy`, `FarmLooked.dfy`, `FarmRetired.dfy`, `FarmStranded.dfy`, `FarmAlone.dfy`, `FarmFallback.dfy`, `FarmServed.dfy` |
| `Forwarded` header (RFC 7239) | `Forwarded.dfy`, `ForwardedRoundTrip.dfy`, `ForwardedExact.dfy`, `ForwardedPlain.dfy`, `ForwardedHops.dfy`, `ForwardedParser.dfy` |
| route resolution, header text | `Text.dfy`, `RouteResolver.dfy`, `HeaderText.dfy` |

How the parts are modelled:

- An unbounded channel is the sequence of everything ever put on it and a closed flag. Atomics are
  sequentially consistent.
- The V1 handlers are methods of `RouterSocketV1.RouterSocket`, each proved to be a step of `V1Response`.
- A concurrent protocol is a total step function over events; an event that cannot happen leaves the
  state as it is. Theorems are about the state after any sequence of events.
- What an operation does is also stated without its own functions: on the bytes of a frame, on the items
  of a channel, on the sockets of a queue, or as a sum over the events of a run.
- Code that changes things in place is a class or a method with the source's loops, and its contract
  ties it to a function on values; the theorems are about those functions.
- In the concurrent farm the answers of the filter, of dark mode and of domain preference are free
  choices of each step, so its theorems hold whatever they are.
- Clocks, randomness, the network, the socket filter and the state of weak references are parameters
  or events. Listeners succeed and do nothing.

## Where the code does less than its comments or design suggest

Each of these is a theorem here, with the exact condition under which the expected property holds.

- **Upload bound.** One body chunk above max(64 KiB, header bytes) is not a bound on unacknowledged
  bytes: a drain that has already seen the stream writable can release a sender that parked after it
  became unwritable. The least bound is max(header + C, 64 KiB + 2C) for chunks of at most C bytes
  (`FlowBound.PendingBoundReached`, `FlowBound.OneChunkBoundExactly`).
- **Long headers without a body.** Every header frame of a request without a body carries END_STREAM,
  so a header text of more than 16000 characters is closed at its first frame and never delivered
  (`Delivery.FlagsWithoutBody`, `Closing.HeaderWithoutBodyExactly`).
- **Short window updates.** A window update with a payload under four bytes for a live request ends
  the receive loop of the whole socket. Requests are undisturbed by any run in which no other request
  sends one, and a run in which one does disturbs every request that could still take a body chunk
  (`Demux.UndisturbedExactly`, `Demux.FrameDisturbsExactly`).
- **Close after the receive loop ended.** Only the receive loop calls `on_close`, and a short window
  update ends it. A close with a code other than 1000 ends an open response in an error, and makes the
  socket refuse requests, if and only if the loop was still there
  (`Closing.AbnormalCloseVisible`, `Closing.AbnormalCloseAfterRun`, `Closing.ClosedSocketRefuses`).
- **Sockets a waiting request misses.** A scan ends when it meets a socket for the second time, and a
  socket that is put back is not announced. A request that waits with nothing unread has looked at a
  registered socket of its route, except in two cases. In the first, its channel is no longer the
  channel of the route: it keeps the channel it looked up once, and cleaning gives later sockets another
  one. In the second, somebody else held the token of the socket since its last scan began. Without
  the second, it has looked at the socket if and only if the channel is still the route's
  (`FarmSeen.LookedAtOrHeld`, `FarmLooked.LookedAtExactly`). Both cases happen
  (`FarmStranded.WaitingRequestMissesSocket`, `FarmStranded.HeldSocketIsMissed`).
- **Blocked on a cleaned route.** A request in `recv` on a channel that lost its route reads no
  notification, and no registered socket ever comes to that channel (`FarmRetired.CutOff`).
- **`Forwarded` round trip.** The printer escapes only the double quote and the parser drops
  backslashes, so a list comes back exactly when no value has a backslash and its last element shows
  in the text (`ForwardedExact.RoundTripExactly`).
- **Deregistration.** A deregistered socket with a request under way leaves the registry uncounted, and
  the later removal finds nothing to count, so `idle_count` stays too high
  (`WebSocketFarm.Farm.DeRegister`, `WebSocketFarm.Farm.Remove`).
- **Fallback on an empty queue.** A scan that finds no live socket waits in `recv`; it does not go on
  to the fallback, which the comment after the loop calls immediate (`WebSocketFarm.Farm.Attempt`).
- **Merged cookies.** Two or more cookies of which the last is empty lose their last blank when the
  text is read (`HeaderText.ValuesKeptExactly`).

## Model

| member | source | states |
|---|---|---|
| `FlowControl.MutualExclusion` | src/router_socket_v3.rs:712-756 | in every interleaving of the individual atomic operations at most one thread is past the `is_wss_writing` exchange |
| `FlowControl.PoppedAtMostOnce` | src/router_socket_v3.rs:712-756 | callbacks leave the queue in the order they entered, each at most once, and a popped one is not queued |
| `FlowControl.NoLostWakeUp` | src/router_socket_v3.rs:330-354 | when no thread is inside or owes `write_it_maybe` and the stream is writable, the callback queue is empty and a waiting sender has been notified |
| `FlowControl.NeverWokenWithoutFlag` | src/router_socket_v3.rs:354-366 | the error return for a wake-up without `should_read_from_cli` is unreachable |
| `FlowControl.WatermarkLaw` | src/router_socket_v3.rs:686-710 | pending above 64 KiB implies not writable, pending below 16 KiB implies writable, in every reachable state |
| `FlowControl.ParkedSenderHasBacklog` | src/router_socket_v3.rs:329-367 | a waiting sender to whom no drain is owed has at least 16 KiB unacknowledged and its callback is the one queued |
| `FlowControl.UploadConserved` | src/router_socket_v3.rs:275-317 | `from_client_bytes` is header plus body bytes sent, and equals pending plus acknowledged up to the frame in flight, whatever acknowledgements arrive; header bytes sent, in flight and to come are the header of the request |
| `FlowControl.PendingBound` | src/router_socket_v3.rs:275-368 | pending never exceeds max(header + C, 64 KiB + 2C) |
| `FlowEffects.AckedExactly` | src/router_socket_v3.rs:697-709 | in every run the acknowledged bytes are the sum of the acknowledgements that arrived, whoever is draining meanwhile |
| `FlowEffects.ChunksExactly` | src/router_socket_v3.rs:292-317 | in every run of a sender that has not failed the body bytes sent and in flight are the chunks taken from the client |
| `FlowEffects.PendingExactly` | src/router_socket_v3.rs:275-317 | pending is the header frames sent plus the chunks taken less the acknowledgements |
| `FlowEffects.WritableExactly` | src/router_socket_v3.rs:686-709 | after every step the stream is writable if and only if less than 16 KiB are pending, or it was writable and at most 64 KiB are |
| `FlowEffects.AckAmongOthers` | src/router_socket_v3.rs:697-709 | whatever other threads do, an acknowledgement that brings an unwritable stream below 16 KiB makes it writable and sends its own thread into `write_it_maybe`; any other leaves both alone |
| `FlowEffects.Leaves` | src/router_socket_v3.rs:712-756 | no thread needs another: from any state a thread alone leaves `write_it_maybe` within eight operations per callback and eight more |
| `FlowEffects.ParkedSenderCanGoOn` | src/router_socket_v3.rs:330-367 | from every reachable state drains and acknowledgements, and on a writable stream drains alone, bring a parked sender back to reading from the client |
| `FlowEffects.StopsForGood` | src/router_socket_v3.rs:275-371 | a failed send and the end of the body stop the sender for good |
| `FlowBound.PendingBoundReached` | src/router_socket_v3.rs:275-368 | for every request with body bytes some run reaches that bound |
| `FlowBound.TwoChunksOverReached` | src/router_socket_v3.rs:712-756 | the run: a stale loop test releases a sender parked above the high watermark |
| `FlowBound.OneChunkBoundExactly` | src/router_socket_v3.rs:275-368 | one chunk above max(64 KiB, header) bounds all runs if and only if there are no body bytes or the header is a chunk above the watermark |
| `FlowSequential.DrainAlone` | src/router_socket_v3.rs:712-756 | a thread alone in the split form of `write_it_maybe` leaves it having released exactly the callbacks, in order, that the sequential form releases |
| `FlowSequential.AckAlone` | src/router_socket_v3.rs:697-710 | an acknowledgement that meets no other thread ends in the state the sequential form gives |
| `FlowSequential.ChunkAmongOthers` | src/router_socket_v3.rs:292-368 | whatever other threads do, a chunk is pending and counted, and the sender goes on, or queues a callback last and drains, exactly as at most 64 KiB are pending on a writable stream or not |
| `FlowSequential.HeaderFrameAmongOthers` | src/router_socket_v3.rs:275-290 | the same for a header frame |
| `FlowSequential.ChunkAlone` | src/router_socket_v3.rs:292-368 | a body chunk that meets no other thread is counted as the sequential form says; then the sender goes on, or waits for a callback it queued last, exactly as the stream is writable or not |
| `Utf8.DecodeEncode` | src/router_socket_v3.rs:961-1011 | decoding the UTF-8 bytes of any text gives the text back |
| `Utf8.DecodesExactlyEncodings` | src/router_socket_v3.rs:984-995 | a byte string decodes to a text if and only if it is the encoding of that text |
| `Frames.ParseFrame` | src/router_socket_v3.rs:1232-1266 | reading the head of a built frame gives its type, flags, request id and payload |
| `Frames.WireFormat` | src/router_socket_v3.rs:1232-1331 | the bytes of every kind of frame, with the protocol's numbers |
| `Frames.BigEndian` | src/router_socket_v3.rs:1232-1266 | numbers are in two's complement, most significant byte first |
| `Frames.JoinHeaderParts` | src/router_socket_v3.rs:1268-1309 | the pieces a header text is cut into join to the text |
| `Frames.OnePieceExactly` | src/router_socket_v3.rs:1268-1309 | there is one piece if and only if the text has at most 16000 characters |
| `Frames.HeaderMessages` | src/router_socket_v3.rs:1268-1331 | the chunking loop emits one frame per piece, in order, END_HEADER on the last only |
| `Demux.NonInterference` | src/router_socket_v3.rs:1366-1458 | for any interleaving of events of many requests in which no short window update of another request ends the receive loop, a request, also one that starts within the run, has the channels, counters, pending removal and outgoing frames that its own events alone give it |
| `Demux.ReceivingExactly` | src/router_socket_v3.rs:1030-1042 | the receive loop is alive after a run if and only if it was before and no event of the run is a short window update of a request live at that point |
| `Demux.LongUpdatesUndisturbed` | src/router_socket_v3.rs:1366-1458 | runs whose window updates all have at least four bytes disturb no request, whatever of its own follows |
| `Demux.UndisturbedExactly` | src/router_socket_v3.rs:1366-1458 | a request that could still take a body chunk is undisturbed by a run if and only if no other request's short window update ended the receive loop |
| `Demux.FrameDisturbsExactly` | src/router_socket_v3.rs:1030-1042 | one frame of another request disturbs it if and only if it is a window update under four bytes for a live request |
| `Demux.IgnoredFrames` | src/router_socket_v3.rs:1045-1061 | messages too short for an id, unknown ids and unknown types change nothing |
| `Demux.ShortUpdateDisturbsOthers` | src/router_socket_v3.rs:1030-1042 | the example: after such an update a body chunk of another request is lost |
| `Delivery.FlagsWithBody` | src/router_socket_v3.rs:261-371 | with a body, END_HEADER is on the last header frame only and END_STREAM on the last frame only |
| `Delivery.FlagsWithoutBody` | src/router_socket_v3.rs:1268-1309 | without a body, END_STREAM is on the last frame only if and only if the text has at most 16000 characters |
| `Delivery.HeaderPayload` | src/router_socket_v3.rs:276-283 | the payloads of the header frames are as long as the UTF-8 text |
| `Delivery.BodyPayload` | src/router_socket_v3.rs:292-317 | the payloads of the data frames are as long as the body |
| `Delivery.FramingEndToEnd` | src/router_socket_v3.rs:868-1011 | the frames of a request with a body deliver its header text once and unchanged, then its non-empty chunks in order, then close both channels |
| `Delivery.NewRequestAnswered` | src/router_socket_v3.rs:438-507 | from its start: a socket that is not removed accepts the request, its sender starts, and the whole response arrives |
| `Delivery.FramingAmongOthers` | src/router_socket_v3.rs:1366-1458 | the same for any interleaving with frames and removals of other requests, none of them a short window update that ends the receive loop |
| `StreamEffects.WindowUpdateExactly` | src/router_socket_v3.rs:1030-1042 | a window update acknowledges the number in its bytes; below 16 KiB on an unwritable stream all waiting callbacks are released in order; nothing else changes |
| `StreamEffects.UploadExactly` | src/router_socket_v3.rs:686-709 | in every run the bytes acknowledged for a request are those its window updates name, and pending is what was uploaded less those, whatever other requests do |
| `StreamEffects.CallbacksInOrder` | src/router_socket_v3.rs:712-756 | in every run nobody waits on a writable stream and callbacks are released once each, in order |
| `StreamEffects.DataFrameExactly` | src/router_socket_v3.rs:868-941 | what a data frame puts on the channels, closes, counts and sends back, and what happens when it is refused |
| `StreamEffects.HeaderFrameExactly` | src/router_socket_v3.rs:961-1011 | the same for a header frame |
| `StreamEffects.HeaderFrameWithoutCredit` | src/router_socket_v3.rs:961-1011 | a header frame whose credit cannot be sent: what it delivered comes first, then an error unless END_STREAM closed the channels |
| `StreamEffects.EarlyFrameRefused` | src/router_socket_v3.rs:868-880 | a frame before the request is being sent is an error on both channels |
| `StreamEffects.ResetFrameExactly` | src/router_socket_v3.rs:1013-1028 | RST_STREAM puts an error on each open channel, changes nothing else and schedules the removal |
| `StreamEffects.TerminateExactly` | src/router_socket_v3.rs:516-545 | every request in the table gets an error on each open channel, and the table is empty |
| `StreamEffects.SenderFailureExactly` | src/router_socket_v3.rs:169-175 | the client hears an error on each open channel if and only if the response has not ended |
| `StreamEffects.ClientGoneExactly` | src/router_socket_v3.rs:225-247 | the stream of an unfinished response in the table is reset with code 1001, in the bytes of the protocol |
| `StreamEffects.NothingTakenBack` | src/router_socket_v3.rs:868-1011 | in every run items are only added at the end and a closed channel stays as it is |
| `StreamEffects.RemovalExactly` | src/router_socket_v3.rs:1634-1644 | the scheduled removal takes a request out of the table, for good |
| `StreamEffects.ResetAtMostOnce` | src/router_socket_v3.rs:1623-1632 | in every run at most one reset frame is sent for a request, whatever fails and whoever leaves |
| `StreamEffects.ClosedQueueIsSilent` | src/router_socket_v3.rs:868-1011 | once the outgoing queue is closed nothing is sent |
| `Closing.CloseExactly` | src/router_socket_v3.rs:1064-1125 | the errors a close puts on each open channel, for every code, and that both are closed; nothing once the receive loop has ended |
| `Closing.SilenceAfterEnd` | src/router_socket_v3.rs:868-941 | once an END_STREAM frame is handled without error nothing more is put on either channel |
| `Closing.HeaderWithoutBodyExactly` | src/router_socket_v3.rs:961-1011 | the frames of a request without a body deliver its header if and only if it has at most 16000 characters |
| `Closing.AbnormalCloseVisible` | src/router_socket_v3.rs:1064-1125 | a close with a code other than 1000 ends every open channel of a response in an error, both closed for good, if and only if the receive loop is still running |
| `Closing.AbnormalCloseAfterRun` | src/router_socket.rs:140-150 | the same after any run: if and only if no event of it was a short window update of a request live at that point |
| `Closing.ClosedSocketRefuses` | src/router_socket_v3.rs:1473-1510 | after a close the socket takes no new request, whatever follows, if and only if it was removed before or the receive loop was still running |
| `Closing.CreditsConserved` | src/router_socket_v3.rs:868-941 | with the outgoing queue open, the window updates sent for a request sum to the body bytes handed on plus the header bytes handled without error |
| `Closing.ToClientCounts` | src/router_socket_v3.rs:901-911 | `to_client_bytes` is the total length of the delivered body chunks |
| `RouterSocketV3.RequestContext.WriteItMaybe` | src/router_socket_v3.rs:712-756 | run alone it releases all queued callbacks in order when writable; it leaves them to a drain already in progress |
| `RouterSocketV3.RequestContext.AckBytes` | src/router_socket_v3.rs:697-710 | acknowledged bytes leave pending, and falling below 16 KiB releases the waiters |
| `RouterSocketV3.RouterSocket.NotifyClientRequestClose` | src/router_socket_v3.rs:1064-1125 | the channels of the context and the pending removals after a close of one request |
| `RouterSocketV3.RouterSocket.NotifyClientRequestError` | src/router_socket_v3.rs:1151-1219 | an error goes on both channels of the context |
| `RouterSocketV3.RouterSocket.ResetStream` | src/router_socket_v3.rs:1623-1632 | a reset frame is sent at most once |
| `RouterSocketV3.RouterSocket.HandleData` | src/router_socket_v3.rs:868-941 | a data frame changes the context, the outgoing queue and the removals as the function on values says, errors included |
| `RouterSocketV3.RouterSocket.HandleHeader` | src/router_socket_v3.rs:961-1011 | the same for a header frame |
| `RouterSocketV3.RouterSocket.OnBinary` | src/router_socket_v3.rs:1366-1458 | a whole incoming message is the step that the theorems over runs are about |
| `RouterSocketV3.RouterSocket.OnClose` | src/router_socket_v3.rs:1473-1510 | the loop over all contexts ends in the value of the close step: each live context closed with the code or 4000, the others untouched, the socket removed; nothing when the receive loop has ended |
| `RouterSocketV3.RouterSocket.TerminateAllConn` | src/router_socket_v3.rs:516-545 | the loop over all contexts ends in the value of the termination step: each live context failed, the table empty |
| `RouterSocketV3.RouterSocket.SenderFailed` | src/router_socket_v3.rs:169-175 | a failed sender puts an error on both channels of its context unless the response has ended |
| `RouterSocketV3.RouterSocket.ClientGone` | src/router_socket_v3.rs:225-247 | a client that stops reading before the response has ended resets the stream of a context still in the table |
| `RouterSocketV3.RouterSocket.RunRemoval` | src/router_socket_v3.rs:1634-1644 | a spawned removal takes its context out of the table |
| `RouterSocketV3.RouterSocket.OnClientReq` | src/router_socket_v3.rs:438-507 | a removed socket refuses; otherwise a new context with an unused id |
| `RouterSocketV3.RouterSocket.SendRequest` | src/router_socket_v3.rs:261-371 | emits exactly the frames of the request and counts its header and body bytes |
| `V1Response.HeaderOnceThenBody` | src/router_socket_v1.rs:344-416 | in every run at most one header is delivered, no chunk before it, and `bytes_sent` is its UTF-8 length plus the delivered chunks |
| `V1Response.DeliveredInOrder` | src/router_socket_v1.rs:344-416 | on a new socket a header text of at most 64 KiB and then every chunk are delivered unchanged, in order |
| `V1Response.TextExactly` | src/router_socket_v1.rs:344-395 | a text is put on the header channel, which it closes, if and only if it is the first, may be sent on and has at most 64 KiB |
| `V1Response.ChunkExactly` | src/router_socket_v1.rs:396-416 | a chunk is put on the body channel if and only if the response may be sent on, its header was and the channel is open |
| `V1Response.OversizedHeaderBlocks` | src/router_socket_v1.rs:362-366 | a first text over 64 KiB blocks every later header and chunk |
| `V1Response.AbnormalCloseVisible` | src/router_socket_v1.rs:495-576 | after a close both channels are closed for good; an open one ends in an error unless the code is 1000 |
| `V1Response.ClosedIsFinal` | src/router_socket_v1.rs:443-482 | nothing is added to closed channels by any later events |
| `V1Response.TerminationVisible` | src/router_socket_v1.rs:766-773 | giving the connection up ends every open channel in an error, for good |
| `V1Response.CloseReports` | src/router_socket_v1.rs:495-576 | how many errors a close reports |
| `Scheduler.FallbackConserves` | src/websocket_farm.rs:160-224 | so does the fallback; when it finds nothing the live sockets stay in order |
| `Scheduler.ScanConserves` | src/websocket_farm.rs:342-398 | a scan loses only dead or removed sockets and the V1 socket it hands out |
| `Scheduler.PickTurns` | src/websocket_farm.rs:342-398 | a pick uses the first suitable socket and turns the suitable ones by one |
| `Scheduler.RoundRobin` | src/websocket_farm.rs:85-91 | n requests over n suitable sockets get each once in order; the V3 ones among them stay, in order |
| `Scheduler.FullTurnRestores` | src/websocket_farm.rs:85-91 | when all sockets are suitable and V3, n requests restore the queue |
| `WebSocketFarm.ScanQueue` | src/websocket_farm.rs:341-398 | the filter loop equals the simple form: post + live(pre) + [s if V3], or the live ones turned by one after at most n+1 receives, or waiting on an empty queue |
| `WebSocketFarm.FallbackQueue` | src/websocket_farm.rs:168-191 | the fallback loop equals the simple form: post + live(pre) + [s if V3], or the live ones in order |
| `WebSocketFarm.Farm.constructor` | src/websocket_farm.rs:109-130 | an empty farm whose count agrees with its registry |
| `WebSocketFarm.Farm.Add` | src/websocket_farm.rs:534-560 | the socket is registered, queued last on its route and announced; the count keeps agreeing |
| `WebSocketFarm.Farm.Remove` | src/websocket_farm.rs:509-532 | only the call that finds the socket counts it down and flags it; a repeated one changes neither |
| `WebSocketFarm.Farm.DeRegister` | src/websocket_farm.rs:562-633 | the connector's sockets leave the registry; the count agrees afterwards if and only if none was active |
| `WebSocketFarm.Farm.CloseIdle` | src/websocket_farm.rs:605-631 | the loop flags and counts down exactly the idle sockets |
| `WebSocketFarm.Farm.CleanRoutes` | src/websocket_farm.rs:477-503 | a route is dropped from both tables if and only if it has no registered socket and its last removal is old enough |
| `WebSocketFarm.Farm.DisableDarkMode` | src/websocket_farm.rs:672-680 | the host is not dark, and waiting requests are woken exactly when it was |
| `WebSocketFarm.Farm.Scan` | src/websocket_farm.rs:324-398 | a chosen socket is alive, unflagged, not dark and wanted by the filter, and its domain is not "*" if an unflagged registered socket of the route has the request's host as its domain; every socket before it fails one of these; none is suitable only if all fail; it waits if and only if none is live |
| `WebSocketFarm.Farm.TryFallback` | src/websocket_farm.rs:160-224 | the first live, unflagged socket that is not dark in the route's queue, else in the catch-all queue, as configured; none only if there is none |
| `WebSocketFarm.Farm.Attempt` | src/websocket_farm.rs:324-411 | one turn of the main loop: the first socket that passes every test, else the fallback, which waits only if it has none; no path returns a removed, dark or dead socket; it waits for a socket, without a fallback, if and only if no socket of the queue is live |
| `FarmHomes.TokenConservation` | src/websocket_farm.rs:160-241 | in every interleaving a queued, live, unremoved socket has exactly one token unless it is a V1 socket already handed out; none has two; a registered one's token is in its route's queue or with someone who returns it there |
| `FarmHomes.V1ServesOnce` | src/websocket_farm.rs:377-391 | in every interleaving no V1 socket is handed to two requests |
| `FarmTokens.RunKeepsTokens` | src/websocket_farm.rs:342-398 | the count of tokens and uses of each socket through all steps |
| `FarmHomes.RunHome` | src/websocket_farm.rs:477-503 | whatever is cleaned and re-created, a registered socket was queued in the channel its route has now and its token returns there |
| `FarmAlone.QueuesDistinct` | src/websocket_farm.rs:342-398 | no queue of a reachable state holds a socket twice |
| `FarmAlone.UndisturbedScan` | src/websocket_farm.rs:341-398 | from every reachable state a scan left alone ends within one round more than its queue is long, with the queue and the choice of the simple form |
| `FarmFallback.UndisturbedSearch` | src/websocket_farm.rs:168-191 | from every state a fallback search left alone ends within three steps per socket and one more, giving the first live, unremoved socket that is not dark, with the queue of the simple form |
| `FarmFallback.UndisturbedFallback` | src/websocket_farm.rs:160-224 | the whole fallback left alone: the route's queue, then the catch-all queue, as configured; with nothing found the request waits, or is done if its time has run out |
| `FarmFallback.TimeoutEnds` | src/websocket_farm.rs:434-470 | when its time runs out a request falls back once more and is then done |
| `FarmFallback.UndisturbedTurn` | src/websocket_farm.rs:324-411 | from every reachable state a turn of the main loop left alone: the scan, and the fallback exactly when the scan found nothing suitable |
| `FarmServed.ServedExactly` | src/websocket_farm.rs:342-398 | what each event hands out: a socket that was judged alive, unremoved, new to the scan and wanted, or that a fallback has chosen; and nothing else |
| `FarmServed.RemovedExactly` | src/websocket_farm.rs:509-532 | a socket is flagged if and only if the run has flagged it |
| `FarmServed.FlaggedNeverServed` | src/websocket_farm.rs:350-360 | a flagged socket that no fallback has already chosen is handed out by no continuation of the run |
| `FarmServed.CancelledTokenReturns` | src/websocket_farm.rs:226-241 | a request cancelled while it holds a socket gives the token back, last in its queue |
| `FarmServed.WokenExactly` | src/websocket_farm.rs:412-424 | a waiting request is woken by the first unread notification for its route or for all routes |
| `FarmServed.WokenByLag` | src/websocket_farm.rs:425-428 | one that has fallen more than 128 notifications behind scans again at once |
| `FarmServed.AnnouncementWakes` | src/websocket_farm.rs:534-560 | the announcement of a socket of its route, or of a host no longer dark, wakes a waiting request that keeps up |
| `FarmServed.LightingExactly` | src/websocket_farm.rs:672-680 | a host that is lit is announced, once, to all routes |
| `FarmServed.LeaveAndDie` | src/websocket_farm.rs:226-241 | a cancelled request is done; a registered socket stays alive |
| `FarmWakeUp.WakeUpOwed` | src/websocket_farm.rs:546-557 | a socket queued after a waiting request's last scan began is still to be announced or its announcement is unread |
| `FarmWakeUp.LightOwed` | src/websocket_farm.rs:672-680 | the same for a host that is no longer dark |
| `FarmWakeUp.AnnouncedBeforeScan` | src/websocket_farm.rs:412-433 | with nothing unread, every socket announced for the request was queued, and every host announced was lit, before its last scan began, lagging receivers included |
| `FarmWakeUp.QueuedInItsChannelExactly` | src/websocket_farm.rs:301-314 | with nothing unread, a registered socket announced on the route was queued in the channel the request scans, before its last scan began, if and only if that channel is still the route's |
| `FarmWakeUp.CatchAllQueuedBefore` | src/websocket_farm.rs:193-221 | a registered catch-all socket announced was queued before the last scan began, in the channel the fallback looks up |
| `FarmSeen.LookedAtOrHeld` | src/websocket_farm.rs:341-433 | a request that waits with nothing unread on the channel its route has now has looked at every registered, announced, unremoved socket of the route, unless somebody else held the token of the socket since its last scan began |
| `FarmLooked.LookedAtExactly` | src/websocket_farm.rs:301-433 | a socket of its route that nobody else held since then it has looked at if and only if its channel is still the route's |
| `FarmStranded.WaitingRequestMissesSocket` | src/websocket_farm.rs:477-503 | a run that ends with a request waiting, nothing unread, and a registered live socket of its route in a channel it does not scan |
| `FarmStranded.HeldSocketIsMissed` | src/websocket_farm.rs:342-398 | a run that ends with a request waiting, nothing unread, and a registered live socket of its route in the channel it scans, at which it never looked |
| `FarmRetired.RetiredForever` | src/websocket_farm.rs:477-503 | a channel that lost its route never gets one again, and a request that looked it up keeps it |
| `FarmRetired.CutOff` | src/websocket_farm.rs:301-342 | a request on such a channel never receives a registered socket from it, and while it is in `recv` no notification changes anything for it |
| `ForwardedRoundTrip.ReadList` | src/http_utils.rs:253-423 | what the parser makes of any printed list whose values do not end in a backslash |
| `ForwardedExact.TrailingBackslashNeverReturns` | src/http_utils.rs:310-330 | a list with a value that ends in a backslash is never given back |
| `ForwardedExact.RoundTripExactly` | src/http_utils.rs:425-483 | a printed list joined with "," or ", " parses back to itself if and only if no value has a backslash and the last element shows |
| `ForwardedExact.ParsedIsWellFormed` | src/http_utils.rs:253-423 | every parse gives elements with distinct lower-case extension names, none of them by, for, host or proto |
| `Forwarded.PrintedInOrder` | src/http_utils.rs:425-483 | the printed text: by, for, host, proto, then the extensions in order |
| `Forwarded.InsertMoves` | src/http_utils.rs:320-345 | a repeated extension moves to the end with its new value |
| `ForwardedPlain.PlainIsRead` | src/http_utils.rs:271-402 | a list of elements with unquoted values of visible characters is read as such, names in lower case, blanks dropped |
| `ForwardedPlain.PlainForIsRead` | src/http_utils.rs:346-360 | `for=` and an unquoted address, with or without a port, is read as that address |
| `ForwardedPlain.BadNameRefused` | src/http_utils.rs:272-300 | a parameter name followed by anything but "=" is an error |
| `ForwardedPlain.BadValueRefused` | src/http_utils.rs:346-365 | a control character or one beyond ASCII in an unquoted value is an error |
| `ForwardedParser.ReadElement` | src/http_utils.rs:271-402 | the character loop reads one element, advances, never looks before the input, and never lacks a parameter name |
| `ForwardedParser.FromString` | src/http_utils.rs:253-423 | the nested loops compute the parse function and end |
| `ForwardedParser.AppendString` | src/http_utils.rs:444-455 | appends one parameter to a printed element |
| `ForwardedParser.ToText` | src/http_utils.rs:425-442 | the printer computes the print function |
| `ForwardedParser.GetExisting` | src/http_utils.rs:154-233 | the elements of all `Forwarded` lines in order, or an error if and only if one does not parse; the legacy headers only without any |
| `ForwardedParser.SetForwardedHeaders` | src/http_utils.rs:85-114 | which lines are added, and that none is on an error; with discarding only the router's own |
| `ForwardedHops.OwnLine` | src/http_utils.rs:132-152 | the text of the router's own element: `by` the local address, `for` the client's, then host and proto |
| `ForwardedHops.HopAppendExactly` | src/http_utils.rs:85-152 | the lines sent on parse to the client's elements and then the router's own if and only if every client element has a parameter and no value has a backslash |
| `RouteResolver.LastIndexOf` | src/route_resolver.rs:103-112 | the last index of a character or -1 |
| `RouteResolver.Resolve` | src/route_resolver.rs:72-99 | the longest registered prefix, ending at a segment boundary, of the target without its leading slash, or the catch-all; the target itself when it is a route |
| `RouteResolver.AgreesWithDefault` | src/route_resolver.rs:19-33 | with slash-free routes the longest match is what the default resolver gives |
| `HeaderText.BuildHeaderStr` | src/cranker_protocol_request_builder.rs:70-96 | prints the non-cookie headers in order and then one merged cookie header |
| `HeaderText.RequestText` | src/cranker_protocol_request_builder.rs:39-68 | the opening message splits into its line, one line per header, an empty line and the end marker: _1 with a body to come, _2 without |
| `HeaderText.MarkerAlone` | src/cranker_protocol_request_builder.rs:39-57 | without a line or headers only the end of a body, _3, can be built |
| `HeaderText.SentBackExactly` | src/lib.rs:120-133 | which headers of a response are not sent back, by name |
| `HeaderText.BadFirstLineRefused` | src/cranker_protocol_response.rs:38-51 | a first line without a second word, or with one that is not a number, is an error |
| `HeaderText.BadLineRefused` | src/cranker_protocol_response.rs:62-68 | one header line without a colon makes the response an error |
| `HeaderText.Build` | src/cranker_protocol_response.rs:60-81 | the loop over header lines computes the read function, errors included |
| `HeaderText.RoundTrip` | src/cranker_protocol_response.rs:28-81 | a status line and printed headers are read as the status and the merged headers; the response keeps exactly those not hop-by-hop and not `server` |
| `HeaderText.StatusIsRead` | src/cranker_protocol_response.rs:47-51 | a decimal number, also with a plus sign, is read as itself if and only if it is at most 65535 |
| `HeaderText.BadStatusRefused` | src/cranker_protocol_response.rs:47-51 | a status with anything but digits after an optional plus sign is an error |
| `HeaderText.TrimIs` | src/cranker_protocol_response.rs:69-78 | trimming takes all blanks off both ends and nothing else |
| `HeaderText.ValuesKeptExactly` | src/cranker_protocol_response.rs:62-81 | trimmed values come back unchanged if and only if there are fewer than two cookies or the last is not empty |

## Left out

- FlowControl.WatermarkLaw: the increment and the acknowledgement are one step each; the law is not claimed if their loads and exchanges interleave.
- RouterSocketV3.RouterSocket.OnClientReq: request ids below 2^31 - 1 only; the wrap-around of the id counter is not modelled.
- RouterSocketV3.RouterSocket.SendRequest: a body stream that fails midway is not modelled, and the waits for a writable stream are in `FlowControl` only.
- RouterSocketV3.RouterSocket.ResetStream: the reset always carries the text "Going away"; the texts for failing listeners and bodies are not modelled, and testing and setting the sent flag is one step.
- RouterSocketV3.RouterSocket.HandleData: the error a failed delivery records on every context is not modelled.
- ForwardedParser.GetExisting: the elements made from `X-Forwarded-*` headers are a parameter; their port stripping is not modelled.
- ForwardedParser.SetForwardedHeaders: the legacy `X-Forwarded-*` headers sent on are not modelled.
- Closing.CreditsConserved: messages shorter than 2 GiB, the range of a window update.
- WebSocketFarm.Farm.Scan: the removals that looking for a precise domain starts for flagged sockets are separate calls of `Remove`.
- WebSocketFarm.Farm.Add: socket ids are unique, as they are random in the source.
- FarmProtocol treats a channel without users as still existing, so a token in a cleaned channel counts as there.
- The byte counters of V3 are unbounded integers; the i32 range of the source is taken as enough.
- Weak memory: all atomics are sequentially consistent.
- The recording of errors on contexts, listeners, logging, error texts and the information endpoints.
- Which routes a request may resolve to when some sockets are registered for its precise host (websocket_farm.rs lines 255-300), a filter in front of the resolver without a property of its own.
- `terminate_all` of the farm, which empties the registry without touching the count.
- Removal of headers named by `Connection`, which has already been filtered out of responses.
- Rust's Unicode lower-casing beyond ASCII in parameter names, which are ASCII tokens.
- `StreamState`, which the code never moves from open.
- TLS, QUIC, HTTP handlers, pings, idle timers, and the pipes between sockets and their queues.
