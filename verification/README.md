# Verified models of Hypercorn's protocol core

Hypercorn is an ASGI server. Its protocol code is a set of state machines that several
asyncio tasks share: applications that send, a reader that handles client data, and, on
HTTP/2, one loop that sends for all streams. This project models those state machines in
Dafny and proves what they promise over every run and every interleaving.

## How it is modelled

A stretch of code between two awaits that can suspend is one atomic step, written as a
function on an immutable state. A run is any sequence of enabled steps, so the theorems
quantify over all schedules. The objects themselves (`StreamBuffer`, `H2Protocol`,
`HTTPStream`, `WSStream`, `WebsocketBuffer`, `H11Protocol`, `QuicProtocol`) are classes
that work in place; each method is proved to do exactly what the function of the same
stretch says.

| files | what they hold |
|---|---|
| `StreamBuffer`, `BufferRuns` | the HTTP/2 send buffer, its accounting and its events over all runs |
| `H2Tables`, `H2System`, `H2Invariant`, `H2Theorems`, `H2Settles`, `H2Drain`, `H2Limits`, `H2Protocol` | the HTTP/2 tables, all tasks together, the invariant, the results, termination of the sender, who is released from `drain`, the counterexamples, the object |
| `H2Laws`, `H2Signals` | what h2 is told on a stream, and which streams, nodes and signals there are, from the history |
| `HttpStream`, `HttpRuns`, `HttpTheorems`, `HttpTrailers`, `HttpAnswers` | the HTTP stream, its runs, its results, trailers, the status of its answer |
| `HttpMeaning`, `HttpRecords` | its output from the messages alone; its queue, access log and refusals from the history |
| `EndToEnd` | from the messages of an application to the DATA bytes of its HTTP/2 stream |
| `WebsocketBuffer`, `WsStream`, `WsClosing`, `WsMeaning`, `WsObject` | WebSocket reassembly, the life of a WebSocket, its end, what it sends from messages and frames alone, the object |
| `H11Protocol`, `H11Runs`, `H11Theorems`, `H11Laws` | an HTTP/1.1 connection, its runs, its results, its state from the history |
| `DnEscape`, `SubjectName` | escaping and joining of certificate names |
| `QuicTable`, `QuicHistory` | the connection-ID table, and who owns an ID and is given a packet |
| `Headers`, `Wsgi`, `WsgiLaws`, `ProxyFix`, `Texts` | header lists, the WSGI wrapper and its environment, the proxy middleware, text coding |

The libraries below the code are environments with small contracts: h2 keeps a window and
a status per stream, refuses to send on a stream it does not hold open, may forget a closed
stream at any time, and reports every window change that frames bring; the priority tree is
a set of nodes with an unblocked subset, and any unblocked node may be picked; h11 is the pair of state machines that it
documents, reports a new request only when the client side is idle, and never leaves a side
in DONE on a connection that is to close; wsproto says of each send whether it agrees;
aioquic makes fresh IDs and retires only IDs it issued. h2 may terminate at any time, which
also covers the server closing the connection itself.

Assumed of the surroundings: an application sends on one stream sequentially, and is the
only producer of that stream's buffer; handing bytes to the transport does not raise; the
application's queue has room.

## What turned out not to hold

The code is modelled as it is. Where an expected property fails, a lemma gives a run that
shows it, and another says exactly when the property holds.

- A PRIORITY frame for a removed stream, followed by one more send of its application, kills
  the HTTP/2 sender for all streams (`LatePriorityKillsSender`; exactly which events are fatal,
  `FatalSendIff`; excluded by `SenderSurvives`).
- An empty chunk pushed in the middle of a flush leaves its producer in `drain` for ever
  (`EmptyChunkStrandsProducer`; exactly when such a chunk was accepted and nothing taken
  since, `DrainReleasedIff`). HTTPStream never pushes one (`HttpNeverStranded`); the
  rejection of a WebSocket can.
- After the connection is lost nothing releases a producer that already waits
  (`LossStrandsProducer`; exactly those not released before stay, `GoesOnAfterExitIff`).
- Trailer messages can leave the output grammar (`TrailersBreakGrammar`; exactly which
  sequences do, `GrammarIff`).
- A client that closes early while the response is finished anyway gives two access records
  (`AccessRecords`, both directions).
- A WebSocket message can follow the disconnect when the reader is suspended inside client
  data (`MessageAfterDisconnect`; exactly when, `FollowsDisconnectIff`).
- An HTTP/1.1 reader can wait for ever when an application quits mid-response with another
  request buffered (`QuitDesertsReader`), or when the connection is lost and its application
  then ends without a word (`LossDesertsReader`; exactly when, `DesertedIff`, `CloseDesertsIff`
  and `VanishDeserts`).
- The end of an HTTP/1.1 response with a status below 200 is rejected (exactly those,
  `SendsInTurn`).
- A WSGI application runs on a body cut off by a disconnect (exactly then,
  `ReadsClientBody`).
- An escaped name with a NUL character is not well formed by section 3 of RFC 4514
  (`WellFormedIffNoNul`).
- A WSGI application that yields nothing is answered with 500 whatever status it chose
  (`SilentAnswerFails`; exactly such, `ClientStatus`).
- Header validation looks at names before it strips them (`ValidatedPseudoIff`), and a
  rewritten host that is not ASCII is coded differently (`HostBytesIff`).

## Model

| member | source | states |
|---|---|---|
| `H2Theorems.Conservation` | src/hypercorn/protocol/h2.py:159-187 | In every state of every run, on each live stream, the bytes given to `send_data` followed by the bytes still buffered are the bytes the application asked to send, up to its end of body; on an ended stream they are all of them; each send has data and is at most the smaller of window and frame size it was computed from, so none happens on a window of zero or less |
| `H2Theorems.NoLostWakeup` | src/hypercorn/protocol/h2.py:146-157 | While the sender waits and `has_data` is clear, every stream with a buffer is blocked, and either its buffer is empty and incomplete, or its window is not positive, or an unhandled h2 event will unblock it |
| `H2Theorems.RestIsComplete` | src/hypercorn/protocol/h2.py:146-242 | When the sender waits, nothing is signalled and the reader has caught up: every stream with a buffer and window left has had everything delivered and its body has not ended, and nobody waits for an event that is clear; `push` never waits there at all |
| `H2Theorems.EndOfStream` | src/hypercorn/protocol/h2.py:173-177 | `end_stream` is called at most once per stream, last, only after the end of the body and with every byte delivered; afterwards the stream has neither buffer nor, unless a PRIORITY frame names it again, a tree node |
| `H2Theorems.DrainBarrier` | src/hypercorn/protocol/h2.py:225-242 | Whoever leaves `drain`, at the end of a body or before trailers, has had every pushed byte handed to h2, unless the stream was force-closed |
| `H2Theorems.NothingBypassesBuffer` | src/hypercorn/protocol/h2.py:215-222 | Without flushed bodies no DATA goes around the buffer |
| `H2Laws.CallsAreTold` | src/hypercorn/protocol/h2.py:159-250 | In every run the calls h2 gets on a stream are those its history tells: a head per response and informational response, one that ends the stream for an end of body with headers, trailers after their drain, a flushed body that fits, and of each pick as much of the buffer as both windows and the frame size allow, or the end of an exhausted stream; and none once h2 takes nothing more |
| `H2Laws.WindowsPay` | src/hypercorn/protocol/h2.py:167-169 | Each of these calls uses up the stream's window by its data, and nothing else but the peer's frames changes it |
| `H2Laws.HeadComesFirst` | src/hypercorn/protocol/h2.py:207-214 | On a stream whose application begins with a head, that head is the first call, or there is none: no DATA and no end goes out before it |
| `H2Laws.HeadsAreAsked` | src/hypercorn/protocol/h2.py:207-231 | On a stream without trailers the heads among the calls are those the events ask for, in order: all of them while h2 takes them, and at least all before the end of the body once the stream was ended |
| `H2Signals.StreamsAreOpen` | src/hypercorn/protocol/h2.py:198-203 | A stream is in `streams` exactly from its request or promise until its application closes it, the peer resets it or the connection is lost |
| `H2Signals.TreeTells` | src/hypercorn/protocol/h2.py:159-250 | A node enters the tree blocked, with its stream or a PRIORITY frame that names it; it is unblocked by a chunk, an end of body, trailers or a wider window only, blocked by a pick that could take nothing only, and dropped exactly when the sender has ended its stream or h2 takes nothing more of it |
| `H2Signals.HasDataIff` | src/hypercorn/protocol/h2.py:146-157 | `has_data` is set if and only if something signalled since the sender last woke: what unblocks a node, the close of an open stream, a window, reset or PRIORITY event, the loss of the connection |
| `H2Signals.LossEndsSender` | src/hypercorn/protocol/h2.py:146-157 | A lost connection never leaves the sender waiting: it can wake, and then return |
| `H2Signals.WaitsIff` | src/hypercorn/protocol/h2.py:205-239 | After a chunk a producer waits for room if and only if the buffer takes it and then holds 32768 bytes or more; after an end of body, and before trailers, it waits for the drain if and only if its buffer and node are there; after anything else it goes on |
| `H2Signals.GoesOnIff` | src/hypercorn/protocol/h2.py:239-250 | A released producer goes on for good, unless it pushes trailers as a chunk that fills the buffer again |
| `H2Theorems.RemovedStreamsReleaseProducers` | src/hypercorn/protocol/h2.py:52-56 | Once its buffer is gone a producer is not left waiting in `push`, and in `drain` only if it had pushed an empty chunk |
| `H2Drain.DrainReleasedIff` | src/hypercorn/protocol/h2.py:46-79 | Once the buffer is gone, a producer in `drain` is released if and only if no empty chunk was accepted since the sender last took from the buffer or closed it |
| `H2Drain.EndedDrainReleasedIff` | src/hypercorn/protocol/h2.py:173-177 | The same of the step that removes an ended stream |
| `H2Drain.EndingReleasesIff` | src/hypercorn/protocol/h2.py:173-177 | At that step the producer is released exactly when `_is_empty` is set |
| `H2Drain.ForceCloseReleases` | src/hypercorn/protocol/h2.py:178-187 | A force-close always releases |
| `H2Theorems.TablesAgree` | src/hypercorn/protocol/h2.py:164-187 | Buffer keys are tree nodes, and an unblocked node has a buffer unless a PRIORITY frame named the stream after its removal |
| `H2Theorems.PickCrashesIff` | src/hypercorn/protocol/h2.py:178-187 | The sender dies of a KeyError exactly when it picks a node without a buffer |
| `H2Theorems.SenderSurvives` | src/hypercorn/protocol/h2.py:159-187 | In runs where no PRIORITY event names a removed stream the sender always finds its buffer |
| `H2Theorems.NothingRevived` | src/hypercorn/protocol/h2.py:332-349 | In such runs no removed stream ever comes back into the tree |
| `H2Invariant.StepKeeps` | src/hypercorn/protocol/h2.py:146-434 | Every action of producers, sender, reader and peer keeps the invariant of the whole system, for any number of streams |
| `H2Invariant.RunKeeps` | src/hypercorn/protocol/h2.py:146-434 | The invariant holds after every run |
| `H2Settles.SenderSettles` | src/hypercorn/protocol/h2.py:146-157 | Left alone, the sender makes a bounded number of steps, whatever streams, windows and buffers there are |
| `H2Settles.SettledIffRest` | src/hypercorn/protocol/h2.py:146-157 | It can make no step exactly when it waits unsignalled, has returned or has died |
| `H2Limits.LatePriorityKillsSender` | src/hypercorn/protocol/h2.py:332-349 | A concrete run: a stream is reset and force-closed, a PRIORITY frame puts its node back, one more chunk unblocks it, and the sender dies |
| `H2Limits.FatalSendIff` | src/hypercorn/protocol/h2.py:215-250 | Whatever event is sent on a stream, its next pick is fatal if and only if its buffer is gone and its node, put back by a PRIORITY frame, is unblocked already or by this event (body, WebSocket data or trailers) |
| `H2Limits.EmptyChunkStrandsProducer` | src/hypercorn/protocol/h2.py:62-79 | A concrete run: an empty chunk pushed while the previous one is flushed clears `_is_empty` for good, and the producer is left in `drain` on an ended stream |
| `H2Limits.RemovedStaysStranded` | src/hypercorn/protocol/h2.py:52-79 | A producer left waiting on a removed buffer waits in every continuation |
| `H2Limits.NothingReleasesAfterExit` | src/hypercorn/protocol/h2.py:198-203 | Once the sender has returned after the connection was lost, a producer waiting unreleased waits in every continuation |
| `H2Limits.LossStrandsProducer` | src/hypercorn/protocol/h2.py:198-203 | A concrete run reaching that state: a producer fills its buffer, the connection is lost, the sender returns |
| `H2Limits.GoesOnAfterExitIff` | src/hypercorn/protocol/h2.py:198-203 | From there a producer can ever go on if and only if it has been released already |
| `BufferRuns.Fifo` | src/hypercorn/protocol/h2.py:39-79 | In every run of one buffer without close, popped bytes followed by held bytes are the accepted bytes, and a set `_is_empty` means nothing is held |
| `BufferRuns.BackPressure` | src/hypercorn/protocol/h2.py:62-79 | Completed pushes that hit high water, plus a pending release, never exceed short pops plus closes; with chunks of at most `c` bytes the buffer never exceeds `HIGH_WATER - 1 + c * (short pops + 1)` |
| `BufferRuns.EventsTellHistory` | src/hypercorn/protocol/h2.py:39-79 | In every run `_paused` is set if and only if a pop of less than 16384 bytes or a close came after the last resumed push, `_is_empty` if and only if a pop of everything or a close came after the last accepted push, and a push waits if and only if it left 32768 bytes or more and was not resumed |
| `BufferRuns.BytesMoved` | src/hypercorn/protocol/h2.py:62-79 | A push adds its whole chunk unless the end was marked before, a pop takes all that is held or the length asked for, a close empties, and nothing else moves bytes |
| `StreamBuffers.StreamBuffer.PushChunk` | src/hypercorn/protocol/h2.py:62-69 | Works in place as `Push`: rejects when complete, extends, clears `_is_empty`, and waits exactly at high water |
| `StreamBuffers.StreamBuffer.PopChunk` | src/hypercorn/protocol/h2.py:71-79 | Works in place as `Pop`: removes the returned prefix, sets `_paused` below low water and `_is_empty` when nothing is left |
| `StreamBuffers.StreamBuffer.Shut` | src/hypercorn/protocol/h2.py:52-56 | Works in place as `Close` |
| `H2Protocols.H2Protocol.SendNext` | src/hypercorn/protocol/h2.py:159-171 | The object does `SendStep`, the stretch whose runs are proved about, on all its tables |
| `H2Protocols.H2Protocol.EndIfComplete` | src/hypercorn/protocol/h2.py:173-175 | Likewise `CheckComplete` |
| `H2Protocols.H2Protocol.FinishEnding` | src/hypercorn/protocol/h2.py:176-177 | Likewise `FinishStream` |
| `H2Protocols.H2Protocol.ForceCloseStream` | src/hypercorn/protocol/h2.py:178-187 | Likewise `ForceClose`, which dies when there is no buffer to close |
| `H2Protocols.H2Protocol.StreamSendEvent` | src/hypercorn/protocol/h2.py:205-270 | Likewise `StreamSend`, for every kind of event |
| `H2Protocols.H2Protocol.FinishTrailers` | src/hypercorn/protocol/h2.py:240-250 | Likewise `ResumeTrailers`, the part after the drain |
| `H2Protocols.H2Protocol.CreateStream` | src/hypercorn/protocol/h2.py:351-391 | A new stream gets its buffer and a node that starts blocked unless a PRIORITY frame has made one |
| `H2Protocols.H2Protocol.WindowUpdated` | src/hypercorn/protocol/h2.py:323-330 | Unblocks one or all streams with buffers and signals the sender |
| `H2Protocols.H2Protocol.PriorityUpdated` | src/hypercorn/protocol/h2.py:332-349 | New nodes are inserted blocked; the sender is signalled |
| `H2Protocols.H2Protocol.HandleClosed` | src/hypercorn/protocol/h2.py:198-203 | Marks the connection closed, closes all streams and signals the sender |
| `HttpTheorems.OutputGrammar` | src/hypercorn/protocol/http_stream.py:148-334 | For every interleaving of messages other than trailers and client events, the output, pushes aside, is informational responses, one response, bodies, then the end of body and the close, or just the close when the application quits |
| `HttpTheorems.FinishedExactlyOnce` | src/hypercorn/protocol/http_stream.py:148-168 | After the final `None`, if the client had not closed first: exactly one response, one close, one access record |
| `HttpTrailers.GrammarIff` | src/hypercorn/protocol/http_stream.py:148-334 | For every sequence of messages, trailers too, and every interleaving: the output keeps the grammar if and only if the messages do not spoil it, which `StageOf` decides from the messages alone (accepted trailers that are sent as such; over HTTP/1.1 anything that ends or adds to a body ended by trailers; over the others content or last trailers after the last) |
| `HttpTrailers.CompleteIff` | src/hypercorn/protocol/http_stream.py:148-168 | At the end, if the client had not closed first, the output is complete, with one response, one close and one record, if and only if the messages did not spoil it |
| `HttpTrailers.TrailersSpoil` | src/hypercorn/protocol/http_stream.py:286-318 | Without trailer messages nothing is spoilt |
| `HttpAnswers.ResponseStatus` | src/hypercorn/protocol/http_stream.py:148-168 | Every response in every run has the status of the first valid start, or 500 when the application finishes without one |
| `HttpMeaning.OutputIsMeaning` | src/hypercorn/protocol/http_stream.py:148-334 | In every run, whatever the client does, the output is what the messages mean: each adds the events told from the messages before it alone, content only after a valid start and before the last part, none to a response that has no body; and the end of the application adds an error response when it had not answered, and the close |
| `HttpMeaning.NoBodySent` | src/hypercorn/utils.py:60-61 | In no run does a response to HEAD, or one with an informational status, 204 or 304, have any body or file in its output |
| `HttpRecords.RefusedIff` | src/hypercorn/protocol/http_stream.py:148-320 | In every reached state a message raises if and only if it comes at the wrong time or is malformed: a second or invalid start, content or trailers outside the response, a push or hint that the protocol does not have |
| `HttpRecords.QueueIsHistory` | src/hypercorn/protocol/http_stream.py:131-146 | The application's queue is the client's events before the close, in order, trailers behind the end of the body, and one disconnect whoever closes |
| `HttpRecords.RecordsTell` | src/hypercorn/protocol/http_stream.py:139-142 | An access record has the status of the first valid start, or 500 without one; a record without a status is there if and only if the stream was closed before its response was done |
| `HttpAnswers.MessagesRun` | src/hypercorn/protocol/http_stream.py:148-334 | Any messages are handled by some run without client events |
| `HttpTheorems.AccessRecords` | src/hypercorn/protocol/http_stream.py:139-146 | Trailers or not, one access record after the end, or two exactly when the stream was closed early and its response finished anyway |
| `HttpTheorems.OneDisconnect` | src/hypercorn/protocol/http_stream.py:86-146 | At most one disconnect reaches the application, nothing after it, and it is there exactly when the stream is closed |
| `HttpTheorems.BodyConservation` | src/hypercorn/protocol/http_stream.py:202-285 | At every point the body bytes sent by the messages so far are those the application asked for by its plain meaning, `AppBody` |
| `HttpTheorems.PlainBody` | src/hypercorn/protocol/http_stream.py:202-224 | `AppBody` of a start followed by parts is the parts joined, or nothing for HEAD, an informational status, 204 or 304 |
| `HttpTheorems.TrailersBreakGrammar` | src/hypercorn/protocol/http_stream.py:286-318 | A concrete run: two trailer messages over HTTP/1.1 end the body twice |
| `HttpRuns.RunKeeps` | src/hypercorn/protocol/http_stream.py:86-334 | The invariant of stream, pending sends and history holds after every run |
| `HttpRuns.MessageRuns` | src/hypercorn/protocol/http_stream.py:148-334 | Handling a message in one go, as the object does, is one of the runs |
| `HttpStreams.HTTPStream.AppSend` | src/hypercorn/protocol/http_stream.py:148-320 | The object does the planned steps of the message one after the other, and raises exactly when the plan says so |
| `HttpStreams.HTTPStream.HandleEvent` | src/hypercorn/protocol/http_stream.py:131-146 | The object handles a client event as `Handle` |
| `HttpStreams.HTTPStream.SendPath` | src/hypercorn/protocol/http_stream.py:252-285 | The path-send branch, with sendfile or chunk by chunk |
| `HttpStreams.HTTPStream.SendTrailers` | src/hypercorn/protocol/http_stream.py:286-318 | The trailers branch for each protocol version |
| `HttpStreams.HTTPStream.SendErrorResponse` | src/hypercorn/protocol/http_stream.py:322-334 | An error response and its access record |
| `EndToEnd.DataIsAppBody` | src/hypercorn/protocol/h2.py:164-177 | For a response without flush or trailers, for any chunking, other streams, scheduling, windows and priorities: the response head is the first call, all heads are those of the output, and the DATA bytes before END_STREAM are exactly the application's body, or nothing when there is none |
| `EndToEnd.HeadsAreResponse` | src/hypercorn/protocol/h2.py:207-214 | The heads h2 gets for an ended response, trailers aside, are those of the HTTP stream's output, all and in order, and the first of them is the first call |
| `EndToEnd.DeliveredAtRest` | src/hypercorn/protocol/h2.py:146-242 | At rest such a response whose end was sent, on a stream that was not force-closed and has window left, has END_STREAM and its whole body delivered |
| `EndToEnd.HttpNeverStranded` | src/hypercorn/protocol/h2.py:52-79 | The producer of an HTTP response, flushed or with trailers too, is never left waiting once its buffer is gone: an HTTP stream pushes no empty chunk |
| `EndToEnd.EndedBodyIsWhole` | src/hypercorn/protocol/http_stream.py:202-224 | Once the end of body is out, what the HTTP/2 producer counts as its payload is the whole body of the application |
| `H11Theorems.OneStreamAtATime` | src/hypercorn/protocol/h11.py:193-229 | A request is only taken when no stream is active and every earlier application is done |
| `H11Theorems.ArrivalOrder` | src/hypercorn/protocol/h11.py:193-290 | Responses leave in the order of their requests, one each; requests are numbered as they are taken and body events go to the stream of the last, which by `OneStreamAtATime` is the only one |
| `H11Theorems.RequestsBounded` | src/hypercorn/protocol/h11.py:139-151 | At most `max(1, keep_alive_max_requests)` requests reach an application on one connection |
| `H11Theorems.SendsInTurn` | src/hypercorn/protocol/h11.py:139-191 | Unless the peer has erred it is the turn of an application that sends: h11 takes its response head if and only if it takes the status, and the end of its response if and only if the status was at least 200 |
| `H11Theorems.WaitingReaderIsWoken` | src/hypercorn/protocol/h11.py:215-217 | While the reader waits for `can_read` and the connection is neither lost nor being closed, the last request's application is alive; a close of its stream always wakes the reader; on a lost connection the application may also have ended without a word |
| `H11Theorems.DesertedIff` | src/hypercorn/protocol/h11.py:131-137 | A reader waiting for `can_read` has nobody left to wake it if and only if the connection is being closed, or was lost and the last application has ended without a word |
| `H11Theorems.VanishDeserts` | src/hypercorn/protocol/h11.py:131-137 | An application that ends without a word while the reader waits always deserts it |
| `H11Theorems.LossDesertsReader` | src/hypercorn/protocol/h11.py:131-137 | A concrete run: the connection is lost while the reader waits behind a pipelined request, the application ends on its closed stream, and nobody is left although nothing is closing |
| `H11Theorems.CloseDesertsIff` | src/hypercorn/protocol/h11.py:315-333 | When an application ends while the reader waits, the woken reader is back in the wait after its next event, and deserted, only if the connection is not recycled and the peer's side is paused; exactly then that is possible |
| `H11Theorems.RecycleRestarts` | src/hypercorn/protocol/h11.py:315-333 | A recycled connection has not reached the request limit, is idle on both sides without a stream, and its waiting reader goes on; the guard is what h11 asks for to start the next cycle |
| `H11Theorems.DesertedForever` | src/hypercorn/protocol/h11.py:215-217 | A reader waiting with no application left waits in every continuation |
| `H11Theorems.QuitDesertsReader` | src/hypercorn/protocol/h11.py:331-333 | A concrete run reaching that state: the application quits mid-response with the next request buffered |
| `H11Runs.RunKeeps` | src/hypercorn/protocol/h11.py:193-338 | The invariant of reader, applications and both h11 sides holds after every run |
| `H11Protocols.H11Protocol.HandleEvent` | src/hypercorn/protocol/h11.py:193-229 | One round of the reader's loop does `HandleNext` |
| `H11Protocols.H11Protocol.CreateStream` | src/hypercorn/protocol/h11.py:231-290 | A request makes a stream and raises the count; an unknown host is answered at once |
| `H11Protocols.H11Protocol.SendHead` | src/hypercorn/protocol/h11.py:139-155 | A response head is marked to close from the maximal request on |
| `H11Protocols.H11Protocol.Recycle` | src/hypercorn/protocol/h11.py:315-338 | Recycles when both sides are done and the server is not stopping, closes otherwise, and wakes the reader either way |
| `H11Laws.CloseIff` | src/hypercorn/protocol/h11.py:315-333 | The end of a stream closes the connection if and only if the server is stopping, the connection is a WebSocket or a side is not DONE; otherwise both sides are idle again |
| `H11Laws.ClosingIff` | src/hypercorn/protocol/h11.py:193-333 | In every run the connection is being closed if and only if a protocol error was reported or a stream ended on a connection that could not go on |
| `H11Laws.StopsTaking` | src/hypercorn/protocol/h11.py:315-333 | Once the server is stopping at most one more request is taken, and only by a connection that was waiting for one |
| `H11Laws.NoneAfterClose` | src/hypercorn/protocol/h11.py:315-333 | And none once an application has closed its stream |
| `H11Laws.StateTellsHistory` | src/hypercorn/protocol/h11.py:193-333 | In every run the stream, the number of requests, `can_read` and the reader's place are those of the last request, close, pause and wake |
| `H11Laws.ReplyKeepsIff` | src/hypercorn/protocol/h11.py:139-151 | A final response keeps the connection if and only if it was kept, the response does not close it and the number of requests is below the maximum |
| `H11Laws.InformationalIff` | src/hypercorn/protocol/h11.py:152-159 | An informational response leaves the final one to come; a 101 switches the connection if and only if an upgrade was proposed or it is a WebSocket, and is refused otherwise |
| `H11Laws.RequestTaken` | src/hypercorn/protocol/h11.py:231-290 | A request keeps the connection unless it asks to close or its host is unknown; then it is answered at once and reaches no application |
| `H11Laws.ErrorAnsweredIff` | src/hypercorn/protocol/h11.py:219-229 | A protocol error always closes, and is answered if and only if no response was begun |
| `DnEscape.EscapeIsSinglePass` | src/hypercorn/utils.py:586-608 | The eleven successive replacements and two fixes equal one pass that codes each character by itself |
| `DnEscape.ReplacementsAreCodes` | src/hypercorn/utils.py:586-601 | No replacement touches what an earlier one wrote |
| `DnEscape.EscapeRoundTrip` | src/hypercorn/utils.py:586-608 | A decoder for section 3 of RFC 4514 that also takes backslash and raw NUL gives back every string |
| `DnEscape.WellFormedIffNoNul` | src/hypercorn/utils.py:586-608 | The strict decoder accepts the output, and gives back the string, if and only if it has no NUL character |
| `SubjectNames.ClientCertName` | src/hypercorn/utils.py:632-647 | The loops produce the name as specified |
| `SubjectNames.RdnText` | src/hypercorn/utils.py:632-647 | The inner loop joins the known attributes of one relative name in reverse |
| `SubjectNames.AttributesReversed` | src/hypercorn/utils.py:211-221 | Each attribute of a relative name stands once, under its short key, behind those that follow it; one without a key is left out |
| `SubjectNames.EscapeGuarded` | src/hypercorn/utils.py:586-608 | No special character of an escaped value is ever bare |
| `SubjectNames.ParseSubjectName` | src/hypercorn/utils.py:632-647 | Splitting a non-empty name at unescaped separators gives back the filtered, reversed attribute pairs of every relative name |
| `SubjectNames.SubjectNameInjective` | src/hypercorn/utils.py:632-647 | Two non-empty subjects with one name have the same known attributes |
| `SubjectNames.EmptyNameIff` | src/hypercorn/utils.py:632-647 | The empty name stands exactly for no relative name or one without known attributes |
| `Headers.FilterPseudoHeaders` | src/hypercorn/utils.py:74-86 | The last authority, else the last host, else nothing, becomes the first header; all ordinary headers follow in order; it raises exactly on an empty name |
| `Headers.FilteredTwice` | src/hypercorn/utils.py:74-86 | The result has no pseudo header and one host header, and filtering it again changes nothing |
| `Headers.HostDecides` | src/hypercorn/utils.py:74-86 | The host is the value of the last authority header, without one that of the last host header, and empty without either |
| `Headers.OrdinaryIs` | src/hypercorn/utils.py:83-84 | Of the other headers exactly those whose name begins with a colon are dropped, and the order is kept |
| `Headers.BuildAndValidateHeaders` | src/hypercorn/utils.py:64-71 | Accepts exactly lists of non-empty names without a leading colon, and strips names and values |
| `Headers.StripBytesIs` | src/hypercorn/utils.py:70-70 | Names and values lose blanks, tabs and line breaks at both ends, and nothing else |
| `Headers.ValidatedPseudoIff` | src/hypercorn/utils.py:64-71 | A validated name is a pseudo header after stripping if and only if white space stood before its colon |
| `WebsocketBuffers.Reassembly` | src/hypercorn/protocol/ws_stream.py:357-378 | For well-typed fragments with control frames anywhere, the application receives exactly the messages before the first oversized one, each the join of its fragments, and nothing from then on |
| `WebsocketBuffers.DeliveredWithinLimit` | src/hypercorn/protocol/ws_stream.py:166-168 | No delivered message exceeds the limit |
| `WebsocketBuffers.OversizedSilent` | src/hypercorn/protocol/ws_stream.py:357-366 | From the fragment that crosses the limit no message is delivered again |
| `WebsocketBuffers.BatchesCompose` | src/hypercorn/protocol/ws_stream.py:357-383 | However the events are split over calls, the result is the same |
| `WebsocketBuffers.CallTells` | src/hypercorn/protocol/ws_stream.py:357-378 | One call handles the events up to the first fragment with which its message exceeds the limit and leaves the others; the application is given pings, pongs and complete messages where they stand, the peer a pong for each ping that is handled here and a close for the oversized message |
| `WebsocketBuffers.HandleEvents` | src/hypercorn/protocol/ws_stream.py:357-376 | The loop over events does what `Batch` says |
| `WebsocketBuffers.WebsocketBuffer.ExtendWith` | src/hypercorn/protocol/ws_stream.py:159-167 | Extends the buffer in place, or raises for a mixed kind or an oversized message |
| `WsStreams.OneDisconnect` | src/hypercorn/protocol/ws_stream.py:274-281 | At most one disconnect, with 1000 exactly when the state at that moment is a closed one and 1006 otherwise |
| `WsClosings.CodeIff` | src/hypercorn/protocol/ws_stream.py:274-490 | The disconnect carries 1000 if and only if a closing message took effect before it: a close message, the last part of a rejection once its content is sent, or the last rejection trailers once they are sent; 1006 otherwise, in every run |
| `WsClosings.FollowsDisconnectIff` | src/hypercorn/protocol/ws_stream.py:357-383 | Something follows the disconnect if and only if the reader then still had a frame to handle that is passed on, and exactly those frames follow |
| `WsClosings.TrackKeeps` | src/hypercorn/protocol/ws_stream.py:283-490 | In every run what the messages say about closing agrees with the state and with what is left of the current message |
| `WsStreams.AcceptedForGood` | src/hypercorn/protocol/ws_stream.py:283-355 | Once accepted, no step leads into an HTTP response, and data only follows the accepting response |
| `WsMeaning.AppSendsMeaning` | src/hypercorn/protocol/ws_stream.py:283-355 | In every run what the application's task sends is what its messages mean, each told from those before it: the accepting response, a data event for every message wsproto agrees to on an accepted and open WebSocket, the closing frame and EndData, the 403 refusal, the parts of a rejection, the end |
| `WsMeaning.ReaderAnswersFrames` | src/hypercorn/protocol/ws_stream.py:357-383 | In every run what the reader's task sends and puts on the queue is what the peer's frames ask for, in order: the answer to each ping, oversized message and close, the close of the stream, messages and passed pings and pongs, and a 400 before the handshake is done |
| `WsMeaning.NoBodySent` | src/hypercorn/protocol/ws_stream.py:424-471 | A rejection with an informational status, 204 or 304 has no body and no file in the output |
| `WsMeaning.ClosedIff` | src/hypercorn/protocol/ws_stream.py:268-281 | In every run the stream is closed if and only if the application or the reader has sent the close, the client closed it, or data before the handshake was refused |
| `WsMeaning.CloseIsTold` | src/hypercorn/protocol/ws_stream.py:274-281 | When the client closes an open stream the application is told at once |
| `WsStreams.CloseFrameCloses` | src/hypercorn/protocol/ws_stream.py:336-348 | A close message on an open stream closes it on the application's side |
| `WsStreams.SelfClosedEndsNormally` | src/hypercorn/protocol/ws_stream.py:274-281 | A stream its application has closed ends with 1000 in every continuation |
| `WsStreams.OthersEndAbnormally` | src/hypercorn/protocol/ws_stream.py:274-281 | A run without a close message, a last rejection part or last trailers never ends with 1000 |
| `WsStreams.MessageAfterDisconnect` | src/hypercorn/protocol/ws_stream.py:357-383 | A concrete run: a message behind a ping that is being answered is delivered after the disconnect |
| `WsStreams.RunKeeps` | src/hypercorn/protocol/ws_stream.py:222-490 | The invariant of both tasks holds after every run |
| `WsObjects.WSStream.AppSend` | src/hypercorn/protocol/ws_stream.py:283-355 | The object does the planned steps of a message one after the other |
| `WsObjects.WSStream.SendTrailers` | src/hypercorn/protocol/ws_stream.py:473-490 | Rejection trailers; the last ones close, and end the body over HTTP/2 |
| `WsObjects.WSStream.HandleData` | src/hypercorn/protocol/ws_stream.py:268-273 | The object handles client data as the reader does, or refuses it before the handshake is done |
| `WsObjects.WSStream.HandleClosed` | src/hypercorn/protocol/ws_stream.py:274-281 | The object handles the close of the stream |
| `WsObjects.WSStream.SendRejection` | src/hypercorn/protocol/ws_stream.py:424-471 | The rejection branches: head first, content unless suppressed, then the end |
| `WsObjects.MessageRuns` | src/hypercorn/protocol/ws_stream.py:283-355 | Handling a message in one go is one of the runs |
| `WsObjects.ClientRuns` | src/hypercorn/protocol/ws_stream.py:268-273 | So is handling client data |
| `QuicTables.RunKeeps` | src/hypercorn/protocol/quic.py:82-103 | After any run of packets, issues, retirements and terminations, the keys pointing to a connection are exactly its IDs |
| `QuicTables.NoDeletionMisses` | src/hypercorn/protocol/quic.py:121-145 | Termination never misses, and retiring misses exactly on an ID the connection does not have |
| `QuicTables.TerminateExact` | src/hypercorn/protocol/quic.py:121-126 | Termination removes all keys of the connection and no other |
| `QuicTables.IdleIff` | src/hypercorn/protocol/quic.py:60-62 | `idle` holds exactly when no connection owns an ID |
| `QuicTables.NoConnectionAfterShutDown` | src/hypercorn/protocol/quic.py:83-88 | Once `terminated` is set no new connection enters the table |
| `QuicTables.IssueKeepsIff` | src/hypercorn/protocol/quic.py:139-141 | An issued ID keeps the table exact if and only if no other connection owns it |
| `QuicTables.CreateKeepsIff` | src/hypercorn/protocol/quic.py:89-99 | A new connection keeps it exact if and only if its host ID is not in use |
| `QuicHistory.TableTellsHistory` | src/hypercorn/protocol/quic.py:82-145 | In every run the table gives each ID the connection that was last given it and has neither retired it nor terminated, and each set holds the IDs its connection owns |
| `QuicHistory.PacketGivenIff` | src/hypercorn/protocol/quic.py:64-103 | In every reached state a packet is given to a connection if and only if its version is supported and the connection owns its ID, or nobody does, the packet starts a connection, the server is not stopping and it is the new one; a negotiation is sent if and only if the version is not supported, to the packet's source |
| `QuicTables.QuicProtocol.HandlePacket` | src/hypercorn/protocol/quic.py:64-103 | The object finds or makes the connection of a packet, or answers an unknown version from the packet's destination to its source |
| `QuicTables.QuicProtocol.HandleIssued` | src/hypercorn/protocol/quic.py:139-141 | The object enters the ID in the set and in the table |
| `QuicTables.QuicProtocol.HandleRetired` | src/hypercorn/protocol/quic.py:142-144 | The object deletes the ID from both, or misses |
| `QuicTables.QuicProtocol.HandleTerminated` | src/hypercorn/protocol/quic.py:121-126 | The loop deletes every ID of the connection, without missing |
| `Wsgi.HandleHttp` | src/hypercorn/app_wrappers.py:59-84 | The application runs, on all of the body that was read, exactly when the reading ends within the limit, the path is below the root path and the query is ASCII; 400, 404 and failure exactly otherwise; and what is sent in each case |
| `Wsgi.ReadBody` | src/hypercorn/app_wrappers.py:67-76 | Reads up to the end of the body or the first message that crosses the limit |
| `Wsgi.ReadsClientBody` | src/hypercorn/app_wrappers.py:67-76 | The body read is what the client had sent when its body ended, its trailers came or it closed the stream; the reading ends on a disconnect, with the body cut off, if and only if the client closed first |
| `Wsgi.BuildEnviron` | src/hypercorn/app_wrappers.py:124-167 | Each header variable is the comma-join, in order, of all header values that map to it, and is absent when there are none; all others are left as they are; the path and query errors exactly |
| `Wsgi.HeaderVariablesApart` | src/hypercorn/app_wrappers.py:134-166 | No header name ever maps to one of the other variables |
| `WsgiLaws.EntriesTell` | src/hypercorn/app_wrappers.py:134-152 | Each entry that describes the request has its value, whatever the headers are |
| `WsgiLaws.VariableIs` | src/hypercorn/app_wrappers.py:155-161 | The variable of a header, character by character, with the two that have no prefix |
| `WsgiLaws.PlainNamesApart` | src/hypercorn/app_wrappers.py:155-161 | Different names of small letters, digits and dashes never share a variable, so their values are not joined |
| `Wsgi.PathRebuilt` | src/hypercorn/app_wrappers.py:126-137 | SCRIPT_NAME followed by PATH_INFO decodes to the path, or to the path and the added slash |
| `Wsgi.RunApp` | src/hypercorn/app_wrappers.py:86-121 | The response starts once, with what `start_response` had set before the first output, followed by all outputs; it stops exactly where the application raises, outputs before starting, or starts with headers that are rejected |
| `WsgiLaws.CallsTell` | src/hypercorn/app_wrappers.py:91-104 | After any calls of `start_response` the status is the code of the last line that has one, the headers those of the last such call whose headers fit into Latin-1, and the answer has started if and only if there was one |
| `WsgiLaws.FirstOutputStarts` | src/hypercorn/app_wrappers.py:108-118 | The first output sends the start as set before it; later calls change nothing |
| `Wsgi.AnsweredBody` | src/hypercorn/app_wrappers.py:86-121 | Through the HTTP stream, the body of a finished application is its outputs joined, or nothing for HEAD, an informational status, 204 or 304 |
| `Wsgi.SilentAnswerFails` | src/hypercorn/app_wrappers.py:106-118 | Every application that answers without any output is answered with 500, whatever status it chose, in a run that is given |
| `Wsgi.ClientStatus` | src/hypercorn/app_wrappers.py:78-121 | In every run of the HTTP stream over the messages of an application, client closes aside, there is one response, with the application's status if some output was relayed, and 500 otherwise |
| `Wsgi.AnswerRuns` | src/hypercorn/app_wrappers.py:78-121 | There is such a run for every application |
| `Texts.RecodeParts` | src/hypercorn/app_wrappers.py:136-137 | Texts written as UTF-8 bytes in Latin-1 characters and joined decode to the joined text |
| `Texts.DecodesOnlyEncoded` | src/hypercorn/app_wrappers.py:136-137 | The decoder of that claim is strict: it takes encoded texts only |
| `Texts.SplitJoin` | src/hypercorn/middleware/proxy_fix.py:75-75 | The parts of a split have no separator and join to the whole |
| `Texts.StripIs` | src/hypercorn/middleware/proxy_fix.py:75-75 | Stripping takes white space from both ends of a value, and nothing else |
| `ProxyFix.GetTrustedValue` | src/hypercorn/middleware/proxy_fix.py:66-80 | The loop finds the value that many hops from the end, or none |
| `ProxyFix.SameEnd` | src/hypercorn/middleware/proxy_fix.py:77-78 | The result depends only on the last `trusted_hops` values |
| `ProxyFix.SameNameIff` | src/hypercorn/middleware/proxy_fix.py:74-74 | Two header names are the same if and only if they differ in the case of letters only |
| `ProxyFix.PrependedHeadersIff` | src/hypercorn/middleware/proxy_fix.py:66-80 | Headers put in front change nothing if and only if there are enough values behind (or no trusted hops) |
| `ProxyFix.PrependedValues` | src/hypercorn/middleware/proxy_fix.py:73-75 | Values put in front inside any header, with a comma, change nothing either |
| `ProxyFix.FirstHopChosen` | src/hypercorn/middleware/proxy_fix.py:66-80 | When each trusted hop adds one value, what the first of them added is chosen, whatever the client sent |
| `ProxyFix.OneHost` | src/hypercorn/middleware/proxy_fix.py:54-61 | After host rewriting exactly one host header remains and all others are kept in order |
| `ProxyFix.HostBytesIff` | src/hypercorn/middleware/proxy_fix.py:60-60 | The host header repeats the trusted bytes if and only if they are ASCII |
| `ProxyFix.Rewrite` | src/hypercorn/middleware/proxy_fix.py:21-63 | The application gets a copy with the rewritten client, scheme and headers, in both modes, or the scope itself when it is no request; the caller's scope stays as it is |
| `ProxyFix.ParseForwarded` | src/hypercorn/middleware/proxy_fix.py:35-41 | The last part with each key decides |
| `ProxyFix.ForwardedTells` | src/hypercorn/middleware/proxy_fix.py:30-46 | A trusted `Forwarded` value is used in the modern mode only, and then alone: its last part with each key decides; otherwise each of the three older headers decides for itself |

## Left out

- HTTP/3 (`src/hypercorn/protocol/h3.py`): forwards events in the manner of HTTP/2 and would add only easy members.
- Sockets, TLS, the asyncio and trio servers, signals, processes, configuration, logging and statistics: input, output and plumbing.
- h2c and prior-knowledge switching in `H11Protocol._check_protocol`, and 100-continue: they replace the protocol object or send one fixed response.
- Flow control of received data and the request body on HTTP/2: forwarded to the stream unchanged.
- Header contents of responses and pushes, `unquote`, the WebSocket handshake headers and accept token, per-message deflate, the content of access records: calls into foreign code.
- The request branch of `HTTPStream.handle` and `WSStream.handle`: building the scope, and answering an unknown host or a bad handshake before an application exists.
- Zero-copy file contents: a zero-copy send is one opaque event, and HTTP/2 ignores it.
- Real time: keep-alive and shutdown timers, WebSocket pings by interval (a second producer on the stream's buffer), QUIC timers.
- A full application queue: putting a message does not suspend.
- Liveness beyond rest: that the peer eventually opens windows and reads is not assumed, so delivery is stated for states at rest.
- Messages that an application sends on HTTP/1.1 after the trailers that closed its stream: an application is over when its stream is closed.
- A negative `trusted_hops` in the proxy middleware: the number of hops is a natural number.
- HttpTheorems.OutputGrammar: excludes trailer messages, for which it can fail; `HttpTrailers.GrammarIff` decides them.
- EndToEnd.DataIsAppBody: excludes flushed bodies and end-of-body headers, which the code sends around the buffer.
- Python's `int` and `str.lower` in the WSGI status line and header names: parameters of the model.
- What aioquic does with a datagram, and the bytes of a version negotiation: foreign code.
