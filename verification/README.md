# WebhookOps: reverse tunnel, codecs and delivery, modelled and proved

WebhookOps takes in webhooks, stores each one once, and delivers it to a public URL or, through a
reverse tunnel, to a private service. This project models the three parts of it where the difficulty
lies, and proves what they promise.

**The tunnel.** The tunnel program accepts proxy clients; the agent program connects to targets; both
multiplex any number of streams over one framed channel (OPEN, OPEN_OK, DATA, CLOSE, ERROR).

- `Streams` is everything both programs know about one stream and the 43 atomic steps their threads
  take on it: a lock-protected section, an atomic exchange or load, or one call into the kernel.
- `StreamInvariant` is what each of these steps keeps (handshake order, bytes in both directions,
  wake-up, closing, draining).
- `Mux` runs the steps of any number of streams over the two shared FIFO queues in any interleaving,
  with sessions dying and tables being swept at any moment, and lifts the invariant to whole runs.
- `MuxTheorems` has the results a user of the tunnel would ask for, `MuxClosing` which bytes the
  agent's CLOSE leaves behind, `MuxErrors` that every refusal is heard and no target forgotten, and
  `MuxRuns` whole runs: an exchange from OPEN to CLOSE, and a refused one.
- `TunnelSession`, `AgentSide` and `ProxyHandler` are the classes and methods of the two programs;
  `AgentPaths` and `HandlerPaths` say which paths of atomic steps they take.
- `ProxyBytes` is about the bytes a client sends behind its request.

**Codecs and parsers.** `Net` is the kernel as an oracle: a script says how many bytes each call moves,
or that it fails. `Wire` and `Channel` are the frame format and its two implementations; `HttpText`,
`HttpHeader`, `ProxyRequest`, `ProxyAccept` and `ProxyRewrite` the reading, the verdict on and the rewriting
of proxy requests (section 3.2.2 of RFC 9112); `Endpoints` the `host:port` and OPEN payload texts, and
`EndpointLaws` what they mean by the form they are written in; `Json` the JSON printers, read
back by `JsonReader`, a reader after sections 2, 4 and 7 of RFC 8259; `ConfigFile` and `Enrollment` the
configuration printed in Python and loaded in C++, with `ConfigLaws` and `EnrollmentLaws` on any file and
any list of targets.

**Ingestion and delivery.** `Delivery` has the row transitions, `DeliveryRows` and `Tasks` the code that
makes them, `DeliveryRuns` any interleaving of tasks, replays and sweeps on one event, `DeliveryChain`
the retry chain alone, `Ingestion` any interleaving of `ingest_event` calls, and `IngestionLaws` which
fields of a delivery make its key and when two deliveries are one event.

`Text` has the character and string primitives of the C++ standard library, `TextLaws` what they do to
every text, and `Frames` the projections of frame sequences.

How the model stands for the code:

- A `std::string`, a `std::vector<uint8_t>` and a Python `str` are strings of characters. What is proved
  for all strings holds for all byte strings. All characters the parsers look at are ASCII, so encoding
  a Python text as UTF-8 changes nothing the C++ side can see.
- Concurrency is a state machine whose steps are the code's own atomic sections. The class methods are
  the same code run by one thread without interference. For an iteration of `read_loop`, `handle_open`,
  `handle_data`, `handle_close`, `target_reader` and the part of `handle_proxy_client` that has a stream,
  the contracts give the effect as a composition of those steps, and the composition is proved to be a
  path of them (`TunnelSession.HandledIsPath`, the lemmas of `AgentPaths`, `ProxyHandler.ServeStream`).
- A dispatch thread tests its flag before a receive that blocks, so a frame may still arrive after the
  flag is gone; the receive steps of `Mux` do not look at the flag at all.
- Record fields and class fields called history (`relayed`, `toClient`, `read`, `written`, ...) only
  record what was done to a socket.
- Row-locked transactions are single steps; `finalize_delivery_attempt`, which writes several times
  from a snapshot it read earlier, is one step per write.

What the code does not keep, although one might expect it, with an input or run that shows it and the
exact condition under which it does hold:

- *The agent drops every stream whose handler is gone*: it keeps one whose open took longer than the
  handler waited (`MuxTheorems.SlowOpenStays`); `MuxTheorems.AgentTableDrains` says exactly when.
- *A client gets everything the agent read from its target before it closes*: a write to the
  target that fails while the target reader holds bytes loses them (`MuxClosing.HeldBytesAreLost`);
  `MuxClosing.WhatCloseLeavesBehind` says exactly when none are lost.
- *An event is attempted at most `max_attempts` times*, as the repository's own README promises:
  `DeliveryRuns.AttemptBound` has the bound that holds, `DeliveryRuns.AttemptBoundIsReached` runs that
  reach it, and `DeliveryRuns.ExceedsWithTwo` for how many tasks from outside `max_attempts` can be passed.
- *Delivered is final*: a finaliser with an older snapshot can overwrite it
  (`DeliveryRuns.DeliveredCanBeOverwritten`); `DeliveryRuns.DeliveredIsFinal` says exactly when none can.
- *A CONNECT passes on what the client sends behind it*: bytes read together with its header are dropped
  (`ProxyBytes.ConnectLosesBytes`, `ProxyBytes.ConnectExample`); `ProxyBytes.WantedBytes` says exactly when
  there are none, and that a forwarded request loses nothing.
- *Whether a header is read does not depend on how the kernel cuts it up*: for one whose end lies between
  65537 and 69631 bytes it does depend (`HttpHeader.GreedyFails`, `HttpHeader.HesitantSucceeds`,
  `HttpHeader.ChunkingMattersOnlyInBetween`).
- *Rewriting a request twice is rewriting it once*: a host that opens a second bracket does not survive it
  (`ProxyRewrite.DoubleBracket`); `ProxyRewrite.RewriteAgain` says exactly when the result is the same.

## Model

| member | source | states |
|---|---|---|
| MuxTheorems.NoLostWakeUp | agent/src/tunnel/main.cpp:570-620 | in every interleaving, a handler whose OPEN was sent and that still waits after a `close_all_streams` has gone through its stream finds its wait condition true |
| MuxTheorems.TargetToClient | agent/src/agent/main.cpp:330-345 | what a client got is a prefix of what was read from its own target; once CLOSE is processed it is all bytes sent before that CLOSE, and all bytes ever read if the target reader sent it; `MuxClosing.WhatCloseLeavesBehind` is about the CLOSE of the session loop too |
| MuxTheorems.NothingLostDownstream | agent/src/tunnel/main.cpp:646-684 | while a stream is registered, what the client lacks of what the agent sent is in the channel, in order |
| MuxTheorems.ClientToTarget | agent/src/agent/main.cpp:300-311 | what a target got is a prefix of the initial data followed by the client's later bytes, and while it is open the missing part of what was sent is in the channel |
| MuxTheorems.FrameIds | agent/src/tunnel/main.cpp:902-906 | every frame carries an id some handler took, below the counter's limit and never the control stream's |
| MuxTheorems.HandshakeOrder | agent/src/tunnel/main.cpp:902-965 | OPEN is a stream's first frame and sent once, DATA and CLOSE follow only after OPEN_OK was processed, OPEN_OK comes before all else from the agent, and neither DATA nor CLOSE reaches the agent before the stream is in its table |
| MuxTheorems.TargetIsRequested | agent/src/agent/main.cpp:268-297 | a connected endpoint is in the allowlist, and is the one the tunnel parsed if that host has no line feed |
| MuxTheorems.AllowNeverChanges | agent/src/agent/main.cpp:276-281 | the allowlist is the same throughout a run |
| MuxTheorems.ClosedAtMostOnce | agent/src/agent/main.cpp:313-360 | each client socket is closed at most once and exactly once when its handler returns, each target socket at most once, and at most one CLOSE is sent per stream, after closing |
| MuxTheorems.TableHoldsLiveHandlers | agent/src/tunnel/main.cpp:584-592 | the tunnel's table holds only streams whose handler has not returned |
| MuxTheorems.AgentTableDrains | agent/src/agent/main.cpp:313-328 | when a stream's handler has returned and nothing of it is in flight, the agent holds it exactly when the handler gave up waiting and the target it got is still open |
| MuxTheorems.SlowOpenStays | agent/src/tunnel/main.cpp:922-935 | for every allowed endpoint there is a run that ends quiet with the target still in the agent's table |
| MuxClosing.WhatCloseLeavesBehind | agent/src/agent/main.cpp:313-345 | once any CLOSE is processed there is the step that wrote it, and the client got what was read up to then but for what the target reader held; so it got all bytes ever read if and only if the reader held none then and has read none since |
| MuxClosing.HeldBytesAreLost | agent/src/agent/main.cpp:300-345 | for every allowed endpoint and all bytes, a run in which a failing write to the target makes the CLOSE overtake them, with the stream still registered |
| MuxClosing.StaysFrozen | agent/src/tunnel/main.cpp:686-692 | whatever happens after a stream's first CLOSE, the bytes before it stay the same |
| MuxClosing.RunReads | agent/src/agent/main.cpp:330-342 | no run takes back what was read |
| MuxErrors.ErrorsAreTold | agent/src/tunnel/main.cpp:660-673 | in every run: once an ERROR has been sent on a registered stream, none is on its way and `read_loop` is not on the stream, the handler's wait is over and the stream has the text of the last ERROR sent |
| MuxErrors.NoTargetForgotten | agent/src/agent/main.cpp:284-360 | in every run an opened target is in the agent's table, in the hands of a sweep, or closed |
| MuxErrors.StepFine | agent/src/tunnel/main.cpp:651-693 | every step of a session keeps what these two say, for every stream |
| MuxErrors.SweepEmpties | agent/src/tunnel/main.cpp:603-608 | a sweep unregisters every stream and leaves its mark on each that was registered |
| MuxErrors.AgentSweepEmpties | agent/src/agent/main.cpp:347-353 | and the agent's likewise |
| MuxRuns.ExchangeSucceeds | agent/src/tunnel/main.cpp:879-968 | for every allowed endpoint, request and answer, CONNECT or forwarded, a run in which the target gets all of the request and the client all of the answer, both sockets are closed once, both tables are empty and nothing is left on its way |
| MuxRuns.RefusalIsTold | agent/src/tunnel/main.cpp:922-935 | for every endpoint that is not allowed, a run in which the wait ends with the agent's own text and no target is opened |
| Mux.StepKeepsInv | agent/src/tunnel/main.cpp:570-701 | every step of a session keeps the invariant of every stream |
| Mux.RunsKeepInv | agent/src/tunnel/main.cpp:630-701 | every run keeps it |
| Mux.Reachable | agent/src/tunnel/main.cpp:879-968 | every reachable state is good for every stream id |
| Mux.EffViews | agent/src/tunnel/main.cpp:594-601 | a thread's step on one stream shows to another stream only in the shared flags |
| Mux.DoShaped | agent/src/tunnel/main.cpp:570-582 | a step writes at most one frame per direction, of its own stream, and only makes the session's flags worse |
| Mux.TunnelReceiveStep | agent/src/tunnel/main.cpp:630-649 | receiving a frame and looking its stream up keeps the invariant, whether or not the stream is registered and the session still alive |
| Mux.AgentReceiveStep | agent/src/agent/main.cpp:213-239 | so does the agent's dispatch of a frame, connected or not, OPEN going to a thread of its own |
| Mux.SweepStep | agent/src/tunnel/main.cpp:603-608 | so does emptying the table while handlers are at any point |
| Mux.AgentSweepStep | agent/src/agent/main.cpp:347-353 | and the agent's |
| Mux.TakeIdStep | agent/src/tunnel/main.cpp:902-905 | a fresh id has no frames and no record yet |
| StreamInvariant.ActIsGood | agent/src/tunnel/main.cpp:570-701 | each of the 43 atomic steps keeps the invariant of its stream |
| StreamInvariant.HandlerActIsGood | agent/src/tunnel/main.cpp:879-968 | the steps of a proxy handler and of the sweeping thread |
| StreamInvariant.ReaderActIsGood | agent/src/tunnel/main.cpp:651-693 | the steps of `read_loop` on a found stream |
| StreamInvariant.TargetActIsGood | agent/src/agent/main.cpp:268-345 | the steps of an open thread and of a target reader |
| StreamInvariant.LoopActIsGood | agent/src/agent/main.cpp:300-360 | the steps of `handle_data`, `handle_close` and the agent's sweep |
| StreamInvariant.WorseIsGood | agent/src/tunnel/main.cpp:622-628 | what other threads do to the shared flags keeps it |
| StreamInvariant.SweptIsGood | agent/src/tunnel/main.cpp:603-608 | being taken out of the table by a sweep keeps it, for a handler at any point |
| StreamInvariant.SendCheckIsGood | agent/src/tunnel/main.cpp:570-575 | testing `alive_` apart from the write keeps it: a session that died before is noticed |
| StreamInvariant.WaitReturnIsGood | agent/src/tunnel/main.cpp:922-963 | every way the wait can end keeps it |
| StreamInvariant.TakeDataFailIsGood | agent/src/tunnel/main.cpp:675-682 | a client write that fails midway keeps it |
| StreamInvariant.TargetExchangeIsGood | agent/src/agent/main.cpp:319-322 | the exchange lets one of several closers win |
| StreamInvariant.LoopWriteFailIsGood | agent/src/agent/main.cpp:307-310 | a target write that fails midway leaves no gap behind it |
| TunnelSession.ProxyStream.CloseClient | agent/src/tunnel/main.cpp:292-297 | the exchange closes the socket once however often it is called |
| TunnelSession.AgentSession.Send | agent/src/tunnel/main.cpp:570-582 | succeeds exactly when the session is alive and the channel takes the frame; a failed write ends the session |
| TunnelSession.AgentSession.CloseAllStreams | agent/src/tunnel/main.cpp:603-620 | the table is empty and every stream that was in it flagged and closed, each as by its two atomic steps |
| TunnelSession.AgentSession.Close | agent/src/tunnel/main.cpp:622-628 | the session is dead, and its channel shut down if it was alive |
| TunnelSession.AgentSession.Deliver | agent/src/tunnel/main.cpp:675-682 | the DATA branch: the bytes the client has been handed and the CLOSE sent back on a failure, after any number of bytes, as by the atomic steps |
| TunnelSession.AgentSession.Tell | agent/src/tunnel/main.cpp:659-692 | OPEN_OK opens the stream; ERROR stores its text, flags the stream and closes the client of an open one; CLOSE flags and unregisters it and closes its client; all as by the atomic steps |
| TunnelSession.AgentSession.HandleFrame | agent/src/tunnel/main.cpp:646-693 | one iteration of `read_loop`: which fields of its stream a frame of each type changes and to what, whether the stream stays registered, what is written; as by the atomic steps, and nothing to other streams |
| TunnelSession.AgentSession.ReadLoop | agent/src/tunnel/main.cpp:630-701 | when the loop is over the session is dead, its table empty and every client it knew closed |
| TunnelSession.HandledIsPath | agent/src/tunnel/main.cpp:646-693 | what an iteration does without interference is a path of the atomic steps, frames included |
| TunnelSession.DrainedIsPath | agent/src/tunnel/main.cpp:611-619 | what `close_all_streams` does to one stream is the path of its two steps |
| AgentPaths.LoopClosedIsPath | agent/src/agent/main.cpp:313-328 | `handle_close` on the session loop is a path of atomic steps, CLOSE included |
| AgentPaths.ReaderClosedIsPath | agent/src/agent/main.cpp:344 | and on a target reader |
| AgentPaths.SameClose | agent/src/agent/main.cpp:313-328 | both do the same to the stream, the flags and the wire |
| AgentPaths.DataHandledIsPath | agent/src/agent/main.cpp:300-311 | `handle_data` is a path of atomic steps, with every fate of the write |
| AgentPaths.OpenHandledIsPath | agent/src/agent/main.cpp:268-297 | `handle_open` is a path of atomic steps, with every answer of resolver and kernel |
| AgentPaths.ReaderRunIsPath | agent/src/agent/main.cpp:330-345 | the whole of `target_reader`, for any chunks and a channel that breaks at any time, is a path of atomic steps that writes the same frames |
| AgentPaths.ReaderRunEnds | agent/src/agent/main.cpp:330-345 | it ends with the stream closed once and out of the table, having read one chunk more than it could send, if there was one |
| HandlerPaths.PathJoin | agent/src/tunnel/main.cpp:953-967 | a path and one that goes on from its end are one path |
| HandlerPaths.ChunkLeads | agent/src/tunnel/main.cpp:953-963 | one round of the relay loop as atomic steps, whether or not its frame is sent |
| HandlerPaths.OpenFails | agent/src/tunnel/main.cpp:915-920 | a handler whose OPEN is not sent follows the atomic steps and closes its client |
| HandlerPaths.OpenIsRefused | agent/src/tunnel/main.cpp:922-935 | so does one that is refused or not answered in time |
| HandlerPaths.OpenIsServed | agent/src/tunnel/main.cpp:937-967 | and one that is served |
| AgentSide.TargetStream.Close | agent/src/agent/main.cpp:319-321 | the first caller wins and closes the socket |
| AgentSide.Agent.Send | agent/src/agent/main.cpp:254-266 | writes the frame, or clears `connected_` |
| AgentSide.Agent.HandleOpen | agent/src/agent/main.cpp:268-297 | connects exactly when payload, allowlist and kernel allow it, adds the stream before OPEN_OK, and otherwise answers the ERROR for the first reason that applies; stream, flags and wire are as the path of `AgentPaths` leaves them |
| AgentSide.Agent.HandleData | agent/src/agent/main.cpp:300-311 | refuses unknown and closed streams, otherwise writes, and on a failed write closes the stream and sends one CLOSE, all as the path leaves it |
| AgentSide.Agent.HandleClose | agent/src/agent/main.cpp:313-328 | the caller that finds the target open closes it, removes the stream and sends CLOSE, any other changes nothing, all as the path leaves it |
| AgentSide.Agent.CloseAllStreams | agent/src/agent/main.cpp:347-360 | the table is empty and every target that was in it closed |
| AgentSide.Agent.TargetReader | agent/src/agent/main.cpp:330-345 | one DATA per chunk in order, then CLOSE, as far as the channel goes; the stream is closed and gone, as the path leaves it |
| AgentSide.RelayedBytes | agent/src/agent/main.cpp:330-345 | what it sends is a prefix of the target's bytes, all of them before its one CLOSE on a channel that lasts, and no CLOSE on one that does not |
| ProxyHandler.Relay | agent/src/tunnel/main.cpp:953-963 | the relay loop sends a prefix of what the client sends, in non-empty frames, and all of it if nothing fails; its atomic steps lead to the CLOSE |
| ProxyHandler.Serve | agent/src/tunnel/main.cpp:945-967 | initial data, client bytes, CLOSE |
| ProxyHandler.ServeOpened | agent/src/tunnel/main.cpp:937-967 | the same after the answer to a CONNECT, or CLOSE alone if that answer cannot be written |
| ProxyHandler.ServeStream | agent/src/tunnel/main.cpp:902-967 | registered at the start, unregistered at every end; OPEN first and nothing more unless the target is open; what it does is a path of atomic steps up to its wait and one after it |
| ProxyHandler.ReadRequest | agent/src/tunnel/main.cpp:879-893 | the request is the parse of the header and the bytes read with it |
| ProxyHandler.HandleProxyClient | agent/src/tunnel/main.cpp:879-968 | for any client bytes and kernel: which of the eight endings, with which reason, and that the frames are OPEN for the parsed target followed by a prefix of the rewritten request and the client's later bytes, or all of them and one CLOSE if nothing fails |
| ProxyBytes.WantedBytes | agent/src/tunnel/main.cpp:201-212 | of a forwarded request all bytes behind the client's header are passed on, behind a new header; of a CONNECT if and only if none of them was read together with the header |
| ProxyBytes.ConnectLosesBytes | agent/src/tunnel/main.cpp:137-157 | the same CONNECT and bytes, read in one piece or in two: all of the bytes are lost, or none |
| ProxyBytes.ConnectExample | agent/src/tunnel/main.cpp:201-212 | there is such a CONNECT |
| Net.Socket.Recv | agent/src/common/net.cpp:215-222 | moves the next bytes of the peer, at most 64 KiB, or fails |
| Net.SendAll | agent/src/common/net.cpp:198-213 | under any partial sends: everything, or a failure that leaves a proper prefix |
| Wire.Be32RoundTrip | agent/src/common/channel.cpp:180-190 | four big-endian bytes give back the number |
| Wire.EncodeThenFirst | agent/src/common/channel.cpp:174-225 | the first frame read from an encoded frame and anything behind it is that frame, and the rest is what was behind it |
| Wire.TruncatedIsIncomplete | agent/src/common/channel.cpp:198-225 | no proper prefix of a frame is a frame |
| Wire.FramesOfPrefix | agent/src/common/channel.cpp:174-225 | a frame stream cut anywhere gives exactly the frames that are whole in it, and uncut all of them |
| Wire.WireLayout | agent/src/common/channel.cpp:182-195 | a frame is its type, four bytes of the id and four of the length, both with the high byte first, and its payload |
| Channel.RecvExact | agent/src/common/channel.cpp:30-46 | under any partial reads: exactly the next bytes, or failure, and failure only if they are not all there or the kernel fails |
| Channel.RecvFrame | agent/src/common/protocol.cpp:60-88 | the first complete frame of acceptable length and the rest left over; given a kernel that does not fail, exactly when there is one |
| Channel.SendFrame | agent/src/common/protocol.cpp:36-58 | the encoded frame; nothing if it is oversized; a proper prefix if a write fails |
| Channel.RecvAll | agent/src/common/channel.cpp:198-225 | a reader gets the decoding of the bytes, or a prefix of it |
| Channel.SendFrames | agent/src/common/channel.cpp:174-196 | a sender writes the encodings, or a prefix of them |
| Channel.Transfer | agent/src/common/channel.cpp:174-246 | the reader gets a prefix of the frames sent, and all of them when no kernel fails |
| HttpText.SplitLines | agent/src/tunnel/main.cpp:113-128 | the loop computes the lines of the text |
| HttpText.LinesOfJoin | agent/src/tunnel/main.cpp:113-128 | splitting undoes joining, with the last CRLF or without |
| HttpText.JoinOfLines | agent/src/tunnel/main.cpp:113-128 | and joining undoes splitting, with a CRLF more if the text did not end in one |
| HttpText.LinesHaveNoCrlf | agent/src/tunnel/main.cpp:117-126 | no line of any text has a CRLF |
| HttpText.MarkerAtEnd | agent/src/tunnel/main.cpp:149-155 | in a header printed from its lines the first CRLFCRLF is exactly at the end, whatever follows |
| HttpHeader.ReadHttpHeader | agent/src/tunnel/main.cpp:137-163 | on success the header up to its first marker and all other bytes consumed, nothing more; when it succeeds is a function of where the header ends and how the kernel cuts |
| HttpHeader.EarlyEndSucceeds | agent/src/tunnel/main.cpp:137-163 | a header that ends within 64 KiB is read however it is cut |
| HttpHeader.LateEndFails | agent/src/tunnel/main.cpp:137-163 | one that ends after 69631 bytes never is |
| HttpHeader.ChunkingMattersOnlyInBetween | agent/src/tunnel/main.cpp:137-163 | the outcome is independent of the cuts exactly when the header ends outside that range |
| Text.TrimCopy | agent/src/tunnel/main.cpp:101-111 | the two index loops compute the trimmed text |
| Text.StoiOfDecimal | agent/src/common/net.cpp:259-270 | `std::stoi` reads what `std::to_string` prints |
| TextLaws.StoiOf | agent/src/common/net.cpp:259-270 | `std::stoi` on white space, a sign, digits and anything else: that number if it is an int, and nothing if it is not |
| TextLaws.StoiOfNothing | agent/src/common/net.cpp:259-270 | and nothing where there are no digits |
| TextLaws.ValueByPlace | agent/src/common/net.cpp:259-270 | digits count by their place |
| TextLaws.TrimOf | agent/src/tunnel/main.cpp:101-111 | trimming takes the white space off both ends and nothing else |
| TextLaws.SameInLower | agent/src/tunnel/main.cpp:94-99 | two texts are equal in lower case exactly when they have the same letters |
| TextLaws.StartsWith | agent/src/tunnel/main.cpp:130-135 | a text starts with a prefix in any case exactly when it has its letters |
| ProxyRequest.FindHostHeader | agent/src/tunnel/main.cpp:174-181 | the trimmed value of the first Host line |
| ProxyRequest.RewriteLines | agent/src/tunnel/main.cpp:238-258 | the loop writes the kept lines and notes whether there was a Host line |
| ProxyRequest.ParseProxyRequest | agent/src/tunnel/main.cpp:183-275 | the parser computes `Parse`, of which `ProxyAccept` has the verdicts and `ProxyRewrite` the bytes |
| ProxyAccept.AcceptedExactly | agent/src/tunnel/main.cpp:214-241 | a complete request with another method than CONNECT is passed on if and only if the text of its http URL up to the first slash is an endpoint, or, with neither scheme, the trimmed value of its first Host line is one, 80 being the default port |
| ProxyAccept.AbsoluteVerdict | agent/src/tunnel/main.cpp:216-228 | with an http URL: the endpoint it names, or the error if it names none |
| ProxyAccept.SecureVerdict | agent/src/tunnel/main.cpp:229-231 | with an https URL: always the error |
| ProxyAccept.OriginVerdict | agent/src/tunnel/main.cpp:232-241 | with any other target: the endpoint of the first Host line, or the error without one |
| ProxyAccept.ConnectVerdict | agent/src/tunnel/main.cpp:201-212 | CONNECT in any case of its letters: the endpoint of its target with 443 as the default port, or the error |
| ProxyAccept.IncompleteLine | agent/src/tunnel/main.cpp:191-199 | a request line with a word missing: the error |
| ProxyAccept.EmptyRequest | agent/src/tunnel/main.cpp:186-189 | no line at all: the error |
| ProxyAccept.WordsRead | agent/src/tunnel/main.cpp:191-195 | the words of a line written with any white space |
| ProxyAccept.HeaderRead | agent/src/tunnel/main.cpp:185 | the lines of a header as it is sent are those it was made of |
| ProxyAccept.FirstHost | agent/src/tunnel/main.cpp:174-181 | the trimmed value of the first line that says Host, in any case of its letters |
| ProxyAccept.LineByLine | agent/src/tunnel/main.cpp:246-264 | every line, wherever it stands, is dropped if it is empty or says Proxy-Connection, replaced by the endpoint if it says Host in an absolute-form request, and kept otherwise |
| ProxyRewrite.RouteIsRouted | agent/src/tunnel/main.cpp:215-240 | host, port and path are those of the URL's authority and rest, or of the Host line |
| ProxyRewrite.KeptIsFaithful | agent/src/tunnel/main.cpp:245-262 | the loop keeps the order of the lines, all lines that are neither empty nor Proxy-Connection nor Host, and each Host line or the endpoint in its place |
| ProxyRewrite.ThreeViewsDetermine | agent/src/tunnel/main.cpp:245-262 | ordinary lines, Host lines and their order together determine the lines |
| ProxyRewrite.RewriteKeepsMeaning | agent/src/tunnel/main.cpp:215-275 | the bytes to send are a header, whose first marker is its end, and the leftover; its request line has the old words with the normalised path; its lines are the old ones but for Proxy-Connection and Host |
| ProxyRewrite.RewriteAgain | agent/src/tunnel/main.cpp:183-275 | parsing the rewritten header gives the same host, port and bytes if and only if the host of an absolute-form request does not start with a bracket, or, where the request line itself passes for a Host line, that line names the same endpoint |
| ProxyRewrite.FirstLineAgain | agent/src/tunnel/main.cpp:242-243 | the new request line passes for a Host line exactly when the method starts with `host:` |
| ProxyRewrite.BracketIsLost | agent/src/tunnel/main.cpp:216-228 | any bare request whose host starts with a bracket is not read back |
| ProxyRewrite.DoubleBracket | agent/src/tunnel/main.cpp:216-228 | there is such a request |
| ProxyRewrite.HostOfRequest | agent/src/tunnel/main.cpp:201-240 | an accepted request has a host and a valid port, and no white space in the host of a CONNECT or absolute-form request |
| ProxyRewrite.AgentSeesTheTarget | agent/src/agent/main.cpp:66-83 | the agent reads the very pair the tunnel parsed exactly when the host has no line feed, always so for CONNECT and absolute-form, and allows it exactly when an allow entry parses to that pair |
| Endpoints.EndpointInjective | agent/src/common/net.cpp:279-281 | printing endpoints is injective |
| Endpoints.HostPortRoundTrip | agent/src/common/net.cpp:224-277 | `parse_host_port` reads a printed endpoint back if and only if the host is not empty and does not start with a bracket |
| Endpoints.OpenRoundTrip | agent/src/agent/main.cpp:66-83 | the OPEN payload is read back if and only if the host is not empty and has no line feed |
| Endpoints.ParsedHostPort | agent/src/common/net.cpp:224-277 | no accepted text gives an empty host, a port out of range or a character it does not have; `EndpointLaws.FormIsRead` has what each text gives |
| EndpointLaws.EveryTextHasAForm | agent/src/common/net.cpp:224-252 | every text is a host, a host and a port, a bracketed host with or without a port, a bracket with something else behind it, an unclosed one, or empty |
| EndpointLaws.FormIsRead | agent/src/common/net.cpp:224-277 | and is read by it: the host is the text before the last colon or in the brackets, the port the default or the number behind the colon if it is a port, and all other forms are refused |
| EndpointLaws.OpenPayloadIsRead | agent/src/agent/main.cpp:66-83 | the OPEN payload is the host up to the first line feed and the number behind it, if that is a port |
| EndpointLaws.OpenPayloadWithoutLf | agent/src/agent/main.cpp:66-70 | and nothing without a line feed |
| Endpoints.AllowlistIsMembership | agent/src/agent/main.cpp:276-281 | looking the printed endpoint up is membership of the pair among the parsed entries |
| Json.JsonEscape | agent/src/tunnel/main.cpp:332-364 | the loop computes the escaped text |
| Json.ReadEscaped | agent/src/tunnel/main.cpp:332-364 | a JSON reader gets any byte string back from its escaped form |
| Json.EscapeIsClosed | agent/src/tunnel/main.cpp:332-364 | no control byte and no unescaped quote in an escaped text |
| Json.PrintThenRead | agent/src/tunnel/main.cpp:366-384 | every value made of objects and strings is read back from its compact text |
| Json.PrintHasNoControl | agent/src/tunnel/main.cpp:366-384 | no control byte anywhere in such a text |
| Json.WriteMetadata | agent/src/tunnel/main.cpp:374-382 | the loop prints the members of the map |
| Json.MakeStatusPayload | agent/src/tunnel/main.cpp:366-384 | prints the object of agent, event and metadata |
| Json.MakeAuthPayload | agent/src/tunnel/main.cpp:477-497 | prints the object of agent, nonce, proof and metadata |
| Json.StatusReadBack | agent/src/tunnel/main.cpp:366-384 | a reader gets exactly these fields and the whole map, nothing twice |
| Json.AuthReadBack | agent/src/tunnel/main.cpp:477-497 | the same for the authentication request |
| ConfigFile.LoadConfigFile | agent/src/common/config.cpp:33-77 | the line loop: every value in order per key, or the first bad line with its number and the values before it |
| ConfigFile.ReadLine | agent/src/common/config.cpp:45-73 | one line: nothing, a setting, or which error |
| ConfigFile.LoadGivesCleanValues | agent/src/common/config.cpp:45-73 | no loaded value of any file has a comment character, a line feed or outer white space |
| ConfigLaws.LineWithEquals | agent/src/common/config.cpp:57-73 | a line with an equals sign: the trimmed text before the first one, in lower case, is the key and the trimmed text behind it the value; without a key it is an error |
| ConfigLaws.LineWithoutEquals | agent/src/common/config.cpp:57-63 | a line that is not blank and has none is an error |
| ConfigLaws.CommentIsCut | agent/src/common/config.cpp:47-50 | what starts with a comment character changes nothing |
| ConfigLaws.BlankLine | agent/src/common/config.cpp:52-55 | a blank line gives nothing |
| ConfigLaws.LinesAreRead | agent/src/common/config.cpp:42-46 | the lines of a file, whether or not its last has a line feed |
| ConfigLaws.BadFile | agent/src/common/config.cpp:57-72 | a file with a bad line is refused with the number and the kind of the first |
| ConfigLaws.LastValueWins | agent/src/common/config.cpp:79-85 | a file without one is loaded, and a key in any case of its letters has the last value given for it |
| ConfigLaws.AllValues | agent/src/common/config.cpp:87-93 | and all the values given for it in order |
| Enrollment.TextIsLines | webhook_ops/webhooks/agents.py:41-51 | the text is its lines joined, with the last value stripped at its end, with targets or without |
| Enrollment.TextRead | agent/src/common/config.cpp:33-77 | what loading the text of clean fields gives |
| Enrollment.ConfigRoundTrip | webhook_ops/webhooks/agents.py:41-51 | loading the text gives the tunnel, id, secret and targets in order if and only if no field has a comment character, a line feed or outer white space and the last does not end in what only Python strips |
| Enrollment.NormalizedAreTrimmed | webhook_ops/webhooks/agents.py:54-56 | normalised targets are not empty and need no trimming |
| EnrollmentLaws.TargetKept | webhook_ops/webhooks/agents.py:54-56 | every target is kept in its place without outer white space, unless there is nothing else to it |
| Enrollment.NormalizedRoundTrip | webhook_ops/webhooks/agents.py:41-56 | with normalised targets the text is read back as meant if and only if the other fields are clean and no target has a comment character or a line feed |
| Enrollment.NodeConfig.ApplyNodeConfig | agent/src/agent/main.cpp:440-486 | the settings and the verdict, whether it returns early or not |
| Enrollment.NodeConfig.AddAllow | agent/src/agent/main.cpp:461-468 | the loop over the allow entries |
| Enrollment.AllowedAreParsed | agent/src/agent/main.cpp:461-468 | it succeeds exactly when all entries parse, and then adds exactly their endpoints |
| EnrollmentLaws.AcceptedFiles | agent/src/agent/main.cpp:440-486 | a loaded file is accepted if and only if its tunnel endpoint, if it names one, and all its allow entries parse |
| EnrollmentLaws.AppliedSettings | agent/src/agent/main.cpp:440-486 | what each setting becomes: the file's value if it has one, secret before token, allow entries added, TLS on for any of its three settings |
| EnrollmentLaws.TlsApplied | agent/src/agent/main.cpp:470-482 | and nothing but the TLS settings is touched by them |
| Enrollment.EnrollmentConfigures | agent/src/agent/main.cpp:440-486 | the agent accepts its own enrollment text exactly when the endpoints parse, and then has that endpoint, id, secret and those targets |
| DeliveryRows.Rows.BeginDeliveryAttempt | webhook_ops/webhooks/delivery.py:76-100 | the rows afterwards and the attempt, in each of the three branches |
| DeliveryRows.Rows.FinalizePendingReplays | webhook_ops/webhooks/delivery.py:180-198 | every queued replay becomes completed, or failed with the error, and no other changes |
| DeliveryRows.Rows.FinalizeDeliveryAttempt | webhook_ops/webhooks/delivery.py:201-274 | the branches decided on the snapshot, in the rows' own fields: the attempt, the event's status and error, the replays, and after a retry a next attempt that is due when the countdown is over and not before |
| DeliveryRows.Rows.DeliverEvent | webhook_ops/webhooks/delivery.py:277-288 | begin, deliver and finalise in a row |
| DeliveryRows.Rows.RequestReplay | webhook_ops/webhooks/replay.py:16-45 | the event is due at once with its count at zero, one more replay is queued, and the attempts stay |
| Tasks.Worker.DeliverWebhookEvent | webhook_ops/webhooks/tasks.py:8-13 | one delivery, and one more task exactly when it says so |
| Tasks.Worker.EnqueueDueWebhookEvents | webhook_ops/webhooks/tasks.py:16-26 | one task for each of the first hundred due events |
| Tasks.DueIdsAreDue | webhook_ops/webhooks/tasks.py:18-23 | these are exactly the due ones |
| Tasks.DueIdsInOrder | webhook_ops/webhooks/tasks.py:18-23 | queued and failed events whose next attempt has come, in the order of the table, each as often as it is in it |
| Tasks.Worker.RunFailingChain | webhook_ops/webhooks/tasks.py:8-13 | a worker alone with a failing destination runs exactly the retry chain and stops |
| Delivery.DelaysGrow | webhook_ops/webhooks/delivery.py:36-37 | delays do not shrink and stay within five seconds and one hour, so none is taken for "no retry" |
| Delivery.DueFromNextAttempt | webhook_ops/webhooks/tasks.py:18-23 | an event is ever due exactly when it is queued or failed, and then from its next attempt on |
| DeliveryRuns.RetryBacksOff | webhook_ops/webhooks/delivery.py:257-261 | in any interleaving a save after a failure that is not the last leaves the event failed, not due for five seconds and due after an hour |
| DeliveryRuns.AloneIsDeliverOnce | webhook_ops/webhooks/delivery.py:277-288 | a task alone is a run of the interleaved steps with the effect of one delivery, and queues one more task exactly when it is to be retried |
| DeliveryRuns.StepKeepsInv | webhook_ops/webhooks/delivery.py:76-288 | every step of every task, replay and sweep keeps the invariant |
| DeliveryRuns.AttemptNumbering | webhook_ops/webhooks/delivery.py:76-100 | in every interleaving the count is the number of attempts begun since the last replay, which carry 1 to that count once each |
| DeliveryRuns.NoStrandedReplay | webhook_ops/webhooks/delivery.py:180-198 | a terminal event with a queued replay has a finaliser between its two writes; none is left when no task runs |
| DeliveryRuns.BoundedRetries | webhook_ops/webhooks/delivery.py:242-274 | without replays at most `max_attempts - 1` finalisations retry, and tasks are at most those from outside and as many |
| DeliveryRuns.AttemptBound | webhook_ops/webhooks/delivery.py:89-92 | without replays the count is at most the tasks from outside plus the retries `max_attempts` leaves |
| DeliveryRuns.AttemptBoundIsReached | webhook_ops/webhooks/delivery.py:76-100 | for every new event and every number of tasks from outside there is a run that reaches this bound |
| DeliveryRuns.ExceedsWithTwo | webhook_ops/webhooks/delivery.py:83-92 | some run passes `max_attempts` if and only if two tasks come from outside, or one when `max_attempts` is zero |
| DeliveryRuns.CountHasNoCeiling | webhook_ops/webhooks/delivery.py:83-92 | tasks from outside can push the count to any number |
| DeliveryRuns.DeliveredCanBeOverwritten | webhook_ops/webhooks/delivery.py:227-247 | a run in which a delivered event is dead-lettered |
| DeliveryRuns.DeliveredStays | webhook_ops/webhooks/delivery.py:83-84 | delivered is kept by every run without a replay when no task can still save a failure |
| DeliveryRuns.DeliveryUndone | webhook_ops/webhooks/delivery.py:227-261 | and at most three steps of a task that can undo it |
| DeliveryRuns.DeliveredIsFinal | webhook_ops/webhooks/delivery.py:227-261 | a reachable state is delivered for good if and only if it is delivered and no task has an attempt that is undecided or failed and not yet saved |
| DeliveryChain.ChainRuns | webhook_ops/webhooks/delivery.py:242-274 | a failing chain from any count on: attempts, numbers, delays, replays, end |
| DeliveryChain.ReplayStartsOver | webhook_ops/webhooks/replay.py:16-45 | a replayed event that keeps failing makes `max_attempts` new attempts numbered from one, leaves the old ones alone, and ends with every queued replay failed |
| DeliveryChain.SkippingCostsNothing | webhook_ops/webhooks/delivery.py:63-73 | an event skipped without a destination is due again at the same time and keeps all the attempts it had left |
| DeliveryChain.TotalDelay | webhook_ops/webhooks/delivery.py:36-37 | the closed form of the sum of the delays |
| DeliveryChain.AlwaysFailing | webhook_ops/webhooks/tasks.py:8-13 | exactly `max_attempts` attempts, then dead-lettered; countdowns never shrink, stay within bounds and add up to the closed form |
| Ingestion.KeyIsNeverEmpty | webhook_ops/webhooks/ingestion.py:39-69 | no delivery has an empty key, with the digest one of 64 hex characters; which field it is, `IngestionLaws` says provider by provider |
| Ingestion.KeyIsCaseBlind | webhook_ops/webhooks/ingestion.py:19-20 | the case of header names does not change the key |
| Ingestion.Store.IngestEvent | webhook_ops/webhooks/ingestion.py:72-130 | one undisturbed call: the row returned, the first with this source and key or a new one with the fields of the delivery, whether it is new, the whole new state, and that it is a run of the interleaved steps |
| Ingestion.StepKeepsInv | webhook_ops/webhooks/ingestion.py:107-130 | every step of every call keeps rows unique and the audit log in step with the calls |
| Ingestion.Idempotent | webhook_ops/webhooks/ingestion.py:107-130 | all calls with one source and key return one row, one of them created it unless it was there, and the log has one record per call |
| Ingestion.IngestOnlyAppends | webhook_ops/webhooks/ingestion.py:107-130 | no call changes a row that is there |
| Ingestion.CallsProgress | webhook_ops/webhooks/ingestion.py:107-130 | every step of a call brings the calls closer to their end |
| IngestionLaws.GitHubFields | webhook_ops/webhooks/ingestion.py:51-53 | the key is X-GitHub-Delivery or else the digest, the event type X-GitHub-Event |
| IngestionLaws.ShopifyFields | webhook_ops/webhooks/ingestion.py:54-56 | the key is X-Shopify-Webhook-Id or else the digest, the event type X-Shopify-Topic |
| IngestionLaws.StripeFields | webhook_ops/webhooks/ingestion.py:48-50 | the key is the payload's `id` or else the digest, the event type its `type` |
| IngestionLaws.SlackFields | webhook_ops/webhooks/ingestion.py:57-59 | the key is `event_id`, or else `trigger_id`, or else the digest, the event type `type` |
| IngestionLaws.GenericFields | webhook_ops/webhooks/ingestion.py:60-66 | the key is the first of three headers that is given, or else the digest, the event type X-Event-Type |
| IngestionLaws.HeaderIsLast | webhook_ops/webhooks/ingestion.py:17-36 | of several headers of one name, in any case of its letters, the last one counts |
| IngestionLaws.NewRow | webhook_ops/webhooks/ingestion.py:86-102 | a new row has the delivery's source and key, the provider's id unless there was none, and is queued exactly when its source has an active destination |
| IngestionLaws.OneEventEach | webhook_ops/webhooks/ingestion.py:104-130 | in every interleaving two finished calls have returned the same row if and only if they had the same source and the same key |
| IngestionLaws.TwoDeliveriesTwoEvents | webhook_ops/webhooks/ingestion.py:51-53 | so two GitHub deliveries with different delivery ids are two events, whatever else they share |

## Left out

- Sockets, TLS, DNS and OpenSSL: the kernel is a script of transfer sizes and failures, and a failed direction stays failed.
- HELLO, authentication, heartbeats and reconnecting: a run is one session after it is up; frames of the control stream and a dead session's threads meeting the next session's channel are not in it.
- Which session a handler selects, the registry of sessions and its removal by id: one session is modelled, others only take ids.
- Wrap-around of the 32-bit stream counter: runs stop before it.
- Memory-level data races on the agent's `channel_` pointer.
- The tunnel's own text to the client (status lines of 400, 502 and 503 and the answer to CONNECT): not part of the byte sequences, since it can race with relayed data.
- The agent's text for unsupported frames: the tunnel never sends one.
- Mux.Reachable: runs with a handler's wait ending at any time, not only after ten seconds; every real run is one of them.
- The agent's `session_loop` as a loop of its own: its dispatch is a step of `Mux` and its handlers are methods of `AgentSide.Agent`.
- AgentSide.Agent.TargetReader: one thread alone, on a session that is connected when it begins; what other threads do in between is covered by the steps of `Streams`.
- ProxyHandler.HandleProxyClient: one thread alone, with the state of the stream at the end of the wait as a parameter; its interleavings are those of the handler steps of `Streams`.
- Channel.RecvFrame: the framing over a `Channel` and the one over a raw socket differ only in what is below them and are modelled once.
- Requests with so many Host lines that the rewritten header exceeds the frame limit: `SendFrame` refuses them; nothing more is said.
- JSON texts other than objects and strings: the printers write no others.
- ConfigFile.LoadConfigFile: loads into a new object, as all callers do.
- Enrollment: the `--config` and other command-line options, and the enrollment's `command` text.
- Signature checking, forwarded headers, truncation of response bodies, agent status records and the delivery requests themselves: one-branch facts.
- Django's ORM, admin, views, serializers and migrations; worker crashes; edits of rows by hand; overflow of the small integer columns.
- DeliveryRuns.BoundedRetries: stated for runs without replays; a replay starts a new epoch with a fresh allowance.
- Ingestion.Idempotent: columns other than source, key, provider id, type and status are not modelled; rows are never deleted; an insert and its audit record are one step, as their transaction and the unique constraint make them.
- Hash functions: the digest of a body is a parameter, of the form SHA-256 gives it in hex.
- The 255 characters an `idempotency_key` column holds: keys are of any length here.
