# Verified model of the fcitx5-scribe session protocol

fcitx5-scribe lets a separate transcriber process type text into the focused input context. This
project models the three layers that make that safe, and proves what each keeps and what they keep
together. Every claim is about all inputs, all runs and all interleavings of the modelled steps.

| file | what it holds |
|---|---|
| `Protocol.dfy` | bytes, session ids, errors, envelopes |
| `SessionMachine.dfy` | the session engine as a compact machine: `Disconnected`, `Connecting(pending?)`, `Ready(session?)` |
| `SessionEngine.dfy` | class `Engine` with the original's optional fields and defensive checks, proved to follow that machine |
| `EngineRuns.dfy` | whole runs of the engine: invariant, provenance of every commit, session texts, fencing, outbound grammar |
| `EngineAnswers.dfy` | what the engine owes to its inputs: each effect exactly when it is due, and configuration, stage, focus, requests and starts from the history of events |
| `Transcriber.dfy`, `TranscriberRuns.dfy` | class `TranscriberConnection`, the transcriber's side of one connection, and what it accepts from any peer |
| `Wire.dfy`, `WireSafety.dfy` | engine, transcriber and the two channels between them, with messages crossing in flight and the connection breaking at any time |
| `Framing.dfy` | length-prefixed frames, both directions, over a stream that arrives in arbitrary pieces |
| `Transport.dfy`, `TransportRuns.dfy` | class `SharedState`, the transport actor with its flags, generations and coroutines, and its whole runs; class `Io`, the command channel |
| `Adapter.dfy`, `RegistryRuns.dfy` | class `Addon`: the registry of input contexts and the dispatch loop; what the registry holds after any sequence of changes |
| `Link.dfy`, `LinkSafety.dfy` | dispatches, queued commands, transport and queued notices together |

How to read the claims:

- A class method is proved against a function of its abstract state (`Next`, `Perform`, `Shut`,
  `OnEnvelope`, `Dispatched`, ...). The lemmas about those functions then hold of the class.
- What these functions answer is told a second time without them, from the history of inputs and
  in both directions: `EngineAnswers` (which effects, who waits, when a session starts),
  `TranscriberRuns` (which faults), `TransportRuns` (which frames and notices), `RegistryRuns`
  (which ids) and `Adapter.DispatchExactly` (what is typed, queued and accepted).
- `SessionMachine` cannot express contradictory fields and contains none of the engine's defensive
  checks. Since `Engine.Handle` follows it from every valid state, and every state an `Engine` can
  reach is valid, those checks never fire: no commit meets a dead or unfocused context, no start
  fails its focus guard, no session is interrupted without a ready connection.
- Session ids come from a generator whose answer is a parameter of each event. Claims that need
  distinct ids say so: `NeverRepeats` for the engine, `Wire.Enabled` for one connection (the
  assumption stated at `src/addon/protocol.hpp:118-120`).
- `Wire` starts when the connection is authenticated and earlier notices are delivered. It goes on
  after the engine leaves that connection, so late messages may still meet later sessions.
- `Link` lets notices of retired connections reach the engine during a newer attempt, because the
  original's events carry no generation. `Link.Fits` holds its assumptions: the 128 command slots
  are not exhausted and payloads fit a frame.

Where the code and its documentation differ, the model follows the code:

- `docs/protocol.md:12-14` gives 1 to 65536 bytes as the payload size. `encodeFrame` also lets an
  empty payload out, which every receiver rejects (`SenderAndReceiverAgree`).
- `docs/protocol.md:123-125` describes interruptions with the connection already gone. The engine
  has a session only while it is ready, so it always emits the envelope; a connection lost in the
  meantime shows up as a failed send.
- A stream that ends inside a length header is reported like a clean close
  (`src/addon/io.cpp:187-194`), although `docs/protocol.md:150-159` treats malformed framing as a
  failure.

## Model

| member | source | states |
|---|---|---|
| SessionEngine.Engine.constructor | src/addon/engine.cpp:30-31 | a new engine is valid and in the initial machine state |
| SessionEngine.Engine.Handle | src/addon/engine.cpp:33-72 | for each of the 11 events, the optional-field engine makes the compact machine's step, with the same effects in the same order, and stays valid |
| SessionEngine.Engine.HandleConfigured | src/addon/engine.cpp:84-106 | any connection is given up with one Disconnect before the new configuration result replaces the old one |
| SessionEngine.Engine.HandleToggle | src/addon/engine.cpp:110-163 | follows the machine: ends a session, withdraws a request, refuses without focus or configuration, or waits and connects or starts |
| SessionEngine.Engine.HandleFocusIn | src/addon/engine.cpp:165-178 | a request or session of another context does not survive the focus change |
| SessionEngine.Engine.HandleFocusOut | src/addon/engine.cpp:180-194 | a context losing focus takes its request or session with it |
| SessionEngine.Engine.HandleContextDestroyed | src/addon/engine.cpp:196-212 | a dead context takes its request or session with it and is no longer alive |
| SessionEngine.Engine.HandleAuthenticated | src/addon/engine.cpp:214-224 | an unexpected authentication is answered with Disconnect; an expected one promotes the waiting context |
| SessionEngine.Engine.HandleClosed | src/addon/engine.cpp:226-243 | an idle close is quiet, a disconnected engine ignores it, anything else is aborted with a log |
| SessionEngine.Engine.HandleFailed | src/addon/engine.cpp:245-251 | a failure is logged and always leaves the engine disconnected |
| SessionEngine.Engine.AbortInteraction | src/addon/engine.cpp:293-302 | connection, request and session are dropped; only a failure is logged |
| SessionEngine.Engine.InterruptSessionFor | src/addon/engine.cpp:304-326 | from any fields at all: the session ends, and an envelope with its id and reason is sent exactly when the connection is ready |
| SessionEngine.Engine.TryStartPending | src/addon/engine.cpp:328-362 | from any fields at all: a session starts exactly for a waiting, alive, focused context on a ready connection with a generated id |
| SessionEngine.Engine.HandleCommitText | src/addon/engine.cpp:364-400 | follows the machine from valid states, and from all others never commits to a dead or unfocused context but ends the session with the matching reason |
| SessionEngine.Engine.HandleVadTimeout | src/addon/engine.cpp:402-414 | only the active session's id, byte for byte, ends it; nothing is sent back |
| SessionEngine.Engine.HandleErrorEnvelope | src/addon/engine.cpp:416-428 | only the active session's id, byte for byte, ends it; nothing is sent back |
| EngineRuns.InvariantKept | src/addon/engine.cpp:84-251 | joint invariant, step: whatever waits or transcribes is alive and focused, the focused context is alive, leaving Disconnected needs a configuration |
| EngineRuns.InvariantHolds | src/addon/engine.cpp:84-251 | the joint invariant holds at every moment of every run |
| EngineRuns.NumberWraps | src/addon/engine.cpp:399 | the i-th text of a session is numbered i + 1 modulo 2^64 |
| EngineRuns.SessionNamesItsOrigin | src/addon/engine.cpp:330-362 | from an active session the focused toggle and the StartSession it goes back to can be found, with nothing since that ends it |
| EngineRuns.SessionLasts | src/addon/engine.cpp:110-251 | a session opened by a focused toggle is still active, in that context, until one of the ending events occurs |
| EngineRuns.SessionExactly | src/addon/engine.cpp:110-251 | both directions: which session is active, for which context, expecting which number, is determined by the inputs in exactly that way |
| EngineRuns.CommitExactly | src/addon/engine.cpp:367-400 | commit provenance, both directions: text reaches a context exactly when it is the next message of a session opened by a focused toggle of that context and not ended since |
| EngineRuns.SessionNumbersInOrder | src/addon/engine.cpp:375-383 | for any stream of messages, those that kept the session alive were numbered 1, 2, 3, ... without gap or repeat |
| EngineRuns.SessionCommitsItsTexts | src/addon/engine.cpp:348-400 | while a session lasts, everything committed is its own texts, all of them, once each, in arrival order, to its own context |
| EngineRuns.EndedSessionStaysEnded | src/addon/engine.cpp:340-352 | with a generator that never repeats, an ended session is never active again |
| EngineRuns.EndedSessionsAreFenced | src/addon/engine.cpp:367-373 | a commit, timeout or error carrying the id of an ended session changes nothing and is only logged at debug level |
| EngineRuns.OneEnvelopePerStep | src/addon/engine.cpp:304-362 | each event sends at most one envelope: a local ending exactly one Interrupt with the right id and reason, a new session exactly one Start, anything else nothing |
| EngineRuns.OutboundGrammar | src/addon/engine.cpp:304-362 | in every run the envelopes form (Start(i) Interrupt(i)?)*, and an active session is the last Start |
| EngineAnswers.EffectsExactly | src/addon/engine.cpp:84-428 | effect by effect rather than event by event: each key acceptance, Connect, Disconnect, envelope, commit and log line occurs exactly when it is due, for every state and event |
| EngineAnswers.EffectsOnce | src/addon/engine.cpp:84-428 | no event has the same effect twice |
| EngineAnswers.RequestGranted | src/addon/engine.cpp:145-162 | a focused toggle with a usable configuration is accepted: it asks for a connection when there is none, waits while one is opening, and starts its session at once on a ready one |
| EngineAnswers.SecondToggleWithdraws | src/addon/engine.cpp:125-129 | toggling a waiting context again withdraws its request and nothing else |
| EngineAnswers.RequestRefused | src/addon/engine.cpp:135-143 | a request is refused, with the configuration's error as the one log line, exactly when no usable configuration is loaded |
| EngineAnswers.WaitingExactly | src/addon/engine.cpp:110-251 | who waits after any event: the newest request, or the old one unless withdrawn or served |
| EngineAnswers.StartingExactly | src/addon/engine.cpp:330-362 | a session starts exactly when a context is due to start and an id was generated, for that context, with that id, expecting number 1 |
| EngineAnswers.HistoryExactly | src/addon/engine.cpp:84-251 | configuration, connection stage, focus and living contexts at every moment of every run, told from the events alone |
| EngineAnswers.AnswersExactly | src/addon/engine.cpp:84-163 | over runs: Connect exactly for a focused toggle while down and configured, Disconnect exactly for a reconfiguration while not down and an authentication nobody waits for, and a request accepted exactly when the last configuration was usable |
| EngineAnswers.RequestKept | src/addon/engine.cpp:110-251 | a request that had to wait is still waiting until it is withdrawn or the connection is authenticated |
| EngineAnswers.RequestsExactly | src/addon/engine.cpp:110-251 | both directions: which context waits at every moment, in terms of the inputs so far |
| EngineAnswers.RequestServed | src/addon/engine.cpp:214-224 | no request is lost: one still standing when the connection is authenticated gets its session, and the transcriber its StartSession |
| EngineAnswers.StartsExactly | src/addon/engine.cpp:330-362 | when a session starts, both directions: a standing request meets the authentication, or a focused toggle meets a ready connection without a session, and an id is generated |
| Transcriber.TranscriberConnection.HandleEnvelope | tools/poc_transcriber.py:196-212 | one turn of the read loop: the session after it, or the fault that ends the connection and clears the session |
| Transcriber.TranscriberConnection.HandleStart | tools/poc_transcriber.py:226-235 | only a 16-byte id with no active session starts one, numbered from 1 |
| Transcriber.TranscriberConnection.HandleInterrupt | tools/poc_transcriber.py:237-246 | clears exactly the named session, ignores others, and needs a reason only for the active one |
| Transcriber.TranscriberConnection.RunSession | tools/poc_transcriber.py:248-296 | a wake-up speaks only for a session still active, with the next number, or ends it with its one farewell |
| TranscriberRuns.SessionTracked | tools/poc_transcriber.py:226-311 | for any stream of envelopes, texts and endings: the session held is the one last started and not stopped, its number one more than the texts it has spoken |
| TranscriberRuns.FaultExactly | tools/poc_transcriber.py:196-246 | each ValueError is raised exactly by the envelope that deserves it, told from the turns before it |
| TranscriberRuns.SurvivesExactly | tools/poc_transcriber.py:196-246 | a peer keeps its connection exactly as long as no envelope deserves a fault |
| WireSafety.NextTextIsExpected | src/addon/engine.cpp:375-383 | the texts in flight for the engine's session are numbered consecutively from the number it expects |
| WireSafety.StepKeepsOk | tools/poc_transcriber.py:226-311 | the invariant relating both channels to both ends survives every step: engine events, deliveries either way, texts, endings, lost peer, broken connection |
| WireSafety.TranscriberNeverFaults | tools/poc_transcriber.py:196-246 | server safety: in every run no StartSession arrives while a session is active and no ValueError is ever reached |
| WireSafety.CommittedIsPrefixOfEmitted | src/addon/engine.cpp:367-400 | exactly once, in order: for every session id and at every moment the committed texts are a prefix of those the transcriber emitted |
| WireSafety.NoSequenceMismatch | src/addon/engine.cpp:375-383 | the engine never sees a sequence mismatch from this transcriber: a text for its session is committed at once |
| WireSafety.QuiescentAgreement | src/addon/engine.cpp:304-326 | while the connection lasts and nothing is in flight, both sides are in the same session or in none, and every emitted text is committed |
| WireSafety.OnlyForwardedPayloads | src/addon/io.cpp:228-244 | the transcriber never sends a payload that the read loop would reject |
| WireSafety.FarewellIsUnderstood | src/addon/engine.cpp:402-428 | the transcriber's last word reaches the log as what it was, silence or this very error, and ends the session |
| Framing.EncodeFrame | src/addon/protocol.cpp:63-80 | payloads above 65536 bytes are refused, all others become a big-endian header followed by the payload |
| Framing.WriteEnvelope | tools/poc_transcriber.py:114-120 | the transcriber writes exactly the payloads of 1 to 65536 bytes, and each reads back as itself |
| Framing.HeaderRoundTrip | src/addon/protocol.cpp:70-72 | every 32-bit size is recovered from its four big-endian bytes |
| Framing.SizeRoundTrip | src/addon/io.cpp:201-203 | every four bytes are recovered from the 32-bit size they denote |
| Framing.HeadersAreBigEndian | src/addon/protocol.cpp:70-72 | the header of a size is the one 4-byte string whose big-endian value it is, and headers are read that way |
| Framing.FramesAreReadBack | src/addon/io.cpp:182-220 | round trip: any list of sendable payloads, framed and concatenated, is read back as that list, whatever follows |
| Framing.AcceptedReencodes | src/addon/io.cpp:182-220 | every stream is the encoding of what was accepted from it, plus a rest that holds no whole frame |
| Framing.SenderAndReceiverAgree | src/addon/protocol.cpp:63-80 | of the payloads encodeFrame lets out, exactly those of 1 to 65536 bytes are received; the empty one is rejected as an invalid size |
| Framing.CutFrameYieldsNothing | src/addon/io.cpp:187-220 | a frame cut inside its header ends the stream quietly, one cut inside its payload is a failure |
| Framing.ByteStream.ReadExactly | src/addon/io.cpp:187-189 | collects exactly n bytes across any number of pieces and leaves the rest, or reports the end of the stream |
| Framing.ByteStream.ReadFrames | tools/poc_transcriber.py:100-111 | however the stream is chunked, the loop yields the payloads and the ending of the whole stream |
| Transport.SharedState.constructor | src/addon/io.cpp:63-68 | the actor starts cold: no connection, generation 0, nothing published |
| Transport.SharedState.RunOnce | src/addon/io.cpp:70-90 | commands are obeyed in the order they were queued |
| Transport.SharedState.HandleConnect | src/addon/io.cpp:92-106 | a connect starts the next generation when idle and is ignored otherwise |
| Transport.SharedState.HandleDisconnect | src/addon/io.cpp:108-110 | an authenticated connection closes with one Closed, a handshake silently, an idle actor not at all |
| Transport.SharedState.HandleSend | src/addon/io.cpp:112-130 | an open connection accepts the frame behind the others, and a non-empty queue has exactly one live writer; otherwise the frame is dropped |
| Transport.SharedState.FinishHandshake | src/addon/io.cpp:134-178 | success publishes Authenticated once and starts the reader, failure publishes one failure |
| Transport.SharedState.ReaderLoopHead | src/addon/io.cpp:182-184 | the reader goes on exactly while its generation is the active one and the socket is open |
| Transport.SharedState.FinishHeader | src/addon/io.cpp:187-211 | sizes 1 to 65536 are read on, others end the connection as a protocol violation, end of stream as a plain close |
| Transport.SharedState.FinishPayload | src/addon/io.cpp:211-244 | the three session messages are published in order, anything else ends the connection with one failure |
| Transport.SharedState.WriterLoopHead | src/addon/io.cpp:250-253 | the writer goes on exactly while its generation is active, the socket open and the queue non-empty |
| Transport.SharedState.FinishWrite | src/addon/io.cpp:255-270 | the frame written is the next accepted one, frames written followed by frames queued stay the frames accepted, and the writer stops only on an empty queue |
| Transport.SharedState.CloseConnection | src/addon/io.cpp:272-304 | one terminal notice at most, everything reset, the generation retired; closing again changes nothing |
| Transport.Io.Connect | src/addon/io.cpp:584-594 | queued behind all other commands, or an error exactly when all 128 slots are taken |
| Transport.Io.Disconnect | src/addon/io.cpp:596-605 | queued behind all other commands exactly when a slot is free |
| Transport.Io.Send | src/addon/io.cpp:607-629 | queued as one frame exactly when authenticated, not too large and a slot is free; otherwise the matching error |
| TransportRuns.TerminalEventExactlyOnce | src/addon/io.cpp:272-304 | each attempt is silent, or fails once, or is authenticated once and, after any messages, ends with exactly one Closed or Failed and is not heard of again |
| TransportRuns.ClosingRetires | src/addon/io.cpp:97-136 | an active connection has the counter's generation, and closing it moves the active generation past it |
| TransportRuns.RetiredGenerationsStayRetired | src/addon/io.cpp:183-251 | a retired generation is never active again, so it never passes a loop guard again |
| TransportRuns.StageExactly | src/addon/io.cpp:92-110 | down, opening or up, and the number of attempts so far, told from the steps alone: which connect starts an attempt and which is ignored |
| TransportRuns.FramesExactly | src/addon/io.cpp:112-130 | an open connection has accepted exactly the frames sent since it was authenticated, all, once each, in order, and written as many of them as writes completed; without one a send changes nothing |
| TransportRuns.ToldExactly | src/addon/io.cpp:182-304 | what is published about an attempt is exactly its authentication, the messages read, word for word and in order, and its ending with its own error |
| TransportRuns.PeerReadsWhatWasSent | src/addon/io.cpp:248-270 | end to end over runs: with the outgoing bytes cut anywhere, the peer has read the first payloads sent since the authentication, as many as were written, in the order sent |
| TransportRuns.PeerReadsWhatWasWritten | src/addon/io.cpp:248-270 | of one state: with the outgoing bytes cut anywhere, the peer has read exactly the payloads written, in the order accepted |
| Adapter.RegisteringKeepsCoherence | src/addon/addon.cpp:151-164 | a new pointer gets an id not in use and both map directions still agree |
| Adapter.ErasingKeepsCoherence | src/addon/addon.cpp:175-187 | both directions and the reference of one id disappear together |
| Adapter.OneAction | src/addon/engine.cpp:84-251 | an event has at most one effect that can fail or queue something; a destroyed context only a send, a failure none |
| Adapter.FollowUpsAreSmaller | src/addon/addon.cpp:208-256 | whichever action fails, one event queues at most one other, of a lower rank |
| Adapter.DispatchTerminates | src/addon/addon.cpp:189-206 | the worklist handles at most three events |
| Adapter.ThreeRounds | src/addon/addon.cpp:239-256 | three is exact: a text for a vanished input context on a lost connection takes commit, destroyed, failed |
| Adapter.FailureDisconnects | src/addon/addon.cpp:222-243 | if any connect or send failed, the engine ends disconnected with no request and no session |
| Adapter.CommitTargetIsRegistered | src/addon/addon.cpp:245-249 | every commit targets a registered id, so the unknown-id return is never taken |
| Adapter.DispatchKeepsStep | src/addon/addon.cpp:120-131 | after a dispatch the registered ids are exactly the contexts the engine holds alive, but for one destroyed from outside, which the registry drops next |
| Adapter.DispatchExactly | src/addon/addon.cpp:189-267 | a whole dispatch: the text typed and where, key acceptance, the one command with its frame or configuration, the context forgotten, whether something failed, the exact number of events handled, and the engine afterwards |
| Adapter.TextArrives | src/addon/addon.cpp:245-256 | the text of the active session is typed into its own input context if that still exists, and nowhere otherwise |
| RegistryRuns.RegistryExactly | src/addon/addon.cpp:151-187 | after any registrations and erasures, an id stands for a pointer and an object exactly when it was handed out for them and not erased since |
| RegistryRuns.IdsGrow | src/addon/addon.cpp:151-164 | ids are handed out in increasing order, so never twice, even for a reused pointer |
| Adapter.Addon.constructor | src/addon/addon.cpp:24-48 | a new addon has an empty, coherent registry and an engine in its initial state |
| Adapter.Addon.EnsureContextId | src/addon/addon.cpp:151-164 | a known pointer keeps its id; a new one gets an id never issued before, even if the pointer was |
| Adapter.Addon.FindContextId | src/addon/addon.cpp:166-173 | the id of a registered pointer, none for another |
| Adapter.Addon.EraseContext | src/addon/addon.cpp:175-187 | both directions and the weak reference are removed, or nothing when the id is unknown |
| Adapter.Addon.ApplyEffect | src/addon/addon.cpp:208-267 | one effect: a text is typed into the input context it is for, what fails at once is queued as an event, a dead weak reference is erased and reported |
| Adapter.Addon.Dispatch | src/addon/addon.cpp:189-206 | terminates within three events; what is typed, which command is queued and whether the key is accepted is what the event owes; a failure leaves the engine disconnected |
| Adapter.Addon.DispatchSteadily | src/addon/addon.cpp:28-46 | a dispatch of any transport notice or registered focus change leaves registry and engine in step |
| Adapter.Addon.HandleKey | src/addon/addon.cpp:84-104 | releases, other keys and missing contexts do nothing; the toggle key is dispatched for the context's id and swallowed exactly when it ends a session, withdraws that context's request or, with focus, meets a usable configuration |
| Adapter.Addon.HandleFocusIn | src/addon/addon.cpp:106-111 | the context is registered if new and its focus dispatched; the addon stays valid |
| Adapter.Addon.HandleFocusOut | src/addon/addon.cpp:113-118 | the context is registered if new and its loss of focus dispatched; the addon stays valid |
| Adapter.Addon.HandleDestroyed | src/addon/addon.cpp:120-131 | a known context is forgotten by engine and registry both, an unknown one ignored |
| Adapter.Addon.ReloadResolvedConfig | src/addon/addon.cpp:133-149 | the newly resolved configuration or its error is dispatched |
| LinkSafety.DispatchIsLinked | src/addon/addon.cpp:189-243 | what a whole dispatch may do to the connection: at most one command, a request for every move to Connecting, a Disconnect for every unexpected authentication and for leaving Ready while connected |
| LinkSafety.StepKeepsOk | src/addon/io.cpp:92-110 | the invariant between engine, commands, transport and notices survives every step |
| LinkSafety.NoWedgedConnect | src/addon/engine.cpp:145-162 | a connecting engine always has a Connect queued, a handshake running, or a notice coming that moves it on, even when a Connect was ignored |
| LinkSafety.NoOrphanedConnection | src/addon/engine.cpp:214-219 | a connection the engine is not ready for is either still to be announced to it or has a Disconnect queued |
| LinkSafety.NoPhantomReadiness | src/addon/io.cpp:286-303 | an engine that is ready without a connection has a terminal notice coming |
| LinkSafety.AuthenticatedOnlyWhenNotReady | src/addon/engine.cpp:214-219 | stale notices included, an authentication never reaches an engine that is already ready |
| LinkSafety.RestingAgreement | src/addon/engine.cpp:214-251 | with nothing queued and no handshake, the engine is ready exactly when the transport is authenticated, and disconnected otherwise |

## Left out

- Transport.SharedState.CloseConnection: takes the coroutines suspended on the closed connection as ended; the original lets them resume with an error, and a resumption in the middle of a loop body is not fenced by the generation check at the loop head (`src/addon/io.cpp:183`, `src/addon/io.cpp:251`).
- Transport.SharedState.FinishHandshake: the hello exchange, its timeouts and the proof check are one step that succeeds or fails.
- Transport.SharedState.HandleConnect: generation counters are unbounded integers, not `uint64_t`.
- Transcriber.TranscriberConnection.RunSession: writing a message and then counting it or clearing the session is one step, and texts are parameters instead of elapsed seconds; a task whose session was replaced by another with the same id is not described.
- Adapter.Addon.HandleKey: like the focus handlers, needs an unused context id, so it does not model the 64-bit id counter wrapping around after 2^64 contexts.
- Adapter.Addon.ApplyEffect: committing text does not call back into the addon, and the connection state is read once per dispatch.
- LinkSafety.NoOrphanedConnection: like the other claims about `Link`, assumes free command slots and payloads that fit a frame; a command dropped for lack of a slot is only logged by the original.
- Protobuf serialization, HMAC, random bytes and UUID formatting: library code; the encoder is a parameter of each dispatch, session ids are parameters of each event.
- Configuration files, environment overrides and path expansion: the resolved result is a parameter.
- Shutdown of the transport thread, sockets, timers and threads: represented only by which step comes next.
- Server-side claims across several connections: stated per connection.
- Key matching, log wording and the input method framework's callbacks.
