/**
 The session engine as a compact machine. A connection is disconnected, connecting (with at
 most one context waiting) or ready (with at most one session): the optional fields of the
 real engine cannot contradict each other here, and none of its defensive checks appear.
 SessionEngine proves that the field-by-field engine follows this machine.
 */
module SessionMachine {
  import opened Protocol

  type ContextId = U64

  /** Not loaded, loaded, or the error explaining why no connection can be opened. */
  datatype ConfigResult = NotLoaded | Loaded(config: ConnectionConfig) | Rejected(error: Error)

  datatype Event =
    | ConnectionConfigured(result: ConfigResult)
    | Toggle(context: ContextId, focused: bool)
    | FocusIn(context: ContextId)
    | FocusOut(context: ContextId)
    | ContextDestroyed(context: ContextId)
    | ConnectionAuthenticated
    | ConnectionClosed
    | ConnectionFailed(error: Error)
    | ConnectionCommitText(sessionId: Bytes, sequenceNo: U64, text: string)
    | ConnectionVadTimeout(sessionId: Bytes)
    | ConnectionErrorMessage(sessionId: Bytes, code: ErrorCode, message: string)

  /** The payloads the read loop hands on; any other fails the connection. */
  predicate IsForwarded(envelope: Envelope) {
    envelope.CommitTextMessage? || envelope.VadTimeoutMessage? || envelope.ErrorMessage?
  }

  /** The event a forwarded payload becomes. */
  function EventOf(envelope: Envelope): Event
    requires IsForwarded(envelope)
  {
    match envelope
    case CommitTextMessage(id, n, text) => ConnectionCommitText(id, n, text)
    case VadTimeoutMessage(id) => ConnectionVadTimeout(id)
    case ErrorMessage(id, code, message) => ConnectionErrorMessage(id, code, message)
  }

  datatype LogLevel = Debug | Info

  /** What a log line says, without its wording. */
  datatype LogNote =
    | Unconfigured
    | Misconfigured(error: Error)
    | Ready
    | Closed
    | TransportFailed(error: Error)
    | Interrupted(why: string)
    | Started(id: SessionId)
    | CannotStart(error: Error)
    | UnexpectedSequence(received: U64, expected: U64)
    | InactiveSession(message: string)
    | TimedOut(id: SessionId)
    | TranscriberError(id: SessionId, code: ErrorCode, message: string)

  datatype Effect =
    | AcceptKey
    | Connect
    | Disconnect
    | SendEnvelope(envelope: Envelope)
    | CommitText(context: ContextId, text: string)
    | Log(level: LogLevel, note: LogNote)

  datatype Session = Session(context: ContextId, id: SessionId, nextSequenceNo: U64)

  datatype Phase =
    | Disconnected
    | Connecting(pending: Option<ContextId>)
    | Ready(session: Option<Session>)

  /** contexts maps every context ever mentioned to whether it is alive. */
  datatype Machine = Machine(config: ConfigResult,
                             focused: Option<ContextId>,
                             contexts: map<ContextId, bool>,
                             phase: Phase)

  datatype Outcome = Outcome(machine: Machine, effects: seq<Effect>)

  const INITIAL := Machine(NotLoaded, None, map[], Disconnected)

  predicate Alive(m: Machine, c: ContextId) {
    c in m.contexts && m.contexts[c]
  }

  predicate CanCommit(m: Machine, c: ContextId) {
    Alive(m, c) && m.focused == Some(c)
  }

  /** A waiting or transcribing context is alive and focused; leaving Disconnected takes a config. */
  ghost predicate Inv(m: Machine) {
    && (m.focused.Some? ==> Alive(m, m.focused.value))
    && (m.phase.Connecting? && m.phase.pending.Some? ==> CanCommit(m, m.phase.pending.value))
    && (m.phase.Ready? && m.phase.session.Some? ==> CanCommit(m, m.phase.session.value.context))
    && (!m.phase.Disconnected? ==> m.config.Loaded?)
  }

  /** The active session, if any. */
  function Current(m: Machine): Option<Session> {
    if m.phase.Ready? then m.phase.session else None
  }

  /** The context waiting for the connection, if any. */
  function Waiting(m: Machine): Option<ContextId> {
    if m.phase.Connecting? then m.phase.pending else None
  }

  function Interrupt(m: Machine, s: Session, reason: InterruptReason, why: string): Outcome {
    Outcome(m.(phase := Phase.Ready(None)),
            [SendEnvelope(InterruptSession(s.id, reason)), Log(Info, Interrupted(why))])
  }

  function Start(m: Machine, c: ContextId, generated: Result<SessionId>): Outcome {
    match generated
    case Ok(id) =>
      Outcome(m.(phase := Phase.Ready(Some(Session(c, id, 1)))),
              [SendEnvelope(StartSession(id)), Log(Info, Started(id))])
    case Err(error) =>
      Outcome(m.(phase := Phase.Ready(None)), [Log(Info, CannotStart(error))])
  }

  function Prepend(effects: seq<Effect>, rest: Outcome): Outcome {
    Outcome(rest.machine, effects + rest.effects)
  }

  function Append(rest: Outcome, effects: seq<Effect>): Outcome {
    Outcome(rest.machine, rest.effects + effects)
  }

  function OnConfigured(m: Machine, result: ConfigResult): Outcome {
    Outcome(m.(config := result, phase := Disconnected),
            if m.phase.Disconnected? then [] else [Disconnect])
  }

  function OnToggle(m: Machine, c: ContextId, focused: bool, generated: Result<SessionId>): Outcome {
    var m := m.(contexts := m.contexts[c := true],
                focused := if focused then Some(c) else if m.focused == Some(c) then None else m.focused);
    if Current(m).Some? then
      Append(Interrupt(m, Current(m).value, ByToggle, "toggle"), [AcceptKey])
    else if Waiting(m) == Some(c) then
      Outcome(m.(phase := Connecting(None)), [AcceptKey])
    else if !focused then
      Outcome(m, [])
    else if !m.config.Loaded? then
      Outcome(m, [Log(Info, if m.config.Rejected? then Misconfigured(m.config.error) else Unconfigured)])
    else
      match m.phase
      case Disconnected => Outcome(m.(phase := Connecting(Some(c))), [AcceptKey, Connect])
      case Connecting(_) => Outcome(m.(phase := Connecting(Some(c))), [AcceptKey])
      case Ready(_) => Prepend([AcceptKey], Start(m, c, generated))
  }

  function OnFocusIn(m: Machine, c: ContextId): Outcome {
    var m := m.(contexts := m.contexts[c := true], focused := Some(c));
    if Current(m).Some? && Current(m).value.context != c then
      Interrupt(m, Current(m).value, FocusChanged, "focus changed")
    else if Waiting(m).Some? && Waiting(m) != Some(c) then
      Outcome(m.(phase := Connecting(None)), [])
    else
      Outcome(m, [])
  }

  /** A context that loses focus or dies takes its waiting request or session with it. */
  function Leave(m: Machine, c: ContextId, alive: bool, reason: InterruptReason, why: string): Outcome {
    var m := m.(contexts := m.contexts[c := alive],
                focused := if m.focused == Some(c) then None else m.focused);
    if Current(m).Some? && Current(m).value.context == c then
      Interrupt(m, Current(m).value, reason, why)
    else if Waiting(m) == Some(c) then
      Outcome(m.(phase := Connecting(None)), [])
    else
      Outcome(m, [])
  }

  function OnAuthenticated(m: Machine, generated: Result<SessionId>): Outcome {
    match m.phase
    case Connecting(Some(c)) => Prepend([Log(Info, LogNote.Ready)], Start(m, c, generated))
    case Connecting(None) => Outcome(m.(phase := Phase.Ready(None)), [Log(Info, LogNote.Ready)])
    case _ => Outcome(m, [Disconnect])
  }

  function OnClosed(m: Machine): Outcome {
    match m.phase
    case Disconnected => Outcome(m, [])
    case Ready(None) => Outcome(m.(phase := Disconnected), [Log(Debug, Closed)])
    case _ => Outcome(m.(phase := Disconnected), [Log(Info, Interrupted("transport disconnected"))])
  }

  function OnFailed(m: Machine, error: Error): Outcome {
    Outcome(m.(phase := Disconnected),
            [Log(Info, TransportFailed(error)), Log(Info, Interrupted("transport failure"))])
  }

  /** ++ on an unsigned 64-bit counter. */
  function Successor(n: U64): U64 {
    if n + 1 == U64_LIMIT then 0 else n + 1
  }

  /** A message concerns the active session exactly when it carries its id, byte for byte. */
  predicate Concerns(m: Machine, sessionId: Bytes) {
    Current(m).Some? && Current(m).value.id == sessionId
  }

  function OnCommitText(m: Machine, sessionId: Bytes, sequenceNo: U64, text: string): Outcome {
    if !Concerns(m, sessionId) then
      Outcome(m, [Log(Debug, InactiveSession("CommitText"))])
    else
      var s := Current(m).value;
      if sequenceNo != s.nextSequenceNo then
        Prepend([Log(Info, UnexpectedSequence(sequenceNo, s.nextSequenceNo))],
               Interrupt(m, s, TransportFailure, "commit sequence mismatch"))
      else
        Outcome(m.(phase := Phase.Ready(Some(s.(nextSequenceNo := Successor(s.nextSequenceNo))))),
                [CommitText(s.context, text)])
  }

  /** The transcriber ends the session itself; nothing is sent back. */
  function OnEndMessage(m: Machine, sessionId: Bytes, name: string, note: SessionId -> LogNote): Outcome {
    if !Concerns(m, sessionId) then
      Outcome(m, [Log(Debug, InactiveSession(name))])
    else
      Outcome(m.(phase := Phase.Ready(None)), [Log(Info, note(Current(m).value.id))])
  }

  /** One event; generated is what the session id generator answers if it is asked. */
  function Next(m: Machine, event: Event, generated: Result<SessionId>): Outcome {
    match event
    case ConnectionConfigured(result) => OnConfigured(m, result)
    case Toggle(c, focused) => OnToggle(m, c, focused, generated)
    case FocusIn(c) => OnFocusIn(m, c)
    case FocusOut(c) => Leave(m, c, true, FocusLost, "focus lost")
    case ContextDestroyed(c) => Leave(m, c, false, InputContextDestroyed, "input context destroyed")
    case ConnectionAuthenticated => OnAuthenticated(m, generated)
    case ConnectionClosed => OnClosed(m)
    case ConnectionFailed(error) => OnFailed(m, error)
    case ConnectionCommitText(id, n, text) => OnCommitText(m, id, n, text)
    case ConnectionVadTimeout(id) => OnEndMessage(m, id, "VadTimeout", (i: SessionId) => TimedOut(i))
    case ConnectionErrorMessage(id, code, message) =>
      OnEndMessage(m, id, "Error", (i: SessionId) => TranscriberError(i, code, message))
  }
}
