/** The session engine with its own fields, proved to follow SessionMachine on every event. */
module SessionEngine {
  import opened Protocol
  import opened SessionMachine

  datatype ConnectionState = IsDisconnected | IsConnecting | IsReady

  datatype AbortKind = Quiet | Failed

  /** What ending a session produces: an envelope only while the connection is ready. */
  function InterruptEffects(ready: bool, id: SessionId, reason: InterruptReason, why: string): seq<Effect> {
    (if ready then [SendEnvelope(InterruptSession(id, reason))] else []) + [Log(Info, Interrupted(why))]
  }

  class Engine {
    var contexts: map<ContextId, bool>
    var connectionConfig: Option<ConnectionConfig>
    var connectionConfigError: Option<Error>
    var focusedContext: Option<ContextId>
    var pendingContext: Option<ContextId>
    var session: Option<Session>
    var connectionState: ConnectionState

    /** The machine the fields stand for; total, and faithful when the fields agree. */
    ghost function Abstract(): Machine
      reads this
    {
      Machine(
        if connectionConfig.Some? then Loaded(connectionConfig.value)
        else if connectionConfigError.Some? then Rejected(connectionConfigError.value)
        else NotLoaded,
        focusedContext,
        contexts,
        match connectionState
        case IsDisconnected => Disconnected
        case IsConnecting => Connecting(pendingContext)
        case IsReady => Phase.Ready(session))
    }

    /** The optional fields never contradict each other, and the joint invariant holds. */
    ghost predicate Valid()
      reads this
    {
      && (session.Some? ==> connectionState == IsReady)
      && (pendingContext.Some? ==> connectionState == IsConnecting)
      && (connectionConfig.Some? ==> connectionConfigError.None?)
      && Inv(Abstract())
    }

    constructor ()
      ensures Valid() && Abstract() == INITIAL
    {
      contexts := map[];
      connectionConfig, connectionConfigError := None, None;
      focusedContext, pendingContext, session := None, None, None;
      connectionState := IsDisconnected;
    }

    /** Applies one event; generated is the session id generator's answer, should it be asked. */
    method Handle(event: Event, generated: Result<SessionId>) returns (effects: seq<Effect>)
      requires Valid()
      modifies this
      ensures Valid()
      ensures Outcome(Abstract(), effects) == Next(old(Abstract()), event, generated)
    {
      match event {
        case ConnectionConfigured(result) => effects := HandleConfigured(result);
        case Toggle(c, focused) => effects := HandleToggle(c, focused, generated);
        case FocusIn(c) => effects := HandleFocusIn(c);
        case FocusOut(c) => effects := HandleFocusOut(c);
        case ContextDestroyed(c) => effects := HandleContextDestroyed(c);
        case ConnectionAuthenticated => effects := HandleAuthenticated(generated);
        case ConnectionClosed => effects := HandleClosed();
        case ConnectionFailed(error) => effects := HandleFailed(error);
        case ConnectionCommitText(id, n, text) => effects := HandleCommitText(id, n, text);
        case ConnectionVadTimeout(id) => effects := HandleVadTimeout(id);
        case ConnectionErrorMessage(id, code, message) => effects := HandleErrorEnvelope(id, code, message);
      }
    }

    predicate Transcribing()
      reads this
    {
      pendingContext.Some? || session.Some?
    }

    method HandleConfigured(result: ConfigResult) returns (effects: seq<Effect>)
      requires Valid()
      modifies this
      ensures Valid()
      ensures Outcome(Abstract(), effects) == OnConfigured(old(Abstract()), result)
    {
      effects := [];
      var hadActivity := connectionState != IsDisconnected || pendingContext.Some? || session.Some?;
      if hadActivity {
        effects := AbortInteraction(effects, "connection configuration changed", Quiet);
        effects := effects + [Disconnect];
      }

      connectionConfig := None;
      connectionConfigError := None;

      if result.Loaded? {
        connectionConfig := Some(result.config);
        return;
      }
      if result.Rejected? {
        connectionConfigError := Some(result.error);
      }
    }

    method HandleToggle(c: ContextId, focused: bool, generated: Result<SessionId>) returns (effects: seq<Effect>)
      requires Valid()
      modifies this
      ensures Valid()
      ensures Outcome(Abstract(), effects) == OnToggle(old(Abstract()), c, focused, generated)
    {
      effects := [];
      contexts := contexts[c := true];
      if focused {
        focusedContext := Some(c);
      } else if focusedContext == Some(c) {
        focusedContext := None;
      }

      if session.Some? {
        effects := InterruptSessionFor(ByToggle, "toggle", effects);
        effects := effects + [AcceptKey];
        return;
      }

      if pendingContext == Some(c) {
        pendingContext := None;
        effects := effects + [AcceptKey];
        return;
      }

      if !focused {
        return;
      }

      if connectionConfig.None? {
        if connectionConfigError.Some? {
          effects := effects + [Log(Info, Misconfigured(connectionConfigError.value))];
        } else {
          effects := effects + [Log(Info, Unconfigured)];
        }
        return;
      }

      pendingContext := Some(c);
      effects := effects + [AcceptKey];

      match connectionState {
        case IsDisconnected =>
          connectionState := IsConnecting;
          effects := effects + [Connect];
        case IsConnecting =>
        case IsReady =>
          effects := TryStartPending(effects, generated);
      }
    }

    method HandleFocusIn(c: ContextId) returns (effects: seq<Effect>)
      requires Valid()
      modifies this
      ensures Valid()
      ensures Outcome(Abstract(), effects) == OnFocusIn(old(Abstract()), c)
    {
      effects := [];
      contexts := contexts[c := true];
      focusedContext := Some(c);

      if pendingContext.Some? && pendingContext.value != c {
        pendingContext := None;
      }

      if session.Some? && session.value.context != c {
        effects := InterruptSessionFor(FocusChanged, "focus changed", effects);
      }
    }

    method HandleFocusOut(c: ContextId) returns (effects: seq<Effect>)
      requires Valid()
      modifies this
      ensures Valid()
      ensures Outcome(Abstract(), effects) == Leave(old(Abstract()), c, true, FocusLost, "focus lost")
    {
      effects := [];
      contexts := contexts[c := true];
      if focusedContext == Some(c) {
        focusedContext := None;
      }

      if pendingContext == Some(c) {
        pendingContext := None;
      }

      if session.Some? && session.value.context == c {
        effects := InterruptSessionFor(FocusLost, "focus lost", effects);
      }
    }

    method HandleContextDestroyed(c: ContextId) returns (effects: seq<Effect>)
      requires Valid()
      modifies this
      ensures Valid()
      ensures Outcome(Abstract(), effects)
           == Leave(old(Abstract()), c, false, InputContextDestroyed, "input context destroyed")
    {
      effects := [];
      contexts := contexts[c := false];
      if focusedContext == Some(c) {
        focusedContext := None;
      }

      if pendingContext == Some(c) {
        pendingContext := None;
      }

      if session.Some? && session.value.context == c {
        effects := InterruptSessionFor(InputContextDestroyed, "input context destroyed", effects);
      }
    }

    method HandleAuthenticated(generated: Result<SessionId>) returns (effects: seq<Effect>)
      requires Valid()
      modifies this
      ensures Valid()
      ensures Outcome(Abstract(), effects) == OnAuthenticated(old(Abstract()), generated)
    {
      effects := [];
      if connectionState != IsConnecting {
        effects := effects + [Disconnect];
        return;
      }

      connectionState := IsReady;
      effects := effects + [Log(Info, LogNote.Ready)];
      effects := TryStartPending(effects, generated);
    }

    method HandleClosed() returns (effects: seq<Effect>)
      requires Valid()
      modifies this
      ensures Valid()
      ensures Outcome(Abstract(), effects) == OnClosed(old(Abstract()))
    {
      effects := [];
      var activeInteraction := pendingContext.Some? || session.Some?;
      if !activeInteraction && connectionState == IsReady {
        connectionState := IsDisconnected;
        effects := effects + [Log(Debug, Closed)];
        return;
      }

      if connectionState == IsDisconnected && !activeInteraction {
        return;
      }

      effects := AbortInteraction(effects, "transport disconnected", Failed);
    }

    method HandleFailed(error: Error) returns (effects: seq<Effect>)
      requires Valid()
      modifies this
      ensures Valid()
      ensures Outcome(Abstract(), effects) == OnFailed(old(Abstract()), error)
    {
      effects := [Log(Info, TransportFailed(error))];
      effects := AbortInteraction(effects, "transport failure", Failed);
    }

    predicate ContextCanCommit(c: ContextId)
      reads this
    {
      c in contexts && contexts[c] && focusedContext == Some(c)
    }

    /** Drops connection, waiting context and session; only a failure is worth a log line. */
    method AbortInteraction(before: seq<Effect>, reason: string, kind: AbortKind) returns (effects: seq<Effect>)
      modifies this`connectionState, this`pendingContext, this`session
      ensures connectionState == IsDisconnected && pendingContext == None && session == None
      ensures effects == before + if kind == Failed then [Log(Info, Interrupted(reason))] else []
    {
      connectionState := IsDisconnected;
      pendingContext := None;
      session := None;
      effects := before;
      if kind == Failed {
        effects := effects + [Log(Info, Interrupted(reason))];
      }
    }

    /** Best effort: without a ready connection the session ends locally and nothing is sent. */
    method InterruptSessionFor(reason: InterruptReason, why: string, before: seq<Effect>)
      returns (effects: seq<Effect>)
      modifies this`pendingContext, this`session
      ensures session == None && pendingContext == None
      ensures old(session).None? ==> effects == before
      ensures old(session).Some? ==>
                effects == before + InterruptEffects(connectionState == IsReady, old(session).value.id, reason, why)
    {
      effects := before;
      if session.None? {
        pendingContext := None;
        return;
      }

      if connectionState == IsReady {
        effects := effects + [SendEnvelope(InterruptSession(session.value.id, reason))];
      }

      session := None;
      pendingContext := None;
      effects := effects + [Log(Info, Interrupted(why))];
    }

    /** Promotes the waiting context, unless it died or lost focus while it waited. */
    method TryStartPending(before: seq<Effect>, generated: Result<SessionId>) returns (effects: seq<Effect>)
      modifies this`pendingContext, this`session
      ensures old(pendingContext).None? || connectionState != IsReady ==>
                effects == before && pendingContext == old(pendingContext) && session == old(session)
      ensures old(pendingContext).Some? && connectionState == IsReady ==> pendingContext == None
      ensures old(pendingContext).Some? && connectionState == IsReady && !ContextCanCommit(old(pendingContext).value) ==>
                effects == before && session == old(session)
      ensures old(pendingContext).Some? && connectionState == IsReady && ContextCanCommit(old(pendingContext).value) ==>
                match generated
                case Ok(id) =>
                  && session == Some(Session(old(pendingContext).value, id, 1))
                  && effects == before + [SendEnvelope(StartSession(id)), Log(Info, Started(id))]
                case Err(error) =>
                  && session == old(session)
                  && effects == before + [Log(Info, CannotStart(error))]
    {
      effects := before;
      if pendingContext.None? || connectionState != IsReady {
        return;
      }

      if !ContextCanCommit(pendingContext.value) {
        pendingContext := None;
        return;
      }

      if generated.Err? {
        effects := effects + [Log(Info, CannotStart(generated.error))];
        pendingContext := None;
        return;
      }

      session := Some(Session(pendingContext.value, generated.value, 1));
      pendingContext := None;

      effects := effects + [SendEnvelope(StartSession(session.value.id))];
      effects := effects + [Log(Info, Started(session.value.id))];
    }

    /**
     Also describes the two defensive checks, which only fields that contradict each other could
     reach: a dead or unfocused target ends the session instead of receiving the text.
     */
    method HandleCommitText(sessionId: Bytes, sequenceNo: U64, text: string) returns (effects: seq<Effect>)
      modifies this`session, this`pendingContext
      ensures old(Valid()) ==> Valid()
      ensures old(Valid()) ==>
                Outcome(Abstract(), effects) == OnCommitText(old(Abstract()), sessionId, sequenceNo, text)
      ensures old(session.Some? && session.value.id == sessionId && session.value.nextSequenceNo == sequenceNo
                  && !ContextCanCommit(session.value.context)) ==>
                var alive := old(session).value.context in contexts && contexts[old(session).value.context];
                && session == None && pendingContext == None
                && effects == if alive
                   then InterruptEffects(connectionState == IsReady, sessionId, FocusLost,
                                         "input context lost focus before commit")
                   else InterruptEffects(connectionState == IsReady, sessionId, InputContextDestroyed,
                                         "input context destroyed before commit")
    {
      effects := [];
      if session.None? || sessionId != session.value.id {
        effects := effects + [Log(Debug, InactiveSession("CommitText"))];
        return;
      }

      if sequenceNo != session.value.nextSequenceNo {
        effects := effects + [Log(Info, UnexpectedSequence(sequenceNo, session.value.nextSequenceNo))];
        effects := InterruptSessionFor(TransportFailure, "commit sequence mismatch", effects);
        return;
      }

      if session.value.context !in contexts || !contexts[session.value.context] {
        effects := InterruptSessionFor(InputContextDestroyed, "input context destroyed before commit", effects);
        return;
      }
      if focusedContext != Some(session.value.context) {
        effects := InterruptSessionFor(FocusLost, "input context lost focus before commit", effects);
        return;
      }

      effects := effects + [CommitText(session.value.context, text)];
      session := Some(session.value.(nextSequenceNo := Successor(session.value.nextSequenceNo)));
    }

    method HandleVadTimeout(sessionId: Bytes) returns (effects: seq<Effect>)
      requires Valid()
      modifies this
      ensures Valid()
      ensures Outcome(Abstract(), effects)
           == OnEndMessage(old(Abstract()), sessionId, "VadTimeout", (i: SessionId) => TimedOut(i))
    {
      effects := [];
      if session.None? || sessionId != session.value.id {
        effects := effects + [Log(Debug, InactiveSession("VadTimeout"))];
        return;
      }

      effects := effects + [Log(Info, TimedOut(session.value.id))];
      session := None;
    }

    method HandleErrorEnvelope(sessionId: Bytes, code: ErrorCode, message: string) returns (effects: seq<Effect>)
      requires Valid()
      modifies this
      ensures Valid()
      ensures Outcome(Abstract(), effects)
           == OnEndMessage(old(Abstract()), sessionId, "Error", (i: SessionId) => TranscriberError(i, code, message))
    {
      effects := [];
      if session.None? || sessionId != session.value.id {
        effects := effects + [Log(Debug, InactiveSession("Error"))];
        return;
      }

      effects := effects + [Log(Info, TranscriberError(session.value.id, code, message))];
      session := None;
    }
  }
}
