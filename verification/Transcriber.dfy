/** The transcriber's side of one authenticated connection (tools/poc_transcriber.py). */
module Transcriber {
  import opened Protocol

  datatype Mode = ResultMode | VadTimeoutMode | ErrorMode

  /** The ValueErrors that end a connection after the handshake. */
  datatype Fault = InvalidSessionIdSize | SessionAlreadyActive | ReasonNotSet | UnexpectedPayload

  /** The active session: its id and the number its next text will carry. */
  datatype Active = Active(sessionId: Bytes, sequenceNo: nat)

  datatype Reaction = Continue(session: Option<Active>) | Fail(fault: Fault)

  function OnEnvelope(session: Option<Active>, envelope: Envelope): Reaction {
    match envelope
    case StartSession(id) =>
      if |id| != SESSION_ID_SIZE then Fail(InvalidSessionIdSize)
      else if session.Some? then Fail(SessionAlreadyActive)
      else Continue(Some(Active(id, 1)))
    case InterruptSession(id, reason) =>
      if |id| != SESSION_ID_SIZE then Fail(InvalidSessionIdSize)
      else if session.None? || session.value.sessionId != id then Continue(session)
      else if reason.Unspecified? then Fail(ReasonNotSet)
      else Continue(None)
    case _ => Fail(UnexpectedPayload)
  }

  /** A text for the active session; its number must fit the protobuf uint64 field. */
  predicate CanSpeak(a: Active) {
    a.sequenceNo < U64_LIMIT
  }

  function Speech(a: Active, text: string): Envelope
    requires CanSpeak(a)
  {
    CommitTextMessage(a.sessionId, a.sequenceNo, text)
  }

  function Advanced(a: Active): Active {
    a.(sequenceNo := a.sequenceNo + 1)
  }

  /** The message that ends a session: silence, or the given failure. */
  function Farewell(a: Active, failure: Option<(ErrorCode, string)>): Envelope {
    if failure.Some? then ErrorMessage(a.sessionId, failure.value.0, failure.value.1)
    else VadTimeoutMessage(a.sessionId)
  }

  class SessionState {
    const sessionId: Bytes
    var sequenceNo: nat

    constructor (sessionId: Bytes)
      ensures this.sessionId == sessionId && sequenceNo == 1
    {
      this.sessionId := sessionId;
      sequenceNo := 1;
    }
  }

  class TranscriberConnection {
    const mode: Mode
    var session: SessionState?

    ghost function Abstract(): Option<Active>
      reads this, session
    {
      if session == null then None else Some(Active(session.sessionId, session.sequenceNo))
    }

    constructor (mode: Mode)
      ensures Abstract() == None && this.mode == mode
    {
      this.mode := mode;
      session := null;
    }

    /** One turn of the read loop; a fault leaves it through the clause that clears the session. */
    method HandleEnvelope(envelope: Envelope) returns (fault: Option<Fault>)
      modifies this`session
      ensures match OnEnvelope(old(Abstract()), envelope)
              case Continue(after) => fault == None && Abstract() == after
              case Fail(why) => fault == Some(why) && Abstract() == None
    {
      match envelope {
        case StartSession(id) => fault := HandleStart(id);
        case InterruptSession(id, reason) => fault := HandleInterrupt(id, reason);
        case _ => fault := Some(UnexpectedPayload);
      }
      if fault.Some? {
        ClearSession();
      }
    }

    method HandleStart(id: Bytes) returns (fault: Option<Fault>)
      modifies this`session
      ensures match OnEnvelope(old(Abstract()), StartSession(id))
              case Continue(after) => fault == None && Abstract() == after && fresh(session)
              case Fail(why) => fault == Some(why) && session == old(session)
    {
      if |id| != SESSION_ID_SIZE {
        return Some(InvalidSessionIdSize);
      }
      if session != null {
        return Some(SessionAlreadyActive);
      }
      session := new SessionState(id);
      fault := None;
    }

    method HandleInterrupt(id: Bytes, reason: InterruptReason) returns (fault: Option<Fault>)
      modifies this`session
      ensures match OnEnvelope(old(Abstract()), InterruptSession(id, reason))
              case Continue(after) => fault == None && Abstract() == after
              case Fail(why) => fault == Some(why) && session == old(session)
    {
      fault := None;
      if |id| != SESSION_ID_SIZE {
        return Some(InvalidSessionIdSize);
      }
      if session == null {
        return;
      }
      if id != session.sessionId {
        return;
      }
      if reason == Unspecified {
        return Some(ReasonNotSet);
      }
      ClearSession();
    }

    method ClearSession()
      modifies this`session
      ensures session == null
    {
      session := null;
    }

    /**
     One wake-up of the task serving the session `task`: it says one thing about its session, or
     stops without a word when that session is over. Says whether the task goes on.
     */
    method RunSession(task: SessionState, text: string) returns (reply: Option<Envelope>, goesOn: bool)
      modifies this`session, task`sequenceNo
      ensures old(session == null || session.sessionId != task.sessionId) ==>
                reply == None && !goesOn && session == old(session) && task.sequenceNo == old(task.sequenceNo)
      ensures old(session) == task ==>
                var now := old(Abstract()).value;
                match mode
                case ResultMode =>
                  if CanSpeak(now) then
                    reply == Some(Speech(now, text)) && goesOn && Abstract() == Some(Advanced(now))
                  else reply == None && !goesOn && Abstract() == Some(now)
                case VadTimeoutMode =>
                  reply == Some(Farewell(now, None)) && !goesOn && Abstract() == None
                case ErrorMode =>
                  && reply == Some(Farewell(now, Some((TranscriberInternal, "simulated error"))))
                  && !goesOn && Abstract() == None
    {
      reply, goesOn := None, false;
      if session == null || session.sessionId != task.sessionId {
        return;
      }
      match mode {
        case ResultMode =>
          if task.sequenceNo < U64_LIMIT {
            reply := Some(CommitTextMessage(task.sessionId, task.sequenceNo, text));
            task.sequenceNo := task.sequenceNo + 1;
            goesOn := true;
          }
        case VadTimeoutMode =>
          reply := Some(VadTimeoutMessage(task.sessionId));
          ClearSession();
        case ErrorMode =>
          reply := Some(ErrorMessage(task.sessionId, TranscriberInternal, "simulated error"));
          ClearSession();
      }
    }
  }
}
