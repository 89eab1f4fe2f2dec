/**
 The transport actor (src/addon/io.cpp): one connection at a time, commands in, notices out.
 Its flags, counters and suspended coroutines are proved to follow a three-state connection.
 Everything between two suspension points is one step; closing a connection ends the coroutines
 suspended on it.
 */
module Transport {
  import opened Protocol
  import opened Framing
  import opened SessionMachine

  type Frame = Bytes

  datatype Command = ConnectCommand(config: ConnectionConfig) | DisconnectCommand | SendCommand(frame: Frame)

  // ----- The connection, abstractly -----

  /** accepted: the frames sent on this connection; written: those the peer's socket has taken. */
  datatype Conn = Idle | Handshaking | Open(accepted: seq<Frame>, written: seq<Frame>)

  /** An event handed to the dispatcher, and the connection attempt it came from. */
  datatype Published = Published(generation: nat, event: Event)

  datatype Actor = Actor(generation: nat, conn: Conn, published: seq<Published>)

  const COLD := Actor(0, Idle, [])

  function Publish(a: Actor, event: Event): Actor {
    a.(published := a.published + [Published(a.generation, event)])
  }

  function Perform(a: Actor, command: Command): Actor {
    match command
    case ConnectCommand(_) => if a.conn.Idle? then a.(generation := a.generation + 1, conn := Handshaking) else a
    case DisconnectCommand => Shut(a, None)
    case SendCommand(frame) =>
      if a.conn.Open? then a.(conn := Open(a.conn.accepted + [frame], a.conn.written)) else a
  }

  /** The connection ends, with the given failure or by plain closing; one notice at most. */
  function Shut(a: Actor, failure: Option<Error>): Actor {
    if a.conn.Idle? then a
    else
      var closed := a.(conn := Idle);
      if failure.Some? then Publish(closed, ConnectionFailed(failure.value))
      else if a.conn.Open? then Publish(closed, ConnectionClosed)
      else closed
  }

  function Authenticate(a: Actor): Actor {
    Publish(a.(conn := Open([], [])), ConnectionAuthenticated)
  }

  function Advance(a: Actor): Actor
    requires a.conn.Open? && |a.conn.written| < |a.conn.accepted|
  {
    a.(conn := Open(a.conn.accepted, a.conn.written + [a.conn.accepted[|a.conn.written|]]))
  }

  /** Retiring a connection moves the active generation past the counter until the next attempt. */
  function ActiveGeneration(a: Actor): nat {
    if a.conn.Idle? && a.generation > 0 then a.generation + 1 else a.generation
  }

  // ----- The actor itself -----

  datatype ReaderAt = Spawned | InHeader | InPayload(size: nat)

  datatype Reader = Reader(generation: nat, at: ReaderAt)

  /** A writer coroutine: spawned but not started, or suspended while a frame is written. */
  datatype Writer = Writer(generation: nat, writing: Option<Frame>)

  datatype HeaderRead = GotHeader(size: nat) | HeaderEof | HeaderBroken(message: string)

  datatype PayloadRead = GotEnvelope(envelope: Envelope) | Undecodable(error: Error) | PayloadBroken(message: string)

  const INVALID_SIZE := Error(ProtocolViolation, "invalid inbound frame size")

  const UNEXPECTED_MESSAGE := Error(ProtocolViolation, "unexpected message from authenticated peer")

  class SharedState {
    var connected: bool
    var connectionActive: bool
    var writerRunning: bool
    var socketOpen: bool
    var generationCounter: nat
    var activeGeneration: nat
    var outgoingFrames: seq<Frame>
    var currentConfig: Option<ConnectionConfig>
    var commands: seq<Command>
    /** Suspended coroutines. */
    var handshake: Option<nat>
    var reader: Option<Reader>
    var writers: seq<Writer>
    /** What has left the actor: events for the dispatcher, frames on the current socket. */
    var published: seq<Published>
    var written: seq<Frame>

    ghost function Abstract(): Actor
      reads this
    {
      Actor(generationCounter,
            if connected then Open(written + outgoingFrames, written)
            else if connectionActive then Handshaking
            else Idle,
            published)
    }

    ghost predicate Valid()
      reads this
    {
      && (connected ==> connectionActive)
      && socketOpen == connectionActive
      && currentConfig.Some? == connectionActive
      && (connectionActive ==> generationCounter > 0)
      && activeGeneration == ActiveGeneration(Abstract())
      && handshake == (if connectionActive && !connected then Some(activeGeneration) else None)
      && reader.Some? == connected
      && (connected ==> reader.value.generation == activeGeneration)
      && (!connected ==> outgoingFrames == [])
      && WriterOk()
    }

    /** No lost wake-up, one writer: frames are queued exactly when one live coroutine drains them. */
    ghost predicate WriterOk()
      reads this
    {
      && writerRunning == (outgoingFrames != [])
      && |writers| == (if writerRunning then 1 else 0)
      && (writerRunning ==>
            && writers[0].generation == activeGeneration
            && (writers[0].writing.Some? ==> writers[0].writing.value == outgoingFrames[0]))
    }

    constructor ()
      ensures Valid() && Abstract() == COLD && commands == []
    {
      connected, connectionActive, writerRunning, socketOpen := false, false, false, false;
      generationCounter, activeGeneration := 0, 0;
      outgoingFrames, currentConfig, commands := [], None, [];
      handshake, reader, writers := None, None, [];
      published, written := [], [];
    }

    /** One turn of the actor loop. */
    method RunOnce()
      requires Valid() && commands != []
      modifies this
      ensures Valid()
      ensures Abstract() == Perform(old(Abstract()), old(commands)[0]) && commands == old(commands)[1..]
    {
      var command := commands[0];
      commands := commands[1..];
      match command {
        case ConnectCommand(config) => HandleConnect(config);
        case DisconnectCommand => HandleDisconnect();
        case SendCommand(frame) => HandleSend(frame);
      }
    }

    method HandleConnect(config: ConnectionConfig)
      requires Valid()
      modifies this
      ensures Valid() && commands == old(commands)
      ensures Abstract() == Perform(old(Abstract()), ConnectCommand(config))
    {
      if connectionActive {
        return;
      }
      connectionActive := true;
      generationCounter := generationCounter + 1;
      // The connection attempt starts at once and suspends while the socket connects.
      activeGeneration := generationCounter;
      currentConfig := Some(config);
      socketOpen := true;
      handshake := Some(generationCounter);
    }

    method HandleDisconnect()
      requires Valid()
      modifies this
      ensures Valid() && commands == old(commands)
      ensures Abstract() == Perform(old(Abstract()), DisconnectCommand)
    {
      CloseConnection(None, false);
    }

    method HandleSend(frame: Frame)
      requires Valid()
      modifies this
      ensures Valid() && commands == old(commands)
      ensures Abstract() == Perform(old(Abstract()), SendCommand(frame))
    {
      if !connected || !socketOpen {
        return;
      }
      assert (written + outgoingFrames) + [frame] == written + (outgoingFrames + [frame]);
      outgoingFrames := outgoingFrames + [frame];
      if writerRunning {
        return;
      }
      writerRunning := true;
      writers := writers + [Writer(activeGeneration, None)];
    }

    /** The handshake ends: a failure closes the attempt, success is published and starts the reader. */
    method FinishHandshake(failure: Option<Error>)
      requires Valid() && handshake.Some?
      modifies this
      ensures Valid() && commands == old(commands)
      ensures Abstract() == if failure.Some? then Shut(old(Abstract()), failure) else Authenticate(old(Abstract()))
    {
      if failure.Some? {
        CloseConnection(failure, true);
        return;
      }
      var generation := handshake.value;
      handshake := None;
      if generation != activeGeneration || !socketOpen {
        return;
      }
      connected := true;
      written := [];
      assert written + outgoingFrames == [];
      published := published + [Published(generation, ConnectionAuthenticated)];
      reader := Some(Reader(generation, Spawned));
    }

    /** The loop head of the reader: go on reading, or stop if the generation is retired. */
    method ReaderLoopHead()
      requires reader.Some?
      modifies this`reader
      ensures var generation := old(reader).value.generation;
              reader == if generation == activeGeneration && socketOpen then Some(Reader(generation, InHeader)) else None
    {
      if reader.value.generation == activeGeneration && socketOpen {
        reader := Some(reader.value.(at := InHeader));
      } else {
        reader := None;
      }
    }

    method StartReader()
      requires Valid() && reader.Some? && reader.value.at.Spawned?
      modifies this
      ensures Valid() && commands == old(commands) && Abstract() == old(Abstract())
      ensures reader == Some(Reader(activeGeneration, InHeader))
    {
      ReaderLoopHead();
    }

    method FinishHeader(outcome: HeaderRead)
      requires Valid() && reader.Some? && reader.value.at.InHeader?
      modifies this
      ensures Valid() && commands == old(commands)
      ensures match outcome
              case GotHeader(size) =>
                if 0 < size <= MAX_FRAME_SIZE then
                  && Abstract() == old(Abstract())
                  && reader == Some(Reader(activeGeneration, InPayload(size)))
                else Abstract() == Shut(old(Abstract()), Some(INVALID_SIZE))
              case HeaderEof => Abstract() == Shut(old(Abstract()), None)
              case HeaderBroken(message) => Abstract() == Shut(old(Abstract()), Some(Error(ErrorKind.Transport, message)))
    {
      match outcome {
        case HeaderEof => CloseConnection(None, false);
        case HeaderBroken(message) => CloseConnection(Some(Error(ErrorKind.Transport, message)), true);
        case GotHeader(size) =>
          if size == 0 || size > MAX_FRAME_SIZE {
            CloseConnection(Some(INVALID_SIZE), true);
          } else {
            reader := Some(reader.value.(at := InPayload(size)));
          }
      }
    }

    method FinishPayload(outcome: PayloadRead)
      requires Valid() && reader.Some? && reader.value.at.InPayload?
      modifies this
      ensures Valid() && commands == old(commands)
      ensures match outcome
              case GotEnvelope(envelope) =>
                if IsForwarded(envelope) then
                  && Abstract() == Publish(old(Abstract()), EventOf(envelope))
                  && reader == Some(Reader(activeGeneration, InHeader))
                else Abstract() == Shut(old(Abstract()), Some(UNEXPECTED_MESSAGE))
              case Undecodable(error) => Abstract() == Shut(old(Abstract()), Some(error))
              case PayloadBroken(message) => Abstract() == Shut(old(Abstract()), Some(Error(ErrorKind.Transport, message)))
    {
      match outcome {
        case PayloadBroken(message) => CloseConnection(Some(Error(ErrorKind.Transport, message)), true);
        case Undecodable(error) => CloseConnection(Some(error), true);
        case GotEnvelope(envelope) =>
          if envelope.CommitTextMessage? || envelope.VadTimeoutMessage? || envelope.ErrorMessage? {
            published := published + [Published(reader.value.generation, EventOf(envelope))];
            ReaderLoopHead();
          } else {
            CloseConnection(Some(UNEXPECTED_MESSAGE), true);
          }
      }
    }

    /** The loop head of the writer: write the front frame, or stop when the queue is drained. */
    method WriterLoopHead(generation: nat)
      requires |writers| == 1 && generation == writers[0].generation
      modifies this`writers, this`writerRunning
      ensures generation == activeGeneration && socketOpen && outgoingFrames != [] ==>
                writers == [Writer(generation, Some(outgoingFrames[0]))] && writerRunning == old(writerRunning)
      ensures !(generation == activeGeneration && socketOpen && outgoingFrames != []) ==>
                writers == [] && !writerRunning
    {
      if generation == activeGeneration && socketOpen && outgoingFrames != [] {
        writers := [Writer(generation, Some(outgoingFrames[0]))];
      } else {
        writerRunning := false;
        writers := [];
      }
    }

    method StartWriter()
      requires Valid() && writers != [] && writers[0].writing.None?
      modifies this
      ensures Valid() && commands == old(commands) && Abstract() == old(Abstract())
      ensures outgoingFrames != [] && writers == [Writer(activeGeneration, Some(outgoingFrames[0]))]
    {
      WriterLoopHead(writers[0].generation);
    }

    /** The write of the front frame completes; a failure closes the connection. */
    method FinishWrite(failure: Option<string>)
      requires Valid() && writers != [] && writers[0].writing.Some?
      modifies this
      ensures Valid() && commands == old(commands)
      ensures Abstract() == if failure.None? then Advance(old(Abstract()))
                            else Shut(old(Abstract()), Some(Error(ErrorKind.Transport, failure.value)))
    {
      if failure.Some? {
        writerRunning := false;
        CloseConnection(Some(Error(ErrorKind.Transport, failure.value)), true);
        return;
      }
      assert written + outgoingFrames == (written + [outgoingFrames[0]]) + outgoingFrames[1..];
      written := written + [writers[0].writing.value];
      outgoingFrames := outgoingFrames[1..];
      WriterLoopHead(writers[0].generation);
    }

    /** Ends the connection, whatever stage it is in, with one terminal notice; closing twice is harmless. */
    method CloseConnection(error: Option<Error>, reportFailure: bool)
      modifies this
      ensures commands == old(commands) && generationCounter == old(generationCounter)
      ensures !old(connectionActive || connected || socketOpen || writerRunning) ==>
                unchanged(this)
      ensures old(connectionActive || connected || socketOpen || writerRunning) ==>
                && !connected && !connectionActive && !writerRunning && !socketOpen
                && activeGeneration == old(activeGeneration) + 1
                && outgoingFrames == [] && currentConfig == None
                && handshake == None && reader == None && writers == []
                && published == old(published) +
                     if reportFailure && error.Some? then [Published(generationCounter, ConnectionFailed(error.value))]
                     else if old(connected) then [Published(generationCounter, ConnectionClosed)]
                     else []
    {
      var hadConnection := connectionActive || connected || socketOpen || writerRunning;
      if !hadConnection {
        return;
      }
      var wasConnected := connected;
      connected := false;
      connectionActive := false;
      writerRunning := false;
      activeGeneration := activeGeneration + 1;
      outgoingFrames := [];
      currentConfig := None;
      socketOpen := false;
      // Cancelled operations complete before the next command and find nothing left to close.
      handshake, reader, writers := None, None, [];

      if reportFailure && error.Some? {
        published := published + [Published(generationCounter, ConnectionFailed(error.value))];
      } else if wasConnected {
        published := published + [Published(generationCounter, ConnectionClosed)];
      }
    }
  }

  // ----- The addon's side of the command channel -----

  const COMMAND_CAPACITY := 128

  const NOT_READY := Error(ErrorKind.State, "transcriber connection not ready")

  const SEND_NOT_QUEUED := Error(ErrorKind.Transport, "failed to queue outbound frame")

  function ConnectNotQueued(config: ConnectionConfig): Error {
    Error(ErrorKind.Transport, "failed to queue connect command for socket " + config.socketPath)
  }

  class Io {
    const shared: SharedState

    constructor (shared: SharedState)
      ensures this.shared == shared
    {
      this.shared := shared;
    }

    /** Queues a command unless the channel is full. */
    method TrySend(command: Command) returns (queued: bool)
      modifies shared`commands
      ensures queued == (|old(shared.commands)| < COMMAND_CAPACITY)
      ensures shared.commands == old(shared.commands) + if queued then [command] else []
    {
      queued := |shared.commands| < COMMAND_CAPACITY;
      if queued {
        shared.commands := shared.commands + [command];
      }
    }

    method Connect(config: ConnectionConfig) returns (failure: Option<Error>)
      modifies shared`commands
      ensures var fits := |old(shared.commands)| < COMMAND_CAPACITY;
              && failure == (if fits then None else Some(ConnectNotQueued(config)))
              && shared.commands == old(shared.commands) + if fits then [ConnectCommand(config)] else []
    {
      var queued := TrySend(ConnectCommand(config));
      failure := if queued then None else Some(ConnectNotQueued(config));
    }

    method Disconnect() returns (queued: bool)
      modifies shared`commands
      ensures queued == (|old(shared.commands)| < COMMAND_CAPACITY)
      ensures shared.commands == old(shared.commands) + if queued then [DisconnectCommand] else []
    {
      queued := TrySend(DisconnectCommand);
    }

    /** Frames and queues one serialized envelope, if the connection is authenticated. */
    method Send(payload: Bytes) returns (failure: Option<Error>)
      modifies shared`commands
      ensures failure == SendFailure(shared.connected, payload, |old(shared.commands)|)
      ensures shared.commands == old(shared.commands) +
                if failure.None? then [SendCommand(FrameOf(payload))] else []
    {
      if !shared.connected {
        return Some(NOT_READY);
      }
      var frame := EncodeFrame(payload);
      if frame.Err? {
        return Some(frame.error);
      }
      var queued := TrySend(SendCommand(frame.value));
      failure := if queued then None else Some(SEND_NOT_QUEUED);
    }
  }

  function SendFailure(connected: bool, payload: Bytes, queued: nat): (failure: Option<Error>)
    ensures failure.None? <==> connected && |payload| <= MAX_FRAME_SIZE && queued < COMMAND_CAPACITY
  {
    if !connected then Some(NOT_READY)
    else if |payload| > MAX_FRAME_SIZE then Some(TOO_LARGE)
    else if queued >= COMMAND_CAPACITY then Some(SEND_NOT_QUEUED)
    else None
  }
}
