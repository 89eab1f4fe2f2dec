/**
 One authenticated connection: the session engine, the transcriber, and the two first-in
 first-out channels between them. Messages cross in flight, either side may end a session at
 any time, and the connection may break between any two steps.
 */
module Wire {
  import opened Protocol
  import opened SessionMachine
  import opened EngineRuns
  import opened Transcriber

  /**
   linked: the engine has stayed ready since this connection was authenticated.
   up: the connection still carries messages.
   started: the ids of all sessions the engine started since then.
   heard: the ids whose StartSession the transcriber has taken from its channel.
   emitted, committed: per session, the texts the transcriber sent and the engine committed.
   */
  datatype Net = Net(engine: Machine, linked: bool, up: bool,
                     toServer: seq<Envelope>, toClient: seq<Envelope>,
                     server: Option<Active>,
                     started: set<Bytes>, heard: set<Bytes>,
                     emitted: map<Bytes, seq<string>>, committed: map<Bytes, seq<string>>)

  datatype Step =
    | EngineHandles(event: Event, generated: Result<SessionId>)
    | EngineReceives(generated: Result<SessionId>)
    | ServerReceives
    | ServerSpeaks(text: string)
    | ServerEnds(failure: Option<(ErrorCode, string)>)
    | ServerLosesPeer
    | Breaks(keepToServer: nat, keepToClient: nat)

  function TextsOf(texts: map<Bytes, seq<string>>, id: Bytes): seq<string> {
    if id in texts then texts[id] else []
  }

  function SessionIds(session: Option<Session>): set<Bytes> {
    if session.Some? then {session.value.id} else {}
  }

  function ServerId(server: Option<Active>): Option<Bytes> {
    if server.Some? then Some(server.value.sessionId) else None
  }

  /** Events that do not come from the transcriber. */
  predicate IsLocal(event: Event) {
    !event.ConnectionCommitText? && !event.ConnectionVadTimeout? && !event.ConnectionErrorMessage?
  }

  predicate Enabled(w: Net, step: Step) {
    match step
    case EngineHandles(event, generated) =>
      // Session ids are unique within a connection.
      && IsLocal(event)
      && (Current(w.engine).None? ==>
            SessionIds(Current(Next(w.engine, event, generated).machine)) !! w.started)
    case EngineReceives(_) => w.toClient != [] && IsForwarded(w.toClient[0])
    case ServerReceives => w.toServer != []
    case ServerSpeaks(_) => w.server.Some? && CanSpeak(w.server.value)
    case ServerEnds(_) => w.server.Some?
    case ServerLosesPeer => !w.up
    case Breaks(n, m) => n <= |w.toServer| && m <= |w.toClient|
  }

  function AfterEngine(w: Net, outcome: Outcome): Net {
    w.(engine := outcome.machine,
       linked := w.linked && outcome.machine.phase.Ready?,
       toServer := if w.linked && w.up then w.toServer + AllSent(outcome.effects) else w.toServer,
       started := w.started + SessionIds(Current(outcome.machine)))
  }

  function Take(w: Net, step: Step): Net
    requires Enabled(w, step)
  {
    match step
    case EngineHandles(event, generated) => AfterEngine(w, Next(w.engine, event, generated))
    case EngineReceives(generated) =>
      var event := EventOf(w.toClient[0]);
      var outcome := Next(w.engine, event, generated);
      AfterEngine(w, outcome).(
        toClient := w.toClient[1..],
        committed := if outcome.effects != [] && outcome.effects[0].CommitText?
                     then w.committed[event.sessionId :=
                                        TextsOf(w.committed, event.sessionId) + [outcome.effects[0].text]]
                     else w.committed)
    case ServerReceives =>
      var rest := w.(toServer := w.toServer[1..],
                     heard := w.heard + if w.toServer[0].StartSession? then {w.toServer[0].sessionId} else {});
      var reaction := OnEnvelope(w.server, w.toServer[0]);
      if reaction.Continue? then rest.(server := reaction.session)
      else rest.(server := None, toServer := [], up := false)
    case ServerSpeaks(text) =>
      var a := w.server.value;
      w.(server := Some(Advanced(a)),
         emitted := w.emitted[a.sessionId := TextsOf(w.emitted, a.sessionId) + [text]],
         toClient := if w.up then w.toClient + [Speech(a, text)] else w.toClient)
    case ServerEnds(failure) =>
      w.(server := None, toClient := if w.up then w.toClient + [Farewell(w.server.value, failure)] else w.toClient)
    case ServerLosesPeer => w.(server := None, toServer := [])
    case Breaks(n, m) => w.(up := false, toServer := w.toServer[..n], toClient := w.toClient[..m])
  }

  /** The engine, about to be connecting, learns that the connection is authenticated. */
  function Connected(m: Machine, generated: Result<SessionId>): Net {
    var outcome := Next(m, ConnectionAuthenticated, generated);
    Net(outcome.machine, true, true, AllSent(outcome.effects), [], None,
        SessionIds(Current(outcome.machine)), {}, map[], map[])
  }

  /** A run: states[0] has just been authenticated and each state takes an enabled step to the next. */
  ghost predicate IsRun(states: seq<Net>, steps: seq<Step>) {
    && |states| == |steps| + 1
    && (exists m, generated :: Inv(m) && m.phase.Connecting? && states[0] == Connected(m, generated))
    && (forall k :: 0 <= k < |steps| ==> Enabled(states[k], steps[k]) && states[k + 1] == Take(states[k], steps[k]))
  }

  // ----- Reading a channel ahead of the transcriber -----

  predicate Accepts(current: Option<Bytes>, envelope: Envelope) {
    match envelope
    case StartSession(id) => |id| == SESSION_ID_SIZE && current.None?
    case InterruptSession(id, reason) => |id| == SESSION_ID_SIZE && !reason.Unspecified?
    case _ => false
  }

  function Afterwards(current: Option<Bytes>, envelope: Envelope): Option<Bytes> {
    match envelope
    case StartSession(id) => Some(id)
    case InterruptSession(id, _) => if current == Some(id) then None else current
    case _ => current
  }

  /** Whether a transcriber in session current can take all of q without a fault. */
  ghost predicate Safe(current: Option<Bytes>, q: seq<Envelope>)
    decreases q
  {
    q == [] || (Accepts(current, q[0]) && Safe(Afterwards(current, q[0]), q[1..]))
  }

  /** The session it is in once it has taken all of q. */
  ghost function Final(current: Option<Bytes>, q: seq<Envelope>): Option<Bytes>
    decreases q
  {
    if q == [] then current else Final(Afterwards(current, q[0]), q[1..])
  }

  lemma {:induction false} Appended(current: Option<Bytes>, q: seq<Envelope>, e: Envelope)
    ensures Safe(current, q + [e]) <==> Safe(current, q) && Accepts(Final(current, q), e)
    ensures Final(current, q + [e]) == Afterwards(Final(current, q), e)
    decreases q
  {
    if q == [] {
      assert (q + [e])[1..] == [];
    } else {
      assert (q + [e])[1..] == q[1..] + [e];
      Appended(Afterwards(current, q[0]), q[1..], e);
    }
  }

  lemma {:induction false} SafePrefix(current: Option<Bytes>, q: seq<Envelope>, n: nat)
    requires n <= |q| && Safe(current, q)
    ensures Safe(current, q[..n])
    decreases n
  {
    if n > 0 {
      assert q[..n][1..] == q[1..][..n - 1];
      SafePrefix(Afterwards(current, q[0]), q[1..], n - 1);
    }
  }

  lemma {:induction false} FinalComesFrom(current: Option<Bytes>, q: seq<Envelope>, id: Bytes)
    requires Final(current, q) == Some(id) && StartSession(id) !in q
    ensures current == Some(id)
    decreases q
  {
    if q != [] {
      FinalComesFrom(Afterwards(current, q[0]), q[1..], id);
    }
  }

  /** The transcriber ending its session by itself never makes the channel unsafe. */
  lemma {:induction false} EndedBeforehand(id: Bytes, q: seq<Envelope>)
    requires Safe(Some(id), q) && StartSession(id) !in q
    ensures Safe(None, q)
    ensures Final(None, q) == if Final(Some(id), q) == Some(id) then None else Final(Some(id), q)
    decreases q
  {
    if q != [] {
      if q[0] == InterruptSession(id, q[0].reason) {
        if Final(None, q[1..]) == Some(id) {
          FinalComesFrom(None, q[1..], id);
        }
      } else {
        EndedBeforehand(id, q[1..]);
      }
    }
  }

  // ----- Texts in flight -----

  /** The messages by which the transcriber ends session id. */
  predicate EndsSession(envelope: Envelope, id: Bytes) {
    (envelope.VadTimeoutMessage? || envelope.ErrorMessage?) && envelope.sessionId == id
  }

  predicate SpeaksFor(envelope: Envelope, id: Bytes) {
    envelope.CommitTextMessage? && envelope.sessionId == id
  }

  /** How many texts of session id are in q. */
  ghost function InFlight(q: seq<Envelope>, id: Bytes): nat {
    if q == [] then 0 else (if SpeaksFor(q[0], id) then 1 else 0) + InFlight(q[1..], id)
  }

  /** The texts of session id in q are all[n], all[n + 1], ..., numbered n + 1, n + 2, ... */
  ghost predicate Consecutive(q: seq<Envelope>, id: Bytes, n: nat, all: seq<string>)
    decreases q
  {
    q == [] ||
    if SpeaksFor(q[0], id) then
      && n < |all|
      && q[0].sequenceNo == n + 1
      && q[0].text == all[n]
      && Consecutive(q[1..], id, n + 1, all)
    else Consecutive(q[1..], id, n, all)
  }

  lemma {:induction false} NoneInFlight(q: seq<Envelope>, id: Bytes, n: nat, all: seq<string>)
    requires forall e :: e in q ==> !SpeaksFor(e, id)
    ensures InFlight(q, id) == 0 && Consecutive(q, id, n, all)
    decreases q
  {
    if q != [] {
      assert q[0] in q;
      NoneInFlight(q[1..], id, n, all);
    }
  }

  /** Another message queued behind the others, and the log of texts grown by `more`. */
  lemma {:induction false} ConsecutiveGrows(q: seq<Envelope>, e: Envelope, id: Bytes, n: nat, all: seq<string>, more: seq<string>)
    requires Consecutive(q, id, n, all)
    requires SpeaksFor(e, id) ==>
               n + InFlight(q, id) == |all| && e.sequenceNo == |all| + 1 && more == [e.text]
    ensures Consecutive(q + [e], id, n, all + more)
    ensures InFlight(q + [e], id) == InFlight(q, id) + if SpeaksFor(e, id) then 1 else 0
    decreases q
  {
    if q == [] {
      assert (q + [e])[1..] == [];
    } else {
      assert (q + [e])[1..] == q[1..] + [e];
      ConsecutiveGrows(q[1..], e, id, if SpeaksFor(q[0], id) then n + 1 else n, all, more);
    }
  }

  lemma {:induction false} ConsecutivePrefix(q: seq<Envelope>, id: Bytes, n: nat, all: seq<string>, m: nat, more: seq<string>)
    requires m <= |q| && Consecutive(q, id, n, all)
    ensures Consecutive(q[..m], id, n, all + more)
    decreases m
  {
    if m > 0 {
      assert q[..m][1..] == q[1..][..m - 1];
      ConsecutivePrefix(q[1..], id, if SpeaksFor(q[0], id) then n + 1 else n, all, m - 1, more);
    }
  }
}
