/** What every run of one connection keeps, whatever crosses in flight. */
module WireSafety {
  import opened Protocol
  import opened SessionMachine
  import opened EngineRuns
  import opened Transcriber
  import opened Wire

  // ----- The invariant -----

  /** Where session ids can be: an id is started once, then heard once, and only then spoken for. */
  ghost predicate IdsOk(w: Net) {
    && Inv(w.engine)
    && w.heard <= w.started
    && SessionIds(Current(w.engine)) <= w.started
    && (w.server.Some? ==> w.server.value.sessionId in w.heard)
    && (forall e :: e in w.toClient ==> IsForwarded(e) && e.sessionId in w.heard)
    && (forall e :: e in w.toClient && w.server.Some? ==> !EndsSession(e, w.server.value.sessionId))
    && (forall e :: e in w.toServer && e.StartSession? ==> e.sessionId in w.started && e.sessionId !in w.heard)
    && (forall i, j :: 0 <= i < j < |w.toServer| && w.toServer[i].StartSession? ==> w.toServer[i] != w.toServer[j])
  }

  /**
   The transcriber can take its whole channel; while the connection lasts it will then be in the
   engine's session, unless the message that ended that session is on its way to the engine.
   */
  ghost predicate LinkOk(w: Net) {
    && Safe(ServerId(w.server), w.toServer)
    && (w.linked && w.up ==> w.engine.phase.Ready? && Agree(w, Final(ServerId(w.server), w.toServer)))
  }

  ghost predicate Agree(w: Net, final: Option<Bytes>) {
    match Current(w.engine)
    case None => final == None
    case Some(s) =>
      || final == Some(s.id)
      || (final == None && exists e :: e in w.toClient && EndsSession(e, s.id))
  }

  /** Committed texts are a prefix of the emitted ones, and the texts in flight continue them. */
  ghost predicate TextsOk(w: Net) {
    && LogsOk(w)
    && (Current(w.engine).Some? ==> SessionTextsOk(w, Current(w.engine).value))
  }

  ghost predicate LogsOk(w: Net) {
    && (w.server.Some? ==> w.server.value.sequenceNo == |TextsOf(w.emitted, w.server.value.sessionId)| + 1)
    && (forall id :: id !in w.heard ==> TextsOf(w.emitted, id) == [])
    && (forall id :: TextsOf(w.committed, id) <= TextsOf(w.emitted, id))
  }

  ghost predicate SessionTextsOk(w: Net, s: Session) {
    var n, all := |TextsOf(w.committed, s.id)|, TextsOf(w.emitted, s.id);
    && (n + 1 < U64_LIMIT ==> s.nextSequenceNo == n + 1)
    && Consecutive(w.toClient, s.id, n, all)
    && (w.up ==> n + InFlight(w.toClient, s.id) == |all|)
  }

  ghost predicate Ok(w: Net) {
    IdsOk(w) && LinkOk(w) && TextsOk(w)
  }

  // ----- The engine's part of a step -----

  lemma LocalStep(m: Machine, event: Event, generated: Result<SessionId>)
    requires IsLocal(event)
    ensures var next, sent := Next(m, event, generated).machine, AllSent(Next(m, event, generated).effects);
            if Current(m).Some? then
              || (Current(next) == Current(m) && sent == [])
              || (Current(next).None? && sent == [] && !next.phase.Ready?)
              || (Current(next).None? && |sent| == 1 && sent[0].InterruptSession?
                  && sent[0].sessionId == Current(m).value.id && !sent[0].reason.Unspecified?)
            else if Current(next).Some? then
              sent == [StartSession(Current(next).value.id)] && Current(next).value.nextSequenceNo == 1
            else sent == []
  {
    OneEnvelopePerStep(m, event, generated);
  }

  lemma MessageStep(m: Machine, e: Envelope, generated: Result<SessionId>)
    requires IsForwarded(e)
    requires e.CommitTextMessage? && Concerns(m, e.sessionId) ==> e.sequenceNo == Current(m).value.nextSequenceNo
    ensures var outcome := Next(m, EventOf(e), generated);
            && AllSent(outcome.effects) == []
            && (m.phase.Ready? ==> outcome.machine.phase.Ready?)
            && |outcome.effects| == 1
            && if !Concerns(m, e.sessionId) then outcome.machine == m && outcome.effects[0].Log?
               else if e.CommitTextMessage? then
                 var s := Current(m).value;
                 && Current(outcome.machine) == Some(s.(nextSequenceNo := Successor(s.nextSequenceNo)))
                 && outcome.effects == [CommitText(s.context, e.text)]
               else Current(outcome.machine).None? && outcome.effects[0].Log?
  {
    OneEnvelopePerStep(m, EventOf(e), generated);
  }

  // ----- A local event -----

  lemma LocalEventKeepsIds(w: Net, event: Event, generated: Result<SessionId>)
    requires Ok(w) && Enabled(w, EngineHandles(event, generated))
    ensures IdsOk(Take(w, EngineHandles(event, generated)))
  {
    hide Next;
    InvariantKept(w.engine, event, generated);
    LocalStep(w.engine, event, generated);
  }

  lemma LocalEventKeepsLink(w: Net, event: Event, generated: Result<SessionId>)
    requires Ok(w) && Enabled(w, EngineHandles(event, generated))
    ensures LinkOk(Take(w, EngineHandles(event, generated)))
  {
    hide Next;
    LocalStep(w.engine, event, generated);
    var sent := AllSent(Next(w.engine, event, generated).effects);
    if w.linked && w.up && sent != [] {
      assert sent == [sent[0]];
      Appended(ServerId(w.server), w.toServer, sent[0]);
    } else {
      assert w.toServer + [] == w.toServer;
    }
  }

  lemma LocalEventKeepsTexts(w: Net, event: Event, generated: Result<SessionId>)
    requires Ok(w) && Enabled(w, EngineHandles(event, generated))
    ensures TextsOk(Take(w, EngineHandles(event, generated)))
  {
    hide Next;
    LocalStep(w.engine, event, generated);
    var after := Current(Next(w.engine, event, generated).machine);
    if Current(w.engine).None? && after.Some? {
      assert after.value.id !in w.heard;
      NoneInFlight(w.toClient, after.value.id, 0, []);
    }
  }

  // ----- A message reaching the engine -----

  /** The next text for the active session always carries the number the engine expects. */
  lemma NextTextIsExpected(w: Net)
    requires Ok(w) && w.toClient != [] && w.toClient[0].CommitTextMessage?
    requires Concerns(w.engine, w.toClient[0].sessionId)
    ensures w.toClient[0].sequenceNo == Current(w.engine).value.nextSequenceNo
    ensures var n, all := |TextsOf(w.committed, w.toClient[0].sessionId)|, TextsOf(w.emitted, w.toClient[0].sessionId);
            n < |all| && w.toClient[0].text == all[n]
  {
  }

  /** The text a message carries for the active session, if it does. */
  function TextFor(m: Machine, e: Envelope): Option<string> {
    if e.CommitTextMessage? && Concerns(m, e.sessionId) then Some(e.text) else None
  }

  /** A message changes the engine's session at most, and is committed if it is the session's text. */
  lemma MessageTaken(w: Net, generated: Result<SessionId>)
    requires Ok(w) && Enabled(w, EngineReceives(generated))
    ensures var w', e := Take(w, EngineReceives(generated)), w.toClient[0];
            && w' == w.(engine := w'.engine, linked := w'.linked, toClient := w.toClient[1..],
                        committed := if TextFor(w.engine, e).None? then w.committed
                                     else w.committed[e.sessionId := TextsOf(w.committed, e.sessionId) + [e.text]])
            && Inv(w'.engine)
            && w'.linked == (w.linked && w'.engine.phase.Ready?)
            && (w.engine.phase.Ready? ==> w'.engine.phase.Ready?)
            && Current(w'.engine) ==
                 if !Concerns(w.engine, e.sessionId) then Current(w.engine)
                 else if e.CommitTextMessage? then
                   var s := Current(w.engine).value;
                   Some(s.(nextSequenceNo := Successor(s.nextSequenceNo)))
                 else None
  {
    hide Next;
    var e := w.toClient[0];
    if e.CommitTextMessage? && Concerns(w.engine, e.sessionId) {
      NextTextIsExpected(w);
    }
    var next := Next(w.engine, EventOf(e), generated).machine;
    InvariantKept(w.engine, EventOf(e), generated);
    MessageStep(w.engine, e, generated);
    assert SessionIds(Current(next)) <= SessionIds(Current(w.engine));
    assert w.started + SessionIds(Current(next)) == w.started;
    assert w.toServer + [] == w.toServer;
  }

  lemma MessageKeepsIds(w: Net, generated: Result<SessionId>)
    requires Ok(w) && Enabled(w, EngineReceives(generated))
    ensures IdsOk(Take(w, EngineReceives(generated)))
  {
    MessageTaken(w, generated);
    hide Next, Take;
    assert w.toClient == [w.toClient[0]] + w.toClient[1..];
  }

  lemma MessageKeepsLink(w: Net, generated: Result<SessionId>)
    requires Ok(w) && Enabled(w, EngineReceives(generated))
    ensures LinkOk(Take(w, EngineReceives(generated)))
  {
    MessageTaken(w, generated);
    hide Next, Take;
    var e := w.toClient[0];
    assert w.toClient == [e] + w.toClient[1..];
    var final := Final(ServerId(w.server), w.toServer);
    if w.linked && w.up && Concerns(w.engine, e.sessionId) && !e.CommitTextMessage? {
      // The transcriber ended this session before it sent the message, and cannot be back in it.
      assert e in w.toClient && EndsSession(e, e.sessionId);
      assert StartSession(e.sessionId) !in w.toServer;
      if final == Some(e.sessionId) {
        FinalComesFrom(ServerId(w.server), w.toServer, e.sessionId);
      }
    } else if w.linked && w.up && Current(w.engine).Some? {
      var s := Current(w.engine).value;
      forall x | x in w.toClient && EndsSession(x, s.id) ensures x in w.toClient[1..] {
        assert x != e;
      }
    }
  }

  lemma MessageKeepsLogs(w: Net, generated: Result<SessionId>)
    requires Ok(w) && Enabled(w, EngineReceives(generated))
    ensures LogsOk(Take(w, EngineReceives(generated)))
  {
    MessageTaken(w, generated);
    var e := w.toClient[0];
    if TextFor(w.engine, e).Some? {
      NextTextIsExpected(w);
    }
    hide Next, Take, IdsOk, LinkOk, SessionTextsOk;
  }

  lemma MessageKeepsTexts(w: Net, generated: Result<SessionId>)
    requires Ok(w) && Enabled(w, EngineReceives(generated))
    ensures TextsOk(Take(w, EngineReceives(generated)))
  {
    MessageTaken(w, generated);
    MessageKeepsLogs(w, generated);
    if TextFor(w.engine, w.toClient[0]).Some? {
      NextTextIsExpected(w);
    }
    hide Next, Take, IdsOk, LinkOk, LogsOk;
  }

  // ----- The transcriber's steps -----

  /** The next envelope for the transcriber is one it accepts. */
  lemma NextEnvelopeIsAccepted(w: Net)
    requires Ok(w) && w.toServer != []
    ensures OnEnvelope(w.server, w.toServer[0]).Continue?
    ensures ServerId(OnEnvelope(w.server, w.toServer[0]).session) == Afterwards(ServerId(w.server), w.toServer[0])
  {
  }

  lemma ServerReceivesKeepsIds(w: Net)
    requires Ok(w) && Enabled(w, ServerReceives)
    ensures IdsOk(Take(w, ServerReceives))
  {
    NextEnvelopeIsAccepted(w);
    hide Next, LinkOk, TextsOk;
    assert w.toServer == [w.toServer[0]] + w.toServer[1..];
  }

  lemma ServerReceivesKeepsLink(w: Net)
    requires Ok(w) && Enabled(w, ServerReceives)
    ensures LinkOk(Take(w, ServerReceives))
  {
    NextEnvelopeIsAccepted(w);
    hide Next, IdsOk, TextsOk;
  }

  lemma ServerReceivesKeepsTexts(w: Net)
    requires Ok(w) && Enabled(w, ServerReceives)
    ensures TextsOk(Take(w, ServerReceives))
  {
    NextEnvelopeIsAccepted(w);
    if w.toServer[0].StartSession? {
      assert w.toServer[0] in w.toServer;
      NothingSaidBefore(w, w.toServer[0].sessionId);
    }
    hide Next, IdsOk, LinkOk;
  }

  /** Nothing is on its way for a session the transcriber has not heard of. */
  lemma NothingSaidBefore(w: Net, id: Bytes)
    requires IdsOk(w) && TextsOk(w) && id !in w.heard
    ensures TextsOf(w.emitted, id) == TextsOf(w.committed, id) == []
    ensures InFlight(w.toClient, id) == 0
  {
    assert TextsOf(w.committed, id) <= TextsOf(w.emitted, id);
    NoneInFlight(w.toClient, id, 0, []);
  }

  lemma ServerSpeaksKeepsIdsAndLink(w: Net, text: string)
    requires Ok(w) && Enabled(w, ServerSpeaks(text))
    ensures IdsOk(Take(w, ServerSpeaks(text))) && LinkOk(Take(w, ServerSpeaks(text)))
  {
    hide Next, TextsOk;
  }

  lemma ServerSpeaksKeepsLogs(w: Net, text: string)
    requires Ok(w) && Enabled(w, ServerSpeaks(text))
    ensures LogsOk(Take(w, ServerSpeaks(text)))
  {
    hide Next, LinkOk, SessionTextsOk;
    var w', a := Take(w, ServerSpeaks(text)), w.server.value;
    assert TextsOf(w'.emitted, a.sessionId) == TextsOf(w.emitted, a.sessionId) + [text];
    forall id
      ensures TextsOf(w'.committed, id) <= TextsOf(w'.emitted, id)
    {
      assert TextsOf(w.committed, id) <= TextsOf(w.emitted, id);
    }
  }

  lemma ServerSpeaksKeepsSessionTexts(w: Net, text: string, s: Session)
    requires Ok(w) && Enabled(w, ServerSpeaks(text)) && Current(w.engine) == Some(s)
    ensures SessionTextsOk(Take(w, ServerSpeaks(text)), s)
  {
    hide Next, IdsOk, LinkOk;
    var a := w.server.value;
    var e := Speech(a, text);
    var n, all := |TextsOf(w.committed, s.id)|, TextsOf(w.emitted, s.id);
    var more := if s.id == a.sessionId then [text] else [];
    assert TextsOf(Take(w, ServerSpeaks(text)).emitted, s.id) == all + more;
    if w.up {
      ConsecutiveGrows(w.toClient, e, s.id, n, all, more);
    } else {
      ConsecutivePrefix(w.toClient, s.id, n, all, |w.toClient|, more);
      assert w.toClient[..|w.toClient|] == w.toClient;
    }
  }

  lemma ServerSpeaksKeepsTexts(w: Net, text: string)
    requires Ok(w) && Enabled(w, ServerSpeaks(text))
    ensures TextsOk(Take(w, ServerSpeaks(text)))
  {
    hide Next, IdsOk, LinkOk, LogsOk, SessionTextsOk;
    ServerSpeaksKeepsLogs(w, text);
    if Current(w.engine).Some? {
      ServerSpeaksKeepsSessionTexts(w, text, Current(w.engine).value);
    }
  }

  lemma ServerEndsKeepsOk(w: Net, failure: Option<(ErrorCode, string)>)
    requires Ok(w) && Enabled(w, ServerEnds(failure))
    ensures Ok(Take(w, ServerEnds(failure)))
  {
    var id := w.server.value.sessionId;
    EndedBeforehand(id, w.toServer);
    var e := Farewell(w.server.value, failure);
    if w.up {
      assert e in w.toClient + [e];
      if Current(w.engine).Some? {
        var s := Current(w.engine).value;
        var all := TextsOf(w.emitted, s.id);
        assert all + [] == all;
        ConsecutiveGrows(w.toClient, e, s.id, |TextsOf(w.committed, s.id)|, all, []);
      }
    }
  }

  lemma BreakingKeepsOk(w: Net, n: nat, m: nat)
    requires Ok(w) && Enabled(w, Breaks(n, m))
    ensures Ok(Take(w, Breaks(n, m)))
  {
    SafePrefix(ServerId(w.server), w.toServer, n);
    if Current(w.engine).Some? {
      var s := Current(w.engine).value;
      var all := TextsOf(w.emitted, s.id);
      assert all + [] == all;
      ConsecutivePrefix(w.toClient, s.id, |TextsOf(w.committed, s.id)|, all, m, []);
    }
  }

  lemma LosingPeerKeepsOk(w: Net)
    requires Ok(w) && Enabled(w, ServerLosesPeer)
    ensures Ok(Take(w, ServerLosesPeer))
  {
  }

  // ----- Whole runs -----

  lemma OpeningIsOk(m: Machine, generated: Result<SessionId>)
    requires Inv(m) && m.phase.Connecting?
    ensures Ok(Connected(m, generated))
  {
    InvariantKept(m, ConnectionAuthenticated, generated);
    LocalStep(m, ConnectionAuthenticated, generated);
    var w := Connected(m, generated);
    assert w.engine.phase.Ready?;
    hide Next;
    if w.toServer != [] {
      Appended(None, [], w.toServer[0]);
      assert [] + [w.toServer[0]] == w.toServer;
    }
  }

  lemma StepKeepsOk(w: Net, step: Step)
    requires Ok(w) && Enabled(w, step)
    ensures Ok(Take(w, step))
  {
    hide Next, Take, IdsOk, LinkOk, TextsOk;
    match step {
      case EngineHandles(event, generated) =>
        LocalEventKeepsIds(w, event, generated);
        LocalEventKeepsLink(w, event, generated);
        LocalEventKeepsTexts(w, event, generated);
      case EngineReceives(generated) =>
        MessageKeepsIds(w, generated);
        MessageKeepsLink(w, generated);
        MessageKeepsTexts(w, generated);
      case ServerReceives =>
        ServerReceivesKeepsIds(w);
        ServerReceivesKeepsLink(w);
        ServerReceivesKeepsTexts(w);
      case ServerSpeaks(text) =>
        ServerSpeaksKeepsIdsAndLink(w, text);
        ServerSpeaksKeepsTexts(w, text);
      case ServerEnds(failure) => ServerEndsKeepsOk(w, failure);
      case ServerLosesPeer => LosingPeerKeepsOk(w);
      case Breaks(n, m) => BreakingKeepsOk(w, n, m);
    }
  }

  lemma {:induction false} RunKeepsOk(states: seq<Net>, steps: seq<Step>, k: nat)
    requires IsRun(states, steps) && k < |states|
    ensures Ok(states[k])
  {
    hide Next, Take, Ok;
    if k == 0 {
      var m, generated :| Inv(m) && m.phase.Connecting? && states[0] == Connected(m, generated);
      OpeningIsOk(m, generated);
    } else {
      RunKeepsOk(states, steps, k - 1);
      StepKeepsOk(states[k - 1], steps[k - 1]);
    }
  }

  /**
   Server safety: at every moment of every run, the next envelope for the transcriber is a
   StartSession while it has no session, or an InterruptSession it can take: none of its faults
   is ever reached.
   */
  lemma TranscriberNeverFaults(states: seq<Net>, steps: seq<Step>, k: nat)
    requires IsRun(states, steps) && k < |states| && states[k].toServer != []
    ensures OnEnvelope(states[k].server, states[k].toServer[0]).Continue?
    ensures states[k].toServer[0].StartSession? ==> states[k].server.None?
  {
    RunKeepsOk(states, steps, k);
    NextEnvelopeIsAccepted(states[k]);
  }

  /**
   Exactly once and in order: what the engine has committed for a session is always a prefix of
   what the transcriber emitted for it.
   */
  lemma CommittedIsPrefixOfEmitted(states: seq<Net>, steps: seq<Step>, k: nat, id: Bytes)
    requires IsRun(states, steps) && k < |states|
    ensures TextsOf(states[k].committed, id) <= TextsOf(states[k].emitted, id)
  {
    RunKeepsOk(states, steps, k);
  }

  /** The engine never meets a sequence mismatch: a text for its session is committed at once. */
  lemma NoSequenceMismatch(states: seq<Net>, steps: seq<Step>, k: nat, generated: Result<SessionId>)
    requires IsRun(states, steps) && k < |states|
    requires var w := states[k];
             w.toClient != [] && w.toClient[0].CommitTextMessage? && Concerns(w.engine, w.toClient[0].sessionId)
    ensures var w := states[k];
            && w.toClient[0].sequenceNo == Current(w.engine).value.nextSequenceNo
            && Next(w.engine, EventOf(w.toClient[0]), generated).effects
               == [CommitText(Current(w.engine).value.context, w.toClient[0].text)]
  {
    RunKeepsOk(states, steps, k);
    NextTextIsExpected(states[k]);
    MessageStep(states[k].engine, states[k].toClient[0], generated);
  }

  /**
   Quiescent agreement: when the connection lasts and nothing is in flight, both sides are in the
   same session or in none, and every text emitted for that session has been committed.
   */
  lemma QuiescentAgreement(states: seq<Net>, steps: seq<Step>, k: nat)
    requires IsRun(states, steps) && k < |states|
    requires states[k].linked && states[k].up && states[k].toServer == [] && states[k].toClient == []
    ensures var w := states[k];
            match Current(w.engine)
            case None => w.server == None
            case Some(s) =>
              && ServerId(w.server) == Some(s.id)
              && TextsOf(w.committed, s.id) == TextsOf(w.emitted, s.id)
  {
    RunKeepsOk(states, steps, k);
  }

  /** Only forwarded payloads travel to the engine, so the read loop never rejects one. */
  lemma OnlyForwardedPayloads(states: seq<Net>, steps: seq<Step>, k: nat, e: Envelope)
    requires IsRun(states, steps) && k < |states| && e in states[k].toClient
    ensures IsForwarded(e)
  {
    RunKeepsOk(states, steps, k);
  }

  /** The engine takes the transcriber's farewell for what it is: silence, or this very failure. */
  lemma FarewellIsUnderstood(m: Machine, a: Active, failure: Option<(ErrorCode, string)>, generated: Result<SessionId>)
    requires Concerns(m, a.sessionId)
    ensures var outcome := Next(m, EventOf(Farewell(a, failure)), generated);
            && outcome.machine == m.(phase := Phase.Ready(None))
            && outcome.effects == [Log(Info, match failure
                                             case None => TimedOut(a.sessionId)
                                             case Some(why) => TranscriberError(a.sessionId, why.0, why.1))]
  {
  }
}
