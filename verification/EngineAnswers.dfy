/**
 What the session engine owes to its inputs: which effects each event has, exactly, and which
 configuration, stage, focus, request and session any history leads to.
 */
module EngineAnswers {
  import opened Protocol
  import opened SessionMachine
  import opened R = EngineRuns

  // ----- Each effect, exactly when it is due -----

  /** The event asks for a transcription in a context that is neither transcribing nor waiting. */
  predicate Requests(m: Machine, event: Event) {
    event.Toggle? && event.focused && Current(m).None? && Waiting(m) != Some(event.context)
  }

  /** The context a session is to be started in as soon as there is an id for it. */
  function Starting(m: Machine, event: Event): Option<ContextId> {
    if event.ConnectionAuthenticated? then Waiting(m)
    else if Requests(m, event) && m.phase.Ready? && m.config.Loaded? then Some(event.context)
    else None
  }

  /** The key press was of use: it ended a session, withdrew a request or made one. */
  predicate AcceptsKey(m: Machine, event: Event) {
    && event.Toggle?
    && (Current(m).Some? || Waiting(m) == Some(event.context) || (event.focused && m.config.Loaded?))
  }

  predicate SendDue(m: Machine, event: Event, generated: Result<SessionId>, envelope: Envelope) {
    match envelope
    case StartSession(id) => Starting(m, event).Some? && generated.Ok? && generated.value == id
    case InterruptSession(id, reason) =>
      Current(m).Some? && Current(m).value.id == id && LocalEnding(m, event) == Some(reason)
    case _ => false
  }

  predicate NoteDue(m: Machine, event: Event, generated: Result<SessionId>, note: LogNote) {
    match note
    case Unconfigured => Requests(m, event) && m.config.NotLoaded?
    case Misconfigured(error) => Requests(m, event) && m.config == Rejected(error)
    case Ready => event.ConnectionAuthenticated? && m.phase.Connecting?
    case Closed => event.ConnectionClosed? && m.phase == Phase.Ready(None)
    case TransportFailed(error) => event == ConnectionFailed(error)
    case Interrupted(why) => WhyInterrupted(m, event) == Some(why)
    case Started(id) => Starting(m, event).Some? && generated == Ok(id)
    case CannotStart(error) => Starting(m, event).Some? && generated == Err(error)
    case UnexpectedSequence(received, expected) =>
      && event.ConnectionCommitText? && Concerns(m, event.sessionId)
      && event.sequenceNo == received && Current(m).value.nextSequenceNo == expected && received != expected
    case InactiveSession(name) => NameOf(event) == Some(name) && !Concerns(m, event.sessionId)
    case TimedOut(id) => event == ConnectionVadTimeout(id) && Concerns(m, id)
    case TranscriberError(id, code, message) => event == ConnectionErrorMessage(id, code, message) && Concerns(m, id)
  }

  /** The messages from the transcriber, by name. */
  function NameOf(event: Event): Option<string> {
    match event
    case ConnectionCommitText(_, _, _) => Some("CommitText")
    case ConnectionVadTimeout(_) => Some("VadTimeout")
    case ConnectionErrorMessage(_, _, _) => Some("Error")
    case _ => None
  }

  function WhyInterrupted(m: Machine, event: Event): Option<string> {
    match event
    case ConnectionFailed(_) => Some("transport failure")
    case ConnectionClosed =>
      if m.phase.Connecting? || Current(m).Some? then Some("transport disconnected") else None
    case _ =>
      if Current(m).None? || LocalEnding(m, event).None? then None
      else
        match LocalEnding(m, event).value
        case ByToggle => Some("toggle")
        case FocusChanged => Some("focus changed")
        case FocusLost => Some("focus lost")
        case InputContextDestroyed => Some("input context destroyed")
        case _ => Some("commit sequence mismatch")
  }

  predicate Due(m: Machine, event: Event, generated: Result<SessionId>, effect: Effect) {
    match effect
    case AcceptKey => AcceptsKey(m, event)
    case Connect => m.phase.Disconnected? && Requests(m, event) && m.config.Loaded?
    case Disconnect =>
      || (event.ConnectionConfigured? && !m.phase.Disconnected?)
      || (event.ConnectionAuthenticated? && !m.phase.Connecting?)
    case SendEnvelope(envelope) => SendDue(m, event, generated, envelope)
    case CommitText(c, text) =>
      && Current(m).Some? && Current(m).value.context == c
      && event == ConnectionCommitText(Current(m).value.id, Current(m).value.nextSequenceNo, text)
    case Log(level, note) =>
      level == (if note.Closed? || note.InactiveSession? then Debug else Info) && NoteDue(m, event, generated, note)
  }

  lemma ToggleExactly(m: Machine, c: ContextId, focused: bool, generated: Result<SessionId>, effect: Effect)
    ensures effect in OnToggle(m, c, focused, generated).effects <==> Due(m, Toggle(c, focused), generated, effect)
  {
  }

  lemma AuthenticationExactly(m: Machine, generated: Result<SessionId>, effect: Effect)
    ensures effect in OnAuthenticated(m, generated).effects <==> Due(m, ConnectionAuthenticated, generated, effect)
  {
  }

  lemma TextExactly(m: Machine, id: Bytes, n: U64, text: string, generated: Result<SessionId>, effect: Effect)
    ensures effect in OnCommitText(m, id, n, text).effects
       <==> Due(m, ConnectionCommitText(id, n, text), generated, effect)
  {
  }

  lemma FocusExactly(m: Machine, event: Event, generated: Result<SessionId>, effect: Effect)
    requires event.FocusIn? || event.FocusOut? || event.ContextDestroyed?
    ensures effect in Next(m, event, generated).effects <==> Due(m, event, generated, effect)
  {
  }

  lemma EndingExactly(m: Machine, event: Event, generated: Result<SessionId>, effect: Effect)
    requires event.ConnectionVadTimeout? || event.ConnectionErrorMessage?
    ensures effect in Next(m, event, generated).effects <==> Due(m, event, generated, effect)
  {
  }

  lemma ConnectionExactly(m: Machine, event: Event, generated: Result<SessionId>, effect: Effect)
    requires event.ConnectionConfigured? || event.ConnectionClosed? || event.ConnectionFailed?
    ensures effect in Next(m, event, generated).effects <==> Due(m, event, generated, effect)
  {
  }

  /** Every event has exactly the effects that are due. */
  lemma EffectsExactly(m: Machine, event: Event, generated: Result<SessionId>, effect: Effect)
    ensures effect in Next(m, event, generated).effects <==> Due(m, event, generated, effect)
  {
    hide Due, OnToggle, OnAuthenticated, OnCommitText;
    match event {
      case Toggle(c, focused) => ToggleExactly(m, c, focused, generated, effect);
      case ConnectionAuthenticated => AuthenticationExactly(m, generated, effect);
      case ConnectionCommitText(id, n, text) => TextExactly(m, id, n, text, generated, effect);
      case ConnectionVadTimeout(_) => EndingExactly(m, event, generated, effect);
      case ConnectionErrorMessage(_, _, _) => EndingExactly(m, event, generated, effect);
      case FocusIn(_) => FocusExactly(m, event, generated, effect);
      case FocusOut(_) => FocusExactly(m, event, generated, effect);
      case ContextDestroyed(_) => FocusExactly(m, event, generated, effect);
      case _ => ConnectionExactly(m, event, generated, effect);
    }
  }

  /** No effect comes twice. */
  lemma EffectsOnce(m: Machine, event: Event, generated: Result<SessionId>)
    ensures var effects := Next(m, event, generated).effects;
            forall i, j :: 0 <= i < j < |effects| ==> effects[i] != effects[j]
  {
  }

  // ----- One event, and where it leads -----

  /**
   A toggle in a focused context that neither transcribes nor waits, with a usable configuration:
   the key is accepted, and the request waits for a connection or starts its session at once.
   */
  lemma RequestGranted(m: Machine, c: ContextId, generated: Result<SessionId>)
    requires Inv(m) && m.config.Loaded? && Current(m).None? && Waiting(m) != Some(c)
    ensures var outcome := Next(m, Toggle(c, true), generated);
            var next, effects := outcome.machine, outcome.effects;
            && AcceptKey in effects
            && (Connect in effects <==> m.phase.Disconnected?)
            && (if !m.phase.Ready? then next.phase == Connecting(Some(c))
                else if generated.Ok? then
                  && next.phase == Phase.Ready(Some(Session(c, generated.value, 1)))
                  && SendEnvelope(StartSession(generated.value)) in effects
                else
                  && next.phase == Phase.Ready(None)
                  && Log(Info, CannotStart(generated.error)) in effects)
  {
  }

  /** Toggling a waiting context again withdraws its request, focused or not; the attempt goes on. */
  lemma SecondToggleWithdraws(m: Machine, c: ContextId, focused: bool, generated: Result<SessionId>)
    requires Waiting(m) == Some(c)
    ensures var outcome := Next(m, Toggle(c, focused), generated);
            outcome.machine.phase == Connecting(None) && outcome.effects == [AcceptKey]
  {
  }

  /** Without a usable configuration a request only leaves its reason in the log. */
  lemma RequestRefused(m: Machine, c: ContextId, generated: Result<SessionId>)
    requires Current(m).None? && Waiting(m) != Some(c)
    ensures var outcome := Next(m, Toggle(c, true), generated);
            !m.config.Loaded? <==>
              exists note :: outcome.effects == [Log(Info, note)] && outcome.machine.phase == m.phase
                             && note == if m.config.Rejected? then Misconfigured(m.config.error) else Unconfigured
  {
    var outcome := Next(m, Toggle(c, true), generated);
    if m.config.Loaded? {
      assert outcome.effects[0] == AcceptKey;
    } else {
      var note := if m.config.Rejected? then Misconfigured(m.config.error) else Unconfigured;
      assert outcome.effects == [Log(Info, note)];
    }
  }

  /** The phase without what hangs on it. */
  datatype Stage = Down | Opening | Up

  function StageOf(phase: Phase): Stage {
    match phase
    case Disconnected => Down
    case Connecting(_) => Opening
    case Ready(_) => Up
  }

  function StageAfter(stage: Stage, config: ConfigResult, event: Event): Stage {
    match event
    case ConnectionConfigured(_) => Down
    case ConnectionClosed => Down
    case ConnectionFailed(_) => Down
    case Toggle(_, focused) => if stage.Down? && focused && config.Loaded? then Opening else stage
    case ConnectionAuthenticated => if stage.Opening? then Up else stage
    case _ => stage
  }

  function FocusAfter(focused: Option<ContextId>, event: Event): Option<ContextId> {
    match event
    case FocusIn(c) => Some(c)
    case Toggle(c, true) => Some(c)
    case Toggle(c, false) => if focused == Some(c) then None else focused
    case FocusOut(c) => if focused == Some(c) then None else focused
    case ContextDestroyed(c) => if focused == Some(c) then None else focused
    case _ => focused
  }

  predicate Mentions(event: Event, c: ContextId) {
    (event.Toggle? || event.FocusIn? || event.FocusOut? || event.ContextDestroyed?) && event.context == c
  }

  lemma StageStep(m: Machine, event: Event, generated: Result<SessionId>)
    ensures var next := Next(m, event, generated).machine;
            && next.config == (if event.ConnectionConfigured? then event.result else m.config)
            && StageOf(next.phase) == StageAfter(StageOf(m.phase), m.config, event)
  {
  }

  lemma FocusStep(m: Machine, event: Event, generated: Result<SessionId>, c: ContextId)
    ensures var next := Next(m, event, generated).machine;
            && next.focused == FocusAfter(m.focused, event)
            && (Alive(next, c) <==> if Mentions(event, c) then !event.ContextDestroyed? else Alive(m, c))
  {
  }

  /** Who waits after an event: the newest request, or the old one unless it is withdrawn or served. */
  lemma WaitingExactly(m: Machine, event: Event, generated: Result<SessionId>)
    requires Inv(m)
    ensures Waiting(Next(m, event, generated).machine) ==
            if Requests(m, event) && m.config.Loaded? && !m.phase.Ready? then Some(event.context)
            else if Waiting(m).None? || Withdraws(event, Waiting(m).value) || event.ConnectionAuthenticated? then None
            else Waiting(m)
  {
  }

  /** Without a session, one starts exactly when a context is due to start and an id was generated. */
  lemma StartingExactly(m: Machine, event: Event, generated: Result<SessionId>)
    requires Inv(m) && Current(m).None?
    ensures Current(Next(m, event, generated).machine) ==
            if Starting(m, event).Some? && generated.Ok?
            then Some(Session(Starting(m, event).value, generated.value, 1)) else None
  {
  }

  // ----- Whole runs -----

  /** What the last configuration event said. */
  function Configuration(run: seq<Input>, k: nat): ConfigResult
    requires k <= |run|
  {
    if k == 0 then NotLoaded
    else if run[k - 1].event.ConnectionConfigured? then run[k - 1].event.result
    else Configuration(run, k - 1)
  }

  /** The stage of the connection as the events tell it. */
  function StageAt(run: seq<Input>, k: nat): Stage
    requires k <= |run|
  {
    if k == 0 then Down else StageAfter(StageAt(run, k - 1), Configuration(run, k - 1), run[k - 1].event)
  }

  function FocusAt(run: seq<Input>, k: nat): Option<ContextId>
    requires k <= |run|
  {
    if k == 0 then None else FocusAfter(FocusAt(run, k - 1), run[k - 1].event)
  }

  /** The last event about c was not its destruction, and there was one. */
  predicate AliveAt(run: seq<Input>, k: nat, c: ContextId)
    requires k <= |run|
  {
    k > 0 && if Mentions(run[k - 1].event, c) then !run[k - 1].event.ContextDestroyed? else AliveAt(run, k - 1, c)
  }

  /** Configuration, stage, focus and the living contexts at every moment, from the events alone. */
  lemma {:induction false} HistoryExactly(run: seq<Input>, k: nat, c: ContextId)
    requires k <= |run|
    ensures R.State(run, k).config == Configuration(run, k)
    ensures StageOf(R.State(run, k).phase) == StageAt(run, k)
    ensures R.State(run, k).focused == FocusAt(run, k)
    ensures Alive(R.State(run, k), c) <==> AliveAt(run, k, c)
  {
    hide Next, StageAfter, FocusAfter;
    if k > 0 {
      HistoryExactly(run, k - 1, c);
      StageStep(R.State(run, k - 1), run[k - 1].event, run[k - 1].generated);
      FocusStep(R.State(run, k - 1), run[k - 1].event, run[k - 1].generated, c);
    }
  }

  /** What the user and the configuration get: acceptance, connect and disconnect, by history. */
  lemma AnswersExactly(run: seq<Input>, k: nat)
    requires k < |run|
    ensures var event := run[k].event;
            && (Connect in EffectsAt(run, k) <==>
                  StageAt(run, k).Down? && event.Toggle? && event.focused && Configuration(run, k).Loaded?)
            && (Disconnect in EffectsAt(run, k) <==>
                  || (event.ConnectionConfigured? && !StageAt(run, k).Down?)
                  || (event.ConnectionAuthenticated? && !StageAt(run, k).Opening?))
            && (Requests(R.State(run, k), event) ==>
                  (AcceptKey in EffectsAt(run, k) <==> Configuration(run, k).Loaded?))
  {
    hide Next;
    HistoryExactly(run, k, 0);
    EffectsExactly(R.State(run, k), run[k].event, run[k].generated, Connect);
    EffectsExactly(R.State(run, k), run[k].event, run[k].generated, Disconnect);
    EffectsExactly(R.State(run, k), run[k].event, run[k].generated, AcceptKey);
  }

  /** c asked for a transcription at t, had to wait, and was neither withdrawn nor served before k. */
  ghost predicate Requested(run: seq<Input>, t: nat, k: nat, c: ContextId) {
    && t < k <= |run|
    && run[t].event == Toggle(c, true)
    && Configuration(run, t).Loaded? && !StageAt(run, t).Up? && Waiting(R.State(run, t)) != Some(c)
    && forall j :: t < j < k ==> !Withdraws(run[j].event, c) && !run[j].event.ConnectionAuthenticated?
  }

  lemma {:induction false} RequestKept(run: seq<Input>, t: nat, k: nat, c: ContextId)
    requires Requested(run, t, k, c)
    ensures Waiting(R.State(run, k)) == Some(c)
  {
    hide Next, StageAt;
    InvariantHolds(run, k - 1);
    HistoryExactly(run, k - 1, c);
    WaitingExactly(R.State(run, k - 1), run[k - 1].event, run[k - 1].generated);
    if t < k - 1 {
      RequestKept(run, t, k - 1, c);
    }
  }

  lemma {:induction false} WaitingWasRequested(run: seq<Input>, k: nat, c: ContextId) returns (t: nat)
    requires k <= |run| && Waiting(R.State(run, k)) == Some(c)
    ensures Requested(run, t, k, c)
  {
    hide Next, StageAt;
    assert k > 0;
    InvariantHolds(run, k - 1);
    HistoryExactly(run, k - 1, c);
    WaitingExactly(R.State(run, k - 1), run[k - 1].event, run[k - 1].generated);
    if Waiting(R.State(run, k - 1)) == Some(c) && !Withdraws(run[k - 1].event, c) {
      t := WaitingWasRequested(run, k - 1, c);
    } else {
      t := k - 1;
    }
  }

  /** Who is waiting at every moment, exactly. */
  lemma RequestsExactly(run: seq<Input>, k: nat, c: ContextId)
    requires k <= |run|
    ensures Waiting(R.State(run, k)) == Some(c) <==> exists t: nat :: Requested(run, t, k, c)
  {
    if Waiting(R.State(run, k)) == Some(c) {
      var t := WaitingWasRequested(run, k, c);
    }
    forall t: nat | Requested(run, t, k, c) ensures Waiting(R.State(run, k)) == Some(c) {
      RequestKept(run, t, k, c);
    }
  }

  /** A request that is still standing when the connection is authenticated gets its session. */
  lemma RequestServed(run: seq<Input>, t: nat, s: nat, c: ContextId, id: SessionId)
    requires s < |run| && Requested(run, t, s, c)
    requires run[s] == Input(ConnectionAuthenticated, Ok(id))
    ensures Starts(run, s, id)
    ensures Current(R.State(run, s + 1)) == Some(Session(c, id, 1))
  {
    hide Next;
    InvariantHolds(run, s);
    RequestKept(run, t, s, c);
    StartingExactly(R.State(run, s), run[s].event, run[s].generated);
    EffectsExactly(R.State(run, s), run[s].event, run[s].generated, SendEnvelope(StartSession(id)));
  }

  /**
   When a session starts, exactly: an id is generated, and either a standing request meets the
   authentication, or a focused toggle meets a ready connection without a session.
   */
  lemma StartsExactly(run: seq<Input>, s: nat, id: SessionId)
    requires s < |run|
    ensures Starts(run, s, id) <==>
            && run[s].generated == Ok(id)
            && ((run[s].event.ConnectionAuthenticated? && exists t: nat, c: ContextId :: Requested(run, t, s, c))
                || (StageAt(run, s).Up? && Current(R.State(run, s)).None?
                    && run[s].event.Toggle? && run[s].event.focused))
  {
    hide Next;
    var m := R.State(run, s);
    InvariantHolds(run, s);
    HistoryExactly(run, s, 0);
    EffectsExactly(m, run[s].event, run[s].generated, SendEnvelope(StartSession(id)));
    if Waiting(m).Some? {
      var t := WaitingWasRequested(run, s, Waiting(m).value);
    }
    forall t: nat, c: ContextId | Requested(run, t, s, c) ensures Waiting(m) == Some(c) {
      RequestKept(run, t, s, c);
    }
  }
}
