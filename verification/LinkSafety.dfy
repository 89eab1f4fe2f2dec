/** No attempt to connect is lost and no connection is forgotten, in every run of engine and transport. */
module LinkSafety {
  import opened Protocol
  import opened Framing
  import opened SessionMachine
  import opened EngineRuns
  import opened Transport
  import opened Adapter
  import opened Link
  import T = TransportRuns

  // ----- What a dispatch does to the connection -----

  /** The command a dispatch queued, if any. */
  function Issued(before: Desk, after: Desk): Option<Command> {
    if |after.commands| > |before.commands| then Some(after.commands[|after.commands| - 1]) else None
  }

  /** At most one command was queued, behind the others. */
  ghost predicate Queued(before: Desk, after: Desk) {
    after.commands == before.commands + if Issued(before, after).Some? then [Issued(before, after).value] else []
  }

  predicate Sends(command: Option<Command>) {
    command.None? || command.value.SendCommand?
  }

  /** An event that is not about the connection, and what the engine asked of the transport. */
  ghost predicate Ordinary(before: Desk, after: Desk, connected: bool) {
    var command := Issued(before, after);
    && (after.engine.phase.Ready? ==> before.engine.phase.Ready?)
    && (before.engine.phase.Ready? && !after.engine.phase.Ready? ==> !connected || command == Some(DisconnectCommand))
    && (after.engine.phase.Connecting? ==>
          || (before.engine.phase.Connecting? && Sends(command))
          || (command.Some? && command.value.ConnectCommand?))
  }

  /** The notice that an attempt is authenticated, perhaps one the engine has given up. */
  ghost predicate Answered(before: Desk, after: Desk, connected: bool) {
    if before.engine.phase.Connecting? then
      && (after.engine.phase.Ready? || (after.engine.phase.Disconnected? && !connected))
      && Sends(Issued(before, after))
    else
      after.engine == before.engine && Issued(before, after) == Some(DisconnectCommand)
  }

  ghost predicate Linked(before: Desk, event: Event, after: Desk, connected: bool) {
    && Inv(after.engine)
    && Queued(before, after)
    && match MarkOf(event)
       case Plain => Ordinary(before, after, connected)
       case Up => Answered(before, after, connected)
       case Over => after.engine.phase.Disconnected? && Issued(before, after).None?
  }

  /** How the one action of an event goes with the engine's phase. */
  lemma ActionAndPhase(m: Machine, event: Event, generated: Result<SessionId>)
    requires Inv(m)
    ensures var next, action := Next(m, event, generated).machine, Action(Next(m, event, generated).effects);
            match MarkOf(event)
            case Plain =>
              (match action
               case None =>
                 && (next.phase.Ready? <==> m.phase.Ready?)
                 && (next.phase.Connecting? ==> m.phase.Connecting?)
               case Some(Connect) => m.phase.Disconnected? && next.phase.Connecting?
               case Some(Disconnect) => next.phase.Disconnected?
               case Some(SendEnvelope(_)) => m.phase.Ready? && next.phase.Ready?
               case Some(CommitText(_, _)) => event.ConnectionCommitText? && m.phase.Ready? && next.phase.Ready?
               case Some(_) => false)
            case Up =>
              if m.phase.Connecting? then
                next.phase.Ready? && (action.None? || action.value.SendEnvelope?)
              else next == m && action == Some(Disconnect)
            case Over => next.phase.Disconnected? && action.None?
  {
  }

  /** One event handled, before any event it queued. */
  lemma OneHandled(d: Desk, event: Event, world: World)
    requires Inv(d.engine) && |d.commands| < COMMAND_CAPACITY && EncodesWithinLimit(world)
    ensures var p := Handled(d, event, world);
            && Inv(p.desk.engine)
            && (p.queue == [] ==> Linked(d, event, p.desk, world.connected))
            && (p.queue != [] ==>
                  && p.desk.commands == d.commands
                  && (p.queue[0].ConnectionFailed? || p.queue[0].ContextDestroyed?)
                  && !MarkOf(event).Over?
                  && (p.queue[0].ConnectionFailed? ==>
                        if MarkOf(event).Up? then d.engine.phase.Connecting? && !world.connected
                        else d.engine.phase.Disconnected? || !world.connected)
                  && (p.queue[0].ContextDestroyed? ==>
                        event.ConnectionCommitText? && p.desk.engine.phase.Ready? && d.engine.phase.Ready?))
  {
    HandledIsActed(d, event, world);
    InvariantKept(d.engine, event, world.generated);
    ActionAndPhase(d.engine, event, world.generated);
    hide Next, Handled, Inv, Erased;
  }

  /** A whole dispatch, with everything its effects set off. */
  lemma {:induction false} DispatchIsLinked(d: Desk, event: Event, world: World)
    requires Inv(d.engine) && |d.commands| < COMMAND_CAPACITY && EncodesWithinLimit(world)
    ensures Linked(d, event, Dispatched(d, [event], world), world.connected)
    decreases Rank(event)
  {
    OneHandled(d, event, world);
    FollowUpsAreSmaller(d, event, world);
    hide Next, Handled, Inv;
    var p := Handled(d, event, world);
    if p.queue == [] {
    } else if p.queue[0].ContextDestroyed? {
      assert p.queue == [ContextDestroyed(p.queue[0].context)];
      DispatchIsLinked(p.desk, p.queue[0], world);
    } else {
      assert p.queue == [ConnectionFailed(p.queue[0].error)];
      FailureIsFinal(p.desk, p.queue[0].error, world);
      FailureKeepsInvariant(p.desk.engine);
    }
  }

  // ----- The invariant -----

  ghost predicate WillConnect(commands: seq<Command>) {
    exists c :: c in commands && c.ConnectCommand?
  }

  /** The queued notices fit the connection: the last word about it is its current state. */
  ghost predicate NoticesOk(open: bool, q: seq<Event>) {
    && Separate(q)
    && (if open then !LastMark(q).Over? else !LastMark(q).Up?)
  }

  /** What the engine believes, given what it has yet to hear and what it has already asked for. */
  ghost predicate BeliefOk(phase: Phase, commands: seq<Command>, conn: Conn, q: seq<Event>) {
    && (phase.Ready? ==> !FirstMark(q).Up?)
    && (phase.Ready? && !conn.Open? ==> FirstMark(q).Over?)
    && (conn.Open? && LastMark(q).Plain? ==> phase.Ready? || DisconnectCommand in commands)
    && (phase.Connecting? ==> !Closing(commands))
    && (phase.Connecting? ==> WillConnect(commands) || conn.Handshaking? || !FirstMark(q).Plain?)
  }

  ghost predicate Ok(y: System) {
    && Inv(y.desk.engine)
    && NoticesOk(y.actor.conn.Open?, y.notices)
    && BeliefOk(y.desk.engine.phase, y.desk.commands, y.actor.conn, y.notices)
  }

  lemma PlainEventKeepsBelief(before: Desk, event: Event, after: Desk, conn: Conn, q: seq<Event>)
    requires Linked(before, event, after, conn.Open?) && MarkOf(event).Plain?
    requires NoticesOk(conn.Open?, q)
    requires BeliefOk(before.engine.phase, before.commands, conn, q)
    ensures BeliefOk(after.engine.phase, after.commands, conn, q)
  {
    MarksOccur(q);
    var command := Issued(before, after);
    if command.Some? {
      Ordered(before.commands, command.value);
      assert after.commands == before.commands + [command.value];
    } else {
      assert after.commands == before.commands;
    }
  }

  lemma NoticeKeepsBelief(before: Desk, after: Desk, conn: Conn, q: seq<Event>)
    requires q != [] && Linked(before, q[0], after, conn.Open?) && !MarkOf(q[0]).Plain?
    requires NoticesOk(conn.Open?, q)
    requires BeliefOk(before.engine.phase, before.commands, conn, q)
    ensures BeliefOk(after.engine.phase, after.commands, conn, q[1..])
  {
    MarksOccur(q[1..]);
    var command := Issued(before, after);
    if command.Some? {
      Ordered(before.commands, command.value);
      assert after.commands == before.commands + [command.value];
    } else {
      assert after.commands == before.commands;
    }
  }

  lemma HappeningKeepsOk(y: System, event: Event, registry: Registry, world: World)
    requires Ok(y) && Enabled(y, Happens(event, registry, world))
    ensures Ok(Take(y, Happens(event, registry, world)))
  {
    hide Next, Dispatched, BeliefOk, NoticesOk;
    var before := y.desk.(registry := registry);
    DispatchIsLinked(before, event, world);
    PlainEventKeepsBelief(before, event, Dispatched(before, [event], world), y.actor.conn, y.notices);
  }

  lemma DeliveryKeepsOk(y: System, world: World)
    requires Ok(y) && Enabled(y, Delivers(world))
    ensures Ok(Take(y, Delivers(world)))
  {
    hide Next, Dispatched, BeliefOk;
    var event, rest := y.notices[0], y.notices[1..];
    var after := Dispatched(y.desk, [event], world);
    DispatchIsLinked(y.desk, event, world);
    if MarkOf(event).Plain? {
      PlainEventKeepsBelief(y.desk, event, after, y.actor.conn, y.notices);
      SkippingPlain(after.engine.phase, after.commands, y.actor.conn, y.notices);
    } else {
      NoticeKeepsBelief(y.desk, after, y.actor.conn, y.notices);
    }
  }

  lemma SkippingPlain(phase: Phase, commands: seq<Command>, conn: Conn, q: seq<Event>)
    requires q != [] && MarkOf(q[0]).Plain? && BeliefOk(phase, commands, conn, q)
    ensures BeliefOk(phase, commands, conn, q[1..])
  {
  }

  /** The transport moves and perhaps publishes a notice; the engine knows nothing of it yet. */
  lemma TransportKeepsBelief(phase: Phase, commands: seq<Command>, conn: Conn, q: seq<Event>, conn': Conn, news: seq<Event>)
    requires NoticesOk(conn.Open?, q) && BeliefOk(phase, commands, conn, q)
    requires |news| <= 1
    requires if conn'.Open? == conn.Open? then
               news == [] || MarkOf(news[0]).Plain? || (!conn.Open? && MarkOf(news[0]).Over?)
             else
               news != [] && MarkOf(news[0]) == if conn'.Open? then Up else Over
    requires conn.Handshaking? && !conn'.Handshaking? ==> news != [] && !MarkOf(news[0]).Plain?
    ensures NoticesOk(conn'.Open?, q + news) && BeliefOk(phase, commands, conn', q + news)
  {
    if news == [] {
      assert q + news == q;
    } else {
      assert q + news == q + [news[0]];
      Arrival(q, news[0]);
    }
  }

  lemma MovingKeepsOk(y: System, step: T.Step)
    requires Ok(y) && Enabled(y, Moves(step))
    ensures Ok(Take(y, Moves(step)))
  {
    hide Inv, NoticesOk, BeliefOk;
    var actor := T.Take(y.actor, step);
    TransportKeepsBelief(y.desk.engine.phase, y.desk.commands, y.actor.conn, y.notices, actor.conn, News(y.actor, actor));
  }

  /** A connect command: starts an attempt, or is ignored because a connection is active. */
  lemma ConnectObeyed(phase: Phase, commands: seq<Command>, conn: Conn, q: seq<Event>)
    requires NoticesOk(conn.Open?, q) && BeliefOk(phase, commands, conn, q)
    requires commands != [] && commands[0].ConnectCommand?
    ensures BeliefOk(phase, commands[1..], if conn.Idle? then Handshaking else conn, q)
  {
    Departure(commands);
    LastOrderOccurs(commands);
    LastOrderOccurs(commands[1..]);
    MarksOccur(q);
    assert commands == [commands[0]] + commands[1..];
  }

  /** A disconnect command: a waiting engine has asked for another connection behind it. */
  lemma DisconnectObeyed(phase: Phase, commands: seq<Command>, conn: Conn, q: seq<Event>)
    requires NoticesOk(conn.Open?, q) && BeliefOk(phase, commands, conn, q)
    requires commands != [] && commands[0].DisconnectCommand?
    ensures var news := if conn.Open? then [ConnectionClosed] else [];
            NoticesOk(false, q + news) && BeliefOk(phase, commands[1..], Idle, q + news)
  {
    Departure(commands);
    LastOrderOccurs(commands);
    LastOrderOccurs(commands[1..]);
    MarksOccur(q);
    assert commands == [commands[0]] + commands[1..];
    assert commands[0] in commands;
    if phase.Connecting? {
      assert LastOrder(commands[1..]) == LastOrder(commands);
      assert LastOrder(commands).value in commands[1..] && LastOrder(commands).value.ConnectCommand?;
    }
    if conn.Open? {
      Arrival(q, ConnectionClosed);
    } else {
      assert q + [] == q;
    }
  }

  lemma SendObeyed(phase: Phase, commands: seq<Command>, conn: Conn, conn': Conn, q: seq<Event>)
    requires BeliefOk(phase, commands, conn, q)
    requires commands != [] && commands[0].SendCommand?
    requires conn'.Open? == conn.Open? && conn'.Handshaking? == conn.Handshaking?
    ensures BeliefOk(phase, commands[1..], conn', q)
  {
    Departure(commands);
    assert commands == [commands[0]] + commands[1..];
  }

  lemma ObeyingKeepsOk(y: System)
    requires Ok(y) && Enabled(y, Obeys)
    ensures Ok(Take(y, Obeys))
  {
    hide Inv, NoticesOk, BeliefOk;
    var phase, commands, conn := y.desk.engine.phase, y.desk.commands, y.actor.conn;
    assert y.notices + [] == y.notices;
    match commands[0] {
      case ConnectCommand(_) => ConnectObeyed(phase, commands, conn, y.notices);
      case DisconnectCommand => DisconnectObeyed(phase, commands, conn, y.notices);
      case SendCommand(_) => SendObeyed(phase, commands, conn, Perform(y.actor, commands[0]).conn, y.notices);
    }
  }

  // ----- Whole runs -----

  lemma StepKeepsOk(y: System, step: Step)
    requires Ok(y) && Enabled(y, step)
    ensures Ok(Take(y, step))
  {
    hide Next, Take, Ok;
    match step {
      case Happens(event, registry, world) => HappeningKeepsOk(y, event, registry, world);
      case Delivers(world) => DeliveryKeepsOk(y, world);
      case Obeys => ObeyingKeepsOk(y);
      case Moves(s) => MovingKeepsOk(y, s);
    }
  }

  lemma StartIsOk(y: System)
    requires y.desk.engine == INITIAL && y.desk.commands == [] && y.actor == COLD && y.notices == []
    ensures Ok(y)
  {
  }

  lemma {:induction false} RunKeepsOk(systems: seq<System>, steps: seq<Step>, k: nat)
    requires IsRun(systems, steps) && k < |systems|
    ensures Ok(systems[k])
  {
    hide Take, Ok, Enabled;
    if k == 0 {
      StartIsOk(systems[0]);
    } else {
      RunKeepsOk(systems, steps, k - 1);
      StepKeepsOk(systems[k - 1], steps[k - 1]);
    }
  }

  /**
   No wedged connect: a connecting engine always has its request queued, or the transport in a
   handshake, or a notice coming that will move it on.
   */
  lemma NoWedgedConnect(systems: seq<System>, steps: seq<Step>, k: nat)
    requires IsRun(systems, steps) && k < |systems| && systems[k].desk.engine.phase.Connecting?
    ensures WillConnect(systems[k].desk.commands)
         || systems[k].actor.conn.Handshaking?
         || exists e :: e in systems[k].notices && !MarkOf(e).Plain?
  {
    RunKeepsOk(systems, steps, k);
    MarksOccur(systems[k].notices);
  }

  /**
   No orphaned connection: while the transport is authenticated and the engine is not ready, the
   engine has yet to hear of it, or a disconnect is already queued.
   */
  lemma NoOrphanedConnection(systems: seq<System>, steps: seq<Step>, k: nat)
    requires IsRun(systems, steps) && k < |systems|
    requires systems[k].actor.conn.Open? && !systems[k].desk.engine.phase.Ready?
    ensures ConnectionAuthenticated in systems[k].notices || DisconnectCommand in systems[k].desk.commands
  {
    RunKeepsOk(systems, steps, k);
    MarksOccur(systems[k].notices);
  }

  /** A ready engine without a connection is about to be told that it is over. */
  lemma NoPhantomReadiness(systems: seq<System>, steps: seq<Step>, k: nat)
    requires IsRun(systems, steps) && k < |systems|
    requires systems[k].desk.engine.phase.Ready? && !systems[k].actor.conn.Open?
    ensures exists e :: e in systems[k].notices && T.IsTerminal(e)
  {
    RunKeepsOk(systems, steps, k);
    MarksOccur(systems[k].notices);
  }

  /** An authentication never reaches an engine that is already ready. */
  lemma AuthenticatedOnlyWhenNotReady(systems: seq<System>, steps: seq<Step>, k: nat)
    requires IsRun(systems, steps) && k < |systems|
    requires systems[k].notices != [] && systems[k].notices[0].ConnectionAuthenticated?
    ensures !systems[k].desk.engine.phase.Ready?
  {
    RunKeepsOk(systems, steps, k);
  }

  /** When nothing is queued and no handshake runs, engine and transport agree. */
  lemma RestingAgreement(systems: seq<System>, steps: seq<Step>, k: nat)
    requires IsRun(systems, steps) && k < |systems|
    requires systems[k].desk.commands == [] && systems[k].notices == [] && !systems[k].actor.conn.Handshaking?
    ensures systems[k].desk.engine.phase.Ready? <==> systems[k].actor.conn.Open?
    ensures systems[k].desk.engine.phase.Disconnected? <==> systems[k].actor.conn.Idle?
  {
    RunKeepsOk(systems, steps, k);
  }
}
