/**
 Engine and transport together: dispatches on the addon's thread, commands queued for the
 transport, notices queued for the engine. Notices carry no generation, so one about a retired
 connection can meet a newer attempt; still no attempt is lost and no connection is forgotten.

 As long as the 128 command slots are not exhausted and payloads fit a frame.
 */
module Link {
  import opened Protocol
  import opened Framing
  import opened SessionMachine
  import opened EngineRuns
  import opened Transport
  import opened Adapter
  import T = TransportRuns

  datatype System = System(desk: Desk, actor: Actor, notices: seq<Event>)

  datatype Step =
    | Happens(event: Event, registry: Registry, world: World)
    | Delivers(world: World)
    | Obeys
    | Moves(step: T.Step)

  /** What fcitx and the configuration tell the addon. */
  predicate FromOutside(event: Event) {
    || event.ConnectionConfigured? || event.Toggle? || event.FocusIn? || event.FocusOut?
    || event.ContextDestroyed?
  }

  ghost predicate Fits(y: System, world: World) {
    && world.connected == y.actor.conn.Open?
    && |y.desk.commands| < COMMAND_CAPACITY
    && EncodesWithinLimit(world)
  }

  ghost predicate EncodesWithinLimit(world: World) {
    forall envelope :: |world.encode(envelope)| <= MAX_FRAME_SIZE
  }

  ghost predicate Enabled(y: System, step: Step) {
    match step
    case Happens(event, _, world) => FromOutside(event) && Fits(y, world)
    case Delivers(world) => y.notices != [] && Fits(y, world)
    case Obeys => y.desk.commands != []
    case Moves(s) => !s.Commanded? && T.Enabled(y.actor, s)
  }

  function News(before: Actor, after: Actor): seq<Event> {
    if |after.published| > |before.published| then [after.published[|before.published|].event] else []
  }

  function Moved(y: System, actor: Actor): System {
    y.(actor := actor, notices := y.notices + News(y.actor, actor))
  }

  function Take(y: System, step: Step): System
    requires Enabled(y, step)
  {
    match step
    case Happens(event, registry, world) => y.(desk := Dispatched(y.desk.(registry := registry), [event], world))
    case Delivers(world) => y.(desk := Dispatched(y.desk, [y.notices[0]], world), notices := y.notices[1..])
    case Obeys =>
      Moved(y, Perform(y.actor, y.desk.commands[0])).(desk := y.desk.(commands := y.desk.commands[1..]))
    case Moves(s) => Moved(y, T.Take(y.actor, s))
  }

  ghost predicate IsRun(systems: seq<System>, steps: seq<Step>) {
    && |systems| == |steps| + 1
    && systems[0].desk.engine == INITIAL && systems[0].desk.commands == []
    && systems[0].actor == COLD && systems[0].notices == []
    && forall k :: 0 <= k < |steps| ==> Enabled(systems[k], steps[k]) && systems[k + 1] == Take(systems[k], steps[k])
  }

  // ----- Queues -----

  /** What a notice says about the connection: authenticated, over, or nothing. */
  datatype Mark = Plain | Up | Over

  function MarkOf(event: Event): Mark {
    if event.ConnectionAuthenticated? then Up else if T.IsTerminal(event) then Over else Plain
  }

  function FirstMark(q: seq<Event>): Mark {
    if q == [] then Plain else if !MarkOf(q[0]).Plain? then MarkOf(q[0]) else FirstMark(q[1..])
  }

  function LastMark(q: seq<Event>): Mark {
    if q == [] then Plain else if !LastMark(q[1..]).Plain? then LastMark(q[1..]) else MarkOf(q[0])
  }

  /** Between two authentications the first connection is over. */
  ghost predicate Separate(q: seq<Event>) {
    q == [] || (Separate(q[1..]) && (MarkOf(q[0]).Up? ==> !FirstMark(q[1..]).Up?))
  }

  lemma {:induction false} Arrival(q: seq<Event>, e: Event)
    ensures FirstMark(q + [e]) == if FirstMark(q).Plain? then MarkOf(e) else FirstMark(q)
    ensures LastMark(q + [e]) == if MarkOf(e).Plain? then LastMark(q) else MarkOf(e)
    ensures Separate(q) && !(LastMark(q).Up? && MarkOf(e).Up?) ==> Separate(q + [e])
    ensures FirstMark(q).Plain? <==> LastMark(q).Plain?
    decreases q
  {
    if q == [] {
      assert (q + [e])[1..] == [];
    } else {
      assert (q + [e])[1..] == q[1..] + [e];
      Arrival(q[1..], e);
    }
  }

  lemma {:induction false} MarksOccur(q: seq<Event>)
    ensures !FirstMark(q).Plain? ==> exists e :: e in q && MarkOf(e) == FirstMark(q)
    ensures !LastMark(q).Plain? ==> exists e :: e in q && MarkOf(e) == LastMark(q)
    ensures FirstMark(q).Plain? <==> LastMark(q).Plain?
    decreases q
  {
    if q != [] {
      MarksOccur(q[1..]);
      assert q == [q[0]] + q[1..];
    }
  }

  /** The last command queued that is about the connection itself. */
  function LastOrder(commands: seq<Command>): Option<Command> {
    if commands == [] then None
    else
      var last := commands[|commands| - 1];
      if last.SendCommand? then LastOrder(commands[..|commands| - 1]) else Some(last)
  }

  predicate Closing(commands: seq<Command>) {
    LastOrder(commands).Some? && LastOrder(commands).value.DisconnectCommand?
  }

  lemma {:induction false} LastOrderOccurs(commands: seq<Command>)
    ensures LastOrder(commands).Some? ==> LastOrder(commands).value in commands && !LastOrder(commands).value.SendCommand?
    ensures LastOrder(commands).None? ==> forall c :: c in commands ==> c.SendCommand?
    decreases commands
  {
    if commands != [] {
      LastOrderOccurs(commands[..|commands| - 1]);
      assert commands == commands[..|commands| - 1] + [commands[|commands| - 1]];
    }
  }

  lemma {:induction false} Departure(commands: seq<Command>)
    requires commands != []
    ensures LastOrder(commands[1..]) == LastOrder(commands)
         || (LastOrder(commands[1..]).None? && (commands[0].SendCommand? || LastOrder(commands) == Some(commands[0])))
    decreases commands
  {
    var n := |commands|;
    if n > 1 {
      assert commands[1..][..n - 2] == commands[..n - 1][1..];
      Departure(commands[..n - 1]);
    }
  }

  lemma Ordered(commands: seq<Command>, c: Command)
    ensures LastOrder(commands + [c]) == if c.SendCommand? then LastOrder(commands) else Some(c)
  {
    assert (commands + [c])[..|commands|] == commands;
  }
}
