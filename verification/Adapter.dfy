/**
 The addon between the input method framework, the session engine and the transport
 (src/addon/addon.cpp): the registry of input contexts and the dispatch loop.
 */
module Adapter {
  import opened Protocol
  import opened Framing
  import opened SessionMachine
  import opened EngineRuns
  import opened EngineAnswers
  import opened SessionEngine
  import opened Transport

  // ----- The registry of input contexts -----

  /** An address; after an object is gone another may get the same one. */
  type Pointer = nat

  /** The object a weak reference was taken of. */
  type Ref = nat

  datatype InputContext = InputContext(pointer: Pointer, ref: Ref)

  datatype Registry = Registry(idOf: map<Pointer, ContextId>,
                               pointerOf: map<ContextId, Pointer>,
                               refs: map<ContextId, Ref>,
                               next: U64)

  /** Both directions agree, every id has a reference, and all ids in use have been handed out. */
  ghost predicate Coherent(r: Registry) {
    && (forall p :: p in r.idOf ==> r.idOf[p] in r.pointerOf && r.pointerOf[r.idOf[p]] == p)
    && (forall c :: c in r.pointerOf ==> r.pointerOf[c] in r.idOf && r.idOf[r.pointerOf[c]] == c)
    && r.pointerOf.Keys == r.refs.Keys
    && (forall c :: c in r.refs ==> 1 <= c < r.next)
    && 1 <= r.next
  }

  function Registered(r: Registry, ic: InputContext): Registry {
    if ic.pointer in r.idOf then r
    else
      Registry(r.idOf[ic.pointer := r.next],
               r.pointerOf[r.next := ic.pointer],
               r.refs[r.next := ic.ref],
               Successor(r.next))
  }

  function Erased(r: Registry, c: ContextId): Registry {
    if c !in r.refs then r
    else if c in r.pointerOf then r.(idOf := r.idOf - {r.pointerOf[c]}, pointerOf := r.pointerOf - {c}, refs := r.refs - {c})
    else r.(refs := r.refs - {c})
  }

  lemma RegisteringKeepsCoherence(r: Registry, ic: InputContext)
    requires Coherent(r) && (ic.pointer in r.idOf || r.next + 1 < U64_LIMIT)
    ensures Coherent(Registered(r, ic)) && ic.pointer in Registered(r, ic).idOf
    ensures ic.pointer !in r.idOf ==> Registered(r, ic).idOf[ic.pointer] !in r.refs
  {
  }

  lemma ErasingKeepsCoherence(r: Registry, c: ContextId)
    requires Coherent(r)
    ensures Coherent(Erased(r, c)) && Erased(r, c).refs == r.refs - {c}
  {
  }

  // ----- Dispatch, abstractly -----

  /**
   What the surroundings answer during one dispatch: the configuration as resolved now, whether
   the transport is authenticated, how an envelope is serialized, which input contexts still
   exist, and what the session id generator would say.
   */
  datatype World = World(resolved: Result<ConnectionConfig>, connected: bool, encode: Envelope -> Bytes,
                         live: set<Ref>, generated: Result<SessionId>)

  /** typed: texts delivered to input contexts; failed: whether a connect or send has failed. */
  datatype Desk = Desk(engine: Machine, registry: Registry, commands: seq<Command>, accepted: bool,
                       typed: seq<(Ref, string)>, failed: bool, handled: nat)

  /** Some effects of one event applied, and the events they queued. */
  datatype Pass = Pass(desk: Desk, queue: seq<Event>)

  function Fails(p: Pass, error: Error): Pass {
    Pass(p.desk.(failed := true), p.queue + [ConnectionFailed(error)])
  }

  function Orders(p: Pass, command: Command): Pass {
    p.(desk := p.desk.(commands := p.desk.commands + [command]))
  }

  function Apply(p: Pass, effect: Effect, world: World): Pass {
    var fits := |p.desk.commands| < COMMAND_CAPACITY;
    match effect
    case AcceptKey => p.(desk := p.desk.(accepted := true))
    case Connect =>
      if world.resolved.Err? then Fails(p, world.resolved.error)
      else if !fits then Fails(p, ConnectNotQueued(world.resolved.value))
      else Orders(p, ConnectCommand(world.resolved.value))
    case Disconnect => if fits then Orders(p, DisconnectCommand) else p
    case SendEnvelope(envelope) =>
      var payload := world.encode(envelope);
      var failure := SendFailure(world.connected, payload, |p.desk.commands|);
      if failure.Some? then Fails(p, failure.value) else Orders(p, SendCommand(FrameOf(payload)))
    case CommitText(c, text) =>
      if c !in p.desk.registry.refs then p
      else if p.desk.registry.refs[c] in world.live then
        p.(desk := p.desk.(typed := p.desk.typed + [(p.desk.registry.refs[c], text)]))
      else
        Pass(p.desk.(registry := Erased(p.desk.registry, c)), p.queue + [ContextDestroyed(c)])
    case Log(_, _) => p
  }

  function ApplyUpTo(p: Pass, effects: seq<Effect>, n: nat, world: World): Pass
    requires n <= |effects|
  {
    if n == 0 then p else Apply(ApplyUpTo(p, effects, n - 1, world), effects[n - 1], world)
  }

  /** The engine handles one event and all its effects are applied. */
  function Handled(d: Desk, event: Event, world: World): Pass {
    var outcome := Next(d.engine, event, world.generated);
    ApplyUpTo(Pass(d.(engine := outcome.machine, handled := d.handled + 1), []),
              outcome.effects, |outcome.effects|, world)
  }

  /** How many more rounds an event can cause: a failure none, a destroyed context a failed send. */
  function Rank(event: Event): nat {
    match event
    case ConnectionFailed(_) => 0
    case ContextDestroyed(_) => 1
    case _ => 2
  }

  function Rounds(queue: seq<Event>): nat {
    if queue == [] then 0 else Rank(queue[0]) + 1
  }

  /** Effects that do something beyond marking and logging. */
  predicate Acts(effect: Effect) {
    effect.Connect? || effect.Disconnect? || effect.SendEnvelope? || effect.CommitText?
  }

  lemma OneAction(m: Machine, event: Event, generated: Result<SessionId>)
    ensures var effects := Next(m, event, generated).effects;
            && (forall i, j :: 0 <= i < j < |effects| ==> !(Acts(effects[i]) && Acts(effects[j])))
            && (forall i :: 0 <= i < |effects| && Acts(effects[i]) ==>
                  match event
                  case ConnectionFailed(_) => false
                  case ContextDestroyed(_) => effects[i].SendEnvelope?
                  case _ => true)
  {
  }

  /** The one effect of an event that acts, if any. */
  function Action(effects: seq<Effect>): Option<Effect> {
    if |effects| > 0 && Acts(effects[0]) then Some(effects[0])
    else if |effects| > 1 && Acts(effects[1]) then Some(effects[1])
    else None
  }

  /** Handled, with the effects sorted into the key mark, the one action, and the rest. */
  function Acted(d: Desk, event: Event, world: World): Pass {
    var outcome := Next(d.engine, event, world.generated);
    var base := Pass(d.(engine := outcome.machine, handled := d.handled + 1,
                        accepted := d.accepted || AcceptKey in outcome.effects), []);
    var action := Action(outcome.effects);
    if action.None? then base else Apply(base, action.value, world)
  }

  function Marked(p: Pass, effects: seq<Effect>, n: nat): Pass
    requires n <= |effects|
  {
    p.(desk := p.desk.(accepted := p.desk.accepted || AcceptKey in effects[..n]))
  }

  lemma MarkedNext(p: Pass, effects: seq<Effect>, n: nat)
    requires 0 < n <= |effects|
    ensures Marked(p, effects, n).desk.accepted <==> Marked(p, effects, n - 1).desk.accepted || effects[n - 1].AcceptKey?
  {
    assert effects[..n] == effects[..n - 1] + [effects[n - 1]];
  }

  lemma {:induction false} NoActions(p: Pass, effects: seq<Effect>, n: nat, world: World)
    requires n <= |effects| && forall i :: 0 <= i < n ==> !Acts(effects[i])
    ensures ApplyUpTo(p, effects, n, world) == Marked(p, effects, n)
  {
    if n > 0 {
      NoActions(p, effects, n - 1, world);
      MarkedNext(p, effects, n);
    }
  }

  lemma {:induction false} OnlyAction(p: Pass, effects: seq<Effect>, n: nat, at: nat, world: World)
    requires at < n <= |effects| && Acts(effects[at])
    requires forall i :: 0 <= i < n && i != at ==> !Acts(effects[i])
    ensures ApplyUpTo(p, effects, n, world) == Apply(Marked(p, effects, n), effects[at], world)
    decreases n
  {
    MarkedNext(p, effects, n);
    if at == n - 1 {
      NoActions(p, effects, n - 1, world);
    } else {
      OnlyAction(p, effects, n - 1, at, world);
    }
  }

  lemma HandledIsActed(d: Desk, event: Event, world: World)
    ensures Handled(d, event, world) == Acted(d, event, world)
  {
    OneAction(d.engine, event, world.generated);
    OneActionComesEarly(d.engine, event, world.generated);
    hide Next, Apply;
    var outcome := Next(d.engine, event, world.generated);
    var effects, n := outcome.effects, |outcome.effects|;
    var p := Pass(d.(engine := outcome.machine, handled := d.handled + 1), []);
    assert effects[..n] == effects;
    if n > 0 && Acts(effects[0]) {
      OnlyAction(p, effects, n, 0, world);
    } else if n > 1 && Acts(effects[1]) {
      OnlyAction(p, effects, n, 1, world);
    } else {
      NoActions(p, effects, n, world);
    }
  }

  lemma OneActionComesEarly(m: Machine, event: Event, generated: Result<SessionId>)
    ensures var effects := Next(m, event, generated).effects;
            forall i :: 2 <= i < |effects| ==> !Acts(effects[i])
  {
  }

  /** Whatever fails, one event queues at most one other, of a lower rank. */
  lemma FollowUpsAreSmaller(d: Desk, event: Event, world: World)
    ensures |Handled(d, event, world).queue| <= 1
    ensures Rounds(Handled(d, event, world).queue) < Rounds([event])
  {
    HandledIsActed(d, event, world);
    OneAction(d.engine, event, world.generated);
    hide Next;
  }

  /** Runs a queue of at most one event to completion. */
  function Dispatched(d: Desk, queue: seq<Event>, world: World): Desk
    requires |queue| <= 1
    decreases Rounds(queue)
  {
    if queue == [] then d
    else
      FollowUpsAreSmaller(d, queue[0], world);
      var p := Handled(d, queue[0], world);
      assert queue == [queue[0]];
      Dispatched(p.desk, p.queue, world)
  }

  lemma HandlingCounts(d: Desk, event: Event, world: World)
    ensures Handled(d, event, world).desk.handled == d.handled + 1
  {
    HandledIsActed(d, event, world);
    hide Next, Handled, Action;
  }

  /** The loop ends after at most three events: one, two for a destroyed context, one for a failure. */
  lemma {:induction false} DispatchTerminates(d: Desk, queue: seq<Event>, world: World)
    requires |queue| <= 1
    ensures Dispatched(d, queue, world).handled <= d.handled + Rounds(queue) <= d.handled + 3
    decreases Rounds(queue)
  {
    hide Next, Handled;
    if queue != [] {
      HandlingCounts(d, queue[0], world);
      FollowUpsAreSmaller(d, queue[0], world);
      assert queue == [queue[0]];
      var p := Handled(d, queue[0], world);
      DispatchTerminates(p.desk, p.queue, world);
    }
  }

  /** The bound is met by a text for a context whose object is gone, while the connection is too. */
  lemma ThreeRounds(d: Desk, text: string, world: World)
    requires Current(d.engine).Some? && Current(d.engine).value.context in d.registry.refs
    requires d.registry.refs[Current(d.engine).value.context] !in world.live && !world.connected
    ensures var s := Current(d.engine).value;
            var after := Dispatched(d, [ConnectionCommitText(s.id, s.nextSequenceNo, text)], world);
            && after.handled == d.handled + 3
            && after.failed && after.engine.phase.Disconnected?
            && s.context !in after.registry.refs
  {
    var s := Current(d.engine).value;
    var event := ConnectionCommitText(s.id, s.nextSequenceNo, text);
    HandledIsActed(d, event, world);
    FollowUpsAreSmaller(d, event, world);
    var first := Handled(d, event, world);
    assert first.queue == [ContextDestroyed(s.context)];
    HandledIsActed(first.desk, ContextDestroyed(s.context), world);
    FollowUpsAreSmaller(first.desk, ContextDestroyed(s.context), world);
    var second := Handled(first.desk, ContextDestroyed(s.context), world);
    assert second.queue == [ConnectionFailed(NOT_READY)];
    FailureIsFinal(second.desk, NOT_READY, world);
    hide Next, Handled, Apply;
  }

  /** When a connect or send failed, the engine ends disconnected, waiting for nothing. */
  lemma {:induction false} FailureDisconnects(d: Desk, queue: seq<Event>, world: World)
    requires |queue| <= 1
    requires d.failed ==> if queue == [] then d.engine.phase.Disconnected? else queue[0].ConnectionFailed?
    ensures Dispatched(d, queue, world).failed ==> Dispatched(d, queue, world).engine.phase.Disconnected?
    decreases Rounds(queue)
  {
    if queue != [] {
      HandledIsActed(d, queue[0], world);
      FollowUpsAreSmaller(d, queue[0], world);
      assert queue == [queue[0]];
      if queue[0].ConnectionFailed? {
        FailureIsFinal(d, queue[0].error, world);
      } else {
        hide Next, Handled;
        var p := Handled(d, queue[0], world);
        FailureDisconnects(p.desk, p.queue, world);
      }
    }
  }

  lemma FailureIsFinal(d: Desk, error: Error, world: World)
    ensures Dispatched(d, [ConnectionFailed(error)], world)
         == d.(engine := d.engine.(phase := Disconnected), handled := d.handled + 1)
  {
    HandledIsActed(d, ConnectionFailed(error), world);
    FollowUpsAreSmaller(d, ConnectionFailed(error), world);
  }

  // ----- Registry and engine agree -----

  /** The context an event makes alive. */
  function Revived(event: Event): Option<ContextId> {
    match event
    case Toggle(c, _) => Some(c)
    case FocusIn(c) => Some(c)
    case FocusOut(c) => Some(c)
    case _ => None
  }

  /** The engine holds alive exactly the registered contexts, but for those in gone. */
  ghost predicate Aligned(m: Machine, r: Registry, gone: set<ContextId>) {
    forall c :: Alive(m, c) <==> c in r.refs && c !in gone
  }

  function Gone(event: Event): set<ContextId> {
    if event.ContextDestroyed? then {event.context} else {}
  }

  lemma ContextsAfter(m: Machine, event: Event, generated: Result<SessionId>)
    ensures Next(m, event, generated).machine.contexts ==
              if Revived(event).Some? then m.contexts[Revived(event).value := true]
              else if event.ContextDestroyed? then m.contexts[event.context := false]
              else m.contexts
  {
  }

  /** A text is only ever committed to a registered context. */
  lemma CommitTargetIsRegistered(d: Desk, event: Event, generated: Result<SessionId>, c: ContextId, text: string)
    requires Inv(d.engine) && Aligned(d.engine, d.registry, {})
    requires CommitText(c, text) in Next(d.engine, event, generated).effects
    ensures c in d.registry.refs
  {
    assert Alive(d.engine, c);
  }

  lemma RegistryAfter(d: Desk, event: Event, world: World)
    ensures var p := Handled(d, event, world);
            && p.desk.engine == Next(d.engine, event, world.generated).machine
            && if p.queue != [] && p.queue[0].ContextDestroyed? then
                 var c := p.queue[0].context;
                 && event.ConnectionCommitText?
                 && c in d.registry.refs
                 && p.desk.registry == Erased(d.registry, c)
               else p.desk.registry == d.registry
    ensures Handled(d, event, world).queue != [] ==>
              Handled(d, event, world).queue[0].ContextDestroyed? || Handled(d, event, world).queue[0].ConnectionFailed?
  {
    HandledExactly(d, event, world);
    hide Next, Handled, Erased, Ordering, AcceptsKey;
  }

  /**
   A dispatch keeps the registry coherent and in step with the engine. A context destroyed from
   outside is forgotten by the engine first and by the registry right after.
   */
  lemma {:induction false} DispatchKeepsStep(d: Desk, event: Event, world: World)
    requires Inv(d.engine) && Coherent(d.registry)
    requires Revived(event).Some? ==> Revived(event).value in d.registry.refs
    requires forall c: ContextId :: Revived(event) != Some(c) ==>
               (Alive(d.engine, c) <==> c in d.registry.refs || event == ContextDestroyed(c))
    ensures var after := Dispatched(d, [event], world);
            && Inv(after.engine)
            && Coherent(after.registry) && after.registry.next == d.registry.next
            && after.registry.refs.Keys <= d.registry.refs.Keys
            && (event.ContextDestroyed? ==> after.registry == d.registry)
            && Aligned(after.engine, after.registry, Gone(event))
    decreases Rank(event)
  {
    hide Next, Handled, Inv;
    var p := Handled(d, event, world);
    InvariantKept(d.engine, event, world.generated);
    ContextsAfter(d.engine, event, world.generated);
    RegistryAfter(d, event, world);
    DispatchGoesOn(d, event, world);
    hide Dispatched;
    if p.queue == [] {
    } else if p.queue[0].ContextDestroyed? {
      var c := p.queue[0].context;
      ErasingKeepsCoherence(d.registry, c);
      DispatchKeepsStep(p.desk, ContextDestroyed(c), world);
    } else {
      FailureIsFinal(p.desk, p.queue[0].error, world);
      FailureKeepsInvariant(p.desk.engine);
    }
  }

  lemma FailureKeepsInvariant(m: Machine)
    requires Inv(m)
    ensures Inv(m.(phase := Disconnected))
  {
  }

  // ----- What a dispatch comes to -----

  /** The input context's text the event brings for the active session, if it does. */
  function TextNow(m: Machine, event: Event): Option<(ContextId, string)> {
    if event.ConnectionCommitText? && Concerns(m, event.sessionId) && event.sequenceNo == Current(m).value.nextSequenceNo
    then Some((Current(m).value.context, event.text)) else None
  }

  /** A text for an input context that still exists is typed there. */
  function Typing(d: Desk, event: Event, world: World): seq<(Ref, string)> {
    var now := TextNow(d.engine, event);
    if now.Some? && now.value.0 in d.registry.refs && d.registry.refs[now.value.0] in world.live
    then [(d.registry.refs[now.value.0], now.value.1)] else []
  }

  /** The registered context whose input context turns out to be gone when its text arrives. */
  function Vanishing(d: Desk, event: Event, world: World): Option<ContextId> {
    var now := TextNow(d.engine, event);
    if now.Some? && now.value.0 in d.registry.refs && d.registry.refs[now.value.0] !in world.live
    then Some(now.value.0) else None
  }

  /** The envelope the event itself owes to the transcriber. */
  function EnvelopeDue(m: Machine, event: Event, generated: Result<SessionId>): Option<Envelope> {
    if Current(m).Some? then
      if LocalEnding(m, event).Some? then Some(InterruptSession(Current(m).value.id, LocalEnding(m, event).value)) else None
    else if Starting(m, event).Some? && generated.Ok? then Some(StartSession(generated.value))
    else None
  }

  /** The envelope owed in the end: an input context that is gone ends its session. */
  function Outgoing(d: Desk, event: Event, world: World): Option<Envelope> {
    if Vanishing(d, event, world).Some? then Some(InterruptSession(Current(d.engine).value.id, InputContextDestroyed))
    else EnvelopeDue(d.engine, event, world.generated)
  }

  /** The command an effect asks the transport for, or the error that stops it on this side. */
  function OrderOf(effect: Effect, queued: nat, world: World): Option<Result<Command>> {
    var full := queued >= COMMAND_CAPACITY;
    match effect
    case Connect =>
      Some(if world.resolved.Err? then Err(world.resolved.error)
           else if full then Err(ConnectNotQueued(world.resolved.value))
           else Ok(ConnectCommand(world.resolved.value)))
    case Disconnect => if full then None else Some(Ok(DisconnectCommand))
    case SendEnvelope(envelope) =>
      var payload := world.encode(envelope);
      Some(if !world.connected then Err(NOT_READY)
           else if |payload| > 65536 then Err(TOO_LARGE)
           else if full then Err(SEND_NOT_QUEUED)
           else Ok(SendCommand(FrameOf(payload))))
    case _ => None
  }

  /** The command a whole dispatch owes to the transport, or the error that stops it. */
  function Ordering(d: Desk, event: Event, world: World): Option<Result<Command>> {
    if Due(d.engine, event, world.generated, Connect) then OrderOf(Connect, |d.commands|, world)
    else if Due(d.engine, event, world.generated, Disconnect) then OrderOf(Disconnect, |d.commands|, world)
    else if Outgoing(d, event, world).Some? then
      OrderOf(SendEnvelope(Outgoing(d, event, world).value), |d.commands|, world)
    else None
  }

  predicate Placed(order: Option<Result<Command>>) {
    order.Some? && order.value.Ok?
  }

  predicate Refused(order: Option<Result<Command>>) {
    order.Some? && order.value.Err?
  }

  /** The one effect of an event that acts, told from what the event owes. */
  function ActionDue(m: Machine, event: Event, generated: Result<SessionId>): Option<Effect> {
    if Due(m, event, generated, Connect) then Some(Connect)
    else if Due(m, event, generated, Disconnect) then Some(Disconnect)
    else if EnvelopeDue(m, event, generated).Some? then Some(SendEnvelope(EnvelopeDue(m, event, generated).value))
    else if TextNow(m, event).Some? then Some(CommitText(TextNow(m, event).value.0, TextNow(m, event).value.1))
    else None
  }

  lemma ActionOccurs(m: Machine, event: Event, generated: Result<SessionId>, effect: Effect)
    requires Acts(effect)
    ensures Action(Next(m, event, generated).effects) == Some(effect) <==> effect in Next(m, event, generated).effects
  {
    OneAction(m, event, generated);
    OneActionComesEarly(m, event, generated);
    hide Next;
  }

  lemma DueIsAction(m: Machine, event: Event, generated: Result<SessionId>, effect: Effect)
    requires Acts(effect)
    ensures ActionDue(m, event, generated) == Some(effect) ==> Due(m, event, generated, effect)
    ensures ActionDue(m, event, generated).None? ==> !Due(m, event, generated, effect)
  {
  }

  lemma ActionExactly(m: Machine, event: Event, generated: Result<SessionId>)
    ensures Action(Next(m, event, generated).effects) == ActionDue(m, event, generated)
  {
    var taken, due := Action(Next(m, event, generated).effects), ActionDue(m, event, generated);
    hide Next, Due, ActionDue, Action;
    if due.Some? {
      DueActs(m, event, generated);
      DueIsAction(m, event, generated, due.value);
      EffectsExactly(m, event, generated, due.value);
      ActionOccurs(m, event, generated, due.value);
    } else if taken.Some? {
      TakenActs(Next(m, event, generated).effects);
      DueIsAction(m, event, generated, taken.value);
      EffectsExactly(m, event, generated, taken.value);
      ActionOccurs(m, event, generated, taken.value);
    }
  }

  lemma DueActs(m: Machine, event: Event, generated: Result<SessionId>)
    ensures ActionDue(m, event, generated).Some? ==> Acts(ActionDue(m, event, generated).value)
  {
    hide Due;
  }

  lemma TakenActs(effects: seq<Effect>)
    ensures Action(effects).Some? ==> Acts(Action(effects).value)
  {
  }

  lemma KeyExactly(m: Machine, event: Event, generated: Result<SessionId>)
    ensures AcceptKey in Next(m, event, generated).effects <==> AcceptsKey(m, event)
  {
    EffectsExactly(m, event, generated, AcceptKey);
    hide Next;
  }

  lemma TextsStandAlone(m: Machine, event: Event, generated: Result<SessionId>)
    requires TextNow(m, event).Some?
    ensures !Due(m, event, generated, Connect) && !Due(m, event, generated, Disconnect)
    ensures EnvelopeDue(m, event, generated).None?
  {
  }

  lemma HandledIsDue(d: Desk, event: Event, world: World)
    ensures var base := Pass(d.(engine := Next(d.engine, event, world.generated).machine, handled := d.handled + 1,
                                accepted := d.accepted || AcceptsKey(d.engine, event)), []);
            var action := ActionDue(d.engine, event, world.generated);
            Handled(d, event, world) == if action.None? then base else Apply(base, action.value, world)
  {
    HandledIsActed(d, event, world);
    ActionExactly(d.engine, event, world.generated);
    KeyExactly(d.engine, event, world.generated);
    hide Next, Handled, Action, ActionDue, Apply, AcceptsKey;
  }

  lemma OrderApplied(p: Pass, effect: Effect, world: World)
    requires effect.Connect? || effect.Disconnect? || effect.SendEnvelope?
    ensures var order := OrderOf(effect, |p.desk.commands|, world);
            Apply(p, effect, world) ==
            if Refused(order) then Pass(p.desk.(failed := true), p.queue + [ConnectionFailed(order.value.error)])
            else if Placed(order) then p.(desk := p.desk.(commands := p.desk.commands + [order.value.value]))
            else p
  {
  }

  /** One round of the dispatch loop. */
  lemma HandledExactly(d: Desk, event: Event, world: World)
    ensures var p, order, gone := Handled(d, event, world), Ordering(d, event, world), Vanishing(d, event, world);
            && p.desk.engine == Next(d.engine, event, world.generated).machine
            && p.desk.typed == d.typed + Typing(d, event, world)
            && (p.desk.accepted <==> d.accepted || AcceptsKey(d.engine, event))
            && p.desk.handled == d.handled + 1
            && if gone.Some? then
                 && p.queue == [ContextDestroyed(gone.value)]
                 && p.desk.registry == Erased(d.registry, gone.value)
                 && p.desk.commands == d.commands && p.desk.failed == d.failed
               else
                 && p.queue == (if Refused(order) then [ConnectionFailed(order.value.error)] else [])
                 && p.desk.registry == d.registry
                 && p.desk.commands == d.commands + (if Placed(order) then [order.value.value] else [])
                 && (p.desk.failed <==> d.failed || Refused(order))
  {
    HandledIsDue(d, event, world);
    hide Next, Handled, Erased, Due, AcceptsKey, EnvelopeDue, TextNow, OrderOf;
    if TextNow(d.engine, event).Some? {
      TextsStandAlone(d.engine, event, world.generated);
    } else {
      hide Apply;
      var base := Pass(d.(engine := Next(d.engine, event, world.generated).machine, handled := d.handled + 1,
                          accepted := d.accepted || AcceptsKey(d.engine, event)), []);
      var action := ActionDue(d.engine, event, world.generated);
      if action.Some? {
        OrderApplied(base, action.value, world);
      }
    }
  }

  lemma DispatchGoesOn(d: Desk, event: Event, world: World)
    ensures var p := Handled(d, event, world);
            Dispatched(d, [event], world) == if p.queue == [] then p.desk else Dispatched(p.desk, [p.queue[0]], world)
  {
    hide Handled;
    FollowUpsAreSmaller(d, event, world);
    var p := Handled(d, event, world);
    assert p.queue != [] ==> p.queue == [p.queue[0]];
  }

  /** When the input context is gone, the round that says so orders what the first one owed. */
  lemma SecondRound(d: Desk, event: Event, world: World)
    requires Vanishing(d, event, world).Some?
    ensures var c, next := Vanishing(d, event, world).value, Handled(d, event, world).desk;
            && Ordering(next, ContextDestroyed(c), world) == Ordering(d, event, world)
            && Typing(next, ContextDestroyed(c), world) == []
            && Vanishing(next, ContextDestroyed(c), world).None?
            && !AcceptsKey(next.engine, ContextDestroyed(c))
            && Typing(d, event, world) == []
  {
    HandledExactly(d, event, world);
    assert Current(Next(d.engine, event, world.generated).machine).value.id == Current(d.engine).value.id;
    assert Current(Next(d.engine, event, world.generated).machine).value.context == Vanishing(d, event, world).value;
    hide Next, Handled;
  }

  /** Where the engine ends up before anything failed. */
  function Settled(d: Desk, event: Event, world: World): Machine {
    var first := Next(d.engine, event, world.generated).machine;
    match Vanishing(d, event, world)
    case None => first
    case Some(c) => Next(first, ContextDestroyed(c), world.generated).machine
  }

  /**
   A whole dispatch, exactly: what is typed, whether the key is accepted, which command is queued,
   which context is forgotten, whether something failed, how many events that took, and where it
   leaves the engine.
   */
  lemma DispatchExactly(d: Desk, event: Event, world: World)
    ensures var after, order, gone :=
              Dispatched(d, [event], world), Ordering(d, event, world), Vanishing(d, event, world);
            && after.typed == d.typed + Typing(d, event, world)
            && (after.accepted <==> d.accepted || AcceptsKey(d.engine, event))
            && after.commands == d.commands + (if Placed(order) then [order.value.value] else [])
            && after.registry == (if gone.Some? then Erased(d.registry, gone.value) else d.registry)
            && (after.failed <==> d.failed || Refused(order))
            && after.handled == d.handled + 1 + (if gone.Some? then 1 else 0) + (if Refused(order) then 1 else 0)
            && after.engine == if Refused(order) then Settled(d, event, world).(phase := Disconnected)
                               else Settled(d, event, world)
  {
    HandledExactly(d, event, world);
    DispatchGoesOn(d, event, world);
    var p, order, gone := Handled(d, event, world), Ordering(d, event, world), Vanishing(d, event, world);
    hide Next, Handled, Dispatched, Ordering, Erased, AcceptsKey, Typing, Vanishing;
    if gone.Some? {
      var destroyed := ContextDestroyed(gone.value);
      SecondRound(d, event, world);
      HandledExactly(p.desk, destroyed, world);
      DispatchGoesOn(p.desk, destroyed, world);
      if Refused(order) {
        FailureIsFinal(Handled(p.desk, destroyed, world).desk, order.value.error, world);
      }
    } else if Refused(order) {
      FailureIsFinal(p.desk, order.value.error, world);
    }
  }

  /** While registry and engine are in step, a text for the active session reaches its input context, if that exists. */
  lemma TextArrives(d: Desk, event: Event, world: World)
    requires Inv(d.engine) && Aligned(d.engine, d.registry, {}) && TextNow(d.engine, event).Some?
    ensures var (c, text) := TextNow(d.engine, event).value;
            && c in d.registry.refs
            && Dispatched(d, [event], world).typed
               == d.typed + if d.registry.refs[c] in world.live then [(d.registry.refs[c], text)] else []
  {
    DispatchExactly(d, event, world);
    assert Alive(d.engine, Current(d.engine).value.context);
    hide Next, Dispatched, Ordering, Settled, Erased;
    assert d.typed + [] == d.typed;
  }

  // ----- The addon itself -----

  class Addon {
    const engine: Engine
    const io: Io
    var nextContextId: U64
    /** The two directions of the bidirectional map, and the weak references. */
    var contextsLeft: map<Pointer, ContextId>
    var contextsRight: map<ContextId, Pointer>
    var contextsById: map<ContextId, Ref>
    /** Texts delivered to input contexts so far. */
    var typed: seq<(Ref, string)>
    /** Every id ever handed out. */
    ghost var issued: set<ContextId>

    ghost function Contexts(): Registry
      reads this
    {
      Registry(contextsLeft, contextsRight, contextsById, nextContextId)
    }

    ghost function DeskNow(accepted: bool, failed: bool, handled: nat): Desk
      reads this, engine, io.shared
    {
      Desk(engine.Abstract(), Contexts(), io.shared.commands, accepted, typed, failed, handled)
    }

    /** Between dispatches: both maps agree, and the engine holds alive exactly the registered contexts. */
    ghost predicate Valid()
      reads this, engine
    {
      && engine.Valid()
      && Coherent(Contexts())
      && Aligned(engine.Abstract(), Contexts(), {})
      && contextsById.Keys <= issued
      && (forall c :: c in issued ==> c < nextContextId)
    }

    constructor (io: Io)
      ensures Valid() && this.io == io && fresh(engine)
      ensures contextsById == map[] && typed == []
    {
      this.io := io;
      engine := new Engine();
      nextContextId := 1;
      contextsLeft, contextsRight, contextsById := map[], map[], map[];
      typed := [];
      issued := {};
    }

    /** The context is known, or the 64-bit counter still has an id for it. */
    predicate HasIdFor(ic: InputContext)
      reads this
    {
      ic.pointer in contextsLeft || nextContextId + 1 < U64_LIMIT
    }

    method EnsureContextId(ic: InputContext) returns (c: ContextId)
      requires Coherent(Contexts()) && contextsById.Keys <= issued
      requires forall i :: i in issued ==> i < nextContextId
      requires HasIdFor(ic)
      modifies this`nextContextId, this`contextsLeft, this`contextsRight, this`contextsById, this`issued
      ensures Contexts() == Registered(old(Contexts()), ic) && Coherent(Contexts())
      ensures ic.pointer in contextsLeft && c == contextsLeft[ic.pointer] && c in contextsById
      ensures ic.pointer !in old(contextsLeft) ==> c !in old(issued)
      ensures old(issued) <= issued
      ensures contextsById.Keys <= issued && forall i :: i in issued ==> i < nextContextId
    {
      RegisteringKeepsCoherence(Contexts(), ic);
      if ic.pointer in contextsLeft {
        return contextsLeft[ic.pointer];
      }
      c := nextContextId;
      nextContextId := Successor(nextContextId);
      contextsById := contextsById[c := ic.ref];
      contextsLeft := contextsLeft[ic.pointer := c];
      contextsRight := contextsRight[c := ic.pointer];
      issued := issued + {c};
    }

    method FindContextId(pointer: Pointer) returns (c: Option<ContextId>)
      ensures c == if pointer in contextsLeft then Some(contextsLeft[pointer]) else None
    {
      c := if pointer in contextsLeft then Some(contextsLeft[pointer]) else None;
    }

    method EraseContext(c: ContextId)
      modifies this`contextsLeft, this`contextsRight, this`contextsById
      ensures Contexts() == Erased(old(Contexts()), c)
    {
      if c !in contextsById {
        return;
      }
      if c in contextsRight {
        contextsLeft := contextsLeft - {contextsRight[c]};
        contextsRight := contextsRight - {c};
      }
      contextsById := contextsById - {c};
    }

    /** Performs one effect; what fails at once becomes a further event. */
    method ApplyEffect(effect: Effect, world: World, accepted: bool, ghost failed: bool, ghost handled: nat, queue: seq<Event>)
      returns (acceptedNow: bool, ghost failedNow: bool, queueNow: seq<Event>)
      requires world.connected == io.shared.connected
      modifies this`contextsLeft, this`contextsRight, this`contextsById, this`typed, io.shared`commands
      ensures Pass(DeskNow(acceptedNow, failedNow, handled), queueNow)
           == Apply(Pass(old(DeskNow(accepted, failed, handled)), queue), effect, world)
      ensures effect.CommitText? && effect.context in old(contextsById) ==>
                var ref := old(contextsById)[effect.context];
                if ref in world.live then
                  typed == old(typed) + [(ref, effect.text)] && queueNow == queue && Contexts() == old(Contexts())
                else
                  typed == old(typed) && queueNow == queue + [ContextDestroyed(effect.context)]
    {
      acceptedNow, failedNow, queueNow := accepted, failed, queue;
      match effect {
        case AcceptKey =>
          acceptedNow := true;
        case Connect =>
          if world.resolved.Err? {
            queueNow := queue + [ConnectionFailed(world.resolved.error)];
            failedNow := true;
          } else {
            var failure := io.Connect(world.resolved.value);
            if failure.Some? {
              queueNow := queue + [ConnectionFailed(failure.value)];
              failedNow := true;
            }
          }
        case Disconnect =>
          var _ := io.Disconnect();
        case SendEnvelope(envelope) =>
          var failure := io.Send(world.encode(envelope));
          if failure.Some? {
            queueNow := queue + [ConnectionFailed(failure.value)];
            failedNow := true;
          }
        case CommitText(c, text) =>
          if c in contextsById {
            if contextsById[c] in world.live {
              typed := typed + [(contextsById[c], text)];
            } else {
              EraseContext(c);
              queueNow := queue + [ContextDestroyed(c)];
            }
          }
        case Log(_, _) =>
      }
    }

    /** Hands one event to the engine and performs the resulting effects in order. */
    method HandleOne(event: Event, world: World, accepted: bool, ghost failed: bool, ghost handled: nat)
      returns (acceptedNow: bool, ghost failedNow: bool, queue: seq<Event>)
      requires engine.Valid() && world.connected == io.shared.connected
      modifies this`contextsLeft, this`contextsRight, this`contextsById, this`typed, engine, io.shared`commands
      ensures engine.Valid()
      ensures Pass(DeskNow(acceptedNow, failedNow, handled + 1), queue)
           == Handled(old(DeskNow(accepted, failed, handled)), event, world)
    {
      hide Next, Apply, Erased;
      acceptedNow, failedNow, queue := accepted, failed, [];
      var effects := engine.Handle(event, world.generated);
      ghost var start := Pass(DeskNow(accepted, failed, handled + 1), queue);
      for i := 0 to |effects|
        invariant engine.Valid() && engine.Abstract() == start.desk.engine
        invariant world.connected == io.shared.connected
        invariant Pass(DeskNow(acceptedNow, failedNow, handled + 1), queue) == ApplyUpTo(start, effects, i, world)
      {
        acceptedNow, failedNow, queue := ApplyEffect(effects[i], world, acceptedNow, failedNow, handled + 1, queue);
      }
    }

    /** Runs one event to completion, with the events its effects queue; says whether to accept the key. */
    method Dispatch(event: Event, world: World) returns (accepted: bool, ghost failed: bool, ghost handled: nat)
      requires engine.Valid() && world.connected == io.shared.connected
      modifies this`contextsLeft, this`contextsRight, this`contextsById, this`typed, engine, io.shared`commands
      ensures engine.Valid()
      ensures DeskNow(accepted, failed, handled) == Dispatched(old(DeskNow(false, false, 0)), [event], world)
      ensures handled <= 3
      ensures failed ==> engine.connectionState == IsDisconnected && !engine.Transcribing()
      ensures typed == old(typed) + Typing(old(DeskNow(false, false, 0)), event, world)
      ensures accepted <==> AcceptsKey(old(engine.Abstract()), event)
      ensures var order := Ordering(old(DeskNow(false, false, 0)), event, world);
              && io.shared.commands == old(io.shared.commands) + (if Placed(order) then [order.value.value] else [])
              && failed == Refused(order)
    {
      DispatchExactly(DeskNow(false, false, 0), event, world);
      hide Next, Ordering, Typing, Vanishing, AcceptsKey, Settled, Erased;
      var queue := [event];
      accepted, failed, handled := false, false, 0;
      ghost var result := Dispatched(DeskNow(false, false, 0), queue, world);
      DispatchTerminates(DeskNow(false, false, 0), queue, world);
      FailureDisconnects(DeskNow(false, false, 0), queue, world);
      while queue != []
        invariant engine.Valid() && world.connected == io.shared.connected
        invariant |queue| <= 1
        invariant Dispatched(DeskNow(accepted, failed, handled), queue, world) == result
        decreases Rounds(queue)
      {
        var current := queue[0];
        assert queue == [current];
        FollowUpsAreSmaller(DeskNow(accepted, failed, handled), current, world);
        accepted, failed, queue := HandleOne(current, world, accepted, failed, handled);
        handled := handled + 1;
      }
    }

    /** A dispatch of anything but a destruction; the context it is about may be newly registered. */
    method DispatchSteadily(event: Event, world: World) returns (accepted: bool)
      requires engine.Valid() && Coherent(Contexts()) && world.connected == io.shared.connected
      requires !event.ContextDestroyed?
      requires Revived(event).Some? ==> Revived(event).value in contextsById
      requires forall c: ContextId :: Revived(event) != Some(c) ==> (Alive(engine.Abstract(), c) <==> c in contextsById)
      requires contextsById.Keys <= issued && forall c :: c in issued ==> c < nextContextId
      modifies this`contextsLeft, this`contextsRight, this`contextsById, this`typed, engine, io.shared`commands
      ensures Valid()
      ensures exists failed, handled ::
                DeskNow(accepted, failed, handled) == Dispatched(old(DeskNow(false, false, 0)), [event], world)
      ensures accepted <==> AcceptsKey(old(engine.Abstract()), event)
    {
      hide Next, Dispatched, Handled, Ordering, Typing, AcceptsKey;
      DispatchKeepsStep(DeskNow(false, false, 0), event, world);
      ghost var failed, handled;
      accepted, failed, handled := Dispatch(event, world);
    }

    /** When a toggle is of use, in terms of the engine's fields. */
    lemma ToggleIsOfUse(c: ContextId, focused: bool)
      requires engine.Valid()
      ensures AcceptsKey(engine.Abstract(), Toggle(c, focused))
         <==> engine.session.Some? || engine.pendingContext == Some(c) || (focused && engine.connectionConfig.Some?)
    {
    }

    method PressToggle(ic: InputContext, hasFocus: bool, world: World) returns (accepted: bool)
      requires Valid() && world.connected == io.shared.connected && HasIdFor(ic)
      modifies this, engine, io.shared`commands
      ensures Valid() && old(issued) <= issued
      ensures var registry := Registered(old(Contexts()), ic);
              var event := Toggle(registry.idOf[ic.pointer], hasFocus);
              && (accepted <==> AcceptsKey(old(engine.Abstract()), event))
              && exists failed, handled ::
                   DeskNow(accepted, failed, handled)
                   == Dispatched(old(DeskNow(false, false, 0)).(registry := registry), [event], world)
    {
      hide Next, Dispatched, Handled, AcceptsKey;
      var c := EnsureContextId(ic);
      accepted := DispatchSteadily(Toggle(c, hasFocus), world);
    }

    /**
     A key press; true when the engine wants the toggle hotkey swallowed, which is when the press
     ended a session, withdrew a request or made one.
     */
    method HandleKey(isRelease: bool, isToggle: bool, ic: Option<InputContext>, hasFocus: bool, world: World)
      returns (accepted: bool)
      requires Valid() && world.connected == io.shared.connected && (ic.Some? ==> HasIdFor(ic.value))
      modifies this, engine, io.shared`commands
      ensures Valid() && old(issued) <= issued
      ensures isRelease || !isToggle || ic.None? ==>
                !accepted && DeskNow(false, false, 0) == old(DeskNow(false, false, 0))
      ensures !isRelease && isToggle && ic.Some? ==>
                var registry := Registered(old(Contexts()), ic.value);
                var c := registry.idOf[ic.value.pointer];
                && (accepted <==>
                      || old(engine.session.Some?)
                      || old(engine.pendingContext) == Some(c)
                      || (hasFocus && old(engine.connectionConfig.Some?)))
                && exists failed, handled ::
                     DeskNow(accepted, failed, handled)
                     == Dispatched(old(DeskNow(false, false, 0)).(registry := registry),
                                   [Toggle(c, hasFocus)], world)
    {
      if isRelease || !isToggle || ic.None? {
        return false;
      }
      hide Next, Dispatched, Handled, AcceptsKey;
      ToggleIsOfUse(Registered(Contexts(), ic.value).idOf[ic.value.pointer], hasFocus);
      accepted := PressToggle(ic.value, hasFocus, world);
    }

    method HandleFocusIn(ic: Option<InputContext>, world: World)
      requires Valid() && world.connected == io.shared.connected && (ic.Some? ==> HasIdFor(ic.value))
      modifies this, engine, io.shared`commands
      ensures Valid() && old(issued) <= issued
      ensures ic.None? ==> DeskNow(false, false, 0) == old(DeskNow(false, false, 0))
      ensures ic.Some? ==>
                var registry := Registered(old(Contexts()), ic.value);
                exists accepted, failed, handled ::
                  DeskNow(accepted, failed, handled)
                  == Dispatched(old(DeskNow(false, false, 0)).(registry := registry),
                                [FocusIn(registry.idOf[ic.value.pointer])], world)
    {
      if ic.Some? {
        hide Next, Dispatched, Handled, AcceptsKey;
        var c := EnsureContextId(ic.value);
        var _ := DispatchSteadily(FocusIn(c), world);
      }
    }

    method HandleFocusOut(ic: Option<InputContext>, world: World)
      requires Valid() && world.connected == io.shared.connected && (ic.Some? ==> HasIdFor(ic.value))
      modifies this, engine, io.shared`commands
      ensures Valid() && old(issued) <= issued
      ensures ic.None? ==> DeskNow(false, false, 0) == old(DeskNow(false, false, 0))
      ensures ic.Some? ==>
                var registry := Registered(old(Contexts()), ic.value);
                exists accepted, failed, handled ::
                  DeskNow(accepted, failed, handled)
                  == Dispatched(old(DeskNow(false, false, 0)).(registry := registry),
                                [FocusOut(registry.idOf[ic.value.pointer])], world)
    {
      if ic.Some? {
        hide Next, Dispatched, Handled, AcceptsKey;
        var c := EnsureContextId(ic.value);
        var _ := DispatchSteadily(FocusOut(c), world);
      }
    }

    /** The engine forgets the context first, then the registry does. */
    method Forget(c: ContextId, world: World)
      requires Valid() && world.connected == io.shared.connected && c in contextsById
      modifies this`contextsLeft, this`contextsRight, this`contextsById, this`typed, engine, io.shared`commands
      ensures Valid() && Contexts() == Erased(old(Contexts()), c)
      ensures exists accepted, failed, handled ::
                DeskNow(accepted, failed, handled).(registry := old(Contexts()))
                == Dispatched(old(DeskNow(false, false, 0)), [ContextDestroyed(c)], world)
    {
      hide Next, Dispatched, Handled, Inv, Ordering, Typing, AcceptsKey;
      DispatchKeepsStep(DeskNow(false, false, 0), ContextDestroyed(c), world);
      ErasingKeepsCoherence(Contexts(), c);
      ghost var failed, handled;
      var accepted;
      accepted, failed, handled := Dispatch(ContextDestroyed(c), world);
      ghost var after := DeskNow(accepted, failed, handled);
      EraseContext(c);
      assert DeskNow(accepted, failed, handled).(registry := old(Contexts())) == after;
    }

    /** A destroyed input context the addon knows is forgotten; another is ignored. */
    method HandleDestroyed(ic: Option<InputContext>, world: World)
      requires Valid() && world.connected == io.shared.connected
      modifies this`contextsLeft, this`contextsRight, this`contextsById, this`typed, engine, io.shared`commands
      ensures Valid()
      ensures ic.None? || ic.value.pointer !in old(contextsLeft) ==>
                DeskNow(false, false, 0) == old(DeskNow(false, false, 0))
      ensures ic.Some? && ic.value.pointer in old(contextsLeft) ==>
                var c := old(contextsLeft)[ic.value.pointer];
                && Contexts() == Erased(old(Contexts()), c)
                && exists accepted, failed, handled ::
                     DeskNow(accepted, failed, handled).(registry := old(Contexts()))
                     == Dispatched(old(DeskNow(false, false, 0)), [ContextDestroyed(c)], world)
    {
      hide Next, Dispatched, Handled, Inv;
      if ic.None? {
        return;
      }
      var found := FindContextId(ic.value.pointer);
      if found.Some? {
        Forget(found.value, world);
      }
    }

    /** A reload resolves the configuration anew and hands the engine the result, good or bad. */
    method ReloadResolvedConfig(world: World)
      requires Valid() && world.connected == io.shared.connected
      modifies this`contextsLeft, this`contextsRight, this`contextsById, this`typed, engine, io.shared`commands
      ensures Valid()
      ensures exists accepted, failed, handled ::
                DeskNow(accepted, failed, handled)
                == Dispatched(old(DeskNow(false, false, 0)),
                              [ConnectionConfigured(if world.resolved.Ok? then Loaded(world.resolved.value)
                                                    else Rejected(world.resolved.error))], world)
    {
      var _ := DispatchSteadily(ConnectionConfigured(if world.resolved.Ok? then Loaded(world.resolved.value)
                                                     else Rejected(world.resolved.error)), world);
    }
  }
}
