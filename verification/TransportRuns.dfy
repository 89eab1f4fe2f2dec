/** What the transport actor does over whole runs. */
module TransportRuns {
  import opened Protocol
  import opened Framing
  import opened SessionMachine
  import opened Transport

  datatype Step =
    | Commanded(command: Command)
    | HandshakeEnds(failure: Option<Error>)
    | Reads(envelope: Envelope)
    | Loses(failure: Option<Error>)
    | Writes

  predicate Enabled(a: Actor, step: Step) {
    match step
    case Commanded(_) => true
    case HandshakeEnds(_) => a.conn.Handshaking?
    case Reads(envelope) => a.conn.Open? && IsForwarded(envelope)
    case Loses(_) => a.conn.Open?
    case Writes => a.conn.Open? && |a.conn.written| < |a.conn.accepted|
  }

  function Take(a: Actor, step: Step): Actor
    requires Enabled(a, step)
  {
    match step
    case Commanded(command) => Perform(a, command)
    case HandshakeEnds(failure) => if failure.Some? then Shut(a, failure) else Authenticate(a)
    case Reads(envelope) => Publish(a, EventOf(envelope))
    case Loses(failure) => Shut(a, failure)
    case Writes => Advance(a)
  }

  ghost predicate IsRun(actors: seq<Actor>, steps: seq<Step>) {
    && |actors| == |steps| + 1
    && actors[0] == COLD
    && forall k :: 0 <= k < |steps| ==> Enabled(actors[k], steps[k]) && actors[k + 1] == Take(actors[k], steps[k])
  }

  // ----- The tale of one connection attempt -----

  /** The events among the first n published that came from generation g. */
  function Tale(published: seq<Published>, g: nat, n: nat): seq<Event>
    requires n <= |published|
  {
    if n == 0 then []
    else if published[n - 1].generation == g then Tale(published, g, n - 1) + [published[n - 1].event]
    else Tale(published, g, n - 1)
  }

  function TaleOf(a: Actor, g: nat): seq<Event> {
    Tale(a.published, g, |a.published|)
  }

  predicate IsTerminal(event: Event) {
    event.ConnectionClosed? || event.ConnectionFailed?
  }

  predicate IsMessage(event: Event) {
    event.ConnectionCommitText? || event.ConnectionVadTimeout? || event.ConnectionErrorMessage?
  }

  /** Authenticated once, first, and only messages since. */
  ghost predicate Live(tale: seq<Event>) {
    && tale != []
    && tale[0].ConnectionAuthenticated?
    && forall i :: 0 < i < |tale| ==> IsMessage(tale[i])
  }

  /** An attempt that was never authenticated, or a live tale closed by exactly one terminal event. */
  ghost predicate Over(tale: seq<Event>) {
    || tale == []
    || (|tale| == 1 && tale[0].ConnectionFailed?)
    || (|tale| >= 2 && Live(tale[..|tale| - 1]) && IsTerminal(tale[|tale| - 1]))
  }

  /** What generation g may have published by now. */
  ghost predicate TaleOk(a: Actor, g: nat) {
    var tale := TaleOf(a, g);
    if g > a.generation then tale == []
    else if g == a.generation && a.conn.Handshaking? then tale == []
    else if g == a.generation && a.conn.Open? then Live(tale)
    else Over(tale)
  }

  ghost predicate QueueOk(a: Actor) {
    && (!a.conn.Idle? ==> a.generation > 0)
    && (a.conn.Open? ==> a.conn.written <= a.conn.accepted)
  }

  lemma {:induction false} EarlierTale(published: seq<Published>, p: Published, g: nat, n: nat)
    requires n <= |published|
    ensures Tale(published + [p], g, n) == Tale(published, g, n)
  {
    if n > 0 {
      EarlierTale(published, p, g, n - 1);
    }
  }

  lemma Publishing(a: Actor, event: Event, g: nat)
    ensures TaleOf(Publish(a, event), g) == if g == a.generation then TaleOf(a, g) + [event] else TaleOf(a, g)
  {
    EarlierTale(a.published, Published(a.generation, event), g, |a.published|);
  }

  lemma LiveGrows(tale: seq<Event>, event: Event)
    requires Live(tale)
    ensures IsMessage(event) ==> Live(tale + [event])
    ensures IsTerminal(event) ==> Over(tale + [event])
  {
    assert (tale + [event])[..|tale|] == tale;
  }

  lemma SilenceIsOver(event: Event)
    ensures Over([])
    ensures event.ConnectionFailed? ==> Over([] + [event])
  {
    assert |[] + [event]| == 1;
  }

  lemma ShuttingKeepsTale(a: Actor, failure: Option<Error>, g: nat)
    requires TaleOk(a, g)
    ensures TaleOk(Shut(a, failure), g)
  {
    var event := if failure.Some? then ConnectionFailed(failure.value) else ConnectionClosed;
    var closed := a.(conn := Idle);
    SilenceIsOver(event);
    Publishing(closed, event, g);
    assert TaleOf(closed, g) == TaleOf(a, g);
    hide TaleOf, Over, Live;
    if g == a.generation && a.conn.Open? {
      LiveGrows(TaleOf(a, g), event);
    }
  }

  lemma StepKeepsTale(a: Actor, step: Step, g: nat)
    requires TaleOk(a, g) && Enabled(a, step)
    ensures TaleOk(Take(a, step), g)
  {
    match step {
      case Commanded(command) =>
        if command.DisconnectCommand? {
          ShuttingKeepsTale(a, None, g);
        }
      case HandshakeEnds(failure) =>
        if failure.Some? {
          ShuttingKeepsTale(a, failure, g);
        } else {
          Publishing(a.(conn := Open([], [])), ConnectionAuthenticated, g);
        }
      case Reads(envelope) =>
        Publishing(a, EventOf(envelope), g);
        if g == a.generation {
          LiveGrows(TaleOf(a, g), EventOf(envelope));
        }
      case Loses(failure) => ShuttingKeepsTale(a, failure, g);
      case Writes =>
    }
  }

  lemma StepKeepsQueue(a: Actor, step: Step)
    requires QueueOk(a) && Enabled(a, step)
    ensures QueueOk(Take(a, step))
  {
  }

  lemma {:induction false} RunKeepsOk(actors: seq<Actor>, steps: seq<Step>, k: nat, g: nat)
    requires IsRun(actors, steps) && k < |actors|
    ensures TaleOk(actors[k], g) && QueueOk(actors[k])
  {
    if k > 0 {
      hide Take, TaleOk, QueueOk;
      RunKeepsOk(actors, steps, k - 1, g);
      StepKeepsTale(actors[k - 1], steps[k - 1], g);
      StepKeepsQueue(actors[k - 1], steps[k - 1]);
    }
  }

  /**
   Each connection attempt tells one tale: it is silent, or fails once, or is authenticated once
   and then, after any messages, ends with exactly one terminal event, and no more is heard of it.
   */
  lemma TerminalEventExactlyOnce(actors: seq<Actor>, steps: seq<Step>, k: nat, g: nat)
    requires IsRun(actors, steps) && k < |actors|
    ensures g == ActiveGeneration(actors[k]) && actors[k].conn.Open? ==> Live(TaleOf(actors[k], g))
    ensures g < ActiveGeneration(actors[k]) ==> Over(TaleOf(actors[k], g))
  {
    RunKeepsOk(actors, steps, k, g);
  }

  /** The active generation is the counter or one more, and closing a connection retires its generation. */
  lemma ClosingRetires(a: Actor, step: Step)
    requires QueueOk(a) && Enabled(a, step)
    ensures ActiveGeneration(a) <= ActiveGeneration(Take(a, step))
    ensures !a.conn.Idle? ==> ActiveGeneration(a) == a.generation
    ensures !a.conn.Idle? && Take(a, step).conn.Idle? ==> a.generation < ActiveGeneration(Take(a, step))
  {
  }

  /** A retired generation is never active again, so its loops never pass their guard again. */
  lemma {:induction false} RetiredGenerationsStayRetired(actors: seq<Actor>, steps: seq<Step>, i: nat, j: nat, g: nat)
    requires IsRun(actors, steps) && i <= j < |actors|
    requires g < ActiveGeneration(actors[i])
    ensures g < ActiveGeneration(actors[j])
    decreases j
  {
    if i < j {
      RetiredGenerationsStayRetired(actors, steps, i, j - 1, g);
      RunKeepsOk(actors, steps, j - 1, 0);
      ClosingRetires(actors[j - 1], steps[j - 1]);
    }
  }

  // ----- What the steps amount to -----

  /** How far the connection has come, as the steps tell it. */
  datatype Stage = Down | Opening | Up

  function StageOf(conn: Conn): Stage {
    match conn
    case Idle => Down
    case Handshaking => Opening
    case Open(_, _) => Up
  }

  function StageAfter(stage: Stage, step: Step): Stage {
    match step
    case Commanded(ConnectCommand(_)) => if stage.Down? then Opening else stage
    case Commanded(DisconnectCommand) => Down
    case Commanded(SendCommand(_)) => stage
    case HandshakeEnds(failure) => if failure.Some? then Down else Up
    case Reads(_) => stage
    case Loses(_) => Down
    case Writes => stage
  }

  function StageAt(steps: seq<Step>, k: nat): Stage
    requires k <= |steps|
  {
    if k == 0 then Down else StageAfter(StageAt(steps, k - 1), steps[k - 1])
  }

  /** A connect command that starts an attempt; any other is ignored. */
  predicate Attempts(steps: seq<Step>, j: nat)
    requires j < |steps|
  {
    StageAt(steps, j).Down? && steps[j].Commanded? && steps[j].command.ConnectCommand?
  }

  /** How many attempts there have been. */
  function AttemptsBy(steps: seq<Step>, k: nat): nat
    requires k <= |steps|
  {
    if k == 0 then 0 else AttemptsBy(steps, k - 1) + if Attempts(steps, k - 1) then 1 else 0
  }

  /** The frames of all send commands since the last authentication. */
  function FramesSince(steps: seq<Step>, k: nat): seq<Frame>
    requires k <= |steps|
  {
    if k == 0 then []
    else
      match steps[k - 1]
      case HandshakeEnds(None) => []
      case Commanded(SendCommand(frame)) => FramesSince(steps, k - 1) + [frame]
      case _ => FramesSince(steps, k - 1)
  }

  /** How many writes have completed since then. */
  function WritesSince(steps: seq<Step>, k: nat): nat
    requires k <= |steps|
  {
    if k == 0 then 0
    else
      match steps[k - 1]
      case HandshakeEnds(None) => 0
      case Writes => WritesSince(steps, k - 1) + 1
      case _ => WritesSince(steps, k - 1)
  }

  /** What a payload from the transcriber says, word for word. */
  function Message(envelope: Envelope): seq<Event> {
    match envelope
    case CommitTextMessage(id, n, text) => [ConnectionCommitText(id, n, text)]
    case VadTimeoutMessage(id) => [ConnectionVadTimeout(id)]
    case ErrorMessage(id, code, message) => [ConnectionErrorMessage(id, code, message)]
    case _ => []
  }

  /** What has been told of the latest attempt: its outcome, the messages read, and its end. */
  function ToldSince(steps: seq<Step>, k: nat): seq<Event>
    requires k <= |steps|
  {
    if k == 0 then []
    else if Attempts(steps, k - 1) then []
    else
      var told := ToldSince(steps, k - 1);
      match steps[k - 1]
      case HandshakeEnds(None) => told + [ConnectionAuthenticated]
      case HandshakeEnds(Some(error)) => told + [ConnectionFailed(error)]
      case Reads(envelope) => told + Message(envelope)
      case Loses(Some(error)) => told + [ConnectionFailed(error)]
      case Loses(None) => told + [ConnectionClosed]
      case Commanded(DisconnectCommand) => if StageAt(steps, k - 1).Up? then told + [ConnectionClosed] else told
      case _ => told
  }

  lemma StageStep(a: Actor, step: Step)
    requires Enabled(a, step)
    ensures StageOf(Take(a, step).conn) == StageAfter(StageOf(a.conn), step)
    ensures Take(a, step).generation
         == a.generation + if a.conn.Idle? && step.Commanded? && step.command.ConnectCommand? then 1 else 0
  {
  }

  /** The stage, and the number of attempts so far: generations are numbered 1, 2, 3, ... */
  lemma {:induction false} StageExactly(actors: seq<Actor>, steps: seq<Step>, k: nat)
    requires IsRun(actors, steps) && k < |actors|
    ensures StageOf(actors[k].conn) == StageAt(steps, k)
    ensures actors[k].generation == AttemptsBy(steps, k)
  {
    if k > 0 {
      hide Take, StageAfter;
      StageExactly(actors, steps, k - 1);
      StageStep(actors[k - 1], steps[k - 1]);
    }
  }

  lemma SendingStep(a: Actor, step: Step)
    requires QueueOk(a) && Enabled(a, step) && Take(a, step).conn.Open?
    ensures var after := Take(a, step).conn;
            match step
            case HandshakeEnds(None) => after.accepted == [] && after.written == []
            case Commanded(SendCommand(frame)) =>
              a.conn.Open? && after.accepted == a.conn.accepted + [frame] && after.written == a.conn.written
            case Writes => a.conn.Open? && after.accepted == a.conn.accepted && |after.written| == |a.conn.written| + 1
            case _ => after == a.conn
  {
  }

  /**
   An open connection has accepted exactly the frames sent since it was authenticated, all of them,
   once each and in order, and has written as many of them as writes have completed; without an
   open connection a send changes nothing.
   */
  lemma {:induction false} FramesExactly(actors: seq<Actor>, steps: seq<Step>, k: nat)
    requires IsRun(actors, steps) && k < |actors|
    ensures actors[k].conn.Open? ==>
              && actors[k].conn.accepted == FramesSince(steps, k)
              && WritesSince(steps, k) <= |FramesSince(steps, k)|
              && actors[k].conn.written == FramesSince(steps, k)[..WritesSince(steps, k)]
    ensures !actors[k].conn.Open? && k < |steps| && steps[k].Commanded? && steps[k].command.SendCommand? ==>
              actors[k + 1] == actors[k]
  {
    if k > 0 {
      RunKeepsOk(actors, steps, k - 1, 0);
      RunKeepsOk(actors, steps, k, 0);
      FramesExactly(actors, steps, k - 1);
      if actors[k].conn.Open? {
        hide Take;
        SendingStep(actors[k - 1], steps[k - 1]);
      }
    }
  }

  lemma ToldStep(a: Actor, step: Step)
    requires Enabled(a, step) && TaleOk(a, a.generation + 1)
    ensures var after := Take(a, step);
            TaleOf(after, after.generation) ==
            if a.conn.Idle? && step.Commanded? && step.command.ConnectCommand? then []
            else
              TaleOf(a, a.generation) +
              match step
              case HandshakeEnds(None) => [ConnectionAuthenticated]
              case HandshakeEnds(Some(error)) => [ConnectionFailed(error)]
              case Reads(envelope) => Message(envelope)
              case Loses(Some(error)) => [ConnectionFailed(error)]
              case Loses(None) => [ConnectionClosed]
              case Commanded(DisconnectCommand) => if a.conn.Open? then [ConnectionClosed] else []
              case _ => []
  {
    match step {
      case HandshakeEnds(None) => Publishing(a.(conn := Open([], [])), ConnectionAuthenticated, a.generation);
      case HandshakeEnds(Some(error)) => Publishing(a.(conn := Idle), ConnectionFailed(error), a.generation);
      case Reads(envelope) => Publishing(a, EventOf(envelope), a.generation);
      case Loses(Some(error)) => Publishing(a.(conn := Idle), ConnectionFailed(error), a.generation);
      case Loses(None) => Publishing(a.(conn := Idle), ConnectionClosed, a.generation);
      case Commanded(DisconnectCommand) => Publishing(a.(conn := Idle), ConnectionClosed, a.generation);
      case _ =>
    }
  }

  /** The tale of the latest attempt: exactly what its steps gave to tell, in order. */
  lemma {:induction false} ToldExactly(actors: seq<Actor>, steps: seq<Step>, k: nat)
    requires IsRun(actors, steps) && k < |actors|
    ensures TaleOf(actors[k], actors[k].generation) == ToldSince(steps, k)
  {
    if k > 0 {
      var a := actors[k - 1];
      RunKeepsOk(actors, steps, k - 1, a.generation + 1);
      StageExactly(actors, steps, k - 1);
      ToldExactly(actors, steps, k - 1);
      ToldStep(a, steps[k - 1]);
      hide Take, TaleOf, TaleOk, StageAt;
      assert TaleOf(a, a.generation) + [] == TaleOf(a, a.generation);
    }
  }

  // ----- What the peer reads -----

  /** frames[i] is the frame of payloads[i]. */
  ghost predicate Carries(frames: seq<Frame>, payloads: seq<Bytes>) {
    && |frames| == |payloads|
    && forall i :: 0 <= i < |frames| ==> Sendable(payloads[i]) && frames[i] == FrameOf(payloads[i])
  }

  lemma {:induction false} FlatFrames(frames: seq<Frame>, payloads: seq<Bytes>)
    requires Carries(frames, payloads)
    ensures AllSendable(payloads) && Flatten(frames) == FrameAll(payloads)
    decreases |frames|
  {
    if frames != [] {
      FlatFrames(frames[1..], payloads[1..]);
    }
  }

  /** Whatever is accepted and written, the peer reads the payloads of the frames written whole. */
  lemma PeerReadsWhatWasWritten(a: Actor, payloads: seq<Bytes>, n: nat)
    requires QueueOk(a) && a.conn.Open? && Carries(a.conn.accepted, payloads)
    requires var k := |a.conn.written|;
             if k < |a.conn.accepted| then n < |a.conn.accepted[k]| else n == 0
    ensures var k := |a.conn.written|;
            var cut := if k < |a.conn.accepted| then a.conn.accepted[k][..n] else [];
            Deframe(Flatten(a.conn.written) + cut).payloads == payloads[..k]
  {
    var k := |a.conn.written|;
    var cut := if k < |a.conn.accepted| then a.conn.accepted[k][..n] else [];
    FlatFrames(a.conn.written, payloads[..k]);
    FramesAreReadBack(payloads[..k], cut);
    if k < |a.conn.accepted| {
      CutFrameYieldsNothing(payloads[k], n);
    }
    assert payloads[..k] + [] == payloads[..k];
  }

  /**
   End to end: cut the outgoing bytes anywhere, even in the middle of a frame; the peer has read
   exactly the payloads sent first since the connection was authenticated, as many as have been
   written, in the order in which they were sent.
   */
  lemma PeerReadsWhatWasSent(actors: seq<Actor>, steps: seq<Step>, k: nat, payloads: seq<Bytes>, n: nat)
    requires IsRun(actors, steps) && k < |actors| && actors[k].conn.Open?
    requires Carries(FramesSince(steps, k), payloads)
    requires var w := WritesSince(steps, k);
             if w < |FramesSince(steps, k)| then n < |FramesSince(steps, k)[w]| else n == 0
    ensures var sent, w := FramesSince(steps, k), WritesSince(steps, k);
            && w <= |payloads|
            && var cut := if w < |sent| then sent[w][..n] else [];
               Deframe(Flatten(actors[k].conn.written) + cut).payloads == payloads[..w]
  {
    RunKeepsOk(actors, steps, k, 0);
    FramesExactly(actors, steps, k);
    PeerReadsWhatWasWritten(actors[k], payloads, n);
  }
}
