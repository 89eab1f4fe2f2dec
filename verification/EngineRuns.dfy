/** What the session engine does over whole runs, for every sequence of events. */
module EngineRuns {
  import opened Protocol
  import opened SessionMachine

  /** One event together with what the session id generator would answer while it is handled. */
  datatype Input = Input(event: Event, generated: Result<SessionId>)

  /** The machine after the first k inputs. */
  function State(run: seq<Input>, k: nat): Machine
    requires k <= |run|
  {
    if k == 0 then INITIAL else Next(State(run, k - 1), run[k - 1].event, run[k - 1].generated).machine
  }

  function EffectsAt(run: seq<Input>, k: nat): seq<Effect>
    requires k < |run|
  {
    Next(State(run, k), run[k].event, run[k].generated).effects
  }

  // ----- The joint invariant -----

  lemma InvariantKept(m: Machine, event: Event, generated: Result<SessionId>)
    requires Inv(m)
    ensures Inv(Next(m, event, generated).machine)
  {
    hide OnToggle, OnAuthenticated;
    match event {
      case Toggle(c, focused) => ToggleKeepsInvariant(m, c, focused, generated);
      case ConnectionAuthenticated => AuthenticationKeepsInvariant(m, generated);
      case _ =>
    }
  }

  lemma ToggleKeepsInvariant(m: Machine, c: ContextId, focused: bool, generated: Result<SessionId>)
    requires Inv(m)
    ensures Inv(OnToggle(m, c, focused, generated).machine)
  {
  }

  lemma AuthenticationKeepsInvariant(m: Machine, generated: Result<SessionId>)
    requires Inv(m)
    ensures Inv(OnAuthenticated(m, generated).machine)
  {
  }

  lemma {:induction false} InvariantHolds(run: seq<Input>, k: nat)
    requires k <= |run|
    ensures Inv(State(run, k))
  {
    if k > 0 {
      InvariantHolds(run, k - 1);
      InvariantKept(State(run, k - 1), run[k - 1].event, run[k - 1].generated);
    }
  }

  // ----- Where a session comes from -----

  /** Events that withdraw the waiting request of context c. */
  predicate Withdraws(event: Event, c: ContextId) {
    match event
    case Toggle(d, focused) => d == c || focused
    case FocusIn(d) => d != c
    case FocusOut(d) => d == c
    case ContextDestroyed(d) => d == c
    case ConnectionConfigured(_) => true
    case ConnectionClosed => true
    case ConnectionFailed(_) => true
    case _ => false
  }

  /** Events that end the session id of context c when it next expects the given sequence number. */
  predicate Ends(event: Event, c: ContextId, id: SessionId, expected: U64) {
    match event
    case Toggle(_, _) => true
    case FocusIn(d) => d != c
    case FocusOut(d) => d == c
    case ContextDestroyed(d) => d == c
    case ConnectionConfigured(_) => true
    case ConnectionClosed => true
    case ConnectionFailed(_) => true
    case ConnectionCommitText(i, n, _) => i == id && n != expected
    case ConnectionVadTimeout(i) => i == id
    case ConnectionErrorMessage(i, _, _) => i == id
    case ConnectionAuthenticated => false
  }

  /** The texts addressed to session id by inputs from, ..., to - 1, whatever their numbers. */
  function Texts(run: seq<Input>, from: nat, to: nat, id: SessionId): seq<string>
    requires from <= to <= |run|
  {
    if from == to then []
    else
      var earlier := Texts(run, from, to - 1, id);
      match run[to - 1].event
      case ConnectionCommitText(i, _, text) => if i == id then earlier + [text] else earlier
      case _ => earlier
  }

  /** The number of the text at position i of a session: 1, 2, 3, ... in a 64-bit counter. */
  function Number(i: nat): U64 {
    if i == 0 then 1 else Successor(Number(i - 1))
  }

  lemma {:induction false} NumberWraps(i: nat)
    ensures Number(i) == (i + 1) % U64_LIMIT
  {
    if i > 0 {
      NumberWraps(i - 1);
      var q := i / U64_LIMIT;
      if Number(i - 1) + 1 == U64_LIMIT {
        QuotientIs(i + 1, U64_LIMIT, q + 1, 0);
      } else {
        QuotientIs(i + 1, U64_LIMIT, q, Number(i - 1) + 1);
      }
    }
  }

  /** The number the next text must carry. */
  function Expected(run: seq<Input>, from: nat, to: nat, id: SessionId): U64
    requires from <= to <= |run|
  {
    Number(|Texts(run, from, to, id)|)
  }

  /** Input s makes the engine ask for a session id and send StartSession with it. */
  predicate Starts(run: seq<Input>, s: nat, id: SessionId) {
    s < |run| && SendEnvelope(StartSession(id)) in EffectsAt(run, s)
  }

  /** A focused toggle of c at t was never withdrawn, and input s sent StartSession(id). */
  ghost predicate Opened(run: seq<Input>, t: nat, s: nat, c: ContextId, id: SessionId) {
    && t <= s < |run|
    && run[t].event == Toggle(c, true)
    && (forall j :: t < j <= s ==> !Withdraws(run[j].event, c))
    && Starts(run, s, id)
  }

  /** No input after s and before k ends the session that s started. */
  ghost predicate Unended(run: seq<Input>, s: nat, k: nat, c: ContextId, id: SessionId) {
    && s < k <= |run|
    && (k > s + 1 ==>
          && Unended(run, s, k - 1, c, id)
          && !Ends(run[k - 1].event, c, id, Expected(run, s + 1, k - 1, id)))
  }

  lemma {:induction false} UnendedEarlier(run: seq<Input>, s: nat, e: nat, k: nat, c: ContextId, id: SessionId)
    requires s < e <= k && Unended(run, s, k, c, id)
    ensures Unended(run, s, e, c, id)
  {
    if e < k {
      UnendedEarlier(run, s, e, k - 1, c, id);
    }
  }

  /** Opened at t and s, and nothing since s ended it before input k. */
  ghost predicate Lasts(run: seq<Input>, t: nat, s: nat, k: nat, c: ContextId, id: SessionId) {
    Opened(run, t, s, c, id) && Unended(run, s, k, c, id)
  }

  lemma StartNeedsGenerator(m: Machine, event: Event, generated: Result<SessionId>, id: SessionId)
    requires SendEnvelope(StartSession(id)) in Next(m, event, generated).effects
    ensures generated == Ok(id) && Current(m).None?
    ensures var after := Current(Next(m, event, generated).machine);
            && after.Some?
            && after.value.id == id && after.value.nextSequenceNo == 1
            && (if event.ConnectionAuthenticated? then Waiting(m) == Some(after.value.context)
                else event == Toggle(after.value.context, true))
  {
  }

  lemma StartIsSent(m: Machine, event: Event, generated: Result<SessionId>)
    requires Current(m).None? && Current(Next(m, event, generated).machine).Some?
    ensures SendEnvelope(StartSession(Current(Next(m, event, generated).machine).value.id))
         in Next(m, event, generated).effects
  {
  }

  lemma WaitingStep(m: Machine, event: Event, generated: Result<SessionId>, c: ContextId)
    requires Inv(m)
    ensures var after := Waiting(Next(m, event, generated).machine);
            && (after == Some(c) ==> event == Toggle(c, true) || (Waiting(m) == Some(c) && !Withdraws(event, c)))
            && (event == Toggle(c, true) || (Waiting(m) in {None, Some(c)} && !Withdraws(event, c))
                ==> after in {None, Some(c)})
  {
  }

  lemma SessionStep(m: Machine, event: Event, generated: Result<SessionId>)
    requires Current(m).Some?
    ensures var session, after := Current(m).value, Current(Next(m, event, generated).machine);
            after == if Ends(event, session.context, session.id, session.nextSequenceNo) then None
                     else if event.ConnectionCommitText? && event.sessionId == session.id
                     then Some(session.(nextSequenceNo := Successor(session.nextSequenceNo)))
                     else Some(session)
  {
  }

  lemma ExpectedStep(run: seq<Input>, from: nat, k: nat, id: SessionId)
    requires from < k <= |run|
    ensures Expected(run, from, k, id)
         == if run[k - 1].event.ConnectionCommitText? && run[k - 1].event.sessionId == id
            then Successor(Expected(run, from, k - 1, id))
            else Expected(run, from, k - 1, id)
  {
  }

  lemma {:induction false} WaitingNamesItsToggle(run: seq<Input>, k: nat, c: ContextId) returns (t: nat)
    requires k <= |run| && Waiting(State(run, k)) == Some(c)
    ensures t < k && run[t].event == Toggle(c, true)
    ensures forall j :: t < j < k ==> !Withdraws(run[j].event, c)
  {
    hide Next;
    assert k > 0;
    InvariantHolds(run, k - 1);
    WaitingStep(State(run, k - 1), run[k - 1].event, run[k - 1].generated, c);
    if run[k - 1].event == Toggle(c, true) {
      t := k - 1;
    } else {
      t := WaitingNamesItsToggle(run, k - 1, c);
    }
  }

  lemma {:induction false} OnlyTheToggledContextWaits(run: seq<Input>, t: nat, k: nat, c: ContextId)
    requires t < k <= |run| && run[t].event == Toggle(c, true)
    requires forall j :: t < j < k ==> !Withdraws(run[j].event, c)
    ensures Waiting(State(run, k)) in {None, Some(c)}
  {
    hide Next;
    InvariantHolds(run, k - 1);
    WaitingStep(State(run, k - 1), run[k - 1].event, run[k - 1].generated, c);
    if k - 1 > t {
      OnlyTheToggledContextWaits(run, t, k - 1, c);
    }
  }

  lemma {:induction false} SessionNamesItsOrigin(run: seq<Input>, k: nat) returns (t: nat, s: nat)
    requires k <= |run| && Current(State(run, k)).Some?
    ensures var session := Current(State(run, k)).value;
            && Lasts(run, t, s, k, session.context, session.id)
            && session.nextSequenceNo == Expected(run, s + 1, k, session.id)
  {
    hide Next;
    assert k > 0;
    var session := Current(State(run, k)).value;
    var before, event := State(run, k - 1), run[k - 1].event;
    if Current(before).Some? {
      SessionStep(before, event, run[k - 1].generated);
      t, s := SessionNamesItsOrigin(run, k - 1);
      ExpectedStep(run, s + 1, k, session.id);
    } else {
      StartIsSent(before, event, run[k - 1].generated);
      StartNeedsGenerator(before, event, run[k - 1].generated, session.id);
      s := k - 1;
      if event == Toggle(session.context, true) {
        t := k - 1;
      } else {
        t := WaitingNamesItsToggle(run, k - 1, session.context);
      }
    }
  }

  lemma {:induction false} SessionLasts(run: seq<Input>, t: nat, s: nat, k: nat, c: ContextId, id: SessionId)
    requires Lasts(run, t, s, k, c, id)
    ensures Current(State(run, k)) == Some(Session(c, id, Expected(run, s + 1, k, id)))
  {
    hide Next;
    if k == s + 1 {
      StartNeedsGenerator(State(run, s), run[s].event, run[s].generated, id);
      if t < s {
        OnlyTheToggledContextWaits(run, t, s, c);
      }
    } else {
      SessionLasts(run, t, s, k - 1, c, id);
      SessionStep(State(run, k - 1), run[k - 1].event, run[k - 1].generated);
      ExpectedStep(run, s + 1, k, id);
    }
  }

  /** The active session at every moment, exactly, in terms of the inputs seen so far. */
  lemma SessionExactly(run: seq<Input>, k: nat, c: ContextId, id: SessionId, n: U64)
    requires k <= |run|
    ensures Current(State(run, k)) == Some(Session(c, id, n))
       <==> exists t: nat, s: nat :: Lasts(run, t, s, k, c, id) && n == Expected(run, s + 1, k, id)
  {
    if Current(State(run, k)) == Some(Session(c, id, n)) {
      var t, s := SessionNamesItsOrigin(run, k);
    }
    forall t: nat, s: nat | Lasts(run, t, s, k, c, id)
      ensures Current(State(run, k)) == Some(Session(c, id, Expected(run, s + 1, k, id)))
    {
      SessionLasts(run, t, s, k, c, id);
    }
  }

  lemma CommitStep(m: Machine, event: Event, generated: Result<SessionId>, c: ContextId, text: string)
    ensures CommitText(c, text) in Next(m, event, generated).effects
       <==> && Current(m).Some? && Current(m).value.context == c
            && event == ConnectionCommitText(Current(m).value.id, Current(m).value.nextSequenceNo, text)
  {
  }

  /**
   Commit provenance, in both directions: text reaches context c at input k exactly when that
   input is the next message of a session opened by a focused toggle of c and not ended since.
   */
  lemma CommitExactly(run: seq<Input>, k: nat, c: ContextId, text: string)
    requires k < |run|
    ensures CommitText(c, text) in EffectsAt(run, k)
       <==> exists t: nat, s: nat, id: SessionId ::
              && Lasts(run, t, s, k, c, id)
              && run[k].event == ConnectionCommitText(id, Expected(run, s + 1, k, id), text)
  {
    hide Next;
    CommitStep(State(run, k), run[k].event, run[k].generated, c, text);
    if CommitText(c, text) in EffectsAt(run, k) {
      var t, s := SessionNamesItsOrigin(run, k);
    }
    forall t: nat, s: nat, id: SessionId | Lasts(run, t, s, k, c, id)
      ensures Current(State(run, k)) == Some(Session(c, id, Expected(run, s + 1, k, id)))
    {
      SessionLasts(run, t, s, k, c, id);
    }
  }

  // ----- What a session commits -----

  /** The commits among the first n effects of a list. */
  function Commits(effects: seq<Effect>, n: nat): seq<Effect>
    requires n <= |effects|
  {
    if n == 0 then []
    else if effects[n - 1].CommitText? then Commits(effects, n - 1) + [effects[n - 1]]
    else Commits(effects, n - 1)
  }

  /** All commits performed by inputs from, ..., to - 1. */
  function CommitsBetween(run: seq<Input>, from: nat, to: nat): seq<Effect>
    requires from <= to <= |run|
  {
    if from == to then [] else CommitsBetween(run, from, to - 1) + Commits(EffectsAt(run, to - 1), |EffectsAt(run, to - 1)|)
  }

  /** The sequence numbers carried by the messages Texts collects. */
  function Numbers(run: seq<Input>, from: nat, to: nat, id: SessionId): seq<U64>
    requires from <= to <= |run|
  {
    if from == to then []
    else
      var earlier := Numbers(run, from, to - 1, id);
      match run[to - 1].event
      case ConnectionCommitText(i, n, _) => if i == id then earlier + [n] else earlier
      case _ => earlier
  }

  lemma NoCommits(effects: seq<Effect>, n: nat)
    requires n <= |effects| && forall i :: 0 <= i < n ==> !effects[i].CommitText?
    ensures Commits(effects, n) == []
  {
  }

  lemma NothingSent(effects: seq<Effect>, n: nat)
    requires n <= |effects| && forall i :: 0 <= i < n ==> !effects[i].SendEnvelope?
    ensures Sent(effects, n) == []
  {
  }

  lemma {:induction false} OneSent(effects: seq<Effect>, n: nat, at: nat)
    requires at < n <= |effects| && effects[at].SendEnvelope?
    requires forall i :: 0 <= i < n && i != at ==> !effects[i].SendEnvelope?
    ensures Sent(effects, n) == [effects[at].envelope]
  {
    if at == n - 1 {
      NothingSent(effects, n - 1);
    } else {
      OneSent(effects, n - 1, at);
    }
  }

  lemma CommitsOfStep(m: Machine, event: Event, generated: Result<SessionId>)
    ensures Commits(Next(m, event, generated).effects, |Next(m, event, generated).effects|)
         == if event.ConnectionCommitText? && Concerns(m, event.sessionId)
               && event.sequenceNo == Current(m).value.nextSequenceNo
            then [CommitText(Current(m).value.context, event.text)] else []
  {
    var effects := Next(m, event, generated).effects;
    if |effects| == 1 && effects[0].CommitText? {
      assert Commits(effects, 0) == [];
    } else {
      NoCommits(effects, |effects|);
    }
  }

  /** commits are exactly the given texts, in order, all to c. */
  ghost predicate Delivered(commits: seq<Effect>, c: ContextId, texts: seq<string>) {
    && |commits| == |texts|
    && forall i :: 0 <= i < |texts| ==> commits[i] == CommitText(c, texts[i])
  }

  /** 1, 2, 3, ... in a 64-bit counter. */
  ghost predicate Numbered(numbers: seq<U64>) {
    forall i :: 0 <= i < |numbers| ==> numbers[i] == Number(i)
  }

  lemma NumberedGrows(numbers: seq<U64>)
    requires Numbered(numbers)
    ensures Numbered(numbers + [Number(|numbers|)])
  {
    forall i | 0 <= i < |numbers| + 1
      ensures (numbers + [Number(|numbers|)])[i] == Number(i)
    {
      assert i < |numbers| ==> numbers[i] == Number(i);
    }
  }

  lemma {:induction false} OneNumberPerText(run: seq<Input>, from: nat, to: nat, id: SessionId)
    requires from <= to <= |run|
    ensures |Numbers(run, from, to, id)| == |Texts(run, from, to, id)|
  {
    if from < to {
      OneNumberPerText(run, from, to - 1, id);
    }
  }

  lemma {:induction false} SessionNumbersInOrder(run: seq<Input>, s: nat, k: nat, c: ContextId, id: SessionId)
    requires Unended(run, s, k, c, id)
    ensures Numbered(Numbers(run, s + 1, k, id))
  {
    if k > s + 1 {
      SessionNumbersInOrder(run, s, k - 1, c, id);
      assert !Ends(run[k - 1].event, c, id, Expected(run, s + 1, k - 1, id));
      OneNumberPerText(run, s + 1, k - 1, id);
      NumberedGrows(Numbers(run, s + 1, k - 1, id));
    }
  }

  /**
   While a session lasts, everything committed goes to its context, and it is the texts addressed
   to it, all of them, once each, in arrival order; SessionNumbersInOrder adds that they were
   numbered 1, 2, 3, ...
   */
  lemma {:induction false} SessionCommitsItsTexts(run: seq<Input>, t: nat, s: nat, k: nat, c: ContextId, id: SessionId)
    requires Lasts(run, t, s, k, c, id)
    ensures Delivered(CommitsBetween(run, s, k), c, Texts(run, s + 1, k, id))
  {
    hide Next;
    var event := run[k - 1].event;
    CommitsOfStep(State(run, k - 1), event, run[k - 1].generated);
    if k == s + 1 {
      StartNeedsGenerator(State(run, s), event, run[s].generated, id);
      assert CommitsBetween(run, s, s) == [];
    } else {
      SessionLasts(run, t, s, k - 1, c, id);
      SessionCommitsItsTexts(run, t, s, k - 1, c, id);
      CommitsGrow(run, s, k);
    }
  }

  lemma CommitsGrow(run: seq<Input>, from: nat, to: nat)
    requires from < to <= |run|
    ensures CommitsBetween(run, from, to)
         == CommitsBetween(run, from, to - 1) + Commits(EffectsAt(run, to - 1), |EffectsAt(run, to - 1)|)
  {
  }

  // ----- Fencing -----

  /** The session id generator never gives the same answer twice when asked. */
  ghost predicate NeverRepeats(run: seq<Input>) {
    forall i: nat, j: nat, id: SessionId ::
      i < j < |run| && Starts(run, i, id) ==> !Starts(run, j, id)
  }

  predicate CarriesId(event: Event, id: SessionId) {
    match event
    case ConnectionCommitText(i, _, _) => i == id
    case ConnectionVadTimeout(i) => i == id
    case ConnectionErrorMessage(i, _, _) => i == id
    case _ => false
  }

  /** No later input makes an ended session active again. */
  lemma {:induction false} EndedSessionStaysEnded(run: seq<Input>, s: nat, e: nat, k: nat, id: SessionId)
    requires NeverRepeats(run) && s < e <= k <= |run|
    requires Starts(run, s, id)
    requires !Concerns(State(run, e), id)
    ensures !Concerns(State(run, k), id)
  {
    hide Next;
    if Concerns(State(run, k), id) {
      var t', s' := SessionNamesItsOrigin(run, k);
      var c := Current(State(run, k)).value.context;
      assert s' == s;
      UnendedEarlier(run, s, e, k, c, id);
      SessionLasts(run, t', s, e, c, id);
    }
  }

  /** A message changes nothing and is only logged. */
  predicate OnlyLogged(m: Machine, event: Event, generated: Result<SessionId>) {
    var outcome := Next(m, event, generated);
    && outcome.machine == m
    && |outcome.effects| == 1
    && outcome.effects[0].Log? && outcome.effects[0].level.Debug? && outcome.effects[0].note.InactiveSession?
  }

  /** Once a session is over, a message carrying its id is only ever logged. */
  lemma {:induction false} EndedSessionsAreFenced(run: seq<Input>, s: nat, e: nat, k: nat, id: SessionId,
                                                  event: Event, generated: Result<SessionId>)
    requires NeverRepeats(run) && s < e <= k <= |run|
    requires Starts(run, s, id)
    requires !Concerns(State(run, e), id)
    requires CarriesId(event, id)
    ensures OnlyLogged(State(run, k), event, generated)
  {
    EndedSessionStaysEnded(run, s, e, k, id);
    OthersAreLogged(State(run, k), event, generated, id);
    hide Next;
  }

  lemma OthersAreLogged(m: Machine, event: Event, generated: Result<SessionId>, id: SessionId)
    requires CarriesId(event, id) && !Concerns(m, id)
    ensures OnlyLogged(m, event, generated)
  {
  }

  // ----- What the transcriber is told -----

  /** The envelopes among the first n effects of a list. */
  function Sent(effects: seq<Effect>, n: nat): seq<Envelope>
    requires n <= |effects|
  {
    if n == 0 then []
    else if effects[n - 1].SendEnvelope? then Sent(effects, n - 1) + [effects[n - 1].envelope]
    else Sent(effects, n - 1)
  }

  function AllSent(effects: seq<Effect>): seq<Envelope> {
    Sent(effects, |effects|)
  }

  /** Why the event ends the active session on this side, if it does. */
  function LocalEnding(m: Machine, event: Event): Option<InterruptReason>
    requires Current(m).Some?
  {
    var s := Current(m).value;
    match event
    case Toggle(_, _) => Some(ByToggle)
    case FocusIn(c) => if c != s.context then Some(FocusChanged) else None
    case FocusOut(c) => if c == s.context then Some(FocusLost) else None
    case ContextDestroyed(c) => if c == s.context then Some(InputContextDestroyed) else None
    case ConnectionCommitText(i, n, _) =>
      if i == s.id && n != s.nextSequenceNo then Some(TransportFailure) else None
    case _ => None
  }

  /** Each event sends at most one envelope: a local ending its Interrupt, a new session its Start. */
  lemma OneEnvelopePerStep(m: Machine, event: Event, generated: Result<SessionId>)
    ensures var next := Next(m, event, generated);
            AllSent(next.effects) ==
            if Current(m).Some? then
              if LocalEnding(m, event).Some?
              then [InterruptSession(Current(m).value.id, LocalEnding(m, event).value)] else []
            else if Current(next.machine).Some? then [StartSession(Current(next.machine).value.id)]
            else []
    ensures Current(m).Some? && LocalEnding(m, event).Some? ==>
              Next(m, event, generated).machine.phase == Phase.Ready(None)
    ensures Current(m).Some? && Current(Next(m, event, generated).machine).Some? ==>
              Current(Next(m, event, generated).machine).value.id == Current(m).value.id
  {
    var effects := Next(m, event, generated).effects;
    if |effects| > 0 && effects[0].SendEnvelope? {
      OneSent(effects, |effects|, 0);
    } else if |effects| > 1 && effects[1].SendEnvelope? {
      OneSent(effects, |effects|, 1);
    } else {
      NothingSent(effects, |effects|);
    }
  }

  /** Everything sent by the first k inputs. */
  function SentUpTo(run: seq<Input>, k: nat): seq<Envelope>
    requires k <= |run|
  {
    if k == 0 then [] else SentUpTo(run, k - 1) + AllSent(EffectsAt(run, k - 1))
  }

  predicate MayFollow(previous: Option<Envelope>, envelope: Envelope) {
    match envelope
    case StartSession(_) => true
    case InterruptSession(id, reason) => !reason.Unspecified? && previous == Some(StartSession(id))
    case _ => false
  }

  function Last(envelopes: seq<Envelope>): Option<Envelope> {
    if envelopes == [] then None else Some(envelopes[|envelopes| - 1])
  }

  predicate WellPlaced(envelopes: seq<Envelope>, i: nat)
    requires i < |envelopes|
  {
    MayFollow(if i == 0 then None else Some(envelopes[i - 1]), envelopes[i])
  }

  /** (Start(i) Interrupt(i)?)*: every Interrupt gives a reason and directly follows the Start it names. */
  ghost predicate Grammatical(envelopes: seq<Envelope>) {
    forall i :: 0 <= i < |envelopes| ==> WellPlaced(envelopes, i)
  }

  lemma GrammarGrows(sent: seq<Envelope>, envelope: Envelope)
    requires Grammatical(sent) && MayFollow(Last(sent), envelope)
    ensures Grammatical(sent + [envelope])
  {
    forall i | 0 <= i < |sent| + 1
      ensures WellPlaced(sent + [envelope], i)
    {
      assert i < |sent| ==> WellPlaced(sent, i);
    }
  }

  lemma {:induction false} OutboundGrammar(run: seq<Input>, k: nat)
    requires k <= |run|
    ensures Grammatical(SentUpTo(run, k))
    ensures Current(State(run, k)).Some? ==>
              Last(SentUpTo(run, k)) == Some(StartSession(Current(State(run, k)).value.id))
  {
    hide Next;
    if k > 0 {
      OutboundGrammar(run, k - 1);
      OneEnvelopePerStep(State(run, k - 1), run[k - 1].event, run[k - 1].generated);
      var news := AllSent(EffectsAt(run, k - 1));
      if news == [] {
        assert SentUpTo(run, k) == SentUpTo(run, k - 1);
      } else {
        GrammarGrows(SentUpTo(run, k - 1), news[0]);
        assert SentUpTo(run, k) == SentUpTo(run, k - 1) + [news[0]];
      }
    }
  }
}
