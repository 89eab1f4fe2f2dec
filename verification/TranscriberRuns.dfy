/** What the transcriber accepts from any peer whatever, over whole connections. */
module TranscriberRuns {
  import opened Protocol
  import opened Transcriber

  /** An envelope arrives, or the task of the active session speaks or ends the session. */
  datatype Turn = Hears(envelope: Envelope) | Speaks | Ends

  /** The connection after the first k turns; a fault ends it for good. */
  function After(turns: seq<Turn>, k: nat): Reaction
    requires k <= |turns|
  {
    if k == 0 then Continue(None) else Step(After(turns, k - 1), turns[k - 1])
  }

  /** Without a session there is no task to speak or end it. */
  function Step(before: Reaction, turn: Turn): Reaction {
    if before.Fail? then before
    else
      match turn
      case Hears(envelope) => OnEnvelope(before.session, envelope)
      case Speaks => Continue(if before.session.Some? then Some(Advanced(before.session.value)) else None)
      case Ends => Continue(None)
  }

  /** Session id was started by turn t, and neither interrupted nor ended before turn k. */
  ghost predicate Lasts(turns: seq<Turn>, t: nat, k: nat, id: Bytes) {
    && t < k <= |turns|
    && turns[t] == Hears(StartSession(id))
    && forall j :: t < j < k ==> !Stops(turns[j], id)
  }

  predicate Stops(turn: Turn, id: Bytes) {
    turn.Ends? || (turn.Hears? && turn.envelope.InterruptSession? && turn.envelope.sessionId == id)
  }

  ghost predicate Active(turns: seq<Turn>, k: nat, id: Bytes) {
    exists t: nat :: Lasts(turns, t, k, id)
  }

  /** How often a session started by turn t has spoken before turn k. */
  function Spoken(turns: seq<Turn>, t: nat, k: nat): nat
    requires t <= k <= |turns|
  {
    if k == t then 0 else Spoken(turns, t, k - 1) + if turns[k - 1].Speaks? then 1 else 0
  }

  /** What is wrong with turn j, if anything, told from the turns before it. */
  ghost function Complaint(turns: seq<Turn>, j: nat): Option<Fault>
    requires j < |turns|
  {
    if !turns[j].Hears? then None
    else
      match turns[j].envelope
      case StartSession(id) =>
        if |id| != 16 then Some(InvalidSessionIdSize)
        else if exists other :: Active(turns, j, other) then Some(SessionAlreadyActive)
        else None
      case InterruptSession(id, reason) =>
        if |id| != 16 then Some(InvalidSessionIdSize)
        else if Active(turns, j, id) && reason.Unspecified? then Some(ReasonNotSet)
        else None
      case _ => Some(UnexpectedPayload)
  }

  /** A session that is held was started by one of the turns, and every lasting session is held. */
  ghost predicate Tracks(turns: seq<Turn>, k: nat, session: Option<Active>)
    requires k <= |turns|
  {
    && (session.Some? ==> exists t: nat :: StartedAt(turns, t, k, session.value))
    && (forall t: nat, id :: Lasts(turns, t, k, id) ==> session.Some? && session.value.sessionId == id)
  }

  ghost predicate StartedAt(turns: seq<Turn>, t: nat, k: nat, a: Active)
    requires k <= |turns|
  {
    Lasts(turns, t, k, a.sessionId) && a.sequenceNo == 1 + Spoken(turns, t, k)
  }

  lemma LastsEarlier(turns: seq<Turn>, t: nat, k: nat, id: Bytes)
    requires 0 < k <= |turns|
    ensures t < k - 1 ==> (Lasts(turns, t, k, id) <==> Lasts(turns, t, k - 1, id) && !Stops(turns[k - 1], id))
    ensures t == k - 1 ==> (Lasts(turns, t, k, id) <==> turns[t] == Hears(StartSession(id)))
  {
  }

  lemma {:induction false} SessionTracked(turns: seq<Turn>, k: nat)
    requires k <= |turns| && After(turns, k).Continue?
    ensures Tracks(turns, k, After(turns, k).session)
  {
    if k > 0 {
      SessionTracked(turns, k - 1);
      var before, now := After(turns, k - 1).session, After(turns, k).session;
      forall t: nat, id | Lasts(turns, t, k, id) ensures now.Some? && now.value.sessionId == id {
        LastsEarlier(turns, t, k, id);
      }
      if now.Some? {
        if before.Some? {
          var t: nat :| StartedAt(turns, t, k - 1, before.value);
          LastsEarlier(turns, t, k, now.value.sessionId);
          assert StartedAt(turns, t, k, now.value);
        } else {
          LastsEarlier(turns, k - 1, k, now.value.sessionId);
          assert StartedAt(turns, k - 1, k, now.value);
        }
      }
    }
  }

  /** Faults, exactly: the turn that deserves one meets it, and no other. */
  lemma FaultExactly(turns: seq<Turn>, j: nat)
    requires j < |turns| && After(turns, j).Continue?
    ensures match Complaint(turns, j)
            case Some(fault) => After(turns, j + 1) == Fail(fault)
            case None => After(turns, j + 1).Continue?
  {
    SessionTracked(turns, j);
    var session := After(turns, j).session;
    if session.Some? {
      var t: nat :| StartedAt(turns, t, j, session.value);
      assert Active(turns, j, session.value.sessionId);
    }
  }

  /** The connection survives k turns exactly when none of them deserves a complaint. */
  lemma {:induction false} SurvivesExactly(turns: seq<Turn>, k: nat)
    requires k <= |turns|
    ensures After(turns, k).Continue? <==> forall j :: 0 <= j < k ==> Complaint(turns, j).None?
  {
    if k > 0 {
      SurvivesExactly(turns, k - 1);
      if After(turns, k - 1).Continue? {
        FaultExactly(turns, k - 1);
        hide Complaint;
      }
    }
  }
}
