/** How a turn ends for the user, and that it stays ended. */
module ChatEndings {
  import opened Prelude
  import opened Chat

  /** The turn is over with this phase and error; the transcript and the session are those of `t`. */
  predicate EndedWith(t: Turn, after: Turn, phase: Phase, error: Option<string>) {
    && after.phase == phase && after.errorMessage == error
    && after.messages == t.messages && after.session == t.session && after.lastUserText == t.lastUserText
    && after.window == t.window && after.active.None? && after.streamingText.None?
    && !after.awaiting && !after.pending && after.chunks == map[] && after.terminals == map[]
  }

  predicate NothingSent(events: seq<Event>) {
    forall i | 0 <= i < |events| :: !events[i].UserMessage? && !events[i].Reset?
  }

  /** Once a turn is over, only a new message or a reset changes anything: every latecomer is ignored. */
  lemma {:induction false} EndedStaysEnded(t: Turn, events: seq<Event>)
    requires Coherent(t) && !t.awaiting && !t.phase.Streaming? && NothingSent(events)
    ensures Run(t, events) == t
    decreases |events|
  {
    if events != [] { EndedStaysEnded(Step(t, events[0]), events[1..]); }
  }

  lemma RunStarts(t: Turn, e: Event, later: seq<Event>)
    ensures Run(t, [e] + later) == Run(Step(t, e), later)
  {
    assert ([e] + later)[1..] == later;
  }

  /** A lost connection fails the turn under way, pending or streaming: nothing is kept of its draft. */
  lemma LostConnectionEndsTurn(t: Turn, later: seq<Event>)
    requires Coherent(t) && (t.awaiting || t.phase.Streaming?) && NothingSent(later)
    ensures EndedWith(t, Run(t, [ConnectionLost] + later), Failed("internal"),
                      Some("The connection to the daemon was lost."))
  {
    RunStarts(t, ConnectionLost, later);
    EndedStaysEnded(Step(t, ConnectionLost), later);
  }

  /** A lost connection with no turn under way goes unnoticed. */
  lemma IdleLossIsIgnored(t: Turn)
    requires Coherent(t) && !t.awaiting && !t.phase.Streaming?
    ensures Step(t, ConnectionLost) == t
  {
    EndedStaysEnded(t, [ConnectionLost]);
  }

  predicate GivesUp(t: Turn, e: Event) {
    (e.SendFailure? && e.window == t.window) || e.PendingTimedOut? || e.CancelPending?
  }

  /** A pending send fails with its message or a timeout, or is cancelled without one; later outcomes are ignored. */
  lemma GivenUpSendEnds(t: Turn, e: Event, later: seq<Event>)
    requires Coherent(t) && t.awaiting && GivesUp(t, e) && NothingSent(later)
    ensures var after := Run(t, [e] + later);
            match e
            case SendFailure(message, _) => EndedWith(t, after, Failed("internal"), Some(message))
            case CancelPending => EndedWith(t, after, Cancelled, None)
            case _ =>
              EndedWith(t, after, Failed("internal"), Some("The request timed out waiting for the daemon."))
  {
    RunStarts(t, e, later);
    EndedStaysEnded(Step(t, e), later);
  }

  /** Once the turn streams, the pending send can no longer be given up. */
  lemma StreamingTurnIsNotGivenUp(t: Turn, e: Event)
    requires Coherent(t) && t.phase.Streaming? && (e.SendFailure? || e.PendingTimedOut? || e.CancelPending?)
    ensures Step(t, e) == t
  {
  }

  /**
   * A whole turn that is done: wherever the response lands, the user finds the
   * message sent and the text streamed, and nothing else new in the transcript.
   */
  lemma DoneTurnAddsTwoRows(t: Turn, text: string, request: string, session: string, events: seq<Event>, at: nat)
    requires Coherent(t) && MaySend(t) && request !in t.chunks && request !in t.terminals
    requires IsTurnOf(events, request, t.window + 1) && at <= |events|
    requires Outcome(events, request, t.window + 1).Done?
    ensures var after := Ended(t, text, request, session, events, at);
            && after.messages == t.messages + [Message(User, text), Message(Assistant, Join(Deltas(events, request)))]
            && after.phase == Idle && after.errorMessage.None? && after.active.None? && after.streamingText.None?
            && after.session == Some(Outcome(events, request, t.window + 1).session)
            && after.lastUserText == Some(text) && !after.awaiting && !after.pending
  {
    TurnsAreConfluent(t, text, request, session, events, at);
    assert t.messages + [Message(User, text)] + [Message(Assistant, Join(Deltas(events, request)))]
        == t.messages + [Message(User, text), Message(Assistant, Join(Deltas(events, request)))];
  }

  /** One that fails or is aborted leaves the message without a reply, and an error only when it failed. */
  lemma FailedTurnAddsOneRow(t: Turn, text: string, request: string, session: string, events: seq<Event>, at: nat)
    requires Coherent(t) && MaySend(t) && request !in t.chunks && request !in t.terminals
    requires IsTurnOf(events, request, t.window + 1) && at <= |events|
    requires Outcome(events, request, t.window + 1).Error?
    ensures var after, outcome := Ended(t, text, request, session, events, at), Outcome(events, request, t.window + 1);
            && after.messages == t.messages + [Message(User, text)] && after.session == Some(session)
            && after.active.None? && after.streamingText.None? && !after.awaiting && !after.pending
            && (outcome.code == "aborted" ==> after.phase == Cancelled && after.errorMessage.None?)
            && (outcome.code != "aborted" ==>
                  && after.phase == Failed(outcome.code)
                  && after.errorMessage == Some(if outcome.message != "" then outcome.message else outcome.code))
  {
    TurnsAreConfluent(t, text, request, session, events, at);
  }
}
