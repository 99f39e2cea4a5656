/** The recorder's chat turn machine: one outstanding turn, events in any order. */
module Chat {
  import opened Prelude

  datatype Role = User | Assistant
  datatype Message = Message(role: Role, text: string)
  datatype Phase = Idle | Streaming(session: string, request: string) | Cancelled | Failed(code: string)
  datatype Terminal = Done(session: string) | Error(code: string, message: string)

  datatype Turn = Turn(
    messages: seq<Message>,
    lastUserText: Option<string>,
    streamingText: Option<string>,
    errorMessage: Option<string>,
    session: Option<string>,
    active: Option<string>,
    awaiting: bool,
    window: nat,
    pending: bool,
    phase: Phase,
    chunks: map<string, seq<string>>,
    terminals: map<string, Terminal>)

  const EMPTY := Turn([], None, None, None, None, None, false, 0, false, Idle, map[], map[])

  const TIMED_OUT := "The request timed out waiting for the daemon."

  const CONNECTION_LOST := "The connection to the daemon was lost."

  /** Everything that can reach the machine; a send's outcome carries the window it was sent in. */
  datatype Event =
    | UserMessage(text: string)
    | SendResult(request: string, session: string, window: nat)
    | SendFailure(message: string, window: nat)
    | PendingTimedOut
    | CancelPending
    | Chunk(request: string, delta: string)
    | Finished(request: string, outcome: Terminal)
    | ConnectionLost
    | Reset

  function Join(parts: seq<string>): string {
    if parts == [] then "" else parts[0] + Join(parts[1..])
  }

  function Text(draft: Option<string>): string {
    if draft.Some? then draft.value else ""
  }

  function OnUserMessage(t: Turn, text: string): Turn {
    t.(messages := t.messages + [Message(User, text)], lastUserText := Some(text),
       streamingText := None, errorMessage := None, window := t.window + 1, awaiting := true, pending := true)
  }

  /** Gives up the pending send: the turn ends in `phase` with `error` shown. */
  function Abandon(t: Turn, error: Option<string>, phase: Phase): Turn {
    if !t.awaiting then t
    else t.(awaiting := false, pending := false, chunks := map[], terminals := map[],
            streamingText := None, errorMessage := error, phase := phase)
  }

  /** The turn gets its ids; chunks that came early become the draft. */
  function Pinned(t: Turn, request: string, session: string): Turn {
    t.(awaiting := false, pending := false, session := Some(session),
       active := Some(request), phase := Streaming(session, request),
       chunks := t.chunks - {request}, terminals := t.terminals - {request},
       streamingText := if request in t.chunks && t.chunks[request] != [] then Some(Join(t.chunks[request]))
                        else t.streamingText)
  }

  function OnFinished(t: Turn, request: string, outcome: Terminal): Turn {
    if t.active != Some(request) then
      if t.awaiting then t.(terminals := t.terminals[request := outcome]) else t
    else
      match outcome
      case Done(session) =>
        t.(active := None, session := Some(session), streamingText := None, phase := Idle,
           messages := t.messages + [Message(Assistant, Text(t.streamingText))])
      case Error(code, message) =>
        var ended := t.(active := None, streamingText := None);
        if code == "aborted" then ended.(phase := Cancelled)
        else ended.(phase := Failed(code), errorMessage := Some(if message == "" then code else message))
  }

  function OnSendResult(t: Turn, request: string, session: string): Turn {
    if !t.awaiting then t
    else if request in t.terminals then OnFinished(Pinned(t, request, session), request, t.terminals[request])
    else Pinned(t, request, session)
  }

  function OnChunk(t: Turn, request: string, delta: string): Turn {
    if t.phase.Streaming? && t.active == Some(request) then
      t.(streamingText := Some(Text(t.streamingText) + delta))
    else if t.awaiting then
      t.(chunks := t.chunks[request := (if request in t.chunks then t.chunks[request] else []) + [delta]])
    else t
  }

  function OnConnectionLost(t: Turn): Turn {
    if t.awaiting then Abandon(t, Some(CONNECTION_LOST), Failed("internal"))
    else if !t.phase.Streaming? then t
    else t.(active := None, streamingText := None, chunks := map[], terminals := map[], pending := false,
            errorMessage := Some(CONNECTION_LOST), phase := Failed("internal"))
  }

  function Step(t: Turn, e: Event): Turn {
    match e
    case UserMessage(text) => OnUserMessage(t, text)
    case SendResult(request, session, window) => if window == t.window then OnSendResult(t, request, session) else t
    case SendFailure(message, window) =>
      if window == t.window then Abandon(t, Some(message), Failed("internal")) else t
    case PendingTimedOut => Abandon(t, Some(TIMED_OUT), Failed("internal"))
    case CancelPending => Abandon(t, None, Cancelled)
    case Chunk(request, delta) => OnChunk(t, request, delta)
    case Finished(request, outcome) => OnFinished(t, request, outcome)
    case ConnectionLost => OnConnectionLost(t)
    case Reset => EMPTY.(window := t.window)
  }

  function Run(t: Turn, events: seq<Event>): Turn
    decreases |events|
  {
    if events == [] then t else Run(Step(t, events[0]), events[1..])
  }

  // ---------------------------------------------------------------- all runs

  function Count(messages: seq<Message>, role: Role): nat {
    if messages == [] then 0 else (if messages[0].role == role then 1 else 0) + Count(messages[1..], role)
  }

  lemma {:induction false} CountAppends(messages: seq<Message>, m: Message, role: Role)
    ensures Count(messages + [m], role) == Count(messages, role) + if m.role == role then 1 else 0
  {
    if messages == [] {
      assert messages + [m] == [m] && [m][1..] == [];
    } else {
      CountAppends(messages[1..], m, role);
      assert (messages + [m])[1..] == messages[1..] + [m];
    }
  }

  /** Replies given plus replies still owed never outnumber the user's rows. */
  predicate RepliesOwed(t: Turn) {
    Count(t.messages, Assistant) + (if t.active.Some? then 1 else 0) + (if t.awaiting then 1 else 0)
      <= Count(t.messages, User)
  }

  lemma ReplyCounts(t: Turn, text: string)
    ensures Count(t.messages + [Message(Assistant, text)], User) == Count(t.messages, User)
    ensures Count(t.messages + [Message(Assistant, text)], Assistant) == Count(t.messages, Assistant) + 1
  {
    CountAppends(t.messages, Message(Assistant, text), User);
    CountAppends(t.messages, Message(Assistant, text), Assistant);
  }

  lemma FinishKeepsRepliesOwed(t: Turn, request: string, outcome: Terminal)
    requires RepliesOwed(t)
    ensures RepliesOwed(OnFinished(t, request, outcome))
  {
    ReplyCounts(t, Text(t.streamingText));
  }

  lemma SendResultKeepsRepliesOwed(t: Turn, request: string, session: string)
    requires RepliesOwed(t)
    ensures RepliesOwed(OnSendResult(t, request, session))
  {
    if t.awaiting && request in t.terminals {
      FinishKeepsRepliesOwed(Pinned(t, request, session), request, t.terminals[request]);
    }
  }

  lemma StepKeepsRepliesOwed(t: Turn, e: Event)
    requires RepliesOwed(t)
    ensures RepliesOwed(Step(t, e))
  {
    match e
    case UserMessage(text) =>
      CountAppends(t.messages, Message(User, text), User);
      CountAppends(t.messages, Message(User, text), Assistant);
    case SendResult(request, session, _) => SendResultKeepsRepliesOwed(t, request, session);
    case Finished(request, outcome) => FinishKeepsRepliesOwed(t, request, outcome);
    case _ =>
  }

  /** Over every run whatever, a user row is answered by at most one assistant row. */
  lemma {:induction false} AtMostOneReplyPerUserRow(t: Turn, events: seq<Event>)
    requires RepliesOwed(t)
    ensures RepliesOwed(Run(t, events))
    ensures Count(Run(t, events).messages, Assistant) <= Count(Run(t, events).messages, User)
    decreases |events|
  {
    if events != [] {
      StepKeepsRepliesOwed(t, events[0]);
      AtMostOneReplyPerUserRow(Step(t, events[0]), events[1..]);
    }
  }

  /**
   * What every way of sending checks: the composer refuses while a turn is pending
   * or streaming, the Retry button only shows in the failed phase. A turn may be
   * pending when Retry is pressed.
   */
  predicate MaySend(t: Turn) { !t.phase.Streaming? }

  /** Runs in which the user only sends while no turn is streaming. */
  predicate Gated(t: Turn, events: seq<Event>)
    decreases |events|
  {
    events == [] || ((events[0].UserMessage? ==> MaySend(t)) && Gated(Step(t, events[0]), events[1..]))
  }

  /** The pinned id and the phase agree, and nothing is drafted outside a streaming turn. */
  predicate Coherent(t: Turn) {
    && (t.active == if t.phase.Streaming? then Some(t.phase.request) else None)
    && (t.awaiting <==> t.pending)
    && (t.awaiting ==> !t.phase.Streaming?)
    && (!t.phase.Streaming? ==> t.streamingText == None)
  }

  lemma {:induction false} GatedRunsStayCoherent(t: Turn, events: seq<Event>)
    requires Coherent(t) && Gated(t, events)
    ensures Coherent(Run(t, events))
    decreases |events|
  {
    if events != [] {
      GatedRunsStayCoherent(Step(t, events[0]), events[1..]);
    }
  }

  // ------------------------------------------------------------- confluence

  /** The part of the state the user can see or that later turns depend on. */
  function Visible(t: Turn): Turn { t.(chunks := map[], terminals := map[]) }

  predicate OfRequest(e: Event, request: string) { (e.Chunk? || e.Finished?) && e.request == request }

  /** Daemon events, and outcomes of sends whose window was superseded before `window`. */
  predicate Arrives(e: Event, window: nat) {
    e.Chunk? || e.Finished? || ((e.SendResult? || e.SendFailure?) && e.window < window)
  }

  predicate NoneFor(events: seq<Event>, request: string, window: nat) {
    forall i | 0 <= i < |events| :: Arrives(events[i], window) && !OfRequest(events[i], request)
  }

  /** Any chunks of `request`, then its one terminal, mixed with other requests' events and late outcomes. */
  predicate IsTurnOf(events: seq<Event>, request: string, window: nat) {
    && events != []
    && Arrives(events[0], window)
    && if events[0].Finished? && events[0].request == request then NoneFor(events[1..], request, window)
       else IsTurnOf(events[1..], request, window)
  }

  function OwnDelta(e: Event, request: string): seq<string> {
    if e.Chunk? && e.request == request then [e.delta] else []
  }

  function Deltas(events: seq<Event>, request: string): seq<string> {
    if events == [] then []
    else OwnDelta(events[0], request) + Deltas(events[1..], request)
  }

  function Outcome(events: seq<Event>, request: string, window: nat): Terminal
    requires IsTurnOf(events, request, window)
  {
    if events[0].Finished? && events[0].request == request then events[0].outcome
    else Outcome(events[1..], request, window)
  }

  /** How a turn must end, from the text it streamed and how it finished. */
  function Resolved(t: Turn, session: string, text: string, outcome: Terminal): Turn {
    var ended := t.(awaiting := false, pending := false, active := None, streamingText := None,
                    chunks := map[], terminals := map[]);
    match outcome
    case Done(last) =>
      ended.(session := Some(last), phase := Idle, messages := t.messages + [Message(Assistant, text)])
    case Error(code, message) =>
      if code == "aborted" then ended.(session := Some(session), phase := Cancelled)
      else ended.(session := Some(session), phase := Failed(code),
                  errorMessage := Some(if message == "" then code else message))
  }

  function WithResponse(events: seq<Event>, at: nat, response: Event): seq<Event>
    requires at <= |events|
  {
    events[..at] + [response] + events[at..]
  }

  lemma {:induction false} JoinAppends(a: seq<string>, b: seq<string>)
    ensures Join(a + b) == Join(a) + Join(b)
  {
    if a == [] {
      assert a + b == b;
    } else {
      JoinAppends(a[1..], b);
      assert (a + b)[1..] == a[1..] + b;
    }
  }

  /** Once the turn is over, events of any request are ignored. */
  lemma {:induction false} QuietAfterwards(t: Turn, events: seq<Event>)
    requires Coherent(t) && !t.awaiting && !t.phase.Streaming?
    requires forall i | 0 <= i < |events| :: Arrives(events[i], t.window)
    ensures Run(t, events) == t
    decreases |events|
  {
    if events != [] { QuietAfterwards(t, events[1..]); }
  }

  predicate SameHistory(t: Turn, u: Turn) {
    t.messages == u.messages && t.lastUserText == u.lastUserText && t.errorMessage == u.errorMessage
    && t.window == u.window
  }

  predicate StreamingNow(t: Turn, request: string, session: string, text: string) {
    && Coherent(t) && !t.awaiting && t.phase == Streaming(session, request) && t.session == Some(session)
    && Text(t.streamingText) == text
  }

  lemma StreamingStep(t: Turn, e: Event, request: string, session: string, text: string)
    requires StreamingNow(t, request, session, text) && Arrives(e, t.window)
    requires !(e.Finished? && e.request == request)
    ensures StreamingNow(Step(t, e), request, session, text + Join(OwnDelta(e, request)))
    ensures SameHistory(t, Step(t, e))
  {
    if e.Chunk? && e.request == request {
      assert Join([e.delta]) == e.delta + Join([]) == e.delta;
    } else {
      assert text + "" == text;
    }
  }

  lemma FinishingStep(t: Turn, e: Event, request: string, session: string, text: string)
    requires StreamingNow(t, request, session, text) && e.Finished? && e.request == request
    ensures Visible(Step(t, e)) == Resolved(t, session, text, e.outcome)
    ensures Coherent(Step(t, e)) && !Step(t, e).awaiting && !Step(t, e).phase.Streaming?
    ensures Step(t, e).window == t.window
  {
  }

  lemma {:induction false} NoDeltas(events: seq<Event>, request: string, window: nat)
    requires NoneFor(events, request, window)
    ensures Deltas(events, request) == []
  {
    if events != [] { NoDeltas(events[1..], request, window); }
  }

  /** The terminal comes first: the rest is noise. */
  lemma FinishedTurnResolves(t: Turn, events: seq<Event>, request: string, session: string, text: string)
    requires StreamingNow(t, request, session, text) && IsTurnOf(events, request, t.window)
    requires events[0].Finished? && events[0].request == request
    ensures Visible(Run(t, events))
         == Resolved(t, session, text + Join(Deltas(events, request)), Outcome(events, request, t.window))
  {
    FinishingStep(t, events[0], request, session, text);
    QuietAfterwards(Step(t, events[0]), events[1..]);
    NoDeltas(events[1..], request, t.window);
    assert Deltas(events, request) == [];
    assert text + "" == text;
  }

  /** A chunk of its own lengthens the draft by what the rest is to be joined to. */
  lemma DeltaJoins(text: string, e: Event, rest: seq<Event>, request: string)
    ensures text + Join(OwnDelta(e, request) + Deltas(rest, request))
         == text + Join(OwnDelta(e, request)) + Join(Deltas(rest, request))
  {
    JoinAppends(OwnDelta(e, request), Deltas(rest, request));
  }

  /** `Resolved` looks only at the transcript, the last user text, the error shown and the window. */
  lemma SameTurnResolvesAlike(t: Turn, u: Turn, session: string, text: string, outcome: Terminal)
    requires SameHistory(t, u)
    ensures Resolved(t, session, text, outcome) == Resolved(u, session, text, outcome)
  {
  }

  lemma {:induction false} StreamedTurnResolves(t: Turn, events: seq<Event>, request: string, session: string,
                                                text: string)
    requires StreamingNow(t, request, session, text) && IsTurnOf(events, request, t.window)
    ensures Visible(Run(t, events))
         == Resolved(t, session, text + Join(Deltas(events, request)), Outcome(events, request, t.window))
    decreases |events|
  {
    var e, rest := events[0], events[1..];
    if e.Finished? && e.request == request {
      FinishedTurnResolves(t, events, request, session, text);
    } else {
      StreamingStep(t, e, request, session, text);
      StreamedTurnResolves(Step(t, e), rest, request, session, text + Join(OwnDelta(e, request)));
      DeltaJoins(text, e, rest, request);
      SameTurnResolvesAlike(t, Step(t, e), session, text + Join(Deltas(events, request)),
                            Outcome(rest, request, t.window));
    }
  }

  /** Waiting state in which `parts`, and maybe the terminal, of `request` are buffered. */
  predicate Buffered(t: Turn, request: string, parts: seq<string>, outcome: Option<Terminal>) {
    && Coherent(t) && t.awaiting
    && (if parts == [] then request !in t.chunks else request in t.chunks && t.chunks[request] == parts)
    && (if outcome.None? then request !in t.terminals
        else request in t.terminals && t.terminals[request] == outcome.value)
  }

  function OwnOutcome(e: Event, request: string, outcome: Option<Terminal>): Option<Terminal> {
    if e.Finished? && e.request == request then Some(e.outcome) else outcome
  }

  lemma BufferingStep(t: Turn, e: Event, request: string, parts: seq<string>, outcome: Option<Terminal>)
    requires Buffered(t, request, parts, outcome) && Arrives(e, t.window)
    ensures Buffered(Step(t, e), request, parts + OwnDelta(e, request), OwnOutcome(e, request, outcome))
    ensures SameHistory(t, Step(t, e))
  {
    assert parts + [] == parts;
  }

  /** Either the terminal is buffered and the rest is noise, or the rest still brings it. */
  predicate Completes(events: seq<Event>, request: string, outcome: Option<Terminal>, window: nat) {
    if outcome.Some? then NoneFor(events, request, window) else IsTurnOf(events, request, window)
  }

  function Ending(events: seq<Event>, request: string, outcome: Option<Terminal>, window: nat): Terminal
    requires Completes(events, request, outcome, window)
  {
    if outcome.Some? then outcome.value else Outcome(events, request, window)
  }

  function Response(t: Turn, request: string, session: string): Event { SendResult(request, session, t.window) }

  /** The response finds the terminal buffered: the turn is over at once. */
  lemma ResponseEndsTurn(t: Turn, request: string, session: string, parts: seq<string>, outcome: Terminal)
    requires Buffered(t, request, parts, Some(outcome))
    ensures var ended := Step(t, Response(t, request, session));
            && Visible(ended) == Resolved(t, session, Join(parts), outcome) && ended.window == t.window
            && Coherent(ended) && !ended.awaiting && !ended.phase.Streaming?
  {
  }

  /** The response pins the turn with what was buffered of its text. */
  lemma ResponsePinsTurn(t: Turn, request: string, session: string, parts: seq<string>)
    requires Buffered(t, request, parts, None)
    ensures var pinned := Step(t, Response(t, request, session));
            StreamingNow(pinned, request, session, Join(parts)) && SameHistory(t, pinned)
  {
  }

  lemma ResponseNow(t: Turn, request: string, session: string, events: seq<Event>,
                    parts: seq<string>, outcome: Option<Terminal>)
    requires Buffered(t, request, parts, outcome) && Completes(events, request, outcome, t.window)
    ensures Visible(Run(Step(t, Response(t, request, session)), events))
         == Resolved(t, session, Join(parts + Deltas(events, request)), Ending(events, request, outcome, t.window))
  {
    var after := Step(t, Response(t, request, session));
    if outcome.Some? {
      ResponseEndsTurn(t, request, session, parts, outcome.value);
      QuietAfterwards(after, events);
      NoDeltas(events, request, t.window);
      assert parts + [] == parts;
    } else {
      ResponsePinsTurn(t, request, session, parts);
      StreamedTurnResolves(after, events, request, session, Join(parts));
      JoinAppends(parts, Deltas(events, request));
      SameTurnResolvesAlike(t, after, session, Join(parts + Deltas(events, request)),
                            Outcome(events, request, t.window));
    }
  }

  /** One more event buffered leaves the text and the ending of the turn what they were. */
  lemma EventBuffered(events: seq<Event>, request: string, parts: seq<string>, outcome: Option<Terminal>, window: nat)
    requires Completes(events, request, outcome, window) && events != []
    ensures Arrives(events[0], window)
    ensures Completes(events[1..], request, OwnOutcome(events[0], request, outcome), window)
    ensures parts + Deltas(events, request) == parts + OwnDelta(events[0], request) + Deltas(events[1..], request)
    ensures Ending(events, request, outcome, window)
         == Ending(events[1..], request, OwnOutcome(events[0], request, outcome), window)
  {
    var e, rest := events[0], events[1..];
    forall i | 0 <= i < |rest| ensures rest[i] == events[i + 1] { }
    assert parts + (OwnDelta(e, request) + Deltas(rest, request))
        == parts + OwnDelta(e, request) + Deltas(rest, request);
  }

  lemma {:induction false} ResponseAnywhere(t: Turn, request: string, session: string, events: seq<Event>,
                                            at: nat, parts: seq<string>, outcome: Option<Terminal>)
    requires Buffered(t, request, parts, outcome) && at <= |events| && Completes(events, request, outcome, t.window)
    ensures Visible(Run(t, WithResponse(events, at, Response(t, request, session))))
         == Resolved(t, session, Join(parts + Deltas(events, request)), Ending(events, request, outcome, t.window))
    decreases at
  {
    var response := Response(t, request, session);
    var all := WithResponse(events, at, response);
    if at == 0 {
      assert all[0] == response && all[1..] == events;
      ResponseNow(t, request, session, events, parts, outcome);
    } else {
      var e, rest := events[0], events[1..];
      assert all[0] == e && all[1..] == WithResponse(rest, at - 1, response);
      EventBuffered(events, request, parts, outcome, t.window);
      var parts', outcome' := parts + OwnDelta(e, request), OwnOutcome(e, request, outcome);
      BufferingStep(t, e, request, parts, outcome);
      ResponseAnywhere(Step(t, e), request, session, rest, at - 1, parts', outcome');
      SameTurnResolvesAlike(t, Step(t, e), session, Join(parts' + Deltas(rest, request)),
                            Ending(rest, request, outcome', t.window));
    }
  }

  /** How the turn that `text` starts ends when its response lands at `at` among its events. */
  function Ended(t: Turn, text: string, request: string, session: string, events: seq<Event>, at: nat): Turn
    requires at <= |events|
  {
    var sent := OnUserMessage(t, text);
    Visible(Run(sent, WithResponse(events, at, Response(sent, request, session))))
  }

  /**
   * The send response may land before, among or after the turn's events, and
   * whatever else arrives late: the turn always ends in the same visible state,
   * with the streamed text appended as one assistant row if it was done and no
   * row otherwise. The daemon picks `request` for this turn, so nothing of it was
   * buffered before.
   */
  lemma TurnsAreConfluent(t: Turn, text: string, request: string, session: string, events: seq<Event>, at: nat)
    requires Coherent(t) && MaySend(t)
    requires request !in t.chunks && request !in t.terminals
    requires IsTurnOf(events, request, t.window + 1) && at <= |events|
    ensures Ended(t, text, request, session, events, at)
         == Resolved(OnUserMessage(t, text), session, Join(Deltas(events, request)),
                     Outcome(events, request, t.window + 1))
  {
    ResponseAnywhere(OnUserMessage(t, text), request, session, events, at, [], None);
    assert [] + Deltas(events, request) == Deltas(events, request);
  }

  /** The reply of the streaming turn, and then the new turn's own. */
  function TwoReplies(t: Turn, request: string): seq<Event>
    requires t.phase.Streaming?
  {
    [Finished(t.phase.request, Done("")), Finished(request, Done(""))]
  }

  lemma TwoRepliesAreATurn(t: Turn, request: string, window: nat)
    requires t.phase.Streaming? && t.phase.request != request
    ensures IsTurnOf(TwoReplies(t, request), request, window) && Deltas(TwoReplies(t, request), request) == []
    ensures Outcome(TwoReplies(t, request), request, window) == Done("")
  {
    var events := TwoReplies(t, request);
    var rest := events[1..];
    assert rest == [Finished(request, Done(""))] && rest[1..] == [];
    assert IsTurnOf(rest, request, window) && Outcome(rest, request, window) == Done("");
    assert Deltas(rest[1..], request) == [] && Deltas(rest, request) == [];
  }

  /** Sent while a turn streams, a message lets that turn's reply through when its response comes late. */
  lemma StreamingTurnAnswersToo(t: Turn, text: string, request: string, session: string)
    requires Coherent(t) && t.phase.Streaming? && t.phase.request != request
    requires request !in t.chunks && request !in t.terminals
    ensures |Ended(t, text, request, session, TwoReplies(t, request), 1).messages| == |t.messages| + 3
  {
    var sent, events := OnUserMessage(t, text), TwoReplies(t, request);
    var all := WithResponse(events, 1, Response(sent, request, session));
    assert all == [events[0], Response(sent, request, session), events[1]];
    var one := Step(sent, events[0]);
    var two := Step(one, Response(sent, request, session));
    var three := Step(two, events[1]);
    assert |one.messages| == |t.messages| + 2 && one.window == sent.window && one.awaiting;
    assert two.active == Some(request) && two.messages == one.messages;
    assert all[1..] == [Response(sent, request, session), events[1]];
    assert all[1..][1..] == [events[1]] && all[1..][1..][1..] == [];
    assert Run(two, all[1..][1..]) == three;
    assert Run(one, all[1..]) == three;
  }

  /** Exactly when no turn is streaming does every placement of the response end the new turn alike. */
  lemma ConfluentIffMaySend(t: Turn, text: string, request: string, session: string)
    requires Coherent(t) && request !in t.chunks && request !in t.terminals && t.active != Some(request)
    ensures MaySend(t) <==>
              forall events: seq<Event>, at: nat | IsTurnOf(events, request, t.window + 1) && at <= |events| ::
                (Ended(t, text, request, session, events, at)
                 == Resolved(OnUserMessage(t, text), session, Join(Deltas(events, request)),
                             Outcome(events, request, t.window + 1)))
  {
    if MaySend(t) {
      forall events: seq<Event>, at: nat | IsTurnOf(events, request, t.window + 1) && at <= |events|
        ensures Ended(t, text, request, session, events, at)
             == Resolved(OnUserMessage(t, text), session, Join(Deltas(events, request)),
                         Outcome(events, request, t.window + 1))
      {
        TurnsAreConfluent(t, text, request, session, events, at);
      }
    } else {
      var events := TwoReplies(t, request);
      TwoRepliesAreATurn(t, request, t.window + 1);
      StreamingTurnAnswersToo(t, text, request, session);
      assert Ended(t, text, request, session, events, 1)
          != Resolved(OnUserMessage(t, text), session, Join(Deltas(events, request)),
                      Outcome(events, request, t.window + 1));
    }
  }

  // -------------------------------------------------------- superseded sends

  function UserMessages(events: seq<Event>): nat {
    if events == [] then 0 else (if events[0].UserMessage? then 1 else 0) + UserMessages(events[1..])
  }

  /** Every user message opens a window of its own; nothing else does. */
  lemma {:induction false} WindowsCount(t: Turn, events: seq<Event>)
    ensures Run(t, events).window == t.window + UserMessages(events)
    decreases |events|
  {
    if events != [] { WindowsCount(Step(t, events[0]), events[1..]); }
  }

  lemma {:induction false} RunSplits(t: Turn, first: seq<Event>, second: seq<Event>)
    ensures Run(t, first + second) == Run(Run(t, first), second)
    decreases |first|
  {
    if first == [] {
      assert first + second == second;
    } else {
      assert (first + second)[1..] == first[1..] + second;
      RunSplits(Step(t, first[0]), first[1..], second);
    }
  }

  /**
   * Over any number of turns: once another message was sent, the outcome of an
   * earlier send changes nothing, whenever it comes in.
   */
  lemma SupersededSendIsIgnored(t: Turn, before: seq<Event>, outcome: Event, later: seq<Event>)
    requires (outcome.SendResult? || outcome.SendFailure?) && outcome.window <= t.window
    requires UserMessages(before) > 0
    ensures Run(t, before + ([outcome] + later)) == Run(t, before + later)
  {
    WindowsCount(t, before);
    RunSplits(t, before, [outcome] + later);
    RunSplits(t, before, later);
    assert ([outcome] + later)[1..] == later;
  }

  /** The observable model object whose fields the views read. */
  class AppState {
    var chatMessages: seq<Message>
    var cachedLastUserChatText: Option<string>
    var chatStreamingText: Option<string>
    var chatErrorMessage: Option<string>
    var chatSessionId: Option<string>
    var activeRequestId: Option<string>
    var awaitingSendResult: bool
    var sendWindowEpoch: nat
    var isTurnPending: bool
    var chatPhase: Phase
    var bufferedChunks: map<string, seq<string>>
    var bufferedTerminals: map<string, Terminal>

    function State(): Turn
      reads this
    {
      Turn(chatMessages, cachedLastUserChatText, chatStreamingText, chatErrorMessage, chatSessionId,
           activeRequestId, awaitingSendResult, sendWindowEpoch, isTurnPending, chatPhase, bufferedChunks,
           bufferedTerminals)
    }

    constructor ()
      ensures State() == EMPTY
    {
      sendWindowEpoch := 0;
      chatMessages, cachedLastUserChatText, chatStreamingText, chatErrorMessage := [], None, None, None;
      chatSessionId, activeRequestId, awaitingSendResult, isTurnPending := None, None, false, false;
      chatPhase, bufferedChunks, bufferedTerminals := Idle, map[], map[];
    }

    method AppendUserMessage(text: string)
      modifies this
      ensures State() == OnUserMessage(old(State()), text)
    {
      chatMessages := chatMessages + [Message(User, text)];
      cachedLastUserChatText := Some(text);
      chatStreamingText, chatErrorMessage := None, None;
      sendWindowEpoch := sendWindowEpoch + 1;
      awaitingSendResult, isTurnPending := true, true;
    }

    /** `sendChatMessage` up to its await: the window it will compare with. */
    method BeginSend(text: string) returns (window: nat)
      modifies this
      ensures State() == Step(old(State()), UserMessage(text)) && window == State().window
    {
      AppendUserMessage(text);
      window := sendWindowEpoch;
    }

    method AbandonPending(error: Option<string>, phase: Phase)
      modifies this
      ensures State() == Abandon(old(State()), error, phase)
    {
      if !awaitingSendResult { return; }
      awaitingSendResult, isTurnPending := false, false;
      bufferedChunks, bufferedTerminals := map[], map[];
      chatStreamingText, chatErrorMessage, chatPhase := None, error, phase;
    }

    method ApplyChatSendFailure(message: string)
      modifies this
      ensures State() == Step(old(State()), SendFailure(message, old(State()).window))
    {
      AbandonPending(Some(message), Failed("internal"));
    }

    /** What came early for the request becomes its draft and leaves the buffers. */
    method ClaimEarly(request: string)
      modifies this`chatStreamingText, this`bufferedChunks, this`bufferedTerminals
      ensures chatStreamingText == if request in old(bufferedChunks) && old(bufferedChunks)[request] != []
                                   then Some(Join(old(bufferedChunks)[request])) else old(chatStreamingText)
      ensures bufferedChunks == old(bufferedChunks) - {request}
      ensures bufferedTerminals == old(bufferedTerminals) - {request}
    {
      if request in bufferedChunks && bufferedChunks[request] != [] {
        chatStreamingText := Some(Join(bufferedChunks[request]));
      }
      bufferedChunks := bufferedChunks - {request};
      bufferedTerminals := bufferedTerminals - {request};
    }

    method Pin(request: string, session: string)
      modifies this
      ensures State() == Pinned(old(State()), request, session)
    {
      awaitingSendResult, isTurnPending := false, false;
      chatSessionId, activeRequestId := Some(session), Some(request);
      chatPhase := Streaming(session, request);
      ClaimEarly(request);
    }

    method ApplyChatDone(request: string, session: string)
      modifies this
      ensures State() == OnFinished(old(State()), request, Done(session))
    {
      if activeRequestId != Some(request) {
        if awaitingSendResult {
          bufferedTerminals := bufferedTerminals[request := Done(session)];
        }
        return;
      }
      activeRequestId, chatSessionId := None, Some(session);
      chatMessages := chatMessages + [Message(Assistant, Text(chatStreamingText))];
      chatStreamingText, chatPhase := None, Idle;
    }

    method ApplyChatError(request: string, code: string, message: string)
      modifies this
      ensures State() == OnFinished(old(State()), request, Error(code, message))
    {
      if activeRequestId != Some(request) {
        if awaitingSendResult {
          bufferedTerminals := bufferedTerminals[request := Error(code, message)];
        }
        return;
      }
      activeRequestId, chatStreamingText := None, None;
      if code == "aborted" {
        chatPhase := Cancelled;
      } else {
        chatErrorMessage := Some(if message == "" then code else message);
        chatPhase := Failed(code);
      }
    }

    method ApplyChatSendResult(request: string, session: string)
      modifies this
      ensures State() == OnSendResult(old(State()), request, session)
    {
      if !awaitingSendResult { return; }
      var terminal := if request in bufferedTerminals then Some(bufferedTerminals[request]) else None;
      Pin(request, session);
      match terminal {
        case Some(Done(last)) => ApplyChatDone(request, last);
        case Some(Error(code, message)) => ApplyChatError(request, code, message);
        case None =>
      }
    }

    /** `sendChatMessage` after its await. */
    method FinishSend(window: nat, outcome: Event)
      requires (outcome.SendResult? || outcome.SendFailure?) && outcome.window == window
      modifies this
      ensures State() == Step(old(State()), outcome)
    {
      if window != sendWindowEpoch { return; }
      match outcome {
        case SendResult(request, session, _) => ApplyChatSendResult(request, session);
        case SendFailure(message, _) => ApplyChatSendFailure(message);
      }
    }

    method CancelPendingTurn()
      modifies this
      ensures State() == Step(old(State()), CancelPending)
    {
      AbandonPending(None, Cancelled);
    }

    method ApplyChatChunk(request: string, delta: string)
      modifies this
      ensures State() == OnChunk(old(State()), request, delta)
    {
      if chatPhase.Streaming? && activeRequestId == Some(request) {
        chatStreamingText := Some(Text(chatStreamingText) + delta);
        return;
      }
      if awaitingSendResult {
        var earlier := if request in bufferedChunks then bufferedChunks[request] else [];
        bufferedChunks := bufferedChunks[request := earlier + [delta]];
      }
    }

    method HandleConnectionLost()
      modifies this
      ensures State() == OnConnectionLost(old(State()))
    {
      if awaitingSendResult {
        ApplyChatSendFailure(CONNECTION_LOST);
        return;
      }
      if !chatPhase.Streaming? { return; }
      activeRequestId, chatStreamingText := None, None;
      bufferedChunks, bufferedTerminals, isTurnPending := map[], map[], false;
      chatErrorMessage, chatPhase := Some(CONNECTION_LOST), Failed("internal");
    }

    method ResetConversation()
      modifies this
      ensures State() == EMPTY.(window := old(State()).window)
    {
      chatMessages, cachedLastUserChatText, chatStreamingText, chatErrorMessage := [], None, None, None;
      chatSessionId, activeRequestId, awaitingSendResult, isTurnPending := None, None, false, false;
      bufferedChunks, bufferedTerminals, chatPhase := map[], map[], Idle;
    }
  }
}
