/**
 * The recorder client's pending requests and batches under every interleaving
 * of its lock-protected sections: registration, write, reply, timeout,
 * teardown, disconnect and reconnect.
 */
module Waiters {
  import opened Prelude

  /** A continuation, named by the request or batch id it waits for. */
  type Id = nat

  /** `generation` is the connection a waiter registered under, kept for reasoning only. */
  datatype Entry = Entry(messageId: nat, generation: nat)

  /** The fields behind the state lock. */
  datatype Shared = Shared(
    fd: Option<nat>, hello: bool, generation: nat,
    responses: map<Id, Entry>, batches: map<Id, Entry>)

  /** A critical section: the fields it leaves and the continuations it takes out. */
  datatype Section = Section(shared: Shared, taken: set<Id>)

  function Connected(s: Shared): bool { s.fd.Some? && s.hello }

  function Take(s: Shared, c: Id): Section {
    Section(s.(responses := s.responses - {c}, batches := s.batches - {c}),
            if c in s.responses || c in s.batches then {c} else {})
  }

  function TakeAll(s: Shared): Section {
    Section(s.(responses := map[], batches := map[]), s.responses.Keys + s.batches.Keys)
  }

  function Register(s: Shared, c: Id, batch: bool, messageId: nat): Section {
    var entry := Entry(messageId, s.generation);
    if !Connected(s) then Section(s, {c})
    else if batch then Section(s.(batches := s.batches[c := entry]), {})
    else Section(s.(responses := s.responses[c := entry]), {})
  }

  /** Shared by the reply timeout and, with the test reversed, the writer's checks. */
  function TakeIf(s: Shared, c: Id, test: bool): Section {
    if test then Take(s, c) else Section(s, {})
  }

  function Disconnect(s: Shared): Section {
    TakeAll(s.(fd := None, hello := false, generation := s.generation + 1))
  }

  function TeardownActive(s: Shared, sock: nat): bool { s.fd == Some(sock) }

  function TeardownLock(s: Shared, sock: nat): Section {
    Section(if TeardownActive(s, sock) then s.(fd := None, hello := false) else s, {})
  }

  function Adopt(s: Shared, sock: nat): Section {
    Section(s.(fd := Some(sock), hello := true, generation := s.generation + 1), {})
  }

  /** The socket and the generation a request captured when it registered. */
  datatype Ticket = Ticket(sock: nat, generation: nat)

  /** A frame on the writer queue; once `sending`, its check before the send has passed. */
  datatype Write = Write(ticket: Ticket, sending: bool)

  /** The whole client: shared fields, and where its threads stand between sections. */
  datatype System = System(
    shared: Shared,
    created: set<Id>,
    arming: map<Id, Ticket>, // registered, timer not armed yet
    timers: map<Id, nat>,    // armed reply deadlines, by generation
    writes: map<Id, Write>,  // frames queued or in flight
    teardowns: nat,          // teardowns between their lock and their drain
    connectors: nat,         // connect calls between their disconnect and their adoption
    held: multiset<Id>,      // taken out, about to be resumed
    resumed: multiset<Id>)

  const INITIAL := System(Shared(None, false, 0, map[], map[]), {}, map[], map[], map[], 0, 0,
                          multiset{}, multiset{})

  datatype Step =
    | Begin(c: Id, batch: bool, messageId: nat)  // request / sendBatch up to the unlock
    | Arm(c: Id)                                 // arm the deadline, queue the write
    | PreSend(c: Id)                             // the writer's generation check before the send
    | SendDone(c: Id)                            // the send went out: its check afterwards
    | SendFailed(c: Id)                          // the send failed: teardown of its own socket
    | Reply(c: Id)                               // response, ack or error frame naming c
    | TimerFires(c: Id)
    | StartTeardown(sock: nat)
    | FinishTeardown
    | UserDisconnect
    | StartConnect
    | FinishConnect(sock: nat)
    | FailConnect
    | Resume(c: Id)

  function Enter(s: System, section: Section): System {
    s.(shared := section.shared, held := s.held + multiset(section.taken))
  }

  /** The lock section of a teardown; only the one of the active socket goes on to drain. */
  function TearDown(s: System, sock: nat): System {
    Enter(s, TeardownLock(s.shared, sock))
      .(teardowns := s.teardowns + if TeardownActive(s.shared, sock) then 1 else 0)
  }

  /** A frame that leaves the writer queue, with the waiter taken out if its connection is gone. */
  function Unqueued(s: System, c: Id): System
    requires c in s.writes
  {
    Enter(s, TakeIf(s.shared, c, s.shared.generation != s.writes[c].ticket.generation)).(writes := s.writes - {c})
  }

  function Next(s: System, step: Step): System {
    match step
    case Begin(c, batch, messageId) =>
      if c in s.created then s
      else
        var begun := s.(created := s.created + {c});
        var entered := Enter(begun, Register(s.shared, c, batch, messageId));
        if Connected(s.shared)
        then entered.(arming := s.arming[c := Ticket(s.shared.fd.value, s.shared.generation)]) else entered
    case Arm(c) =>
      if c !in s.arming then s
      else s.(timers := s.timers[c := s.arming[c].generation], writes := s.writes[c := Write(s.arming[c], false)],
              arming := s.arming - {c})
    case PreSend(c) =>
      if c !in s.writes || s.writes[c].sending then s
      else if s.shared.generation != s.writes[c].ticket.generation then Unqueued(s, c)
      else s.(writes := s.writes[c := s.writes[c].(sending := true)])
    case SendDone(c) => if c in s.writes && s.writes[c].sending then Unqueued(s, c) else s
    case SendFailed(c) =>
      if c in s.writes && s.writes[c].sending
      then TearDown(s.(writes := s.writes - {c}), s.writes[c].ticket.sock) else s
    case Reply(c) => Enter(s, Take(s.shared, c))
    case TimerFires(c) =>
      if c !in s.timers then s
      else Enter(s, TakeIf(s.shared, c, s.shared.generation == s.timers[c])).(timers := s.timers - {c})
    case StartTeardown(sock) => TearDown(s, sock)
    case FinishTeardown =>
      if s.teardowns == 0 then s else Enter(s, TakeAll(s.shared)).(teardowns := s.teardowns - 1)
    case UserDisconnect => Enter(s, Disconnect(s.shared))
    case StartConnect => Enter(s, Disconnect(s.shared)).(connectors := s.connectors + 1)
    case FinishConnect(sock) =>
      if s.connectors == 0 then s else Enter(s, Adopt(s.shared, sock)).(connectors := s.connectors - 1)
    case FailConnect => s.(connectors := if s.connectors == 0 then 0 else s.connectors - 1)
    case Resume(c) =>
      if s.held[c] == 0 then s
      else s.(held := s.held - multiset{c}, resumed := s.resumed + multiset{c})
  }

  function Run(s: System, steps: seq<Step>): System
    decreases |steps|
  {
    if steps == [] then s else Run(Next(s, steps[0]), steps[1..])
  }

  // ------------------------------------------------------- resumed exactly once

  /** How many places a continuation is at: the two maps, in hand, or resumed. */
  function Places(s: System, c: Id): nat {
    (if c in s.shared.responses then 1 else 0) + (if c in s.shared.batches then 1 else 0)
      + s.held[c] + s.resumed[c]
  }

  /** Every continuation ever created is at exactly one place; no other exists. */
  ghost predicate Conserved(s: System) {
    forall c :: Places(s, c) == if c in s.created then 1 else 0
  }

  function InMaps(s: Shared, c: Id): nat { (if c in s.responses then 1 else 0) + if c in s.batches then 1 else 0 }

  /** The section takes a continuation in hand exactly when it takes it out of the maps. */
  predicate HandsOver(s: Shared, section: Section, c: Id) {
    InMaps(section.shared, c) + (if c in section.taken then 1 else 0) == InMaps(s, c)
  }

  lemma EnterConserves(s: System, section: Section)
    requires Conserved(s) && forall c :: HandsOver(s.shared, section, c)
    ensures Conserved(Enter(s, section))
  {
    forall c ensures Places(Enter(s, section), c) == if c in s.created then 1 else 0 {
      assert Places(s, c) == InMaps(s.shared, c) + s.held[c] + s.resumed[c];
      assert HandsOver(s.shared, section, c);
    }
  }

  lemma InOneMap(s: System, c: Id)
    requires Conserved(s)
    ensures InMaps(s.shared, c) <= 1
  {
    assert Places(s, c) <= 1;
  }

  lemma TakeConserves(s: System, c: Id, test: bool)
    requires Conserved(s)
    ensures Conserved(Enter(s, TakeIf(s.shared, c, test)))
  {
    InOneMap(s, c);
    EnterConserves(s, TakeIf(s.shared, c, test));
  }

  lemma TakeAllConserves(s: System, left: Shared)
    requires Conserved(s) && left.responses == s.shared.responses && left.batches == s.shared.batches
    ensures Conserved(Enter(s, TakeAll(left)))
  {
    forall c ensures HandsOver(s.shared, TakeAll(left), c) { InOneMap(s, c); }
    EnterConserves(s, TakeAll(left));
  }

  lemma KeepAllConserves(s: System, left: Shared)
    requires Conserved(s) && left.responses == s.shared.responses && left.batches == s.shared.batches
    ensures Conserved(Enter(s, Section(left, {})))
  {
    EnterConserves(s, Section(left, {}));
  }

  lemma BeginConserves(s: System, c: Id, batch: bool, messageId: nat)
    requires Conserved(s) && c !in s.created
    ensures Conserved(Enter(s.(created := s.created + {c}), Register(s.shared, c, batch, messageId)))
  {
    var after := Enter(s.(created := s.created + {c}), Register(s.shared, c, batch, messageId));
    assert Places(s, c) == 0;
    forall d ensures Places(after, d) == if d in after.created then 1 else 0 {
      assert Places(s, d) == if d in s.created then 1 else 0;
    }
  }

  lemma ResumeConserves(s: System, c: Id)
    requires Conserved(s)
    ensures Conserved(Next(s, Resume(c)))
  {
    var after := Next(s, Resume(c));
    forall d ensures Places(after, d) == if d in after.created then 1 else 0 {
      assert Places(s, d) == if d in s.created then 1 else 0;
    }
  }

  /** Places do not depend on timers, writes or the threads' own counters. */
  lemma SameWaiters(s: System, after: System)
    requires Conserved(s) && after.shared.responses == s.shared.responses && after.shared.batches == s.shared.batches
    requires after.created == s.created && after.held == s.held && after.resumed == s.resumed
    ensures Conserved(after)
  {
    forall c ensures Places(after, c) == if c in after.created then 1 else 0 {
      assert Places(after, c) == Places(s, c);
    }
  }

  lemma BeginStepConserves(s: System, c: Id, batch: bool, messageId: nat)
    requires Conserved(s)
    ensures Conserved(Next(s, Begin(c, batch, messageId)))
  {
    if c !in s.created {
      BeginConserves(s, c, batch, messageId);
      SameWaiters(Enter(s.(created := s.created + {c}), Register(s.shared, c, batch, messageId)),
                  Next(s, Begin(c, batch, messageId)));
    }
  }

  lemma TimerConserves(s: System, c: Id)
    requires Conserved(s)
    ensures Conserved(Next(s, TimerFires(c)))
  {
    if c in s.timers {
      var test := s.shared.generation == s.timers[c];
      TakeConserves(s, c, test);
      SameWaiters(Enter(s, TakeIf(s.shared, c, test)), Next(s, TimerFires(c)));
    }
  }

  lemma TeardownConserves(s: System, sock: nat)
    requires Conserved(s)
    ensures Conserved(TearDown(s, sock))
  {
    KeepAllConserves(s, TeardownLock(s.shared, sock).shared);
    SameWaiters(Enter(s, TeardownLock(s.shared, sock)), TearDown(s, sock));
  }

  lemma DrainConserves(s: System)
    requires Conserved(s)
    ensures Conserved(Next(s, FinishTeardown))
  {
    if s.teardowns > 0 {
      TakeAllConserves(s, s.shared);
      SameWaiters(Enter(s, TakeAll(s.shared)), Next(s, FinishTeardown));
    }
  }

  lemma UnqueuedConserves(s: System, c: Id)
    requires Conserved(s) && c in s.writes
    ensures Conserved(Unqueued(s, c))
  {
    var test := s.shared.generation != s.writes[c].ticket.generation;
    TakeConserves(s, c, test);
    SameWaiters(Enter(s, TakeIf(s.shared, c, test)), Unqueued(s, c));
  }

  lemma SendFailedConserves(s: System, c: Id)
    requires Conserved(s)
    ensures Conserved(Next(s, SendFailed(c)))
  {
    if c in s.writes && s.writes[c].sending {
      var left := s.(writes := s.writes - {c});
      SameWaiters(s, left);
      TeardownConserves(left, s.writes[c].ticket.sock);
    }
  }

  lemma WriterConserves(s: System, c: Id)
    requires Conserved(s)
    ensures Conserved(Next(s, PreSend(c))) && Conserved(Next(s, SendDone(c)))
  {
    if c in s.writes {
      UnqueuedConserves(s, c);
      SameWaiters(s, s.(writes := s.writes[c := s.writes[c].(sending := true)]));
    }
  }

  lemma DisconnectConserves(s: System)
    requires Conserved(s)
    ensures Conserved(Enter(s, Disconnect(s.shared))) && Conserved(Next(s, StartConnect))
  {
    TakeAllConserves(s, s.shared.(fd := None, hello := false, generation := s.shared.generation + 1));
    SameWaiters(Enter(s, Disconnect(s.shared)), Next(s, StartConnect));
  }

  lemma ConnectConserves(s: System, sock: nat)
    requires Conserved(s)
    ensures Conserved(Next(s, FinishConnect(sock)))
  {
    if s.connectors > 0 {
      KeepAllConserves(s, Adopt(s.shared, sock).shared);
      SameWaiters(Enter(s, Adopt(s.shared, sock)), Next(s, FinishConnect(sock)));
    }
  }

  lemma NextConserves(s: System, step: Step)
    requires Conserved(s)
    ensures Conserved(Next(s, step))
  {
    match step
    case Begin(c, batch, messageId) => BeginStepConserves(s, c, batch, messageId);
    case Arm(c) => SameWaiters(s, Next(s, step));
    case PreSend(c) => WriterConserves(s, c);
    case SendDone(c) => WriterConserves(s, c);
    case SendFailed(c) => SendFailedConserves(s, c);
    case Reply(c) => TakeConserves(s, c, true);
    case TimerFires(c) => TimerConserves(s, c);
    case StartTeardown(sock) => TeardownConserves(s, sock);
    case FinishTeardown => DrainConserves(s);
    case UserDisconnect => DisconnectConserves(s);
    case StartConnect => DisconnectConserves(s);
    case FinishConnect(sock) => ConnectConserves(s, sock);
    case FailConnect => SameWaiters(s, Next(s, step));
    case Resume(c) => ResumeConserves(s, c);
  }

  /** Whatever the interleaving, no continuation is resumed twice or lost. */
  lemma {:induction false} ResumedAtMostOnce(s: System, steps: seq<Step>)
    requires Conserved(s)
    ensures Conserved(Run(s, steps))
    ensures forall c :: Run(s, steps).resumed[c] <= 1
    decreases |steps|
  {
    if steps == [] {
      forall c ensures s.resumed[c] <= 1 { assert Places(s, c) <= 1; }
    } else {
      NextConserves(s, steps[0]);
      ResumedAtMostOnce(Next(s, steps[0]), steps[1..]);
    }
  }

  // ------------------------------------------------- when the deadline frees

  predicate Waiting(s: System, c: Id) { c in s.shared.responses || c in s.shared.batches }

  function Stamp(s: System, c: Id): nat
    requires Waiting(s, c)
  {
    if c in s.shared.responses then s.shared.responses[c].generation else s.shared.batches[c].generation
  }

  /**
   * A waiter's deadline and frame carry its own generation; once the deadline has
   * passed without freeing it, the client is on a later connection.
   */
  predicate Timely(s: System, c: Id) {
    Waiting(s, c) ==>
      && Stamp(s, c) <= s.shared.generation
      && (c in s.arming ==> s.arming[c].generation == Stamp(s, c))
      && (c in s.timers ==> s.timers[c] == Stamp(s, c))
      && (c in s.writes ==> s.writes[c].ticket.generation == Stamp(s, c))
      && (c !in s.arming && c !in s.timers ==> Stamp(s, c) < s.shared.generation)
  }

  /** Only requests that began have a deadline or a frame, and none before it was armed. */
  predicate Placed(s: System, c: Id) {
    && (c in s.arming || c in s.timers || c in s.writes ==> c in s.created)
    && (c in s.arming ==> c !in s.timers && c !in s.writes)
  }

  /** What every run keeps, however many connect calls overlap. */
  ghost predicate Timed(s: System) {
    Conserved(s) && forall c :: Timely(s, c) && Placed(s, c)
  }

  lemma BeginIsTimely(s: System, c: Id, batch: bool, messageId: nat, d: Id)
    requires Timed(s)
    ensures var after := Next(s, Begin(c, batch, messageId)); Timely(after, d) && Placed(after, d)
  {
    assert Places(s, c) == if c in s.created then 1 else 0;
    assert Timely(s, d) && Placed(s, d) && Placed(s, c);
  }

  /** A section that takes out `c` or nobody leaves the others as they were. */
  lemma TakeIsTimely(s: System, c: Id, test: bool, d: Id)
    requires Timely(s, d) && Placed(s, d)
    ensures var after := Enter(s, TakeIf(s.shared, c, test)); Timely(after, d) && Placed(after, d)
  {
  }

  lemma WriterIsTimely(s: System, step: Step, d: Id)
    requires Timed(s) && (step.PreSend? || step.SendDone? || step.SendFailed?)
    ensures Timely(Next(s, step), d) && Placed(Next(s, step), d)
  {
    assert Timely(s, d) && Placed(s, d);
  }

  lemma TimerIsTimely(s: System, step: Step, d: Id)
    requires Timed(s) && (step.TimerFires? || step.Arm?)
    ensures Timely(Next(s, step), d) && Placed(Next(s, step), d)
  {
    assert Timely(s, d) && Placed(s, d);
  }

  lemma DrainIsTimely(s: System, step: Step, d: Id)
    requires Timed(s) && (step.FinishTeardown? || step.UserDisconnect? || step.StartConnect?)
    ensures Timely(Next(s, step), d) && Placed(Next(s, step), d)
  {
    assert Timely(s, d) && Placed(s, d);
  }

  lemma ConnectionIsTimely(s: System, step: Step, d: Id)
    requires Timed(s) && (step.StartTeardown? || step.FinishConnect? || step.FailConnect? || step.Resume?)
    ensures Timely(Next(s, step), d) && Placed(Next(s, step), d)
  {
    assert Timely(s, d) && Placed(s, d);
  }

  lemma NextKeepsTimed(s: System, step: Step)
    requires Timed(s)
    ensures Timed(Next(s, step))
  {
    NextConserves(s, step);
    forall d ensures Timely(Next(s, step), d) && Placed(Next(s, step), d) {
      match step
      case Begin(c, batch, messageId) => BeginIsTimely(s, c, batch, messageId, d);
      case Arm(_) => TimerIsTimely(s, step, d);
      case TimerFires(_) => TimerIsTimely(s, step, d);
      case PreSend(_) => WriterIsTimely(s, step, d);
      case SendDone(_) => WriterIsTimely(s, step, d);
      case SendFailed(_) => WriterIsTimely(s, step, d);
      case Reply(c) => TakeIsTimely(s, c, true, d);
      case FinishTeardown => DrainIsTimely(s, step, d);
      case UserDisconnect => DrainIsTimely(s, step, d);
      case StartConnect => DrainIsTimely(s, step, d);
      case _ => ConnectionIsTimely(s, step, d);
    }
  }

  lemma {:induction false} RunKeepsTimed(s: System, steps: seq<Step>)
    requires Timed(s)
    ensures Timed(Run(s, steps))
    decreases |steps|
  {
    if steps != [] {
      NextKeepsTimed(s, steps[0]);
      RunKeepsTimed(Next(s, steps[0]), steps[1..]);
    }
  }

  predicate Adopts(s: System, step: Step) { step.FinishConnect? && s.connectors > 0 }

  /** How many sockets are adopted in the course of the run. */
  function Adoptions(s: System, steps: seq<Step>): nat
    decreases |steps|
  {
    if steps == [] then 0 else (if Adopts(s, steps[0]) then 1 else 0) + Adoptions(Next(s, steps[0]), steps[1..])
  }

  /** A begun waiter can only be left as it was or taken out. */
  lemma SurvivorIsSame(s: System, step: Step, c: Id)
    requires c in s.created && Waiting(Next(s, step), c)
    ensures Waiting(s, c) && Stamp(Next(s, step), c) == Stamp(s, c)
  {
  }

  predicate Connects(step: Step) { step.UserDisconnect? || step.StartConnect? || step.FinishConnect? }

  lemma RequestsKeepGeneration(s: System, step: Step)
    requires !Connects(step)
    ensures Next(s, step).shared.generation == s.shared.generation
  {
  }

  /** A disconnect ages the connection too, but leaves nobody waiting. */
  lemma SurvivorAges(s: System, step: Step, c: Id)
    requires Waiting(Next(s, step), c)
    ensures Next(s, step).shared.generation == s.shared.generation + if Adopts(s, step) then 1 else 0
  {
    if !Connects(step) { RequestsKeepGeneration(s, step); }
  }

  lemma CreatedStays(s: System, step: Step, c: Id)
    requires c in s.created
    ensures c in Next(s, step).created
  {
  }

  lemma {:induction false} SurvivorAgesByAdoptions(s: System, steps: seq<Step>, c: Id)
    requires c in s.created && Waiting(Run(s, steps), c)
    ensures Waiting(s, c) && Stamp(Run(s, steps), c) == Stamp(s, c)
    ensures Run(s, steps).shared.generation == s.shared.generation + Adoptions(s, steps)
    decreases |steps|
  {
    if steps != [] {
      CreatedStays(s, steps[0], c);
      SurvivorAgesByAdoptions(Next(s, steps[0]), steps[1..], c);
      SurvivorIsSame(s, steps[0], c);
      SurvivorAges(s, steps[0], c);
    }
  }

  /** The reply deadline of `c` passes, having been armed if it was not yet. */
  function DeadlinePassed(s: System, c: Id): System { Next(Next(s, Arm(c)), TimerFires(c)) }

  lemma DeadlineFreesCurrent(s: System, c: Id)
    requires Timed(s) && Waiting(s, c)
    ensures Waiting(DeadlinePassed(s, c), c) <==> Stamp(s, c) != s.shared.generation
    ensures !Waiting(DeadlinePassed(s, c), c) ==> DeadlinePassed(s, c).held[c] == 1
  {
    NextKeepsTimed(s, Arm(c));
    var armed := Next(s, Arm(c));
    NextConserves(armed, TimerFires(c));
    assert Timely(s, c) && Timely(armed, c) && Placed(s, c);
    assert Places(s, c) == 1 && Places(armed, c) == 1;
    assert Places(DeadlinePassed(s, c), c) == 1;
    assert s.resumed[c] == 0;
  }

  lemma InitialIsTimed()
    ensures Timed(INITIAL)
  {
  }

  lemma {:induction false} RunSplits(s: System, first: seq<Step>, second: seq<Step>)
    ensures Run(s, first + second) == Run(Run(s, first), second)
    decreases |first|
  {
    if first == [] {
      assert first + second == second;
    } else {
      assert (first + second)[1..] == first[1..] + second;
      RunSplits(Next(s, first[0]), first[1..], second);
    }
  }

  lemma FreshStamp(s: System, c: Id, batch: bool, messageId: nat)
    requires Timed(s) && c !in s.created && Waiting(Next(s, Begin(c, batch, messageId)), c)
    ensures var begun := Next(s, Begin(c, batch, messageId)); Stamp(begun, c) == begun.shared.generation
  {
    assert Places(s, c) == 0;
  }

  /**
   * Over every run, with any number of connect calls at once: a request still
   * waiting is freed by its deadline if and only if no socket was adopted since
   * it registered.
   */
  lemma DeadlineFreesIffNoAdoption(before: seq<Step>, c: Id, batch: bool, messageId: nat, later: seq<Step>)
    requires c !in Run(INITIAL, before).created
    requires Waiting(Run(Next(Run(INITIAL, before), Begin(c, batch, messageId)), later), c)
    ensures var begun := Next(Run(INITIAL, before), Begin(c, batch, messageId));
            !Waiting(DeadlinePassed(Run(begun, later), c), c) <==> Adoptions(begun, later) == 0
  {
    var start := Run(INITIAL, before);
    var begun := Next(start, Begin(c, batch, messageId));
    InitialIsTimed();
    RunKeepsTimed(INITIAL, before);
    NextKeepsTimed(start, Begin(c, batch, messageId));
    RunKeepsTimed(begun, later);
    SurvivorAgesByAdoptions(begun, later, c);
    FreshStamp(start, c, batch, messageId);
    DeadlineFreesCurrent(Run(begun, later), c);
  }

  // ------------------------------------------------------ one connector at a time

  /** Between a connect call's disconnect and its adoption nothing can be registered. */
  ghost predicate QuietWhileConnecting(s: System) {
    s.connectors > 0 ==> s.connectors == 1 && s.shared.fd.None? && forall c :: !Waiting(s, c)
  }

  /** One connector at a time. */
  predicate OneConnector(s: System, steps: seq<Step>)
    decreases |steps|
  {
    steps == [] ||
    ((steps[0].StartConnect? ==> s.connectors == 0) && OneConnector(Next(s, steps[0]), steps[1..]))
  }

  lemma NextKeepsQuiet(s: System, step: Step)
    requires QuietWhileConnecting(s) && (step.StartConnect? ==> s.connectors == 0)
    ensures QuietWhileConnecting(Next(s, step))
  {
    var after := Next(s, step);
    if after.connectors > 0 {
      forall c ensures !Waiting(after, c) { assert s.connectors > 0 ==> !Waiting(s, c); }
    }
  }

  /** Every registered waiter belongs to the current connection. */
  ghost predicate Current(s: System) {
    forall c :: Waiting(s, c) ==> Stamp(s, c) == s.shared.generation
  }

  /** With nobody waiting during a connect, an adoption ages nobody. */
  lemma WaiterStaysCurrent(s: System, step: Step, c: Id)
    requires Current(s) && QuietWhileConnecting(s) && c in s.created && Waiting(Next(s, step), c)
    ensures Stamp(Next(s, step), c) == Next(s, step).shared.generation
  {
    SurvivorIsSame(s, step, c);
    SurvivorAges(s, step, c);
  }

  lemma NewWaiterIsBegun(s: System, step: Step, c: Id)
    requires Conserved(s) && c !in s.created && Waiting(Next(s, step), c)
    ensures step.Begin? && step.c == c
  {
    assert Places(s, c) == 0;
  }

  lemma NextKeepsCurrent(s: System, step: Step)
    requires Timed(s) && Current(s) && QuietWhileConnecting(s)
    ensures Current(Next(s, step))
  {
    forall c | Waiting(Next(s, step), c) ensures Stamp(Next(s, step), c) == Next(s, step).shared.generation {
      if c in s.created {
        WaiterStaysCurrent(s, step, c);
      } else {
        NewWaiterIsBegun(s, step, c);
        FreshStamp(s, c, step.batch, step.messageId);
      }
    }
  }

  lemma {:induction false} CurrentAlways(s: System, steps: seq<Step>)
    requires Timed(s) && Current(s) && QuietWhileConnecting(s) && OneConnector(s, steps)
    ensures Timed(Run(s, steps)) && Current(Run(s, steps))
    decreases |steps|
  {
    if steps != [] {
      NextKeepsTimed(s, steps[0]);
      NextKeepsCurrent(s, steps[0]);
      NextKeepsQuiet(s, steps[0]);
      CurrentAlways(Next(s, steps[0]), steps[1..]);
    }
  }

  /**
   * With one connector at a time every waiter carries the current generation, so
   * letting its deadline pass takes it out of the maps: the guard strands nobody.
   */
  lemma DeadlineFreesWaiter(steps: seq<Step>, c: Id)
    requires OneConnector(INITIAL, steps) && Waiting(Run(INITIAL, steps), c)
    ensures Stamp(Run(INITIAL, steps), c) == Run(INITIAL, steps).shared.generation
    ensures var late := DeadlinePassed(Run(INITIAL, steps), c); !Waiting(late, c) && late.held[c] == 1
  {
    InitialIsTimed();
    CurrentAlways(INITIAL, steps);
    DeadlineFreesCurrent(Run(INITIAL, steps), c);
  }

  // ------------------------------------------------------- a stranded waiter

  /** Still in the maps with neither a deadline nor a frame to come. */
  predicate Stranded(s: System, c: Id) {
    Waiting(s, c) && c !in s.arming && c !in s.timers && c !in s.writes
  }

  /** A reply naming the waiter, or a drain of everybody. */
  predicate Rescues(s: System, step: Step, c: Id) {
    step == Reply(c) || (step.FinishTeardown? && s.teardowns > 0) || step.UserDisconnect? || step.StartConnect?
  }

  lemma RescueFrees(s: System, c: Id, step: Step)
    requires Rescues(s, step, c)
    ensures !Waiting(Next(s, step), c)
  {
  }

  lemma StrandedByRequests(s: System, c: Id, step: Step)
    requires Timed(s) && Stranded(s, c) && step != Reply(c)
    requires step.Begin? || step.Arm? || step.Reply? || step.TimerFires? || step.Resume?
    ensures Stranded(Next(s, step), c)
  {
    assert Places(s, c) == if c in s.created then 1 else 0;
  }

  lemma StrandedByWriter(s: System, c: Id, step: Step)
    requires Stranded(s, c) && (step.PreSend? || step.SendDone? || step.SendFailed?)
    ensures Stranded(Next(s, step), c)
  {
  }

  lemma StrandedByConnection(s: System, c: Id, step: Step)
    requires Stranded(s, c) && !Rescues(s, step, c)
    requires step.StartTeardown? || step.FinishTeardown? || step.UserDisconnect? || step.StartConnect?
          || step.FinishConnect? || step.FailConnect?
    ensures Stranded(Next(s, step), c)
  {
  }

  /** Nothing but a reply or somebody else's drain ever frees a stranded waiter. */
  lemma StrandedUntilRescued(s: System, c: Id, step: Step)
    requires Timed(s) && Stranded(s, c)
    ensures Stranded(Next(s, step), c) <==> !Rescues(s, step, c)
  {
    if Rescues(s, step, c) {
      RescueFrees(s, c, step);
    } else {
      match step
      case PreSend(_) => StrandedByWriter(s, c, step);
      case SendDone(_) => StrandedByWriter(s, c, step);
      case SendFailed(_) => StrandedByWriter(s, c, step);
      case StartTeardown(_) => StrandedByConnection(s, c, step);
      case FinishTeardown => StrandedByConnection(s, c, step);
      case FinishConnect(_) => StrandedByConnection(s, c, step);
      case FailConnect => StrandedByConnection(s, c, step);
      case UserDisconnect => StrandedByConnection(s, c, step);
      case StartConnect => StrandedByConnection(s, c, step);
      case _ => StrandedByRequests(s, c, step);
    }
  }

  /**
   * While its frame is still queued or being sent, the writer frees a waiter that
   * an adoption has aged, unless the send itself fails.
   */
  lemma WriterFreesAged(s: System, c: Id)
    requires Timed(s) && Waiting(s, c) && c in s.writes && Stamp(s, c) != s.shared.generation
    ensures !Waiting(Next(s, if s.writes[c].sending then SendDone(c) else PreSend(c)), c)
  {
    assert Timely(s, c);
  }

  function Connecting(n: nat): System { INITIAL.(shared := INITIAL.shared.(generation := n), connectors := n) }

  lemma ConnectingGrows(n: nat)
    ensures Next(Connecting(n), StartConnect) == Connecting(n + 1)
  {
    assert Connecting(n).held + multiset({}) == Connecting(n).held;
  }

  /** Socket 1 adopted while another connect is under way; request 7 registers on it and its frame goes out. */
  const REQUEST_SENT := [Begin(7, false, 70), Arm(7), PreSend(7), SendDone(7)]

  /** Then the other connect adopts its socket, and the only deadline of request 7 passes. */
  const LATE_ADOPTION := [FinishConnect(2), TimerFires(7)]

  const ON_SOCKET_ONE := System(
    Shared(Some(1), true, 3, map[], map[]), {}, map[], map[], map[], 0, 1, multiset{}, multiset{})

  const SENT := System(
    Shared(Some(1), true, 3, map[7 := Entry(70, 3)], map[]), {7}, map[], map[7 := 3], map[], 0, 1,
    multiset{}, multiset{})

  const STRANDED_STATE := System(
    Shared(Some(2), true, 4, map[7 := Entry(70, 3)], map[]), {7}, map[], map[], map[], 0, 0,
    multiset{}, multiset{})

  lemma TwoConnectsOverlap()
    ensures Run(INITIAL, [StartConnect, StartConnect, FinishConnect(1)]) == ON_SOCKET_ONE
    ensures !OneConnector(INITIAL, [StartConnect, StartConnect, FinishConnect(1)])
  {
    ConnectingGrows(0);
    ConnectingGrows(1);
    assert Next(Connecting(2), FinishConnect(1)) == ON_SOCKET_ONE;
    var steps := [StartConnect, StartConnect, FinishConnect(1)];
    assert steps[1..] == [StartConnect, FinishConnect(1)] && steps[1..][1..] == [FinishConnect(1)];
    assert steps[1..][1..][1..] == [];
    assert Run(Connecting(2), steps[1..][1..]) == ON_SOCKET_ONE;
    assert Run(Connecting(1), steps[1..]) == ON_SOCKET_ONE;
  }

  lemma RequestGoesOut()
    ensures Run(ON_SOCKET_ONE, REQUEST_SENT) == SENT
  {
    var begun := Next(ON_SOCKET_ONE, Begin(7, false, 70));
    var armed := Next(begun, Arm(7));
    var sending := Next(armed, PreSend(7));
    assert begun.arming == map[7 := Ticket(1, 3)] && begun.arming - {7} == map[];
    assert begun.held == multiset{} && begun.created == {7};
    assert armed.writes == map[7 := Write(Ticket(1, 3), false)] && armed.timers == map[7 := 3];
    assert sending.writes == map[7 := Write(Ticket(1, 3), true)] && sending.writes - {7} == map[];
    assert Next(sending, SendDone(7)) == SENT;
    var steps := REQUEST_SENT;
    assert steps[1..] == [Arm(7), PreSend(7), SendDone(7)] && steps[1..][1..] == [PreSend(7), SendDone(7)];
    assert steps[1..][1..][1..] == [SendDone(7)] && steps[1..][1..][1..][1..] == [];
    assert Run(sending, steps[1..][1..][1..]) == SENT;
    assert Run(armed, steps[1..][1..]) == SENT;
    assert Run(begun, steps[1..]) == SENT;
  }

  lemma AdoptionStrands()
    ensures Run(SENT, LATE_ADOPTION) == STRANDED_STATE
  {
    var adopted := Next(SENT, FinishConnect(2));
    assert adopted.held == multiset{} && adopted.timers - {7} == map[];
    assert Next(adopted, TimerFires(7)) == STRANDED_STATE;
    var steps := LATE_ADOPTION;
    assert steps[1..] == [TimerFires(7)] && steps[1..][1..] == [];
    assert Run(adopted, steps[1..]) == STRANDED_STATE;
  }

  /**
   * Two connect calls at once strand a waiter: its frame is out, its only deadline
   * has passed, and it stays until a reply, a drain or the next connect.
   */
  lemma TwoConnectorsStrand()
    ensures var steps := [StartConnect, StartConnect, FinishConnect(1)] + (REQUEST_SENT + LATE_ADOPTION);
            Run(INITIAL, steps) == STRANDED_STATE && Timed(STRANDED_STATE)
    ensures Stranded(STRANDED_STATE, 7) && STRANDED_STATE.held[7] == 0 && STRANDED_STATE.resumed[7] == 0
    ensures forall step :: Stranded(Next(STRANDED_STATE, step), 7) <==> !Rescues(STRANDED_STATE, step, 7)
  {
    var steps := [StartConnect, StartConnect, FinishConnect(1)] + (REQUEST_SENT + LATE_ADOPTION);
    TwoConnectsOverlap();
    RequestGoesOut();
    AdoptionStrands();
    RunSplits(ON_SOCKET_ONE, REQUEST_SENT, LATE_ADOPTION);
    RunSplits(INITIAL, [StartConnect, StartConnect, FinishConnect(1)], REQUEST_SENT + LATE_ADOPTION);
    InitialIsTimed();
    RunKeepsTimed(INITIAL, steps);
    forall step ensures Stranded(Next(STRANDED_STATE, step), 7) <==> !Rescues(STRANDED_STATE, step, 7) {
      StrandedUntilRescued(STRANDED_STATE, 7, step);
    }
  }

  /** The client object; each method is one section entered under the state lock. */
  class DaemonClient {
    var fd: Option<nat>
    var negotiatedHello: bool
    var connectionGeneration: nat
    var pendingResponses: map<Id, Entry>
    var pendingBatches: map<Id, Entry>

    function State(): Shared
      reads this
    {
      Shared(fd, negotiatedHello, connectionGeneration, pendingResponses, pendingBatches)
    }

    constructor ()
      ensures State() == INITIAL.shared
    {
      fd, negotiatedHello, connectionGeneration := None, false, 0;
      pendingResponses, pendingBatches := map[], map[];
    }

    /** First section of `request` and `sendBatch`; a refused continuation fails at once. */
    method RegisterLocked(c: Id, batch: bool, messageId: nat) returns (refused: set<Id>)
      modifies this
      ensures Section(State(), refused) == Register(old(State()), c, batch, messageId)
    {
      if fd.None? || !negotiatedHello {
        return {c};
      }
      if batch {
        pendingBatches := pendingBatches[c := Entry(messageId, connectionGeneration)];
      } else {
        pendingResponses := pendingResponses[c := Entry(messageId, connectionGeneration)];
      }
      refused := {};
    }

    method RemovePending(c: Id) returns (taken: set<Id>)
      modifies this
      ensures Section(State(), taken) == Take(old(State()), c)
    {
      taken := if c in pendingResponses || c in pendingBatches then {c} else {};
      pendingResponses, pendingBatches := pendingResponses - {c}, pendingBatches - {c};
    }

    /** An error frame names the outgoing message; at most one waiter is rejected for it. */
    method FailPendingBatch(messageId: nat) returns (taken: set<Id>)
      requires pendingResponses.Keys !! pendingBatches.Keys
      modifies this
      ensures (exists c | c in old(pendingBatches) :: old(pendingBatches)[c].messageId == messageId)
         ==> exists c | c in old(pendingBatches) :: old(pendingBatches)[c].messageId == messageId
                     && Section(State(), taken) == Take(old(State()), c)
      ensures (forall c | c in old(pendingBatches) :: old(pendingBatches)[c].messageId != messageId)
         ==> Section(State(), taken) == Section(old(State()), {})
    {
      if c :| c in pendingBatches && pendingBatches[c].messageId == messageId {
        assert pendingResponses - {c} == pendingResponses;
        pendingBatches := pendingBatches - {c};
        taken := {c};
      } else {
        taken := {};
      }
    }

    method ReplyTimeout(c: Id, generation: nat) returns (taken: set<Id>)
      modifies this
      ensures Section(State(), taken) == TakeIf(old(State()), c, old(connectionGeneration) == generation)
    {
      if connectionGeneration != generation {
        return {};
      }
      taken := RemovePending(c);
    }

    method FailAllPending() returns (taken: set<Id>)
      modifies this
      ensures Section(State(), taken) == TakeAll(old(State()))
    {
      taken := pendingResponses.Keys + pendingBatches.Keys;
      pendingResponses, pendingBatches := map[], map[];
    }

    method DisconnectLocked() returns (taken: set<Id>)
      modifies this
      ensures Section(State(), taken) == Disconnect(old(State()))
    {
      fd, negotiatedHello, connectionGeneration := None, false, connectionGeneration + 1;
      taken := FailAllPending();
    }

    method TeardownLocked(sock: nat) returns (wasActive: bool)
      modifies this
      ensures wasActive == TeardownActive(old(State()), sock)
      ensures State() == TeardownLock(old(State()), sock).shared
    {
      wasActive := fd == Some(sock);
      if wasActive {
        fd, negotiatedHello := None, false;
      }
    }

    method AdoptSocket(sock: nat)
      modifies this
      ensures State() == Adopt(old(State()), sock).shared
    {
      connectionGeneration := connectionGeneration + 1;
      fd, negotiatedHello := Some(sock), true;
    }
  }
}
