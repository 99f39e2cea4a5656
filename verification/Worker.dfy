/**
 * The poll loop: at most one serialized job between claim and settlement, and
 * a drain that really drains. Steps are the stretches between awaits.
 */
module Worker {
  import opened Prelude
  import Jobs

  /** One claim of one job; a job claimed again later is a new claim. */
  type ClaimId = nat

  datatype Progress = Queued | Running | Settled

  datatype Dispatch = Dispatch(kind: string, progress: Progress, cleared: bool)

  /** `chain` lists the serialized dispatches whose link has not resolved yet, oldest first. */
  datatype State = State(
    serialized: set<string>,
    handlers: set<string>,
    chainBusy: bool,
    chain: seq<ClaimId>,
    inflight: set<ClaimId>,
    claimed: set<ClaimId>,
    dispatched: map<ClaimId, Dispatch>)

  /** The kinds a tick asks the queue for. */
  function Wanted(s: State): set<string> {
    set kind | kind in s.handlers && (!s.chainBusy || kind !in s.serialized)
  }

  datatype Step =
    | TickClaims(claim: ClaimId, kind: string)  // whether or not the queue update after it throws
    | TickFinds                                 // nothing runnable, or a statement threw before the claim
    | Start(claim: ClaimId)                     // the chain reaches a queued dispatch
    | Settle(claim: ClaimId)                    // handler and completion finished, either way
    | Clear(claim: ClaimId)                     // the link's finally callback
    | Untrack(claim: ClaimId)                   // the in-flight entry's finally callback

  predicate IsTick(step: Step) { step.TickClaims? || step.TickFinds? }

  predicate Enabled(s: State, step: Step) {
    match step
    case TickClaims(claim, kind) => claim !in s.claimed && kind in Wanted(s)
    case TickFinds => true
    case Start(claim) =>
      claim in s.dispatched && s.dispatched[claim].progress.Queued? && s.chain != [] && s.chain[0] == claim
    case Settle(claim) => claim in s.dispatched && s.dispatched[claim].progress.Running?
    case Clear(claim) =>
      && claim in s.dispatched && s.dispatched[claim].progress.Settled? && !s.dispatched[claim].cleared
      && s.chain != [] && s.chain[0] == claim
    case Untrack(claim) =>
      claim in s.dispatched && s.dispatched[claim].progress.Settled? && claim in s.inflight
  }

  function AfterClaim(s: State, claim: ClaimId, kind: string): State {
    var queued := kind in s.serialized;
    s.(claimed := s.claimed + {claim},
       chainBusy := s.chainBusy || queued,
       chain := if queued then s.chain + [claim] else s.chain,
       inflight := s.inflight + {claim},
       dispatched := s.dispatched[claim := Dispatch(kind, if queued then Queued else Running, false)])
  }

  function Next(s: State, step: Step): State
    requires Enabled(s, step)
  {
    match step
    case TickClaims(claim, kind) => AfterClaim(s, claim, kind)
    case TickFinds => s
    case Start(claim) => s.(dispatched := s.dispatched[claim := s.dispatched[claim].(progress := Running)])
    case Settle(claim) => s.(dispatched := s.dispatched[claim := s.dispatched[claim].(progress := Settled)])
    case Clear(claim) =>
      s.(chainBusy := false, chain := s.chain[1..],
         dispatched := s.dispatched[claim := s.dispatched[claim].(cleared := true)])
    case Untrack(claim) => s.(inflight := s.inflight - {claim})
  }

  predicate AllEnabled(s: State, steps: seq<Step>)
    decreases |steps|
  {
    steps == [] || (Enabled(s, steps[0]) && AllEnabled(Next(s, steps[0]), steps[1..]))
  }

  function Run(s: State, steps: seq<Step>): State
    requires AllEnabled(s, steps)
    decreases |steps|
  {
    if steps == [] then s else Run(Next(s, steps[0]), steps[1..])
  }

  function Fresh(handlers: set<string>, serialized: set<string>): State {
    State(serialized, handlers, false, [], {}, {}, map[])
  }

  predicate Unsettled(s: State, claim: ClaimId) {
    claim in s.dispatched && !s.dispatched[claim].progress.Settled?
  }

  predicate OnChain(s: State, claim: ClaimId) {
    claim in s.dispatched && s.dispatched[claim].kind in s.serialized && !s.dispatched[claim].cleared
  }

  ghost predicate Sound(s: State) {
    && s.claimed == s.dispatched.Keys
    && |s.chain| <= 1
    && (s.chainBusy <==> s.chain != [])
    && (forall claim :: OnChain(s, claim) <==> claim in s.chain)
    && (forall claim | Unsettled(s, claim) :: claim in s.inflight && !s.dispatched[claim].cleared)
    && s.inflight <= s.dispatched.Keys
    && (forall claim | claim in s.dispatched :: s.dispatched[claim].progress.Queued? ==> OnChain(s, claim))
  }

  lemma NextKeepsSound(s: State, step: Step)
    requires Sound(s) && Enabled(s, step)
    ensures Sound(Next(s, step))
  {
    var after := Next(s, step);
    forall claim ensures OnChain(after, claim) <==> claim in after.chain {
      assert OnChain(s, claim) <==> claim in s.chain;
      if step.TickClaims? && step.kind in s.serialized {
        assert s.chain == [];
      }
    }
  }

  lemma {:induction false} RunKeepsSound(s: State, steps: seq<Step>)
    requires Sound(s) && AllEnabled(s, steps)
    ensures Sound(Run(s, steps))
    decreases |steps|
  {
    if steps != [] {
      NextKeepsSound(s, steps[0]);
      RunKeepsSound(Next(s, steps[0]), steps[1..]);
    }
  }

  /**
   * Over every interleaving: two claims of serialized kinds are never both
   * between claim and settlement, and whatever was claimed was dispatched.
   */
  lemma OneSerializedJobAtATime(handlers: set<string>, serialized: set<string>, steps: seq<Step>)
    requires AllEnabled(Fresh(handlers, serialized), steps)
    ensures var s := Run(Fresh(handlers, serialized), steps);
            s.claimed == s.dispatched.Keys
    ensures var s := Run(Fresh(handlers, serialized), steps);
            forall a, b | Unsettled(s, a) && Unsettled(s, b) && s.dispatched[a].kind in s.serialized
                       && s.dispatched[b].kind in s.serialized :: a == b
  {
    RunKeepsSound(Fresh(handlers, serialized), steps);
    var s := Run(Fresh(handlers, serialized), steps);
    forall a, b | Unsettled(s, a) && Unsettled(s, b) && s.dispatched[a].kind in s.serialized
               && s.dispatched[b].kind in s.serialized
      ensures a == b
    {
      assert OnChain(s, a) && OnChain(s, b);
      assert a in s.chain && b in s.chain;
    }
  }

  lemma {:induction false} SettledStays(s: State, steps: seq<Step>, claim: ClaimId)
    requires AllEnabled(s, steps) && claim in s.dispatched && !Unsettled(s, claim) && Sound(s)
    ensures !Unsettled(Run(s, steps), claim)
    decreases |steps|
  {
    if steps != [] {
      NextKeepsSound(s, steps[0]);
      SettledStays(Next(s, steps[0]), steps[1..], claim);
    }
  }

  /** `stop` snapshots the in-flight set; without further ticks nothing else can be left running. */
  lemma {:induction false} DrainIsComplete(s: State, steps: seq<Step>)
    requires Sound(s) && AllEnabled(s, steps)
    requires forall i | 0 <= i < |steps| :: !IsTick(steps[i])
    ensures var late := Run(s, steps);
            && late.dispatched.Keys == s.dispatched.Keys
            && ((forall claim | claim in s.inflight :: !Unsettled(late, claim))
                <==> forall claim | claim in late.dispatched :: !Unsettled(late, claim))
    decreases |steps|
  {
    if steps == [] {
      assert forall claim | claim in s.inflight :: claim in s.dispatched;
    } else {
      var mid := Next(s, steps[0]);
      NextKeepsSound(s, steps[0]);
      DrainIsComplete(mid, steps[1..]);
      var late := Run(mid, steps[1..]);
      forall claim | claim in s.inflight && claim !in mid.inflight ensures !Unsettled(late, claim) {
        assert !Unsettled(mid, claim);
        SettledStays(mid, steps[1..], claim);
      }
    }
  }

  /** A registered kind is asked for at every tick, a serialized one whenever no dispatch is on the chain. */
  lemma WantedUnlessChained(s: State, kind: string)
    requires Sound(s)
    ensures kind in Wanted(s) <==>
              kind in s.handlers && (kind in s.serialized ==> forall claim :: !OnChain(s, claim))
  {
    if s.chain != [] { assert OnChain(s, s.chain[0]); }
  }

  lemma HeadClears(s: State, claim: ClaimId)
    requires Sound(s) && s.chain == [claim] && claim in s.dispatched && s.dispatched[claim].progress.Settled?
    ensures Enabled(s, Clear(claim)) && Next(s, Clear(claim)).chain == [] && !Next(s, Clear(claim)).chainBusy
  {
    assert OnChain(s, claim);
  }

  /** The dispatch's own steps still to come. */
  function StepsLeft(s: State, claim: ClaimId): nat
    requires claim in s.dispatched
  {
    match s.dispatched[claim].progress
    case Queued => 3
    case Running => 2
    case Settled => 1
  }

  /**
   * The chain never stalls: whatever stands on it, three steps at most, the
   * dispatch's own, free it, and then every registered kind is asked for.
   */
  lemma {:induction false} ChainComesFree(s: State, claim: ClaimId) returns (steps: seq<Step>)
    requires Sound(s) && s.chain == [claim] && claim in s.dispatched
    ensures |steps| == StepsLeft(s, claim) && AllEnabled(s, steps) && forall step | step in steps :: !IsTick(step)
    ensures Run(s, steps).chain == [] && Wanted(Run(s, steps)) == s.handlers
    decreases StepsLeft(s, claim)
  {
    assert OnChain(s, claim);
    var progress := s.dispatched[claim].progress;
    var step := if progress.Queued? then Start(claim) else if progress.Running? then Settle(claim) else Clear(claim);
    steps := [step];
    if progress.Settled? {
      HeadClears(s, claim);
      assert steps[1..] == [];
    } else {
      NextKeepsSound(s, step);
      var rest := ChainComesFree(Next(s, step), claim);
      steps := [step] + rest;
      assert steps[1..] == rest;
    }
  }

  /** What a dispatch remembers of the row it claimed. */
  datatype Lease = Lease(id: Jobs.Id, token: int)

  /** The worker object over the real queue; its promises are the claim ids it tracks. */
  class JobWorker {
    const jobs: Jobs.JobsRepository
    const lease: int
    var handlers: set<string>
    var serializedTypes: set<string>
    var chainBusy: bool
    var chain: seq<ClaimId>
    var inflight: set<ClaimId>
    var dispatched: map<ClaimId, Dispatch>
    var leases: map<ClaimId, Lease>

    function Abs(): State
      reads this
    {
      State(serializedTypes, handlers, chainBusy, chain, inflight, dispatched.Keys, dispatched)
    }

    constructor (jobs: Jobs.JobsRepository, lease: int)
      ensures Abs() == Fresh({}, {}) && this.jobs == jobs && this.lease == lease
    {
      this.jobs, this.lease := jobs, lease;
      handlers, serializedTypes, chainBusy, chain, inflight, dispatched := {}, {}, false, [], {}, map[];
      leases := map[];
    }

    method Register(kind: string)
      modifies this`handlers
      ensures handlers == old(handlers) + {kind}
    {
      handlers := handlers + {kind};
    }

    method RegisterSerialized(kind: string)
      modifies this`handlers, this`serializedTypes
      ensures handlers == old(handlers) + {kind} && serializedTypes == old(serializedTypes) + {kind}
    {
      handlers, serializedTypes := handlers + {kind}, serializedTypes + {kind};
    }

    /**
     * One poll cycle. `recoveryThrows` and `claimThrows` are the database errors
     * it survives; one from the queue update after a claim is only logged.
     */
    method Tick(now: int, recoveryThrows: bool, claimThrows: bool, claim: ClaimId)
        returns (claimed: Option<Jobs.Id>)
      requires claim !in dispatched
      modifies this, jobs
      ensures recoveryThrows ==> jobs.rows == old(jobs.rows)
      ensures claimed.None? ==> Abs() == old(Abs()) && leases == old(leases)
      ensures claimed.None? && !recoveryThrows && !claimThrows && Wanted(old(Abs())) != {} ==>
                forall id | id in jobs.rows :: !Jobs.Claimable(jobs.rows[id], now, Wanted(old(Abs())))
      ensures claimed.Some? ==>
        && claimed.value in jobs.rows && jobs.rows[claimed.value].state.Running?
        && jobs.rows[claimed.value].leasedUntil == Some(now + lease)
        && leases == old(leases)[claim := Lease(claimed.value, now + lease)]
        && Enabled(old(Abs()), TickClaims(claim, jobs.rows[claimed.value].kind))
        && Abs() == Next(old(Abs()), TickClaims(claim, jobs.rows[claimed.value].kind))
    {
      claimed := None;
      if recoveryThrows { return; }
      var recovered := jobs.RequeueExpiredLeases(now);
      var kinds := set kind | kind in handlers && (!chainBusy || kind !in serializedTypes);
      if kinds == {} || claimThrows { return; }
      claimed := jobs.ClaimNext(lease, now, kinds);
      if claimed.None? { return; }
      var kind := jobs.rows[claimed.value].kind;
      if kind in serializedTypes {
        dispatched := dispatched[claim := Dispatch(kind, Queued, false)];
        chainBusy, chain := true, chain + [claim];
      } else {
        dispatched := dispatched[claim := Dispatch(kind, Running, false)];
      }
      inflight, leases := inflight + {claim}, leases[claim := Lease(claimed.value, now + lease)];
      assert Abs().claimed == old(Abs()).claimed + {claim};
    }

    method Advance(claim: ClaimId, to: Dispatch)
      requires claim in dispatched
      modifies this`dispatched
      ensures Abs() == old(Abs()).(dispatched := old(dispatched)[claim := to])
    {
      dispatched := dispatched[claim := to];
      assert dispatched.Keys == old(dispatched).Keys;
    }

    /** The chain has come to the claim. */
    method Start(claim: ClaimId)
      requires Enabled(Abs(), Step.Start(claim))
      modifies this`dispatched
      ensures Abs() == Next(old(Abs()), Step.Start(claim))
    {
      Advance(claim, dispatched[claim].(progress := Running));
    }

    /**
     * The handler is done. A failure of the handler or of the completion is
     * reported under the lease token the claim was given; an error in reporting
     * it is only logged, so the claim settles in every case.
     */
    method Settle(claim: ClaimId, now: int, handlerThrows: bool, completeThrows: bool, failThrows: bool)
      requires Enabled(Abs(), Step.Settle(claim)) && claim in leases
      modifies this`dispatched, jobs
      ensures Abs() == Next(old(Abs()), Step.Settle(claim))
      ensures jobs.rows == if !handlerThrows && !completeThrows
                           then Jobs.Complete(old(jobs.rows), leases[claim].id, Some(leases[claim].token), now)
                           else if failThrows then old(jobs.rows)
                           else Jobs.Failed(old(jobs.rows), leases[claim].id, Some(leases[claim].token), now)
    {
      var row := leases[claim];
      if !handlerThrows && !completeThrows {
        var done := jobs.CompleteJob(row.id, Some(row.token), now);
      } else if !failThrows {
        var outcome := jobs.Fail(row.id, Some(row.token), now);
      }
      Advance(claim, dispatched[claim].(progress := Settled));
    }

    /** The link's last callback. */
    method Clear(claim: ClaimId)
      requires Enabled(Abs(), Step.Clear(claim))
      modifies this`chainBusy, this`chain, this`dispatched
      ensures Abs() == Next(old(Abs()), Step.Clear(claim))
    {
      chainBusy, chain := false, chain[1..];
      Advance(claim, dispatched[claim].(cleared := true));
    }

    method Untrack(claim: ClaimId)
      requires Enabled(Abs(), Step.Untrack(claim))
      modifies this`inflight
      ensures Abs() == Next(old(Abs()), Step.Untrack(claim))
    {
      inflight := inflight - {claim};
    }
  }
}
