/**
 * The summarize jobs of one segment on the real queue: claims with leases that
 * lapse, the worker's serialized chain, handlers, retries, revivals, purges and
 * crashes, with the jobs of everybody else around them.
 */
module SummarizeQueue {
  import opened Prelude
  import J = Jobs
  import S = Summarizer
  import W = Worker

  const SUMMARIZE := "summarize_segment"

  /** A handler's progress with its own variables; `Fresh` has not read anything yet. */
  datatype Phase = Fresh | Waiting(window: seq<S.Row>, hasMore: bool) | Returned | Threw

  /** What a dispatched claim holds. */
  datatype Work = Work(id: J.Id, token: int, phase: Phase)

  /**
   * `ids[j]` is the queue's id of the segment's job `j`; `buried`, for reasoning
   * only, the ids whose rows were purged dead.
   */
  datatype System = System(
    queue: J.Queue, worker: W.State, store: S.Store, ids: seq<J.Id>, work: map<W.ClaimId, Work>, buried: set<J.Id>)

  datatype Step =
    | Queue(now: int, op: J.Op)                                  // enqueues of others, recovery, revival, purge
    | Claim(now: int, lease: int, claim: W.ClaimId, id: J.Id)    // what a tick takes
    | Start(claim: W.ClaimId)
    | Read(claim: W.ClaimId)                                     // a handler of this segment up to the model
    | Answer(claim: W.ClaimId, split: seq<S.Range>, now: int, chained: J.Id)
    | Finish(claim: W.ClaimId, throws: bool)                     // any other end of a handler
    | Settle(claim: W.ClaimId, now: int, completeThrows: bool, failThrows: bool)
    | Clear(claim: W.ClaimId)
    | Untrack(claim: W.ClaimId)
    | PurgeSteps(cutoff: int)
    | Crash

  function IndexOf(ids: seq<J.Id>, id: J.Id): (j: nat)
    requires id in ids
    ensures j < |ids| && ids[j] == id
  {
    if ids[0] == id then 0 else 1 + IndexOf(ids[1..], id)
  }

  predicate Running(sys: System, claim: W.ClaimId) {
    && claim in sys.worker.dispatched && sys.worker.dispatched[claim].progress.Running? && claim in sys.work
  }

  predicate Ours(sys: System, claim: W.ClaimId) { claim in sys.work && sys.work[claim].id in sys.ids }

  /** Generated ids are never used again, not even after a purge. */
  predicate Unseen(sys: System, id: J.Id) { id !in sys.ids && forall c | c in sys.work :: sys.work[c].id != id }

  predicate Enabled(sys: System, step: Step) {
    match step
    case Queue(now, op) =>
      && J.Enabled(sys.queue, now, op) && !op.Claim? && !op.CompleteOp? && !op.FailOp?
      && (op.Enqueue? ==> Unseen(sys, op.id))
    case Claim(now, lease, claim, id) =>
      && J.Enabled(sys.queue, now, J.Claim(id, lease))
      && W.Enabled(sys.worker, W.TickClaims(claim, sys.queue.table[id].kind))
    case Start(claim) => W.Enabled(sys.worker, W.Step.Start(claim))
    case Read(claim) =>
      Running(sys, claim) && Ours(sys, claim) && sys.work[claim].phase.Fresh? && |sys.ids| == |sys.store.jobs|
    case Answer(claim, _, now, chained) =>
      && Running(sys, claim) && Ours(sys, claim) && sys.work[claim].phase.Waiting?
      && sys.work[claim].phase.window != [] && J.Enabled(sys.queue, now, J.Enqueue(chained, SUMMARIZE, now))
      && Unseen(sys, chained)
    case Finish(claim, throws) =>
      && Running(sys, claim) && !sys.work[claim].phase.Returned? && !sys.work[claim].phase.Threw?
      && (Ours(sys, claim) ==> throws)
    case Settle(claim, now, _, _) =>
      && W.Enabled(sys.worker, W.Step.Settle(claim)) && claim in sys.work && sys.queue.clock <= now
      && (sys.work[claim].phase.Returned? || sys.work[claim].phase.Threw?)
    case Clear(claim) => W.Enabled(sys.worker, W.Step.Clear(claim))
    case Untrack(claim) => W.Enabled(sys.worker, W.Step.Untrack(claim))
    case PurgeSteps(_) => true
    case Crash => true
  }

  function Phased(sys: System, claim: W.ClaimId, phase: Phase): System
    requires claim in sys.work
  {
    sys.(work := sys.work[claim := sys.work[claim].(phase := phase)])
  }

  function DeadIn(table: J.Table, after: J.Table): set<J.Id> {
    set id | id in table && id !in after && table[id].state.Dead?
  }

  function Claimed(sys: System, now: int, lease: int, claim: W.ClaimId, id: J.Id): System
    requires Enabled(sys, Claim(now, lease, claim, id))
  {
    sys.(queue := J.Next(sys.queue, now, J.Claim(id, lease)),
         worker := W.Next(sys.worker, W.TickClaims(claim, sys.queue.table[id].kind)),
         work := sys.work[claim := Work(id, now + lease, Fresh)])
  }

  /** The handler reads its window and skips, or waits for the model. */
  function HasRead(sys: System, claim: W.ClaimId): System
    requires Enabled(sys, Read(claim))
  {
    var j := IndexOf(sys.ids, sys.work[claim].id);
    var offset := sys.store.jobs[j].offset;
    var window := S.Window(sys.store.steps, offset);
    var skips := window == [] || S.Latched(sys.store.episodes, sys.store.links, window);
    Phased(sys.(store := S.Begin(sys.store, j)), claim,
           if skips then Returned else Waiting(window, S.HasMore(sys.store.steps, offset)))
  }

  /** Whether the transaction of the answer commits. */
  predicate Commits(sys: System, claim: W.ClaimId)
    requires claim in sys.work && sys.work[claim].phase.Waiting?
  {
    forall r | r in sys.work[claim].phase.window :: r in sys.store.steps
  }

  function Answered(sys: System, claim: W.ClaimId, split: seq<S.Range>, now: int, chained: J.Id): System
    requires Enabled(sys, Answer(claim, split, now, chained))
  {
    var p, j := sys.work[claim].phase, IndexOf(sys.ids, sys.work[claim].id);
    var after := sys.(store := S.Persist(sys.store, j, p.window, p.hasMore, S.Accepted(split, |p.window|)));
    if !Commits(sys, claim) then Phased(after, claim, Threw)
    else if !p.hasMore then Phased(after, claim, Returned)
    else Phased(after.(queue := J.Next(sys.queue, now, J.Enqueue(chained, SUMMARIZE, now)),
                       ids := sys.ids + [chained]), claim, Returned)
  }

  /** What the worker reports once a handler is done. */
  function Report(sys: System, claim: W.ClaimId, completeThrows: bool, failThrows: bool): Option<J.Op>
    requires claim in sys.work
  {
    var w := sys.work[claim];
    if w.phase.Returned? && !completeThrows then Some(J.CompleteOp(w.id, Some(w.token)))
    else if !failThrows then Some(J.FailOp(w.id, Some(w.token)))
    else None
  }

  /** The report completes a job of the segment: the claim still owns its row. */
  predicate Completes(sys: System, claim: W.ClaimId, completeThrows: bool, failThrows: bool)
    requires claim in sys.work
  {
    && Ours(sys, claim) && |sys.ids| == |sys.store.jobs|
    && Report(sys, claim, completeThrows, failThrows)
       == Some(J.CompleteOp(sys.work[claim].id, Some(sys.work[claim].token)))
    && J.Owns(sys.queue.table, sys.work[claim].id, Some(sys.work[claim].token))
  }

  function Settled(sys: System, claim: W.ClaimId, now: int, completeThrows: bool, failThrows: bool): System
    requires Enabled(sys, Settle(claim, now, completeThrows, failThrows))
  {
    var report := Report(sys, claim, completeThrows, failThrows);
    sys.(queue := if report.Some? then J.Next(sys.queue, now, report.value) else sys.queue,
         worker := W.Next(sys.worker, W.Step.Settle(claim)),
         store := if Completes(sys, claim, completeThrows, failThrows)
                  then S.Succeeded(sys.store, IndexOf(sys.ids, sys.work[claim].id)) else sys.store)
  }

  function Next(sys: System, step: Step): System
    requires Enabled(sys, step)
  {
    match step
    case Queue(now, op) =>
      var queue := J.Next(sys.queue, now, op);
      sys.(queue := queue, buried := sys.buried + DeadIn(sys.queue.table, queue.table))
    case Claim(now, lease, claim, id) => Claimed(sys, now, lease, claim, id)
    case Start(claim) => sys.(worker := W.Next(sys.worker, W.Step.Start(claim)))
    case Read(claim) => HasRead(sys, claim)
    case Answer(claim, split, now, chained) => Answered(sys, claim, split, now, chained)
    case Finish(claim, throws) =>
      Phased(if Ours(sys, claim) then sys.(store := sys.store.(inFlight := None)) else sys,
             claim, if throws then Threw else Returned)
    case Settle(claim, now, completeThrows, failThrows) => Settled(sys, claim, now, completeThrows, failThrows)
    case Clear(claim) => sys.(worker := W.Next(sys.worker, W.Step.Clear(claim)))
    case Untrack(claim) => sys.(worker := W.Next(sys.worker, W.Step.Untrack(claim)))
    case PurgeSteps(cutoff) => sys.(store := S.Without(sys.store, S.Victims(sys.store.steps, cutoff)))
    case Crash =>
      sys.(worker := W.Fresh(sys.worker.handlers, sys.worker.serialized),
           store := sys.store.(inFlight := None), work := map[])
  }

  /** A segment just closed, its job just enqueued on a queue of other jobs, nothing dispatched. */
  predicate Closed(sys: System, steps: seq<S.Row>) {
    && sys.worker == W.Fresh(sys.worker.handlers, sys.worker.serialized) && SUMMARIZE in sys.worker.serialized
    && sys.store == S.Closed(steps) && sys.work == map[] && sys.buried == {}
    && |sys.ids| == 1 && sys.ids[0] in sys.queue.table
    && sys.queue.table[sys.ids[0]].kind == SUMMARIZE && sys.queue.table[sys.ids[0]].state.Pending?
  }

  predicate AllEnabled(sys: System, steps: seq<Step>)
    decreases |steps|
  {
    steps == [] || (Enabled(sys, steps[0]) && AllEnabled(Next(sys, steps[0]), steps[1..]))
  }

  function Run(sys: System, steps: seq<Step>): System
    requires AllEnabled(sys, steps)
    decreases |steps|
  {
    if steps == [] then sys else Run(Next(sys, steps[0]), steps[1..])
  }

  // -------------------------------------------------------------- projection

  /** What a step does to the segment, in the summarizer's own terms. */
  function Projected(sys: System, step: Step): seq<S.Op>
    requires Enabled(sys, step)
  {
    match step
    case Read(claim) => [S.BeginJob(IndexOf(sys.ids, sys.work[claim].id))]
    case Answer(_, split, _, _) => [S.Answer(split)]
    case Finish(claim, _) => if Ours(sys, claim) then [S.Abort] else []
    case Settle(claim, _, completeThrows, failThrows) =>
      if Completes(sys, claim, completeThrows, failThrows)
      then [S.Complete(IndexOf(sys.ids, sys.work[claim].id))] else []
    case PurgeSteps(cutoff) => [S.Purge(cutoff)]
    case Crash => [S.Abort]
    case _ => []
  }

  function Projection(sys: System, steps: seq<Step>): seq<S.Op>
    requires AllEnabled(sys, steps)
    decreases |steps|
  {
    if steps == [] then [] else Projected(sys, steps[0]) + Projection(Next(sys, steps[0]), steps[1..])
  }

  // --------------------------------------------------------------- invariant

  /** A job has succeeded exactly when its row has; a row is only purged when that is so, or dead. */
  predicate RowAgrees(sys: System, j: nat)
    requires j < |sys.ids| == |sys.store.jobs|
  {
    var id, table := sys.ids[j], sys.queue.table;
    if id in table then table[id].kind == SUMMARIZE && (table[id].state.Succeeded? <==> sys.store.jobs[j].succeeded)
    else sys.store.jobs[j].succeeded || id in sys.buried
  }

  ghost predicate RowsAgree(sys: System) {
    && |sys.ids| == |sys.store.jobs| && (forall i, j | 0 <= i < j < |sys.ids| :: sys.ids[i] != sys.ids[j])
    && forall j | 0 <= j < |sys.ids| :: RowAgrees(sys, j)
  }

  predicate Busy(sys: System, claim: W.ClaimId) { W.Unsettled(sys.worker, claim) && Ours(sys, claim) }

  /** An unsettled claim of the segment is of a job not yet done, and knows what the store knows. */
  predicate ClaimAgrees(sys: System, claim: W.ClaimId)
    requires |sys.ids| == |sys.store.jobs|
  {
    Busy(sys, claim) ==>
      var j, p := IndexOf(sys.ids, sys.work[claim].id), sys.work[claim].phase;
      && sys.worker.dispatched[claim].kind == SUMMARIZE && !sys.store.jobs[j].succeeded
      && (sys.worker.dispatched[claim].progress.Queued? ==> p.Fresh?)
      && (p.Returned? ==> j in sys.store.returned)
      && (p.Waiting? ==> sys.store.inFlight == Some(S.InFlight(j, p.window, p.hasMore)))
  }

  /** Whatever is in flight is some claim's. */
  ghost predicate FlightAgrees(sys: System) {
    sys.store.inFlight.Some? ==> exists claim :: Busy(sys, claim) && sys.work[claim].phase.Waiting?
  }

  ghost predicate Linked(sys: System) {
    && W.Sound(sys.worker) && SUMMARIZE in sys.worker.serialized && sys.work.Keys == sys.worker.dispatched.Keys
    && S.Good(sys.store) && RowsAgree(sys) && FlightAgrees(sys)
    && forall claim :: ClaimAgrees(sys, claim)
  }

  /** The worker's promise, for this segment: one claim at a time. */
  lemma OneBusyClaim(sys: System, a: W.ClaimId, b: W.ClaimId)
    requires Linked(sys) && Busy(sys, a) && Busy(sys, b)
    ensures a == b
  {
    assert ClaimAgrees(sys, a) && ClaimAgrees(sys, b);
    assert W.OnChain(sys.worker, a) && W.OnChain(sys.worker, b);
    assert a in sys.worker.chain && b in sys.worker.chain;
  }

  lemma {:induction false} IndexIsOwn(ids: seq<J.Id>, j: nat)
    requires j < |ids| && forall i, k | 0 <= i < k < |ids| :: ids[i] != ids[k]
    ensures IndexOf(ids, ids[j]) == j
  {
    var i := IndexOf(ids, ids[j]);
    assert ids[i] == ids[j];
  }

  /** A step that leaves the store and the segment's rows alone, and claims nothing. */
  lemma QueueKeepsRows(sys: System, now: int, op: J.Op)
    requires Linked(sys) && Enabled(sys, Queue(now, op))
    ensures RowsAgree(Next(sys, Queue(now, op)))
  {
    var after := Next(sys, Queue(now, op));
    forall j | 0 <= j < |after.ids| ensures RowAgrees(after, j) { assert RowAgrees(sys, j); }
  }

  /** What claims know is as it was. */
  lemma SameClaims(sys: System, after: System)
    requires Linked(sys) && after.work == sys.work && after.ids == sys.ids && after.worker == sys.worker
    requires after.store.jobs == sys.store.jobs && after.store.returned == sys.store.returned
    requires after.store.inFlight == sys.store.inFlight
    ensures FlightAgrees(after) && forall claim :: ClaimAgrees(after, claim)
  {
    forall claim ensures ClaimAgrees(after, claim) { assert ClaimAgrees(sys, claim); }
    if sys.store.inFlight.Some? {
      var claim :| Busy(sys, claim) && sys.work[claim].phase.Waiting?;
      assert Busy(after, claim);
    }
  }

  lemma SameRows(sys: System, after: System)
    requires RowsAgree(sys) && after.ids == sys.ids && after.queue == sys.queue && after.buried == sys.buried
    requires after.store.jobs == sys.store.jobs
    ensures RowsAgree(after)
  {
    forall j | 0 <= j < |after.ids| ensures RowAgrees(after, j) { assert RowAgrees(sys, j); }
  }

  lemma QueueKeepsLinked(sys: System, now: int, op: J.Op)
    requires Linked(sys) && Enabled(sys, Queue(now, op))
    ensures Linked(Next(sys, Queue(now, op)))
  {
    QueueKeepsRows(sys, now, op);
    SameClaims(sys, Next(sys, Queue(now, op)));
  }

  lemma PurgeKeepsLinked(sys: System, cutoff: int)
    requires Linked(sys)
    ensures Linked(Next(sys, PurgeSteps(cutoff)))
  {
    S.NextIsGood(sys.store, S.Purge(cutoff));
    SameRows(sys, Next(sys, PurgeSteps(cutoff)));
    SameClaims(sys, Next(sys, PurgeSteps(cutoff)));
  }

  lemma CrashKeepsLinked(sys: System)
    requires Linked(sys)
    ensures Linked(Next(sys, Crash))
  {
    S.NextIsGood(sys.store, S.Abort);
    SameRows(sys, Next(sys, Crash));
  }

  // ------------------------------------------------------------ worker steps

  lemma ClaimKeepsRows(sys: System, now: int, lease: int, claim: W.ClaimId, id: J.Id)
    requires Linked(sys) && Enabled(sys, Claim(now, lease, claim, id))
    ensures RowsAgree(Next(sys, Claim(now, lease, claim, id)))
  {
    var after := Next(sys, Claim(now, lease, claim, id));
    forall j | 0 <= j < |after.ids| ensures RowAgrees(after, j) { assert RowAgrees(sys, j); }
  }

  lemma ClaimAgreesAtFirst(sys: System, now: int, lease: int, claim: W.ClaimId, id: J.Id)
    requires Linked(sys) && Enabled(sys, Claim(now, lease, claim, id))
    ensures ClaimAgrees(Next(sys, Claim(now, lease, claim, id)), claim)
  {
    if id in sys.ids { assert RowAgrees(sys, IndexOf(sys.ids, id)); }
  }

  lemma ClaimKeepsOthers(sys: System, now: int, lease: int, claim: W.ClaimId, id: J.Id, c: W.ClaimId)
    requires Linked(sys) && Enabled(sys, Claim(now, lease, claim, id)) && c != claim
    ensures ClaimAgrees(Next(sys, Claim(now, lease, claim, id)), c)
  {
    assert ClaimAgrees(sys, c);
  }

  lemma ClaimKeepsFlight(sys: System, now: int, lease: int, claim: W.ClaimId, id: J.Id)
    requires Linked(sys) && Enabled(sys, Claim(now, lease, claim, id))
    ensures FlightAgrees(Next(sys, Claim(now, lease, claim, id)))
  {
    if sys.store.inFlight.Some? {
      var c :| Busy(sys, c) && sys.work[c].phase.Waiting?;
      assert Busy(Next(sys, Claim(now, lease, claim, id)), c);
    }
  }

  lemma ClaimKeepsLinked(sys: System, now: int, lease: int, claim: W.ClaimId, id: J.Id)
    requires Linked(sys) && Enabled(sys, Claim(now, lease, claim, id))
    ensures Linked(Next(sys, Claim(now, lease, claim, id)))
  {
    W.NextKeepsSound(sys.worker, W.TickClaims(claim, sys.queue.table[id].kind));
    ClaimKeepsRows(sys, now, lease, claim, id);
    ClaimAgreesAtFirst(sys, now, lease, claim, id);
    ClaimKeepsFlight(sys, now, lease, claim, id);
    forall c | c != claim ensures ClaimAgrees(Next(sys, Claim(now, lease, claim, id)), c) {
      ClaimKeepsOthers(sys, now, lease, claim, id, c);
    }
  }

  /** The worker moves a dispatch along, and unsettled claims stay unsettled. */
  predicate Moves(before: W.State, after: W.State) {
    && after.serialized == before.serialized && after.dispatched.Keys == before.dispatched.Keys
    && forall c | c in before.dispatched ::
         && after.dispatched[c].kind == before.dispatched[c].kind
         && (after.dispatched[c].progress.Settled? <==> before.dispatched[c].progress.Settled?)
         && (after.dispatched[c].progress.Queued? ==> before.dispatched[c].progress.Queued?)
  }

  lemma MovedKeepsLinked(sys: System, worker: W.State)
    requires Linked(sys) && W.Sound(worker) && Moves(sys.worker, worker)
    ensures Linked(sys.(worker := worker))
  {
    var after := sys.(worker := worker);
    SameRows(sys, after);
    forall c ensures ClaimAgrees(after, c) { assert ClaimAgrees(sys, c); }
    if sys.store.inFlight.Some? {
      var c :| Busy(sys, c) && sys.work[c].phase.Waiting?;
      assert Busy(after, c);
    }
  }

  lemma ChainKeepsLinked(sys: System, step: W.Step)
    requires Linked(sys) && W.Enabled(sys.worker, step) && (step.Start? || step.Clear? || step.Untrack?)
    ensures Linked(sys.(worker := W.Next(sys.worker, step)))
  {
    W.NextKeepsSound(sys.worker, step);
    MovedKeepsLinked(sys, W.Next(sys.worker, step));
  }

  // ----------------------------------------------------------- handler steps

  /** A claim that is not waiting has nothing in flight beside it. */
  lemma NothingInFlight(sys: System, claim: W.ClaimId)
    requires Linked(sys) && Busy(sys, claim) && !sys.work[claim].phase.Waiting?
    ensures sys.store.inFlight.None?
  {
    if sys.store.inFlight.Some? {
      var c :| Busy(sys, c) && sys.work[c].phase.Waiting?;
      OneBusyClaim(sys, claim, c);
    }
  }

  /** All other claims hold what they held, and no job of the segment is new to any of them. */
  ghost predicate OneClaimChanged(sys: System, after: System, claim: W.ClaimId) {
    && after.worker == sys.worker && after.work.Keys == sys.work.Keys
    && (forall c | c in sys.work && c != claim :: after.work[c] == sys.work[c])
    && (forall c | c in sys.work && sys.work[c].id in after.ids :: sys.work[c].id in sys.ids)
  }

  /** After a step of the segment's one busy claim, that claim is still the only one. */
  lemma OnlyClaimChanges(sys: System, after: System, claim: W.ClaimId)
    requires Linked(sys) && Busy(sys, claim) && OneClaimChanged(sys, after, claim)
    requires |after.ids| == |after.store.jobs| && ClaimAgrees(after, claim)
    ensures forall c :: ClaimAgrees(after, c)
  {
    forall c ensures ClaimAgrees(after, c) {
      if c != claim && Busy(after, c) { OneBusyClaim(sys, claim, c); }
    }
  }

  lemma ReadIsEnabled(sys: System, claim: W.ClaimId)
    requires Linked(sys) && Enabled(sys, Read(claim))
    ensures S.Enabled(sys.store, S.BeginJob(IndexOf(sys.ids, sys.work[claim].id)))
    ensures Next(sys, Read(claim)).store == S.Next(sys.store, S.BeginJob(IndexOf(sys.ids, sys.work[claim].id)))
  {
    NothingInFlight(sys, claim);
    assert ClaimAgrees(sys, claim);
  }

  lemma ReadKeepsLinked(sys: System, claim: W.ClaimId)
    requires Linked(sys) && Enabled(sys, Read(claim))
    ensures Linked(Next(sys, Read(claim)))
  {
    var after, j := Next(sys, Read(claim)), IndexOf(sys.ids, sys.work[claim].id);
    ReadIsEnabled(sys, claim);
    S.NextIsGood(sys.store, S.BeginJob(j));
    SameRows(sys, after);
    assert ClaimAgrees(sys, claim);
    OnlyClaimChanges(sys, after, claim);
    assert Busy(after, claim);
  }

  lemma AnswerIsEnabled(sys: System, claim: W.ClaimId, split: seq<S.Range>, now: int, chained: J.Id)
    requires Linked(sys) && Enabled(sys, Answer(claim, split, now, chained))
    ensures S.Enabled(sys.store, S.Answer(split))
    ensures Next(sys, Answer(claim, split, now, chained)).store == S.Next(sys.store, S.Answer(split))
  {
    assert ClaimAgrees(sys, claim);
  }

  lemma {:induction false} IndexStays(ids: seq<J.Id>, more: seq<J.Id>, id: J.Id)
    requires id in ids
    ensures IndexOf(ids + more, id) == IndexOf(ids, id)
  {
    assert (ids + more)[0] == ids[0];
    if ids[0] != id {
      assert (ids + more)[1..] == ids[1..] + more;
      IndexStays(ids[1..], more, id);
    }
  }

  /** The chained job is a new one, pending and not done. */
  lemma ChainedKeepsRows(sys: System, after: System, now: int, chained: J.Id, job: S.Job)
    requires RowsAgree(sys) && J.Enabled(sys.queue, now, J.Enqueue(chained, SUMMARIZE, now)) && chained !in sys.ids
    requires after.queue == J.Next(sys.queue, now, J.Enqueue(chained, SUMMARIZE, now))
    requires after.ids == sys.ids + [chained] && after.store.jobs == sys.store.jobs + [job] && !job.succeeded
    requires after.buried == sys.buried
    ensures RowsAgree(after)
  {
    forall j | 0 <= j < |after.ids| ensures RowAgrees(after, j) {
      if j < |sys.ids| { assert RowAgrees(sys, j) && after.ids[j] == sys.ids[j]; }
    }
  }

  lemma AnswerKeepsRows(sys: System, claim: W.ClaimId, split: seq<S.Range>, now: int, chained: J.Id)
    requires Linked(sys) && Enabled(sys, Answer(claim, split, now, chained))
    ensures RowsAgree(Next(sys, Answer(claim, split, now, chained)))
  {
    var after, p := Next(sys, Answer(claim, split, now, chained)), sys.work[claim].phase;
    if Commits(sys, claim) && p.hasMore {
      ChainedKeepsRows(sys, after, now, chained, S.Job(p.window[|p.window| - 1].ordinal, false));
    } else {
      SameRows(sys, after);
    }
  }

  /** The claim has had its answer: nothing is in flight, and it returned only if the transaction committed. */
  lemma AnsweredClaimAgrees(sys: System, claim: W.ClaimId, split: seq<S.Range>, now: int, chained: J.Id)
    requires Linked(sys) && Enabled(sys, Answer(claim, split, now, chained))
    requires RowsAgree(Next(sys, Answer(claim, split, now, chained)))
    ensures ClaimAgrees(Next(sys, Answer(claim, split, now, chained)), claim)
  {
    assert ClaimAgrees(sys, claim);
    IndexStays(sys.ids, if Commits(sys, claim) && sys.work[claim].phase.hasMore then [chained] else [],
               sys.work[claim].id);
    assert sys.ids + [] == sys.ids;
  }

  lemma AnswerChangesOneClaim(sys: System, claim: W.ClaimId, split: seq<S.Range>, now: int, chained: J.Id)
    requires Enabled(sys, Answer(claim, split, now, chained))
    ensures OneClaimChanged(sys, Next(sys, Answer(claim, split, now, chained)), claim)
  {
  }

  lemma AnswerKeepsClaims(sys: System, claim: W.ClaimId, split: seq<S.Range>, now: int, chained: J.Id, after: System)
    requires Linked(sys) && Enabled(sys, Answer(claim, split, now, chained))
    requires after == Next(sys, Answer(claim, split, now, chained)) && RowsAgree(after)
    ensures forall c :: ClaimAgrees(after, c)
  {
    AnsweredClaimAgrees(sys, claim, split, now, chained);
    AnswerChangesOneClaim(sys, claim, split, now, chained);
    OnlyClaimChanges(sys, after, claim);
  }

  lemma AnswerKeepsLinked(sys: System, claim: W.ClaimId, split: seq<S.Range>, now: int, chained: J.Id)
    requires Linked(sys) && Enabled(sys, Answer(claim, split, now, chained))
    ensures Linked(Next(sys, Answer(claim, split, now, chained)))
  {
    AnswerIsEnabled(sys, claim, split, now, chained);
    S.NextIsGood(sys.store, S.Answer(split));
    AnswerKeepsRows(sys, claim, split, now, chained);
    AnswerKeepsClaims(sys, claim, split, now, chained, Next(sys, Answer(claim, split, now, chained)));
  }

  /** What happens to a claim of somebody else's job does not matter here. */
  lemma OthersClaimChanges(sys: System, after: System, claim: W.ClaimId)
    requires Linked(sys) && claim in sys.work && !Ours(sys, claim) && after.ids == sys.ids && after.store == sys.store
    requires after.worker == sys.worker && after.work.Keys == sys.work.Keys
    requires after.work[claim].id == sys.work[claim].id
    requires forall c | c in sys.work && c != claim :: after.work[c] == sys.work[c]
    ensures FlightAgrees(after) && forall c :: ClaimAgrees(after, c)
  {
    forall c ensures ClaimAgrees(after, c) { assert ClaimAgrees(sys, c); }
    if sys.store.inFlight.Some? {
      var c :| Busy(sys, c) && sys.work[c].phase.Waiting?;
      assert Busy(after, c);
    }
  }

  lemma FinishKeepsLinked(sys: System, claim: W.ClaimId, throws: bool)
    requires Linked(sys) && Enabled(sys, Finish(claim, throws))
    ensures Linked(Next(sys, Finish(claim, throws)))
  {
    var after := Next(sys, Finish(claim, throws));
    SameRows(sys, after);
    if Ours(sys, claim) {
      S.NextIsGood(sys.store, S.Abort);
      assert ClaimAgrees(sys, claim);
      OnlyClaimChanges(sys, after, claim);
    } else {
      OthersClaimChanges(sys, after, claim);
    }
  }

  // ------------------------------------------------------------------ settling

  /** The claim of a completed job leaves its row succeeded; any other report leaves no row newly so. */
  lemma SettleKeepsRows(sys: System, claim: W.ClaimId, now: int, completeThrows: bool, failThrows: bool)
    requires Linked(sys) && Enabled(sys, Settle(claim, now, completeThrows, failThrows))
    ensures RowsAgree(Next(sys, Settle(claim, now, completeThrows, failThrows)))
  {
    var after := Next(sys, Settle(claim, now, completeThrows, failThrows));
    forall j | 0 <= j < |after.ids| ensures RowAgrees(after, j) {
      assert RowAgrees(sys, j);
      IndexIsOwn(sys.ids, j);
    }
  }

  lemma SettledJobHadReturned(sys: System, claim: W.ClaimId, completeThrows: bool, failThrows: bool)
    requires Linked(sys) && W.Enabled(sys.worker, W.Step.Settle(claim)) && claim in sys.work
    requires Completes(sys, claim, completeThrows, failThrows)
    ensures S.Enabled(sys.store, S.Complete(IndexOf(sys.ids, sys.work[claim].id)))
  {
    assert Busy(sys, claim) && ClaimAgrees(sys, claim);
  }

  lemma SettleKeepsClaims(sys: System, claim: W.ClaimId, now: int, completeThrows: bool, failThrows: bool,
                          c: W.ClaimId)
    requires Linked(sys) && Enabled(sys, Settle(claim, now, completeThrows, failThrows))
    ensures ClaimAgrees(Next(sys, Settle(claim, now, completeThrows, failThrows)), c)
  {
    assert ClaimAgrees(sys, c) && ClaimAgrees(sys, claim);
    if Busy(sys, c) && Busy(sys, claim) { OneBusyClaim(sys, c, claim); }
  }

  lemma SettleKeepsFlight(sys: System, claim: W.ClaimId, now: int, completeThrows: bool, failThrows: bool)
    requires Linked(sys) && Enabled(sys, Settle(claim, now, completeThrows, failThrows))
    ensures FlightAgrees(Next(sys, Settle(claim, now, completeThrows, failThrows)))
  {
    var after := Next(sys, Settle(claim, now, completeThrows, failThrows));
    if sys.store.inFlight.Some? {
      var c :| Busy(sys, c) && sys.work[c].phase.Waiting?;
      assert c != claim && Busy(after, c);
    }
  }

  lemma SettleKeepsLinked(sys: System, claim: W.ClaimId, now: int, completeThrows: bool, failThrows: bool)
    requires Linked(sys) && Enabled(sys, Settle(claim, now, completeThrows, failThrows))
    ensures Linked(Next(sys, Settle(claim, now, completeThrows, failThrows)))
  {
    W.NextKeepsSound(sys.worker, W.Step.Settle(claim));
    SettleKeepsRows(sys, claim, now, completeThrows, failThrows);
    SettleKeepsFlight(sys, claim, now, completeThrows, failThrows);
    forall c ensures ClaimAgrees(Next(sys, Settle(claim, now, completeThrows, failThrows)), c) {
      SettleKeepsClaims(sys, claim, now, completeThrows, failThrows, c);
    }
    if Completes(sys, claim, completeThrows, failThrows) {
      SettledJobHadReturned(sys, claim, completeThrows, failThrows);
      S.NextIsGood(sys.store, S.Complete(IndexOf(sys.ids, sys.work[claim].id)));
    }
  }

  // ---------------------------------------------------------------- all runs

  lemma NextIsLinked(sys: System, step: Step)
    requires Linked(sys) && Enabled(sys, step)
    ensures Linked(Next(sys, step))
  {
    match step
    case Queue(now, op) => QueueKeepsLinked(sys, now, op);
    case Claim(now, lease, claim, id) => ClaimKeepsLinked(sys, now, lease, claim, id);
    case Start(claim) => ChainKeepsLinked(sys, W.Step.Start(claim));
    case Read(claim) => ReadKeepsLinked(sys, claim);
    case Answer(claim, split, now, chained) => AnswerKeepsLinked(sys, claim, split, now, chained);
    case Finish(claim, throws) => FinishKeepsLinked(sys, claim, throws);
    case Settle(claim, now, completeThrows, failThrows) =>
      SettleKeepsLinked(sys, claim, now, completeThrows, failThrows);
    case Clear(claim) => ChainKeepsLinked(sys, W.Step.Clear(claim));
    case Untrack(claim) => ChainKeepsLinked(sys, W.Step.Untrack(claim));
    case PurgeSteps(cutoff) => PurgeKeepsLinked(sys, cutoff);
    case Crash => CrashKeepsLinked(sys);
  }

  lemma OneOp(s: S.Store, op: S.Op)
    requires S.Enabled(s, op)
    ensures S.AllEnabled(s, [op]) && S.Run(s, [op]) == S.Next(s, op)
  {
    assert [op][1..] == [];
  }

  /** Every step does to the segment what its projection says, and the projection is enabled. */
  lemma StepProjects(sys: System, step: Step)
    requires Linked(sys) && Enabled(sys, step)
    ensures S.AllEnabled(sys.store, Projected(sys, step))
    ensures S.Run(sys.store, Projected(sys, step)) == Next(sys, step).store
  {
    match step
    case Read(claim) =>
      ReadIsEnabled(sys, claim);
      OneOp(sys.store, S.BeginJob(IndexOf(sys.ids, sys.work[claim].id)));
    case Answer(claim, split, now, chained) =>
      AnswerIsEnabled(sys, claim, split, now, chained);
      OneOp(sys.store, S.Answer(split));
    case Finish(claim, _) => OneOp(sys.store, S.Abort);
    case Settle(claim, now, completeThrows, failThrows) =>
      if Completes(sys, claim, completeThrows, failThrows) {
        SettledJobHadReturned(sys, claim, completeThrows, failThrows);
        OneOp(sys.store, S.Complete(IndexOf(sys.ids, sys.work[claim].id)));
      }
    case PurgeSteps(cutoff) => OneOp(sys.store, S.Purge(cutoff));
    case Crash => OneOp(sys.store, S.Abort);
    case _ =>
  }

  lemma {:induction false} OpsJoin(s: S.Store, first: seq<S.Op>, second: seq<S.Op>)
    requires S.AllEnabled(s, first) && S.AllEnabled(S.Run(s, first), second)
    ensures S.AllEnabled(s, first + second) && S.Run(s, first + second) == S.Run(S.Run(s, first), second)
    decreases |first|
  {
    if first == [] {
      assert first + second == second;
    } else {
      assert (first + second)[1..] == first[1..] + second;
      OpsJoin(S.Next(s, first[0]), first[1..], second);
    }
  }

  /**
   * Every run of queue, worker and handlers is, for the segment, a run of the
   * summarizer's operations: the worker's chain and the leases are enough to keep
   * one job in flight, and none that is done is started again.
   */
  lemma {:induction false} RunProjects(sys: System, steps: seq<Step>)
    requires Linked(sys) && AllEnabled(sys, steps)
    ensures S.AllEnabled(sys.store, Projection(sys, steps))
    ensures S.Run(sys.store, Projection(sys, steps)) == Run(sys, steps).store
    ensures Linked(Run(sys, steps))
    decreases |steps|
  {
    if steps != [] {
      var mid := Next(sys, steps[0]);
      StepProjects(sys, steps[0]);
      NextIsLinked(sys, steps[0]);
      RunProjects(mid, steps[1..]);
      OpsJoin(sys.store, Projected(sys, steps[0]), Projection(mid, steps[1..]));
    }
  }

  lemma ClosedIsLinked(sys: System, rows: seq<S.Row>)
    requires Closed(sys, rows) && S.Numbered(rows)
    ensures Linked(sys)
  {
    assert sys.store.jobs[0] == S.Job(0, false);
  }

  /**
   * Exactly once, over real queue runs: up to a frontier every surviving step is
   * in one episode, beyond it in none; while steps are left, a job of the segment
   * starts at the frontier whose row is on the queue and has not succeeded, unless
   * it was purged dead.
   */
  lemma QueueRunsCoverOnce(sys: System, rows: seq<S.Row>, steps: seq<Step>)
    requires Closed(sys, rows) && S.Numbered(rows) && AllEnabled(sys, steps)
    ensures var late := Run(sys, steps);
            var m := S.Frontier(late.store.episodes);
            && (forall r | r in late.store.steps ::
                  if r.ordinal <= m then S.LinkedOnce(late.store.links, r.ordinal)
                  else !S.Linked(late.store.links, r.ordinal))
            && |late.ids| == |late.store.jobs|
            && (S.Uncovered(late.store.steps, m) ==>
                  exists j :: 0 <= j < |late.ids| && late.store.jobs[j].offset == m
                    && (if late.ids[j] in late.queue.table then !late.queue.table[late.ids[j]].state.Succeeded?
                        else late.ids[j] in late.buried))
  {
    ClosedIsLinked(sys, rows);
    RunProjects(sys, steps);
    S.ExactlyOnceCover(rows, Projection(sys, steps));
    var late := Run(sys, steps);
    var m := S.Frontier(late.store.episodes);
    if S.Uncovered(late.store.steps, m) {
      var j :| 0 <= j < |late.store.jobs| && late.store.jobs[j] == S.Job(m, false);
      assert RowAgrees(late, j);
    }
  }

  /** Once every job of the segment has succeeded on the queue, every surviving step is in one episode. */
  lemma DrainedQueueMeansCovered(sys: System, rows: seq<S.Row>, steps: seq<Step>)
    requires Closed(sys, rows) && S.Numbered(rows) && AllEnabled(sys, steps)
    requires var late := Run(sys, steps);
             forall id | id in late.ids ::
               if id in late.queue.table then late.queue.table[id].state.Succeeded? else id !in late.buried
    ensures var late := Run(sys, steps);
            forall r | r in late.store.steps :: S.LinkedOnce(late.store.links, r.ordinal)
  {
    ClosedIsLinked(sys, rows);
    RunProjects(sys, steps);
    var late := Run(sys, steps);
    forall j | 0 <= j < |late.store.jobs| ensures late.store.jobs[j].succeeded {
      assert RowAgrees(late, j) && late.ids[j] in late.ids;
    }
    S.DoneMeansCovered(rows, Projection(sys, steps));
  }
}
