/** The durable job queue: attempts, leases, retry schedule and recovery. */
module Jobs {
  import opened Prelude

  /** Back-off after failure 1..4; the fifth slot belongs to an arm that never runs. */
  const RETRY_SCHEDULE_MS: seq<nat> := [60_000, 300_000, 1_800_000, 7_200_000, 21_600_000]

  const MAX_ATTEMPTS := |RETRY_SCHEDULE_MS|

  type Id = nat

  datatype State = Pending | Running | Retry | Succeeded | Dead

  datatype Job = Job(kind: string, state: State, attempts: nat, runAfter: int, leasedUntil: Option<int>,
                     createdAt: int, updatedAt: int)

  type Table = map<Id, Job>

  datatype FailOutcome = ToRetry | ToDead | Stale | Thrown

  // ------------------------------------------------------------- transitions

  function NewJob(kind: string, runAfter: int, createdAt: int): Job {
    Job(kind, Pending, 0, runAfter, None, createdAt, createdAt)
  }

  predicate Claimable(j: Job, now: int, kinds: set<string>) {
    (j.state.Pending? || j.state.Retry?) && j.runAfter <= now && (kinds == {} || j.kind in kinds)
  }

  function Claimed(j: Job, now: int, lease: int): Job {
    j.(state := Running, leasedUntil := Some(now + lease), attempts := j.attempts + 1, updatedAt := now)
  }

  /** The claim whose lease token is `token` still owns the row. */
  predicate Owns(t: Table, id: Id, token: Option<int>) {
    id in t && t[id].state.Running? && token.Some? && t[id].leasedUntil == token
  }

  function Killed(j: Job, now: int): Job { j.(state := Dead, leasedUntil := None, updatedAt := now) }

  function Delayed(j: Job, now: int, delay: int): Job {
    j.(state := Retry, runAfter := now + delay, leasedUntil := None, updatedAt := now)
  }

  function Complete(t: Table, id: Id, token: Option<int>, now: int): Table {
    if Owns(t, id, token) then t[id := t[id].(state := Succeeded, leasedUntil := None, updatedAt := now)] else t
  }

  function FailResult(t: Table, id: Id, token: Option<int>): FailOutcome {
    if !Owns(t, id, token) then Stale
    else if t[id].attempts >= MAX_ATTEMPTS then ToDead
    else if t[id].attempts == 0 then Thrown
    else ToRetry
  }

  function Failed(t: Table, id: Id, token: Option<int>, now: int): Table {
    match FailResult(t, id, token)
    case ToDead => t[id := Killed(t[id], now)]
    case ToRetry => t[id := Delayed(t[id], now, RETRY_SCHEDULE_MS[t[id].attempts - 1])]
    case _ => t
  }

  function Revived(j: Job, now: int): Job {
    if j.state.Dead? then
      j.(state := Pending, attempts := 0, runAfter := now, leasedUntil := None, updatedAt := now)
    else j
  }

  predicate Expired(j: Job, now: int) {
    j.state.Running? && j.leasedUntil.Some? && j.leasedUntil.value < now
  }

  /** The CASE expression of the requeue statement, its ELSE arm included. */
  function RequeueDelay(attempts: nat): nat {
    if attempts == 1 then RETRY_SCHEDULE_MS[0]
    else if attempts == 2 then RETRY_SCHEDULE_MS[1]
    else if attempts == 3 then RETRY_SCHEDULE_MS[2]
    else if attempts == 4 then RETRY_SCHEDULE_MS[3]
    else RETRY_SCHEDULE_MS[4]
  }

  function Recovered(j: Job, now: int): Job {
    if !Expired(j, now) then j
    else if j.attempts >= MAX_ATTEMPTS then Killed(j, now)
    else Delayed(j, now, RequeueDelay(j.attempts))
  }

  predicate Terminal(j: Job) { j.state.Succeeded? || j.state.Dead? }

  // ---------------------------------------------------------------- all runs

  datatype Op =
    | Enqueue(id: Id, kind: string, runAfter: int)
    | Claim(id: Id, lease: int)
    | CompleteOp(id: Id, token: Option<int>)
    | FailOp(id: Id, token: Option<int>)
    | RetryDead
    | RequeueExpired
    | Purge(cutoff: int)

  /**
   * The table with two history variables: the claims whose lease was recovered,
   * and how often each job was claimed since it was enqueued or last revived.
   */
  datatype Queue = Queue(table: Table, clock: int, lost: set<(Id, int)>, claims: map<Id, nat>)

  predicate Enabled(q: Queue, now: int, op: Op) {
    && q.clock <= now
    && (op.Enqueue? ==> op.id !in q.table)
    && (op.Claim? ==> op.lease > 0 && op.id in q.table && Claimable(q.table[op.id], now, {}))
  }

  function Next(q: Queue, now: int, op: Op): Queue
    requires Enabled(q, now, op)
  {
    var t := q.table;
    match op
    case Enqueue(id, kind, runAfter) =>
      q.(table := t[id := NewJob(kind, runAfter, now)], clock := now, claims := q.claims[id := 0])
    case Claim(id, lease) =>
      q.(table := t[id := Claimed(t[id], now, lease)], clock := now,
         claims := q.claims[id := 1 + if id in q.claims then q.claims[id] else 0])
    case CompleteOp(id, token) => q.(table := Complete(t, id, token, now), clock := now)
    case FailOp(id, token) => q.(table := Failed(t, id, token, now), clock := now)
    case RetryDead =>
      q.(table := map id | id in t :: Revived(t[id], now), clock := now,
         claims := map id | id in q.claims :: if id in t && t[id].state.Dead? then 0 else q.claims[id])
    case RequeueExpired =>
      q.(table := map id | id in t :: Recovered(t[id], now), clock := now,
         lost := q.lost + set id | id in t && Expired(t[id], now) :: (id, t[id].leasedUntil.value))
    case Purge(cutoff) =>
      q.(table := map id | id in t && !(Terminal(t[id]) && t[id].updatedAt < cutoff) :: t[id], clock := now)
  }

  /** The attempt and lease bookkeeping of one row. */
  predicate RowOk(j: Job) {
    && (j.leasedUntil.Some? <==> j.state.Running?)
    && match j.state
       case Pending => j.attempts == 0
       case Retry => 1 <= j.attempts < MAX_ATTEMPTS
       case Running => 1 <= j.attempts <= MAX_ATTEMPTS
       case Succeeded => 1 <= j.attempts <= MAX_ATTEMPTS
       case Dead => j.attempts == MAX_ATTEMPTS
  }

  /** The row is in order and was claimed as often as its attempts say. */
  predicate Tallied(table: Table, claims: map<Id, nat>, id: Id) {
    id in table ==> RowOk(table[id]) && id in claims && claims[id] == table[id].attempts
  }

  ghost predicate Sound(q: Queue) {
    && (forall id | id in q.table :: Tallied(q.table, q.claims, id))
    && (forall id, token | (id, token) in q.lost ::
          && token < q.clock
          && !(id in q.table && q.table[id].leasedUntil.Some? && q.table[id].leasedUntil.value <= token))
  }

  lemma WorkerKeepsRow(q: Queue, now: int, op: Op, id: Id)
    requires Enabled(q, now, op) && (op.Claim? || op.CompleteOp? || op.FailOp?) && Tallied(q.table, q.claims, id)
    ensures Tallied(Next(q, now, op).table, Next(q, now, op).claims, id)
  {
  }

  lemma UpkeepKeepsRow(q: Queue, now: int, op: Op, id: Id)
    requires Enabled(q, now, op) && !(op.Claim? || op.CompleteOp? || op.FailOp?) && Tallied(q.table, q.claims, id)
    ensures Tallied(Next(q, now, op).table, Next(q, now, op).claims, id)
  {
  }

  /** No row holds a lease that is or was lost, and no lost lease lies in the future. */
  lemma NextKeepsLost(q: Queue, now: int, op: Op, id: Id, token: int)
    requires Sound(q) && Enabled(q, now, op) && (id, token) in Next(q, now, op).lost
    ensures var r := Next(q, now, op);
            && token < r.clock
            && !(id in r.table && r.table[id].leasedUntil.Some? && r.table[id].leasedUntil.value <= token)
  {
    if (id, token) in q.lost {
      assert token < q.clock;
    } else {
      assert id in q.table && Expired(q.table[id], now) && q.table[id].leasedUntil == Some(token);
    }
  }

  lemma NextKeepsSound(q: Queue, now: int, op: Op)
    requires Sound(q) && Enabled(q, now, op)
    ensures Sound(Next(q, now, op))
  {
    forall id | id in Next(q, now, op).table ensures Tallied(Next(q, now, op).table, Next(q, now, op).claims, id) {
      if op.Claim? || op.CompleteOp? || op.FailOp? { WorkerKeepsRow(q, now, op, id); }
      else { UpkeepKeepsRow(q, now, op, id); }
    }
    forall id, token | (id, token) in Next(q, now, op).lost
      ensures token < now
      ensures var t := Next(q, now, op).table;
              !(id in t && t[id].leasedUntil.Some? && t[id].leasedUntil.value <= token)
    {
      NextKeepsLost(q, now, op, id, token);
    }
  }

  const EMPTY := Queue(map[], 0, {}, map[])

  predicate AllEnabled(q: Queue, trace: seq<(int, Op)>)
    decreases |trace|
  {
    trace == [] ||
    (Enabled(q, trace[0].0, trace[0].1) && AllEnabled(Next(q, trace[0].0, trace[0].1), trace[1..]))
  }

  function Run(q: Queue, trace: seq<(int, Op)>): Queue
    requires AllEnabled(q, trace)
    decreases |trace|
  {
    if trace == [] then q else Run(Next(q, trace[0].0, trace[0].1), trace[1..])
  }

  ghost predicate Reachable(q: Queue) {
    exists trace :: AllEnabled(EMPTY, trace) && Run(EMPTY, trace) == q
  }

  lemma {:induction false} RunKeepsSound(q: Queue, trace: seq<(int, Op)>)
    requires Sound(q) && AllEnabled(q, trace)
    ensures Sound(Run(q, trace))
    decreases |trace|
  {
    if trace != [] {
      NextKeepsSound(q, trace[0].0, trace[0].1);
      RunKeepsSound(Next(q, trace[0].0, trace[0].1), trace[1..]);
    }
  }

  lemma ReachableIsSound(q: Queue)
    requires Reachable(q)
    ensures Sound(q)
  {
    var trace :| AllEnabled(EMPTY, trace) && Run(EMPTY, trace) == q;
    RunKeepsSound(EMPTY, trace);
  }

  /**
   * In every reachable queue: pending rows have no attempt, retry rows 1 to 4,
   * running rows 1 to 5 with a lease, dead rows exactly 5, and no other row has
   * a lease; and no job was claimed more than five times since its last revival.
   */
  lemma AttemptsMatchStates(q: Queue, id: Id)
    requires Reachable(q) && id in q.table
    ensures RowOk(q.table[id])
    ensures id in q.claims && q.claims[id] == q.table[id].attempts <= MAX_ATTEMPTS == 5
  {
    ReachableIsSound(q);
  }

  /** `fail` always finds a retry slot. */
  lemma FailNeverThrows(q: Queue, id: Id, token: Option<int>)
    requires Reachable(q)
    ensures !FailResult(q.table, id, token).Thrown?
  {
    if id in q.table { AttemptsMatchStates(q, id); }
  }

  /**
   * A lapsed lease costs exactly what a reported failure costs: the recovered row
   * is the one `fail` would leave, so the ELSE arm's six hours are never used.
   */
  lemma RecoveryEqualsFailure(q: Queue, id: Id, now: int)
    requires Reachable(q) && id in q.table && Expired(q.table[id], now)
    ensures q.table[id := Recovered(q.table[id], now)] == Failed(q.table, id, q.table[id].leasedUntil, now)
    ensures Recovered(q.table[id], now).state.Retry?
        ==> Recovered(q.table[id], now).runAfter != now + RETRY_SCHEDULE_MS[4]
  {
    AttemptsMatchStates(q, id);
  }

  /** A claim whose lease was recovered can never change the row again, however late it reports. */
  lemma LostClaimIsHarmless(q: Queue, id: Id, token: int, now: int)
    requires Reachable(q) && (id, token) in q.lost
    ensures Complete(q.table, id, Some(token), now) == q.table
    ensures FailResult(q.table, id, Some(token)) == Stale && Failed(q.table, id, Some(token), now) == q.table
  {
    ReachableIsSound(q);
  }

  // ------------------------------------------------------------ the repository

  predicate Before(a: Job, b: Job) {
    a.runAfter < b.runAfter || (a.runAfter == b.runAfter && a.createdAt <= b.createdAt)
  }

  lemma KeptAndGone(rows: Table, victims: set<Id>)
    requires victims <= rows.Keys
    ensures |victims| == |rows| - |rows - victims|
  {
    assert (rows - victims).Keys + victims == rows.Keys && (rows - victims).Keys !! victims;
    assert |(rows - victims).Keys + victims| == |(rows - victims).Keys| + |victims|;
  }

  class JobsRepository {
    var rows: Table

    constructor ()
      ensures rows == map[]
    {
      rows := map[];
    }

    method Enqueue(id: Id, kind: string, runAfter: int, createdAt: int)
      requires id !in rows  // a fresh identifier
      modifies this
      ensures rows == old(rows)[id := NewJob(kind, runAfter, createdAt)]
    {
      rows := rows[id := Job(kind, Pending, 0, runAfter, None, createdAt, createdAt)];
    }

    /** Oldest due job of the given kinds, any kind when none is given. */
    method ClaimNext(lease: int, now: int, kinds: set<string>) returns (claimed: Option<Id>)
      modifies this
      ensures claimed.None? ==> rows == old(rows) && forall id | id in rows :: !Claimable(rows[id], now, kinds)
      ensures claimed.Some? ==>
        && claimed.value in old(rows) && Claimable(old(rows)[claimed.value], now, kinds)
        && (kinds == {} || old(rows)[claimed.value].kind in kinds)
        && (forall id | id in old(rows) && Claimable(old(rows)[id], now, kinds) ::
              var first, other := old(rows)[claimed.value], old(rows)[id];
              first.runAfter <= other.runAfter
              && (first.runAfter == other.runAfter ==> first.createdAt <= other.createdAt))
        && rows == old(rows)[claimed.value := Claimed(old(rows)[claimed.value], now, lease)]
    {
      claimed := None;
      var todo := rows.Keys;
      while todo != {}
        invariant todo <= rows.Keys
        invariant claimed.Some? ==> claimed.value in rows && Claimable(rows[claimed.value], now, kinds)
        invariant forall id | id in rows && id !in todo && Claimable(rows[id], now, kinds) ::
                    claimed.Some? && Before(rows[claimed.value], rows[id])
        decreases |todo|
      {
        var id :| id in todo;
        todo := todo - {id};
        if Claimable(rows[id], now, kinds) && (claimed.None? || !Before(rows[claimed.value], rows[id])) {
          claimed := Some(id);
        }
      }
      if claimed.Some? {
        var job := rows[claimed.value];
        rows := rows[claimed.value := job.(state := Running, leasedUntil := Some(now + lease),
                                           attempts := job.attempts + 1, updatedAt := now)];
      }
    }

    method CompleteJob(id: Id, token: Option<int>, now: int) returns (done: bool)
      modifies this
      ensures done == Owns(old(rows), id, token) && rows == Complete(old(rows), id, token, now)
    {
      done := id in rows && rows[id].state.Running? && token.Some? && rows[id].leasedUntil == token;
      if done {
        rows := rows[id := rows[id].(state := Succeeded, leasedUntil := None, updatedAt := now)];
      }
    }

    method Fail(id: Id, token: Option<int>, now: int) returns (outcome: FailOutcome)
      modifies this
      ensures outcome == FailResult(old(rows), id, token) && rows == Failed(old(rows), id, token, now)
    {
      if !Owns(rows, id, token) {
        return Stale;
      }
      var job := rows[id];
      if job.attempts >= |RETRY_SCHEDULE_MS| {
        rows := rows[id := job.(state := Dead, leasedUntil := None, updatedAt := now)];
        return ToDead;
      }
      if job.attempts == 0 {
        return Thrown;
      }
      var delay := RETRY_SCHEDULE_MS[job.attempts - 1];
      rows := rows[id := job.(state := Retry, runAfter := now + delay, leasedUntil := None, updatedAt := now)];
      outcome := ToRetry;
    }

    method RetryDeadJobs(now: int) returns (revived: nat)
      modifies this
      ensures rows == map id | id in old(rows) :: Revived(old(rows)[id], now)
      ensures revived == |set id | id in old(rows) && old(rows)[id].state.Dead?|
    {
      revived := |set id | id in rows && rows[id].state.Dead?|;
      rows := map id | id in rows :: Revived(rows[id], now);
    }

    /** Two statements: jobs out of attempts die first, the rest go back to retry. */
    method RequeueExpiredLeases(now: int) returns (changed: nat)
      modifies this
      ensures rows == map id | id in old(rows) :: Recovered(old(rows)[id], now)
      ensures changed == |set id | id in old(rows) && Expired(old(rows)[id], now)|
    {
      var dead := set id | id in rows && Expired(rows[id], now) && rows[id].attempts >= MAX_ATTEMPTS;
      rows := map id | id in rows :: if id in dead then Killed(rows[id], now) else rows[id];
      var due := set id | id in rows && Expired(rows[id], now);
      rows := map id | id in rows ::
        if id in due then Delayed(rows[id], now, RequeueDelay(rows[id].attempts)) else rows[id];
      changed := |dead| + |due|;
      assert dead + due == set id | id in old(rows) && Expired(old(rows)[id], now);
      assert dead !! due && |dead + due| == |dead| + |due|;
    }

    method PurgeTerminalOlderThan(cutoff: int) returns (purged: nat)
      modifies this
      ensures rows == map id | id in old(rows) && !(Terminal(old(rows)[id]) && old(rows)[id].updatedAt < cutoff)
                        :: old(rows)[id]
      ensures purged == |old(rows)| - |rows|
    {
      var victims := set id | id in rows && Terminal(rows[id]) && rows[id].updatedAt < cutoff;
      purged := |victims|;
      KeptAndGone(rows, victims);
      rows := rows - victims;
    }
  }
}
