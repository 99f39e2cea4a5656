/** What each statement of the queue does to a row, with the delays in figures. */
module JobEffects {
  import opened Prelude
  import opened Jobs

  /** A minute, five minutes, half an hour, two hours. */
  function DelayAfter(attempts: nat): (delay: nat)
    requires 1 <= attempts <= 4
    ensures delay > 0
  {
    if attempts == 1 then 60_000 else if attempts == 2 then 300_000
    else if attempts == 3 then 1_800_000 else 7_200_000
  }

  /** Every other row is as it was. */
  ghost predicate OthersStay(t: Table, after: Table, id: Id) {
    after.Keys == t.Keys && forall other | other in t && other != id :: after[other] == t[other]
  }

  /** A new job has all its attempts, and can be claimed exactly from its time on. */
  lemma EnqueuedWaitsItsTime(q: Queue, id: Id, kind: string, runAfter: int, now: int, later: int, lease: int)
    requires Enabled(q, now, Enqueue(id, kind, runAfter)) && now <= later && lease > 0
    ensures var after := Next(q, now, Enqueue(id, kind, runAfter));
            && id in after.table && after.table[id].attempts == 0 && after.table[id].kind == kind
            && after.table == q.table[id := after.table[id]]
            && (Enabled(after, later, Claim(id, lease)) <==> later >= runAfter)
  {
  }

  /** A claim that still owns its row completes it; a stale one does nothing. */
  lemma CompletionSucceeds(q: Queue, id: Id, token: int, now: int)
    requires Reachable(q) && q.clock <= now
    ensures var t, after := q.table, Next(q, now, CompleteOp(id, Some(token))).table;
            if id in t && t[id].state.Running? && t[id].leasedUntil == Some(token)
            then OthersStay(t, after, id)
                 && after[id] == t[id].(state := Succeeded, leasedUntil := None, updatedAt := now)
            else after == t
  {
  }

  /**
   * A claim that still owns its row and fails: with its first to fourth attempt
   * the row waits for a retry, from then on it is dead; a stale claim does nothing.
   */
  lemma FailReschedulesOrKills(q: Queue, id: Id, token: int, now: int)
    requires Reachable(q) && q.clock <= now
    ensures var t, after := q.table, Next(q, now, FailOp(id, Some(token))).table;
            if id in t && t[id].state.Running? && t[id].leasedUntil == Some(token) then
              && OthersStay(t, after, id) && 1 <= t[id].attempts <= 5
              && after[id] == if t[id].attempts == 5
                              then t[id].(state := Dead, leasedUntil := None, updatedAt := now)
                              else t[id].(state := Retry, leasedUntil := None, updatedAt := now,
                                          runAfter := now + DelayAfter(t[id].attempts))
            else after == t
  {
    ReachableIsSound(q);
  }

  /** A failed job can be claimed again exactly from its delay on, and only while it has an attempt left. */
  lemma RetryWaitsItsDelay(q: Queue, id: Id, token: int, now: int, later: int, lease: int)
    requires Reachable(q) && id in q.table && Owns(q.table, id, Some(token)) && q.clock <= now <= later && lease > 0
    ensures var attempts := q.table[id].attempts;
            1 <= attempts <= 5 &&
            (Enabled(Next(q, now, FailOp(id, Some(token))), later, Claim(id, lease)) <==>
               attempts < 5 && later >= now + DelayAfter(attempts))
  {
    FailReschedulesOrKills(q, id, token, now);
  }

  /** A claim runs the row under a lease of its own, and from then on no second claim is possible. */
  lemma ClaimTakesTheRow(q: Queue, id: Id, now: int, lease: int)
    requires Reachable(q) && Enabled(q, now, Claim(id, lease))
    ensures var t, after := q.table, Next(q, now, Claim(id, lease));
            && (t[id].state.Pending? || t[id].state.Retry?) && t[id].runAfter <= now
            && OthersStay(t, after.table, id)
            && after.table[id] == t[id].(state := Running, attempts := t[id].attempts + 1,
                                         leasedUntil := Some(now + lease), updatedAt := now)
            && forall later, again :: !Enabled(after, later, Claim(id, again))
  {
  }

  /** Recovery touches exactly the running rows whose lease has ended, and costs them what a failure costs. */
  lemma RecoveryTakesTheLapsed(q: Queue, now: int, id: Id)
    requires Reachable(q) && q.clock <= now && id in q.table
    ensures q.table[id].state.Running? ==> 1 <= q.table[id].attempts <= 5
    ensures var row, after := q.table[id], Next(q, now, RequeueExpired).table;
            && after.Keys == q.table.Keys
            && after[id] == if !(row.state.Running? && row.leasedUntil.Some? && row.leasedUntil.value < now) then row
                            else if row.attempts >= 5 then row.(state := Dead, leasedUntil := None, updatedAt := now)
                            else row.(state := Retry, leasedUntil := None, updatedAt := now,
                                      runAfter := now + DelayAfter(row.attempts))
  {
    AttemptsMatchStates(q, id);
  }

  /** A finished row rests until it is purged, except that a revival gives a dead one five new attempts. */
  lemma FinishedRowsRest(q: Queue, now: int, op: Op, id: Id)
    requires Reachable(q) && Enabled(q, now, op)
    requires id in q.table && (q.table[id].state.Dead? || q.table[id].state.Succeeded?)
    ensures var after := Next(q, now, op).table;
            if op.Purge? && q.table[id].updatedAt < op.cutoff then id !in after
            else if op.RetryDead? && q.table[id].state.Dead? then
              id in after && after[id] == q.table[id].(state := Pending, attempts := 0, runAfter := now,
                                                       leasedUntil := None, updatedAt := now)
            else id in after && after[id] == q.table[id]
  {
  }

  /** A purge removes nothing that may still run. */
  lemma PurgeSparesTheLiving(q: Queue, now: int, cutoff: int, id: Id)
    requires Enabled(q, now, Purge(cutoff)) && id in q.table
    requires q.table[id].state.Pending? || q.table[id].state.Running? || q.table[id].state.Retry?
    ensures id in Next(q, now, Purge(cutoff)).table && Next(q, now, Purge(cutoff)).table[id] == q.table[id]
  {
  }
}
