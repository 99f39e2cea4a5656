/** What each writer of the memory tables leaves of every single row. */
module MemoryEffects {
  import opened Prelude
  import opened MemoryStore
  import C = Consolidation

  /** Every row but `id` is as it was. */
  ghost predicate OthersStay(s: Store, after: Store, id: Id) {
    forall other | other != id :: (other in after.rows <==> other in s.rows)
      && (other in s.rows ==> after.rows[other] == s.rows[other])
  }

  /** What was observed before stays as it was observed, and only this observation may be new. */
  ghost predicate OnlyObserved(s: Store, after: Store, id: Id, episode: nat, seen: Observation) {
    && after.evidence.Keys == s.evidence.Keys + {(id, episode)}
    && (forall k | k in s.evidence :: after.evidence[k] == s.evidence[k])
    && ((id, episode) !in s.evidence ==> after.evidence[(id, episode)] == seen)
  }

  predicate IsMaxOfThree(x: real, a: real, b: real, c: real) {
    x >= a && x >= b && x >= c && (x == a || x == b || x == c)
  }

  predicate IsMaxOfTwoReal(x: real, a: real, b: real) { x >= a && x >= b && (x == a || x == b) }

  predicate IsMaxOfTwo(x: int, a: int, b: int) { x >= a && x >= b && (x == a || x == b) }

  /** A row not rejected that says the same, for the same key and kind. */
  predicate SaysTheSame(row: Row, input: Input) {
    row.key == input.key && row.kind == input.kind && row.claim == input.claim && row.status != C.Rejected
  }

  lemma OneMoreObserved(evidence: Ledger, id: Id, episode: nat, seen: Observation)
    ensures |Of(AddEvidence(evidence, id, episode, seen), id)|
         == |Of(evidence, id)| + if (id, episode) in evidence then 0 else 1
  {
    if (id, episode) !in evidence {
      assert Of(AddEvidence(evidence, id, episode, seen), id) == Of(evidence, id) + {(id, episode)};
    }
  }

  /** The row after it was seen once more: neither its text nor its status changes. */
  predicate Strengthened(before: Row, after: Row, input: Input, seen: Observation, now: int, more: nat) {
    && IsMaxOfThree(after.confidence, before.confidence, input.confidence, seen.confidence)
    && IsMaxOfTwo(after.lastSeen, before.lastSeen, seen.at) && after.updatedAt == now
    && after.evidenceCount == before.evidenceCount + more
    && after == before.(confidence := after.confidence, lastSeen := after.lastSeen, updatedAt := after.updatedAt,
                        evidenceCount := after.evidenceCount)
  }

  lemma AbsorbStrengthens(s: Store, twin: Id, input: Input, episode: nat, seen: Observation, now: int)
    requires twin in s.rows && s.rows[twin].evidenceCount == |Of(s.evidence, twin)|
    ensures Strengthened(s.rows[twin], Absorb(s, twin, input, episode, seen, now).rows[twin], input, seen, now,
                         if (twin, episode) in s.evidence then 0 else 1)
  {
    OneMoreObserved(s.evidence, twin, episode, seen);
  }

  /** An observation of a claim already held strengthens its oldest row, and counts once an episode. */
  lemma TwinAbsorbs(s: Store, op: Op, twin: Id)
    requires Sound(s) && Enabled(s, op) && op.Upsert? && op.twin == Some(twin)
    ensures var after := Next(s, op);
            && twin in s.rows && SaysTheSame(s.rows[twin], op.input)
            && (forall id | id in s.rows && SaysTheSame(s.rows[id], op.input) ::
                  s.rows[twin].createdAt <= s.rows[id].createdAt)
            && twin in after.rows && OthersStay(s, after, twin) && after.fts == s.fts
            && OnlyObserved(s, after, twin, op.episode, op.seen)
            && Strengthened(s.rows[twin], after.rows[twin], op.input, op.seen, op.now,
                            if (twin, op.episode) in s.evidence then 0 else 1)
  {
    AbsorbStrengthens(s, twin, op.input, op.episode, op.seen, op.now);
    forall id | id in s.rows && SaysTheSame(s.rows[id], op.input)
      ensures s.rows[twin].createdAt <= s.rows[id].createdAt
    {
      assert IsTwin(s.rows[id], op.input);
    }
  }

  /** A new claim becomes an unconfirmed candidate with one observation and its own entry in the index. */
  lemma NewClaimIsCandidate(s: Store, op: Op)
    requires Sound(s) && Enabled(s, op) && op.Upsert? && op.twin.None?
    ensures var after := Next(s, op);
            && (forall id | id in s.rows :: !SaysTheSame(s.rows[id], op.input))
            && op.id !in s.rows && op.id in after.rows && OthersStay(s, after, op.id)
            && OnlyObserved(s, after, op.id, op.episode, op.seen)
            && after.fts == s.fts[op.rowid := Indexed(op.input.text, op.input.key)] && op.rowid !in s.fts
            && var row := after.rows[op.id];
               && row.status == C.Candidate && row.manual.None? && row.evidenceCount == 1 && row.rowid == op.rowid
               && row.kind == op.input.kind && row.key == op.input.key && row.text == op.input.text
               && row.claim == op.input.claim && row.firstSeen == op.seen.at && row.lastSeen == op.seen.at
               && row.createdAt == op.now && row.updatedAt == op.now
               && IsMaxOfTwoReal(row.confidence, op.input.confidence, op.seen.confidence)
  {
    assert !HasRowid(s.rows, op.rowid);
  }

  /** A rejection, of an active row too, takes the row out of use and its confirmation back; its evidence stays. */
  lemma RejectionWithdraws(s: Store, id: Id, now: int)
    requires id in s.rows
    ensures var after := Next(s, Reject(id, now));
            && id in after.rows && OthersStay(s, after, id) && after.evidence == s.evidence && after.fts == s.fts
            && after.rows[id] == s.rows[id].(status := C.Rejected, manual := None, updatedAt := now)
  {
  }

  /** A confirmation makes the row active and the user's own, whatever it was. */
  lemma ConfirmationAdopts(s: Store, id: Id, now: int)
    requires id in s.rows
    ensures var after := Next(s, Confirm(id, now));
            && id in after.rows && OthersStay(s, after, id) && after.evidence == s.evidence && after.fts == s.fts
            && after.rows[id] == s.rows[id].(status := C.Active, manual := Some(now), updatedAt := now)
  {
  }

  /** Neither the user's confirmation nor rejection of a row that is not there changes anything. */
  lemma AbsentRowsStayAbsent(s: Store, id: Id, now: int)
    requires id !in s.rows
    ensures Next(s, Confirm(id, now)) == s && Next(s, Reject(id, now)) == s
  {
  }

  // ------------------------------------------------------------------- verdicts

  /** The last verdict of the list that speaks of the row. */
  predicate IsLastVerdict(moves: seq<(Id, C.Status)>, i: nat, id: Id) {
    i < |moves| && moves[i].0 == id && forall j | i < j < |moves| :: moves[j].0 != id
  }

  lemma {:induction false} UnnamedStays(s: Store, moves: seq<(Id, C.Status)>, now: int, id: Id)
    requires id in s.rows && forall m | m in moves :: m.0 != id
    ensures id in TransitionedAll(s, moves, now).rows && TransitionedAll(s, moves, now).rows[id] == s.rows[id]
    decreases |moves|
  {
    if moves != [] {
      assert moves[|moves| - 1] in moves;
      assert forall m | m in moves[..|moves| - 1] :: m in moves;
      UnnamedStays(s, moves[..|moves| - 1], now, id);
    }
  }

  lemma {:induction false} VerdictsKeepTheRest(s: Store, moves: seq<(Id, C.Status)>, now: int)
    ensures var after := TransitionedAll(s, moves, now);
            && after.rows.Keys == s.rows.Keys && after.evidence == s.evidence && after.fts == s.fts
            && forall id | id in s.rows :: after.rows[id].manual == s.rows[id].manual
    decreases |moves|
  {
    if moves != [] { VerdictsKeepTheRest(s, moves[..|moves| - 1], now); }
  }

  /** Of several verdicts on a row the last one counts; a confirmed row is spared, one not spoken of stays. */
  lemma {:induction false} LastVerdictCounts(s: Store, moves: seq<(Id, C.Status)>, now: int, id: Id, i: nat)
    requires id in s.rows && s.rows[id].manual.None? && IsLastVerdict(moves, i, id)
    ensures id in TransitionedAll(s, moves, now).rows
    ensures TransitionedAll(s, moves, now).rows[id].status == moves[i].1
    decreases |moves|
  {
    var init, last := moves[..|moves| - 1], moves[|moves| - 1];
    VerdictsKeepTheRest(s, init, now);
    if i < |moves| - 1 {
      assert last.0 != id && IsLastVerdict(init, i, id);
      LastVerdictCounts(s, init, now, id, i);
    }
  }

  /** What a list of verdicts does to one row. */
  lemma VerdictsOnOneRow(s: Store, moves: seq<(Id, C.Status)>, now: int, id: Id)
    requires id in s.rows
    ensures var after := Next(s, ApplyTransitions(moves, now));
            && after.rows.Keys == s.rows.Keys && after.evidence == s.evidence && after.fts == s.fts
            && (s.rows[id].manual.Some? || (forall m | m in moves :: m.0 != id) ==> after.rows[id] == s.rows[id])
            && (s.rows[id].manual.None? ==>
                  forall i | 0 <= i < |moves| && IsLastVerdict(moves, i, id) :: after.rows[id].status == moves[i].1)
  {
    VerdictsKeepTheRest(s, moves, now);
    if s.rows[id].manual.Some? { TransitionsSpareManual(s, moves, now, id); }
    else {
      if forall m | m in moves :: m.0 != id { UnnamedStays(s, moves, now, id); }
      forall i | 0 <= i < |moves| && IsLastVerdict(moves, i, id)
        ensures TransitionedAll(s, moves, now).rows[id].status == moves[i].1
      {
        LastVerdictCounts(s, moves, now, id, i);
      }
    }
  }

  // ------------------------------------------------------------------- removals

  /** Rows a purge may take. */
  predicate IsDue(s: Store, op: Op, id: Id)
    requires IsPurge(op)
  {
    id in s.rows && match op
      case Forget(target) => id == target
      case PurgeRejected(cutoff) =>
        s.rows[id].status == C.Rejected && s.rows[id].manual.None? && s.rows[id].updatedAt < cutoff
      case PurgeSuperseded(cutoff) => s.rows[id].status == C.Superseded && s.rows[id].updatedAt < cutoff
      case _ => s.rows[id].manual.None? && forall k | k in s.evidence :: k.0 != id
  }

  lemma RemovedIndex(s: Store, gone: set<Id>)
    requires Sound(s)
    ensures forall id | id in s.rows :: s.rows[id].rowid in HardDeleted(s, gone).fts <==> id !in gone
  {
    forall id | id in s.rows ensures s.rows[id].rowid in RowIds(s.rows, gone) <==> id in gone {
      if o :| o in gone && o in s.rows && s.rows[o].rowid == s.rows[id].rowid { assert o == id; }
    }
  }

  lemma SelectedAreDue(s: Store, op: Op, id: Id)
    requires IsPurge(op) && id in s.rows
    ensures id in Selected(s, op) <==> IsDue(s, op, id)
  {
    if op.PurgeZeroEvidence? {
      if k :| k in s.evidence && k.0 == id { assert k in Of(s.evidence, id); }
    }
  }

  lemma RemovedExactly(s: Store, gone: set<Id>, after: Store)
    requires Sound(s) && after == HardDeleted(s, gone)
    ensures forall id :: id in after.rows <==> id in s.rows && id !in gone
    ensures forall id | id in after.rows :: after.rows[id] == s.rows[id]
    ensures forall k :: k in after.evidence <==> k in s.evidence && k.0 !in gone
    ensures forall k | k in s.evidence :: k.0 in s.rows
    ensures forall id | id in s.rows :: s.rows[id].rowid in after.fts <==> id !in gone
  {
    RemovedIndex(s, gone);
  }

  /** A purge takes exactly the rows that are due, each with its evidence and its index entry. */
  lemma PurgeTakesTheDue(s: Store, op: Op, after: Store)
    requires Sound(s) && IsPurge(op) && after == Next(s, op)
    ensures forall id :: id in after.rows <==> id in s.rows && !IsDue(s, op, id)
    ensures forall id | id in after.rows :: after.rows[id] == s.rows[id]
    ensures forall k :: k in after.evidence <==> k in s.evidence && !IsDue(s, op, k.0)
    ensures forall id | id in s.rows :: s.rows[id].rowid in after.fts <==> !IsDue(s, op, id)
  {
    RemovedExactly(s, Selected(s, op), after);
    forall id | id in s.rows ensures id in Selected(s, op) <==> IsDue(s, op, id) { SelectedAreDue(s, op, id); }
  }

  /** Something outside the dead episodes, or the user, still supports the row. */
  predicate IsSupported(s: Store, episodes: set<nat>, id: Id)
    requires id in s.rows
  {
    s.rows[id].manual.Some? || exists k :: k in s.evidence && k.0 == id && k.1 !in episodes
  }

  predicate WasTouched(s: Store, episodes: set<nat>, id: Id) {
    exists k :: k in s.evidence && k.0 == id && k.1 in episodes
  }

  /** Deleting episodes takes their observations, and with them the rows that nothing else supports. */
  lemma DeletionTakesTheUnsupported(s: Store, episodes: set<nat>, id: Id)
    requires id in s.rows
    ensures var after := Next(s, DeleteEpisodes(episodes));
            && (id in after.rows <==> !WasTouched(s, episodes, id) || IsSupported(s, episodes, id))
            && (id in after.rows ==>
                  after.rows[id] == s.rows[id].(evidenceCount := after.rows[id].evidenceCount))
            && (forall k :: k in after.evidence <==> k in s.evidence && k.1 !in episodes)
            && (forall k | k in after.evidence :: after.evidence[k] == s.evidence[k])
  {
    WithoutEpisodesRows(s, episodes);
    var left := Of(Pruned(s.evidence, episodes), id);
    if k :| k in s.evidence && k.0 == id && k.1 !in episodes { assert k in left; }
    if k :| k in left { assert k in s.evidence && k.0 == id && k.1 !in episodes; }
    if k :| k in s.evidence && k.0 == id && k.1 in episodes { assert id in Affected(s.evidence, episodes); }
  }
}
