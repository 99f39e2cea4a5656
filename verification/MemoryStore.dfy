/** The memory tables: rows, their evidence ledger and their search mirror, kept in step by every writer. */
module MemoryStore {
  import opened Prelude
  import C = Consolidation

  type Id = nat

  /** `claim` is the text trimmed and lower-cased; `manual` is when the user confirmed the row. */
  datatype Row = Row(
    rowid: nat, kind: C.Kind, key: string, text: string, claim: string, confidence: real, status: C.Status,
    firstSeen: int, lastSeen: int, evidenceCount: nat, createdAt: int, updatedAt: int, manual: Option<int>)

  datatype Observation = Observation(confidence: real, at: int)

  /** Ledger keys are (memory, episode). */
  type Ledger = map<(Id, nat), Observation>

  /** What the search index holds for a row, under the row's rowid. */
  datatype Indexed = Indexed(text: string, key: string)

  datatype Store = Store(rows: map<Id, Row>, evidence: Ledger, fts: map<nat, Indexed>)

  const EMPTY := Store(map[], map[], map[])

  datatype Input = Input(kind: C.Kind, key: string, text: string, claim: string, confidence: real)

  // -------------------------------------------------------------- statements

  function Of(evidence: Ledger, id: Id): set<(Id, nat)> { set k | k in evidence && k.0 == id }

  function Max(a: int, b: int): int { if a >= b then a else b }

  function MaxReal(a: real, b: real): real { if a >= b then a else b }

  predicate IsTwin(row: Row, input: Input) {
    row.key == input.key && row.kind == input.kind && !row.status.Rejected? && row.claim == input.claim
  }

  predicate Older(rows: map<Id, Row>, a: Id, b: Id)
    requires a in rows && b in rows
  {
    rows[a].createdAt < rows[b].createdAt || (rows[a].createdAt == rows[b].createdAt && a <= b)
  }

  /** The oldest live row that states the same claim under the same key and kind. */
  ghost predicate FirstTwin(rows: map<Id, Row>, input: Input, twin: Option<Id>) {
    match twin
    case None => forall id | id in rows :: !IsTwin(rows[id], input)
    case Some(t) =>
      t in rows && IsTwin(rows[t], input) && forall id | id in rows && IsTwin(rows[id], input) :: Older(rows, t, id)
  }

  /** A repeated observation of an episode changes nothing in the ledger. */
  function AddEvidence(evidence: Ledger, id: Id, episode: nat, seen: Observation): Ledger {
    if (id, episode) in evidence then evidence else evidence[(id, episode) := seen]
  }

  function Absorb(s: Store, twin: Id, input: Input, episode: nat, seen: Observation, now: int): Store
    requires twin in s.rows
  {
    var evidence := AddEvidence(s.evidence, twin, episode, seen);
    var row := s.rows[twin];
    s.(evidence := evidence,
       rows := s.rows[twin := row.(
         evidenceCount := |Of(evidence, twin)|, lastSeen := Max(row.lastSeen, seen.at), updatedAt := now,
         confidence := MaxReal(row.confidence, MaxReal(input.confidence, seen.confidence)))])
  }

  function Inserted(s: Store, id: Id, rowid: nat, input: Input, episode: nat, seen: Observation, now: int): Store {
    Store(
      s.rows[id := Row(rowid, input.kind, input.key, input.text, input.claim,
                       MaxReal(input.confidence, seen.confidence), C.Candidate, seen.at, seen.at, 1, now, now, None)],
      AddEvidence(s.evidence, id, episode, seen),
      s.fts[rowid := Indexed(input.text, input.key)])
  }

  function Transitioned(s: Store, id: Id, status: C.Status, now: int): Store {
    if id in s.rows && s.rows[id].status != status && s.rows[id].manual.None?
    then s.(rows := s.rows[id := s.rows[id].(status := status, updatedAt := now)]) else s
  }

  function TransitionedAll(s: Store, moves: seq<(Id, C.Status)>, now: int): Store
    decreases |moves|
  {
    if moves == [] then s
    else
      var last := moves[|moves| - 1];
      Transitioned(TransitionedAll(s, moves[..|moves| - 1], now), last.0, last.1, now)
  }

  function Confirmed(s: Store, id: Id, now: int): Store {
    if id !in s.rows then s
    else s.(rows := s.rows[id := s.rows[id].(status := C.Active, manual := Some(now), updatedAt := now)])
  }

  function RejectedByUser(s: Store, id: Id, now: int): Store {
    if id !in s.rows then s
    else s.(rows := s.rows[id := s.rows[id].(status := C.Rejected, manual := None, updatedAt := now)])
  }

  function RowIds(rows: map<Id, Row>, ids: set<Id>): set<nat> { set id | id in ids && id in rows :: rows[id].rowid }

  /** Mirror, ledger and row of each id, in one transaction. */
  function HardDeleted(s: Store, ids: set<Id>): Store {
    Store(s.rows - ids, map k | k in s.evidence && k.0 !in ids :: s.evidence[k], s.fts - RowIds(s.rows, ids))
  }

  function StaleRejected(s: Store, cutoff: int): set<Id> {
    set id | id in s.rows && s.rows[id].status.Rejected? && s.rows[id].manual.None? && s.rows[id].updatedAt < cutoff
  }

  /** No check of `manual` here. */
  function StaleSuperseded(s: Store, cutoff: int): set<Id> {
    set id | id in s.rows && s.rows[id].status.Superseded? && s.rows[id].updatedAt < cutoff
  }

  function Unsupported(s: Store): set<Id> {
    set id | id in s.rows && s.rows[id].manual.None? && Of(s.evidence, id) == {}
  }

  // ------------------------------------------------ evidence of dead episodes

  function Pruned(evidence: Ledger, episodes: set<nat>): Ledger {
    map k | k in evidence && k.1 !in episodes :: evidence[k]
  }

  function Affected(evidence: Ledger, episodes: set<nat>): set<Id> {
    set k | k in evidence && k.1 in episodes :: k.0
  }

  /** Among the given rows, those no evidence and no user supports. */
  function Invalidated(s: Store, ids: set<Id>): set<Id> {
    set id | id in ids && id in s.rows && s.rows[id].manual.None? && Of(s.evidence, id) == {}
  }

  /** Rows and mirrors only: an invalidated row has no evidence left. */
  function DeletedInvalidated(s: Store, ids: set<Id>): Store {
    var gone := Invalidated(s, ids);
    Store(s.rows - gone, s.evidence, s.fts - RowIds(s.rows, gone))
  }

  function Recounted(s: Store, ids: set<Id>): Store {
    s.(rows := map id | id in s.rows ::
         if id in ids then s.rows[id].(evidenceCount := |Of(s.evidence, id)|) else s.rows[id])
  }

  /** Everything the deletion of `episodes` does to the memory tables, at once. */
  function WithoutEpisodes(s: Store, episodes: set<nat>): Store {
    var affected := Affected(s.evidence, episodes);
    Recounted(DeletedInvalidated(s.(evidence := Pruned(s.evidence, episodes)), affected), affected)
  }

  // ---------------------------------------------------------------- all runs

  datatype Op =
    | Upsert(input: Input, twin: Option<Id>, id: Id, rowid: nat, episode: nat, seen: Observation, now: int)
    | ApplyTransitions(moves: seq<(Id, C.Status)>, now: int)
    | Confirm(id: Id, now: int)
    | Reject(id: Id, now: int)
    | Forget(id: Id)
    | PurgeRejected(cutoff: int)
    | PurgeSuperseded(cutoff: int)
    | PurgeZeroEvidence
    | DeleteEpisodes(episodes: set<nat>)

  /** An insert gets an unused id and an unused rowid, an upsert the oldest twin. */
  ghost predicate Enabled(s: Store, op: Op) {
    op.Upsert? ==>
      FirstTwin(s.rows, op.input, op.twin)
      && (op.twin.None? ==> op.id !in s.rows && forall other | other in s.rows :: s.rows[other].rowid != op.rowid)
  }

  ghost function Next(s: Store, op: Op): Store
    requires Enabled(s, op)
  {
    match op
    case Upsert(input, twin, id, rowid, episode, seen, now) =>
      if twin.Some? then Absorb(s, twin.value, input, episode, seen, now)
      else Inserted(s, id, rowid, input, episode, seen, now)
    case ApplyTransitions(moves, now) => TransitionedAll(s, moves, now)
    case Confirm(id, now) => Confirmed(s, id, now)
    case Reject(id, now) => RejectedByUser(s, id, now)
    case Forget(id) => HardDeleted(s, {id})
    case PurgeRejected(cutoff) => HardDeleted(s, StaleRejected(s, cutoff))
    case PurgeSuperseded(cutoff) => HardDeleted(s, StaleSuperseded(s, cutoff))
    case PurgeZeroEvidence => HardDeleted(s, Unsupported(s))
    case DeleteEpisodes(episodes) => WithoutEpisodes(s, episodes)
  }

  /** Counts equal the ledger. */
  ghost predicate Counted(rows: map<Id, Row>, evidence: Ledger) {
    forall id | id in rows :: rows[id].evidenceCount == |Of(evidence, id)|
  }

  ghost predicate Owned(rows: map<Id, Row>, evidence: Ledger) { forall k | k in evidence :: k.0 in rows }

  ghost predicate DistinctRowids(rows: map<Id, Row>) {
    forall a, b | a in rows && b in rows && rows[a].rowid == rows[b].rowid :: a == b
  }

  ghost predicate HasRowid(rows: map<Id, Row>, rowid: nat) { exists id | id in rows :: rows[id].rowid == rowid }

  /** The index holds exactly the rows, each under its rowid with its own text and key. */
  ghost predicate Mirrored(rows: map<Id, Row>, fts: map<nat, Indexed>) {
    && (forall id | id in rows :: rows[id].rowid in fts && fts[rows[id].rowid] == Indexed(rows[id].text, rows[id].key))
    && (forall rowid | rowid in fts :: HasRowid(rows, rowid))
  }

  ghost predicate ManualActive(rows: map<Id, Row>) {
    forall id | id in rows && rows[id].manual.Some? :: rows[id].status.Active?
  }

  ghost predicate Sound(s: Store) {
    && Counted(s.rows, s.evidence) && Owned(s.rows, s.evidence)
    && DistinctRowids(s.rows) && Mirrored(s.rows, s.fts) && ManualActive(s.rows)
  }

  /** A rewrite of one row that leaves its identity, text and key alone keeps the mirror. */
  lemma RewriteKeepsMirror(rows: map<Id, Row>, fts: map<nat, Indexed>, id: Id, row: Row)
    requires DistinctRowids(rows) && Mirrored(rows, fts) && id in rows
    requires row.rowid == rows[id].rowid && row.text == rows[id].text && row.key == rows[id].key
    ensures DistinctRowids(rows[id := row]) && Mirrored(rows[id := row], fts)
  {
    var after := rows[id := row];
    forall rowid | rowid in fts ensures HasRowid(after, rowid) {
      var o :| o in rows && rows[o].rowid == rowid;
      assert after[o].rowid == rowid;
    }
  }

  /** A change of status and confirmation alone. */
  lemma RestatusIsSound(s: Store, id: Id, row: Row)
    requires Sound(s) && id in s.rows && (row.manual.Some? ==> row.status.Active?)
    requires row == s.rows[id].(status := row.status, manual := row.manual, updatedAt := row.updatedAt)
    ensures Sound(s.(rows := s.rows[id := row]))
  {
    RewriteKeepsMirror(s.rows, s.fts, id, row);
  }

  lemma AddedEvidence(evidence: Ledger, id: Id, episode: nat, seen: Observation)
    ensures forall other | other != id :: Of(AddEvidence(evidence, id, episode, seen), other) == Of(evidence, other)
    ensures forall k | k in AddEvidence(evidence, id, episode, seen) :: k in evidence || k.0 == id
  {
  }

  lemma AbsorbIsSound(s: Store, twin: Id, input: Input, episode: nat, seen: Observation, now: int)
    requires Sound(s) && twin in s.rows
    ensures Sound(Absorb(s, twin, input, episode, seen, now))
  {
    var after := Absorb(s, twin, input, episode, seen, now);
    AddedEvidence(s.evidence, twin, episode, seen);
    RewriteKeepsMirror(s.rows, s.fts, twin, after.rows[twin]);
  }

  lemma InsertKeepsMirror(rows: map<Id, Row>, fts: map<nat, Indexed>, id: Id, row: Row)
    requires DistinctRowids(rows) && Mirrored(rows, fts) && id !in rows
    requires forall other | other in rows :: rows[other].rowid != row.rowid
    ensures DistinctRowids(rows[id := row]) && Mirrored(rows[id := row], fts[row.rowid := Indexed(row.text, row.key)])
  {
    var after := rows[id := row];
    assert after[id].rowid == row.rowid;
    forall rowid | rowid in fts ensures HasRowid(after, rowid) {
      var o :| o in rows && rows[o].rowid == rowid;
      assert after[o].rowid == rowid;
    }
  }

  lemma InsertIsSound(s: Store, id: Id, rowid: nat, input: Input, episode: nat, seen: Observation, now: int)
    requires Sound(s) && id !in s.rows && forall other | other in s.rows :: s.rows[other].rowid != rowid
    ensures Sound(Inserted(s, id, rowid, input, episode, seen, now))
  {
    var after := Inserted(s, id, rowid, input, episode, seen, now);
    AddedEvidence(s.evidence, id, episode, seen);
    assert Of(after.evidence, id) == {(id, episode)};
    InsertKeepsMirror(s.rows, s.fts, id, after.rows[id]);
  }

  lemma TransitionIsSound(s: Store, id: Id, status: C.Status, now: int)
    requires Sound(s)
    ensures Sound(Transitioned(s, id, status, now))
  {
    if id in s.rows && s.rows[id].manual.None? {
      RestatusIsSound(s, id, s.rows[id].(status := status, updatedAt := now));
    }
  }

  lemma {:induction false} TransitionsAreSound(s: Store, moves: seq<(Id, C.Status)>, now: int)
    requires Sound(s)
    ensures Sound(TransitionedAll(s, moves, now))
    decreases |moves|
  {
    if moves != [] {
      var init, last := moves[..|moves| - 1], moves[|moves| - 1];
      TransitionsAreSound(s, init, now);
      TransitionIsSound(TransitionedAll(s, init, now), last.0, last.1, now);
    }
  }

  lemma ConfirmIsSound(s: Store, id: Id, now: int)
    requires Sound(s)
    ensures Sound(Confirmed(s, id, now))
  {
    if id in s.rows {
      RestatusIsSound(s, id, s.rows[id].(status := C.Active, manual := Some(now), updatedAt := now));
    }
  }

  lemma RejectIsSound(s: Store, id: Id, now: int)
    requires Sound(s)
    ensures Sound(RejectedByUser(s, id, now))
  {
    if id in s.rows {
      RestatusIsSound(s, id, s.rows[id].(status := C.Rejected, manual := None, updatedAt := now));
    }
  }

  /** Removing rows together with their index entries keeps the mirror. */
  lemma RemovalKeepsMirror(rows: map<Id, Row>, fts: map<nat, Indexed>, gone: set<Id>)
    requires DistinctRowids(rows) && Mirrored(rows, fts)
    ensures DistinctRowids(rows - gone) && Mirrored(rows - gone, fts - RowIds(rows, gone))
  {
    var kept, fts' := rows - gone, fts - RowIds(rows, gone);
    forall id | id in kept ensures kept[id].rowid in fts' {
      assert kept[id] == rows[id];
    }
    forall rowid | rowid in fts' ensures HasRowid(kept, rowid) {
      var id :| id in rows && rows[id].rowid == rowid;
      assert id !in gone;
      assert kept[id].rowid == rowid;
    }
  }

  lemma RemovalKeepsCounts(rows: map<Id, Row>, evidence: Ledger, gone: set<Id>)
    requires Counted(rows, evidence) && Owned(rows, evidence)
    ensures var left := map k | k in evidence && k.0 !in gone :: evidence[k];
            Counted(rows - gone, left) && Owned(rows - gone, left)
  {
    var left := map k | k in evidence && k.0 !in gone :: evidence[k];
    forall id | id in rows - gone ensures Of(left, id) == Of(evidence, id) {
    }
  }

  lemma HardDeleteIsSound(s: Store, ids: set<Id>)
    requires Sound(s)
    ensures Sound(HardDeleted(s, ids))
  {
    RemovalKeepsMirror(s.rows, s.fts, ids);
    RemovalKeepsCounts(s.rows, s.evidence, ids);
  }

  lemma RecountKeepsMirror(rows: map<Id, Row>, after: map<Id, Row>, fts: map<nat, Indexed>)
    requires DistinctRowids(rows) && Mirrored(rows, fts) && after.Keys == rows.Keys
    requires forall id | id in rows :: after[id].rowid == rows[id].rowid && after[id].text == rows[id].text
                                       && after[id].key == rows[id].key
    ensures DistinctRowids(after) && Mirrored(after, fts)
  {
    forall rowid | rowid in fts ensures HasRowid(after, rowid) {
      var id :| id in rows && rows[id].rowid == rowid;
      assert after[id].rowid == rowid;
    }
  }

  lemma UnaffectedKeepsLedger(evidence: Ledger, episodes: set<nat>, id: Id)
    requires id !in Affected(evidence, episodes)
    ensures Of(Pruned(evidence, episodes), id) == Of(evidence, id)
  {
  }

  lemma PruningKeepsCounts(rows: map<Id, Row>, evidence: Ledger, episodes: set<nat>, after: map<Id, Row>)
    requires Counted(rows, evidence) && after.Keys <= rows.Keys
    requires forall id | id in after ::
               (after[id].evidenceCount
                == if id in Affected(evidence, episodes) then |Of(Pruned(evidence, episodes), id)|
                   else rows[id].evidenceCount)
    ensures Counted(after, Pruned(evidence, episodes))
  {
    forall id | id in after ensures after[id].evidenceCount == |Of(Pruned(evidence, episodes), id)| {
      if id !in Affected(evidence, episodes) { UnaffectedKeepsLedger(evidence, episodes, id); }
    }
  }

  /** The rows an episode deletion kills. */
  function Killed(s: Store, episodes: set<nat>): set<Id> {
    Invalidated(s.(evidence := Pruned(s.evidence, episodes)), Affected(s.evidence, episodes))
  }

  lemma WithoutEpisodesRows(s: Store, episodes: set<nat>)
    ensures var after := WithoutEpisodes(s, episodes);
            && after.rows.Keys == s.rows.Keys - Killed(s, episodes)
            && after.evidence == Pruned(s.evidence, episodes)
            && after.fts == s.fts - RowIds(s.rows, Killed(s, episodes))
            && forall id | id in after.rows ::
                 after.rows[id] == s.rows[id].(evidenceCount :=
                   if id in Affected(s.evidence, episodes) then |Of(Pruned(s.evidence, episodes), id)|
                   else s.rows[id].evidenceCount)
  {
  }

  lemma KilledHadNothingLeft(s: Store, episodes: set<nat>, k: (Id, nat))
    requires k in Pruned(s.evidence, episodes)
    ensures k.0 !in Killed(s, episodes)
  {
    assert k in Of(Pruned(s.evidence, episodes), k.0);
  }

  /** How the memory tables stand before and after, as far as the invariant goes. */
  ghost predicate Shrunk(s: Store, episodes: set<nat>, killed: set<Id>, rows: map<Id, Row>) {
    && rows.Keys == s.rows.Keys - killed
    && forall id | id in rows ::
         rows[id] == s.rows[id].(evidenceCount :=
           if id in Affected(s.evidence, episodes) then |Of(Pruned(s.evidence, episodes), id)|
           else s.rows[id].evidenceCount)
  }

  lemma ShrunkKeepsMirror(s: Store, episodes: set<nat>, killed: set<Id>, rows: map<Id, Row>)
    requires DistinctRowids(s.rows) && Mirrored(s.rows, s.fts) && Shrunk(s, episodes, killed, rows)
    ensures DistinctRowids(rows) && Mirrored(rows, s.fts - RowIds(s.rows, killed))
  {
    RemovalKeepsMirror(s.rows, s.fts, killed);
    RecountKeepsMirror(s.rows - killed, rows, s.fts - RowIds(s.rows, killed));
  }

  lemma ShrunkKeepsCounts(s: Store, episodes: set<nat>, killed: set<Id>, rows: map<Id, Row>)
    requires Counted(s.rows, s.evidence) && ManualActive(s.rows) && Shrunk(s, episodes, killed, rows)
    ensures Counted(rows, Pruned(s.evidence, episodes)) && ManualActive(rows)
  {
    PruningKeepsCounts(s.rows, s.evidence, episodes, rows);
  }

  lemma WithoutEpisodesIsSound(s: Store, episodes: set<nat>)
    requires Sound(s)
    ensures Sound(WithoutEpisodes(s, episodes))
  {
    var rows := WithoutEpisodes(s, episodes).rows;
    WithoutEpisodesRows(s, episodes);
    ShrunkKeepsMirror(s, episodes, Killed(s, episodes), rows);
    ShrunkKeepsCounts(s, episodes, Killed(s, episodes), rows);
    forall k | k in Pruned(s.evidence, episodes) ensures k.0 in rows { KilledHadNothingLeft(s, episodes, k); }
  }

  lemma NextIsSound(s: Store, op: Op)
    requires Sound(s) && Enabled(s, op)
    ensures Sound(Next(s, op))
  {
    match op
    case Upsert(input, twin, id, rowid, episode, seen, now) =>
      if twin.Some? { AbsorbIsSound(s, twin.value, input, episode, seen, now); }
      else { InsertIsSound(s, id, rowid, input, episode, seen, now); }
    case ApplyTransitions(moves, now) => TransitionsAreSound(s, moves, now);
    case Confirm(id, now) => ConfirmIsSound(s, id, now);
    case Reject(id, now) => RejectIsSound(s, id, now);
    case Forget(id) => HardDeleteIsSound(s, {id});
    case PurgeRejected(cutoff) => HardDeleteIsSound(s, StaleRejected(s, cutoff));
    case PurgeSuperseded(cutoff) => HardDeleteIsSound(s, StaleSuperseded(s, cutoff));
    case PurgeZeroEvidence => HardDeleteIsSound(s, Unsupported(s));
    case DeleteEpisodes(episodes) => WithoutEpisodesIsSound(s, episodes);
  }

  ghost predicate AllEnabled(s: Store, ops: seq<Op>)
    decreases |ops|
  {
    ops == [] || (Enabled(s, ops[0]) && AllEnabled(Next(s, ops[0]), ops[1..]))
  }

  ghost function Run(s: Store, ops: seq<Op>): Store
    requires AllEnabled(s, ops)
    decreases |ops|
  {
    if ops == [] then s else Run(Next(s, ops[0]), ops[1..])
  }

  /**
   * Over every sequence of writers: counts equal the ledger, no evidence is
   * orphaned, the search index mirrors the rows by rowid, manual rows are active.
   */
  lemma {:induction false} StoreStaysSound(s: Store, ops: seq<Op>)
    requires Sound(s) && AllEnabled(s, ops)
    ensures Sound(Run(s, ops))
    decreases |ops|
  {
    if ops != [] {
      NextIsSound(s, ops[0]);
      StoreStaysSound(Next(s, ops[0]), ops[1..]);
    }
  }

  // -------------------------------------------------- manual confirmation wins

  /** The user's own ways of withdrawing a row. */
  predicate Dismisses(op: Op, id: Id) { (op.Reject? && op.id == id) || (op.Forget? && op.id == id) }

  ghost predicate Held(s: Store, id: Id) {
    id in s.rows && s.rows[id].manual.Some? && s.rows[id].status.Active?
  }

  lemma {:induction false} TransitionsSpareManual(s: Store, moves: seq<(Id, C.Status)>, now: int, id: Id)
    requires id in s.rows && s.rows[id].manual.Some?
    ensures var after := TransitionedAll(s, moves, now); id in after.rows && after.rows[id] == s.rows[id]
    decreases |moves|
  {
    if moves != [] { TransitionsSpareManual(s, moves[..|moves| - 1], now, id); }
  }

  lemma UpsertSparesManual(s: Store, op: Op, id: Id)
    requires Enabled(s, op) && op.Upsert? && Held(s, id)
    ensures Held(Next(s, op), id) && Next(s, op).rows[id].text == s.rows[id].text
  {
  }

  lemma SparedByDelete(s: Store, ids: set<Id>, id: Id)
    requires id in s.rows && id !in ids
    ensures id in HardDeleted(s, ids).rows && HardDeleted(s, ids).rows[id] == s.rows[id]
  {
  }

  predicate IsPurge(op: Op) { op.Forget? || op.PurgeRejected? || op.PurgeSuperseded? || op.PurgeZeroEvidence? }

  /** The rows a purge selects. */
  function Selected(s: Store, op: Op): set<Id>
    requires IsPurge(op)
  {
    match op
    case Forget(id) => {id}
    case PurgeRejected(cutoff) => StaleRejected(s, cutoff)
    case PurgeSuperseded(cutoff) => StaleSuperseded(s, cutoff)
    case PurgeZeroEvidence => Unsupported(s)
  }

  lemma PurgeSparesManual(s: Store, op: Op, id: Id)
    requires IsPurge(op) && Held(s, id) && !Dismisses(op, id)
    ensures Held(Next(s, op), id) && Next(s, op).rows[id].text == s.rows[id].text
  {
    assert id !in Selected(s, op);
    SparedByDelete(s, Selected(s, op), id);
  }

  lemma NextKeepsManual(s: Store, op: Op, id: Id)
    requires Sound(s) && Enabled(s, op) && Held(s, id) && !Dismisses(op, id)
    ensures Held(Next(s, op), id) && Next(s, op).rows[id].text == s.rows[id].text
  {
    if IsPurge(op) {
      PurgeSparesManual(s, op, id);
    } else if op.Upsert? {
      UpsertSparesManual(s, op, id);
    } else if op.ApplyTransitions? {
      TransitionsSpareManual(s, op.moves, op.now, id);
    } else if op.DeleteEpisodes? {
      WithoutEpisodesRows(s, op.episodes);
    }
  }

  /**
   * A row the user confirmed stays, active and with its text, through every
   * sequence of consolidations, purges and range deletes until the user rejects
   * or forgets it, though the purge of superseded rows never checks for it.
   */
  lemma {:induction false} ManualSurvives(s: Store, ops: seq<Op>, id: Id)
    requires Sound(s) && AllEnabled(s, ops) && Held(s, id)
    requires forall op | op in ops :: !Dismisses(op, id)
    ensures Held(Run(s, ops), id) && Run(s, ops).rows[id].text == s.rows[id].text
    decreases |ops|
  {
    if ops != [] {
      NextIsSound(s, ops[0]);
      NextKeepsManual(s, ops[0], id);
      assert forall op | op in ops[1..] :: op in ops;
      ManualSurvives(Next(s, ops[0]), ops[1..], id);
    }
  }

  // ------------------------------------------------------ distinct live claims

  predicate SameClaim(a: Row, b: Row) {
    a.key == b.key && a.kind == b.kind && a.claim == b.claim && !a.status.Rejected? && !b.status.Rejected?
  }

  /** Under one key, no two live rows of one kind state the same claim. */
  ghost predicate DistinctLive(rows: map<Id, Row>) {
    forall a, b | a in rows && b in rows && SameClaim(rows[a], rows[b]) :: a == b
  }

  /**
   * Confirming can bring a rejected row back beside a newer row of the same
   * claim: it keeps live claims distinct exactly when no other live row has it.
   */
  lemma ConfirmKeepsDistinctIff(s: Store, id: Id, now: int)
    requires DistinctLive(s.rows) && id in s.rows
    ensures DistinctLive(Confirmed(s, id, now).rows)
       <==> forall b | b in s.rows && b != id :: !SameClaim(s.rows[id].(status := C.Active), s.rows[b])
  {
    var after := Confirmed(s, id, now).rows;
    if b :| b in s.rows && b != id && SameClaim(s.rows[id].(status := C.Active), s.rows[b]) {
      assert SameClaim(after[id], after[b]);
    }
  }

  /** The automatic rules never move a row the user rejected. */
  predicate SparesRejected(s: Store, moves: seq<(Id, C.Status)>) {
    forall m | m in moves && m.0 in s.rows && s.rows[m.0].status.Rejected? :: m.1.Rejected?
  }

  /** Rows that are live after were live before, under the same key, kind and claim. */
  ghost predicate NoneRevived(before: map<Id, Row>, after: map<Id, Row>) {
    forall id | id in after && !after[id].status.Rejected? ::
      id in before && !before[id].status.Rejected?
      && after[id].key == before[id].key && after[id].kind == before[id].kind && after[id].claim == before[id].claim
  }

  lemma NoneRevivedKeepsDistinct(before: map<Id, Row>, after: map<Id, Row>)
    requires DistinctLive(before) && NoneRevived(before, after)
    ensures DistinctLive(after)
  {
  }

  lemma {:induction false} TransitionsReviveNone(s: Store, moves: seq<(Id, C.Status)>, now: int)
    requires SparesRejected(s, moves)
    ensures NoneRevived(s.rows, TransitionedAll(s, moves, now).rows)
    ensures TransitionedAll(s, moves, now).rows.Keys == s.rows.Keys
    ensures forall id | id in s.rows ::
              var row := TransitionedAll(s, moves, now).rows[id];
              row == s.rows[id].(status := row.status, updatedAt := row.updatedAt)
    decreases |moves|
  {
    if moves != [] {
      assert moves[|moves| - 1] in moves;
      assert forall m | m in moves[..|moves| - 1] :: m in moves;
      TransitionsReviveNone(s, moves[..|moves| - 1], now);
    }
  }

  lemma InsertKeepsDistinct(rows: map<Id, Row>, input: Input, id: Id, after: map<Id, Row>)
    requires DistinctLive(rows) && FirstTwin(rows, input, None) && id !in rows && id in after
    requires after == rows[id := after[id]]
    requires after[id].key == input.key && after[id].kind == input.kind && after[id].claim == input.claim
    ensures DistinctLive(after)
  {
    forall b | b in rows ensures !SameClaim(after[id], rows[b]) && !SameClaim(rows[b], after[id]) {
      assert !IsTwin(rows[b], input);
    }
  }

  /** Only `confirm` and an insert make rows live that were not. */
  lemma WriteRevivesNone(s: Store, op: Op)
    requires Enabled(s, op) && !op.Confirm? && !(op.Upsert? && op.twin.None?)
    requires op.ApplyTransitions? ==> SparesRejected(s, op.moves)
    ensures NoneRevived(s.rows, Next(s, op).rows)
  {
    match op
    case ApplyTransitions(moves, now) => TransitionsReviveNone(s, moves, now);
    case DeleteEpisodes(episodes) => WithoutEpisodesRows(s, episodes);
    case _ =>
  }

  /** Every writer but `confirm` keeps live claims distinct. */
  lemma NextKeepsDistinct(s: Store, op: Op)
    requires DistinctLive(s.rows) && Enabled(s, op) && !op.Confirm?
    requires op.ApplyTransitions? ==> SparesRejected(s, op.moves)
    ensures DistinctLive(Next(s, op).rows)
  {
    if op.Upsert? && op.twin.None? {
      InsertKeepsDistinct(s.rows, op.input, op.id, Next(s, op).rows);
    } else {
      WriteRevivesNone(s, op);
      NoneRevivedKeepsDistinct(s.rows, Next(s, op).rows);
    }
  }

  // -------------------------------------------- deleting episodes in portions

  lemma PruneTwice(evidence: Ledger, a: set<nat>, b: set<nat>)
    ensures Pruned(Pruned(evidence, a), b) == Pruned(evidence, a + b)
    ensures Affected(evidence, a) + Affected(Pruned(evidence, a), b) == Affected(evidence, a + b)
  {
    forall id | id in Affected(evidence, a + b)
      ensures id in Affected(evidence, a) + Affected(Pruned(evidence, a), b)
    {
      var k :| k in evidence && k.1 in a + b && k.0 == id;
      assert k.1 !in a ==> k in Pruned(evidence, a);
    }
  }

  lemma UnsupportedIsAffected(evidence: Ledger, a: set<nat>, id: Id)
    requires Of(Pruned(evidence, a), id) == {} && Of(evidence, id) != {}
    ensures id in Affected(evidence, a)
  {
    var k :| k in Of(evidence, id);
    assert k !in Of(Pruned(evidence, a), id);
  }

  lemma AffectedHasEvidence(evidence: Ledger, episodes: set<nat>, id: Id)
    requires id in Affected(evidence, episodes)
    ensures Of(evidence, id) != {}
  {
    var k :| k in evidence && k.1 in episodes && k.0 == id;
    assert k in Of(evidence, id);
  }

  lemma KillTwice(s: Store, a: set<nat>, b: set<nat>, id: Id)
    ensures id in Killed(s, a) || id in Killed(WithoutEpisodes(s, a), b) <==> id in Killed(s, a + b)
  {
    WithoutEpisodesRows(s, a);
    PruneTwice(s.evidence, a, b);
    var rest := Pruned(s.evidence, a);
    if id in Killed(s, a) {
      assert Of(Pruned(rest, b), id) <= Of(rest, id);
    } else if id in Killed(s, a + b) {
      if Of(rest, id) == {} {
        AffectedHasEvidence(s.evidence, a + b, id);
        UnsupportedIsAffected(s.evidence, a, id);
      } else {
        UnsupportedIsAffected(rest, b, id);
      }
    }
  }

  lemma KilledTwice(s: Store, a: set<nat>, b: set<nat>)
    ensures Killed(s, a) + Killed(WithoutEpisodes(s, a), b) == Killed(s, a + b)
  {
    forall id ensures id in Killed(s, a) + Killed(WithoutEpisodes(s, a), b) <==> id in Killed(s, a + b) {
      KillTwice(s, a, b, id);
    }
  }

  /** `after` is `s` without the killed rows and their index entries. */
  ghost predicate Lost(s: Store, after: Store, killed: set<Id>) {
    && after.fts == s.fts - RowIds(s.rows, killed) && after.rows.Keys == s.rows.Keys - killed
    && forall id | id in after.rows :: after.rows[id].rowid == s.rows[id].rowid
  }

  lemma EpisodesLost(s: Store, episodes: set<nat>)
    ensures Lost(s, WithoutEpisodes(s, episodes), Killed(s, episodes))
  {
    WithoutEpisodesRows(s, episodes);
  }

  lemma RowIdsTwice(rows: map<Id, Row>, first: map<Id, Row>, killed: set<Id>, later: set<Id>)
    requires first.Keys == rows.Keys - killed && forall id | id in first :: first[id].rowid == rows[id].rowid
    ensures RowIds(rows, killed) + RowIds(first, later) == RowIds(rows, killed + later)
  {
  }

  lemma LostTwice(s: Store, first: Store, twice: Store, once: Store, killed: set<Id>, later: set<Id>)
    requires Lost(s, first, killed) && Lost(first, twice, later) && Lost(s, once, killed + later)
    ensures twice.fts == once.fts && twice.rows.Keys == once.rows.Keys
  {
    RowIdsTwice(s.rows, first.rows, killed, later);
  }

  lemma PortionsFts(s: Store, a: set<nat>, b: set<nat>, first: Store, twice: Store, once: Store)
    requires first == WithoutEpisodes(s, a) && twice == WithoutEpisodes(first, b) && once == WithoutEpisodes(s, a + b)
    ensures twice.fts == once.fts && twice.rows.Keys == once.rows.Keys
  {
    EpisodesLost(s, a);
    EpisodesLost(first, b);
    EpisodesLost(s, a + b);
    KilledTwice(s, a, b);
    LostTwice(s, first, twice, once, Killed(s, a), Killed(first, b));
  }

  lemma RowTwice(s: Store, a: set<nat>, b: set<nat>, id: Id)
    requires id in WithoutEpisodes(WithoutEpisodes(s, a), b).rows && id in WithoutEpisodes(s, a + b).rows
    ensures WithoutEpisodes(WithoutEpisodes(s, a), b).rows[id] == WithoutEpisodes(s, a + b).rows[id]
  {
    var first := WithoutEpisodes(s, a);
    WithoutEpisodesRows(s, a);
    WithoutEpisodesRows(first, b);
    WithoutEpisodesRows(s, a + b);
    PruneTwice(s.evidence, a, b);
    if id !in Affected(first.evidence, b) { UnaffectedKeepsLedger(first.evidence, b, id); }
  }

  lemma PortionsRows(s: Store, a: set<nat>, b: set<nat>, twice: map<Id, Row>, once: map<Id, Row>)
    requires twice == WithoutEpisodes(WithoutEpisodes(s, a), b).rows && once == WithoutEpisodes(s, a + b).rows
    requires twice.Keys == once.Keys
    ensures twice == once
  {
    forall id | id in once ensures twice[id] == once[id] {
      assert id in once.Keys && id in twice.Keys;
      RowTwice(s, a, b, id);
    }
  }

  /** One portion after the other does what both at once do: rows, counts, ledger and mirror. */
  lemma PortionsCompose(s: Store, a: set<nat>, b: set<nat>)
    ensures WithoutEpisodes(WithoutEpisodes(s, a), b) == WithoutEpisodes(s, a + b)
  {
    PortionsFts(s, a, b, WithoutEpisodes(s, a), WithoutEpisodes(WithoutEpisodes(s, a), b), WithoutEpisodes(s, a + b));
    PortionsRows(s, a, b, WithoutEpisodes(WithoutEpisodes(s, a), b).rows, WithoutEpisodes(s, a + b).rows);
    PruneTwice(s.evidence, a, b);
  }

  // ------------------------------------------------------------ the repository

  predicate Live(row: Row, input: Input) {
    row.key == input.key && row.kind == input.kind && !row.status.Rejected?
  }

  lemma DeleteOneMore(s: Store, gone: set<Id>, id: Id)
    ensures HardDeleted(HardDeleted(s, gone), {id}) == HardDeleted(s, gone + {id})
  {
    RowIdsTwice(s.rows, s.rows - gone, gone, {id});
    var twice, once := HardDeleted(HardDeleted(s, gone), {id}), HardDeleted(s, gone + {id});
    assert twice.rows == once.rows && twice.evidence == once.evidence && twice.fts == once.fts;
  }

  lemma DeleteNone(s: Store)
    ensures HardDeleted(s, {}) == s
  {
    assert RowIds(s.rows, {}) == {};
  }

  class MemoriesRepository {
    var rows: map<Id, Row>
    var evidence: Ledger
    var fts: map<nat, Indexed>

    function State(): Store
      reads this
    {
      Store(rows, evidence, fts)
    }

    constructor ()
      ensures State() == EMPTY
    {
      rows, evidence, fts := map[], map[], map[];
    }

    method FindTwin(input: Input) returns (twin: Option<Id>)
      ensures FirstTwin(rows, input, twin)
    {
      twin := None;
      var todo := rows.Keys;
      while todo != {}
        invariant todo <= rows.Keys
        invariant twin.Some? ==> twin.value in rows && IsTwin(rows[twin.value], input)
        invariant forall id | id in rows && id !in todo && IsTwin(rows[id], input) ::
                    twin.Some? && Older(rows, twin.value, id)
        decreases |todo|
      {
        var id :| id in todo;
        todo := todo - {id};
        if IsTwin(rows[id], input) && (twin.None? || !Older(rows, twin.value, id)) { twin := Some(id); }
      }
    }

    method UpsertCandidate(input: Input, id: Id, rowid: nat, episode: nat, seen: Observation, now: int)
        returns (memory: Id, competing: bool, evidenceAdded: bool)
      requires id !in rows && forall other | other in rows :: rows[other].rowid != rowid  // fresh from the database
      requires Owned(rows, evidence)
      modifies this
      ensures (exists twin | twin in old(rows) :: IsTwin(old(rows)[twin], input)) ==>
                && FirstTwin(old(rows), input, Some(memory)) && !competing
                && State() == Next(old(State()), Upsert(input, Some(memory), id, rowid, episode, seen, now))
                && (evidenceAdded <==> (memory, episode) !in old(evidence))
      ensures (forall twin | twin in old(rows) :: !IsTwin(old(rows)[twin], input)) ==>
                && memory == id && evidenceAdded
                && State() == Next(old(State()), Upsert(input, None, id, rowid, episode, seen, now))
                && (competing <==> exists other | other in old(rows) :: Live(old(rows)[other], input))
    {
      var twin := FindTwin(input);
      if twin.Some? {
        memory, competing, evidenceAdded := twin.value, false, (twin.value, episode) !in evidence;
        if evidenceAdded { evidence := evidence[(memory, episode) := seen]; }
        var row := rows[memory];
        rows := rows[memory := row.(
          evidenceCount := |Of(evidence, memory)|, lastSeen := Max(row.lastSeen, seen.at), updatedAt := now,
          confidence := MaxReal(row.confidence, MaxReal(input.confidence, seen.confidence)))];
        return;
      }
      memory, evidenceAdded := id, true;
      competing := exists other | other in rows :: Live(rows[other], input);
      rows := rows[id := Row(rowid, input.kind, input.key, input.text, input.claim,
                             MaxReal(input.confidence, seen.confidence), C.Candidate, seen.at, seen.at, 1, now, now,
                             None)];
      fts := fts[rowid := Indexed(input.text, input.key)];
      evidence := evidence[(id, episode) := seen];
    }

    method ApplyStatusTransitions(moves: seq<(Id, C.Status)>, now: int) returns (applied: nat)
      modifies this
      ensures State() == Next(old(State()), ApplyTransitions(moves, now))
      ensures applied == 0 ==> State() == old(State())
    {
      applied := 0;
      for i := 0 to |moves|
        invariant State() == TransitionedAll(old(State()), moves[..i], now)
        invariant applied == 0 ==> State() == old(State())
      {
        assert moves[..i + 1][..i] == moves[..i];
        var (id, status) := moves[i];
        if id in rows && rows[id].status != status && rows[id].manual.None? {
          rows := rows[id := rows[id].(status := status, updatedAt := now)];
          applied := applied + 1;
        }
      }
      assert moves[..|moves|] == moves;
    }

    method ConfirmMemory(id: Id, now: int) returns (found: bool)
      modifies this
      ensures State() == Next(old(State()), Confirm(id, now)) && found == (id in old(rows))
    {
      found := id in rows;
      if found { rows := rows[id := rows[id].(status := C.Active, manual := Some(now), updatedAt := now)]; }
    }

    method RejectMemory(id: Id, now: int) returns (found: bool)
      modifies this
      ensures State() == Next(old(State()), Reject(id, now)) && found == (id in old(rows))
    {
      found := id in rows;
      if found { rows := rows[id := rows[id].(status := C.Rejected, manual := None, updatedAt := now)]; }
    }

    /** Index entry first, while the row still tells its rowid; then evidence, then the row. */
    method ForgetMemory(id: Id) returns (found: bool)
      modifies this
      ensures State() == Next(old(State()), Forget(id)) && found == (id in old(rows))
    {
      found := id in rows;
      assert RowIds(rows, {id}) == if id in rows then {rows[id].rowid} else {};
      if found { fts := fts - {rows[id].rowid}; }
      evidence := map k | k in evidence && k.0 != id :: evidence[k];
      rows := rows - {id};
    }

    method HardDeleteIds(ids: set<Id>) returns (deleted: nat)
      requires ids <= rows.Keys
      modifies this
      ensures State() == HardDeleted(old(State()), ids) && deleted == |ids|
    {
      deleted := 0;
      var todo := ids;
      DeleteNone(State());
      while todo != {}
        invariant todo <= ids && deleted == |ids| - |todo|
        invariant State() == HardDeleted(old(State()), ids - todo)
        decreases |todo|
      {
        var id :| id in todo;
        DeleteOneMore(old(State()), ids - todo, id);
        assert ids - (todo - {id}) == ids - todo + {id};
        var found := ForgetMemory(id);
        deleted := deleted + if found then 1 else 0;
        todo := todo - {id};
      }
      assert ids - todo == ids;
    }

    method PurgeRejectedOlderThan(cutoff: int) returns (deleted: nat)
      modifies this
      ensures State() == Next(old(State()), PurgeRejected(cutoff)) && deleted == |StaleRejected(old(State()), cutoff)|
    {
      deleted := HardDeleteIds(StaleRejected(State(), cutoff));
    }

    method PurgeSupersededOlderThan(cutoff: int) returns (deleted: nat)
      modifies this
      ensures State() == Next(old(State()), PurgeSuperseded(cutoff))
      ensures deleted == |StaleSuperseded(old(State()), cutoff)|
    {
      deleted := HardDeleteIds(StaleSuperseded(State(), cutoff));
    }

    method PurgeUnsupported() returns (deleted: nat)
      modifies this
      ensures State() == Next(old(State()), PurgeZeroEvidence) && deleted == |Unsupported(old(State()))|
    {
      deleted := HardDeleteIds(Unsupported(State()));
    }
  }
}
