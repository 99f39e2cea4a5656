/** The memory tables under their writers and the consolidation pass together, key by key. */
module MemoryLife {
  import opened Prelude
  import C = Consolidation
  import M = MemoryStore

  // ------------------------------------------------- what a pass is run over

  function RowOf(id: M.Id, row: M.Row): C.Row { C.Row(id, row.kind, row.claim, row.status, row.manual.Some?) }

  predicate Under(rows: map<M.Id, M.Row>, key: string, id: M.Id) { id in rows && rows[id].key == key }

  /** The rows of the key, each once, oldest first. */
  ghost predicate Lists(rows: map<M.Id, M.Row>, key: string, listing: seq<C.Row>) {
    && (forall r | r in listing :: Under(rows, key, r.id) && r == RowOf(r.id, rows[r.id]))
    && (forall id | Under(rows, key, id) :: RowOf(id, rows[id]) in listing)
    && (forall i, j | 0 <= i < j < |listing| ::
          listing[i].id != listing[j].id && M.Older(rows, listing[i].id, listing[j].id))
  }

  /** A row's observations are its ledger, with the confidence and the time the row carries. */
  ghost predicate Ledgered(s: M.Store, id: M.Id, seen: C.Observed) {
    && id in s.rows && seen.confidence == s.rows[id].confidence && seen.lastSeen == s.rows[id].lastSeen
    && (forall o | o in seen.evidence ::
          (id, o.episode) in s.evidence && s.evidence[(id, o.episode)].at == o.at)
    && (forall k | k in s.evidence && k.0 == id :: C.Observation(k.1, s.evidence[k].at) in seen.evidence)
  }

  ghost predicate IsGroup(s: M.Store, key: string, g: C.Group) {
    Lists(s.rows, key, g.rows) && forall r | r in g.rows :: r.id in g.observed && Ledgered(s, r.id, g.observed[r.id])
  }

  /** The verdicts as a list. */
  ghost predicate Verdicts(moved: C.Transitions, moves: seq<(M.Id, C.Status)>) {
    && (forall m | m in moves :: m.0 in moved && moved[m.0] == m.1)
    && (forall id | id in moved :: (id, moved[id]) in moves)
  }

  // ---------------------------------------------------------------- all runs

  datatype Step =
    | Write(op: M.Op)
    | Consolidate(key: string, group: C.Group, moves: seq<(M.Id, C.Status)>, now: int)

  /** Status transitions come from a pass over the key's rows as they are. */
  ghost predicate Enabled(s: M.Store, step: Step) {
    match step
    case Write(op) => M.Enabled(s, op) && !op.ApplyTransitions?
    case Consolidate(key, g, moves, _) => IsGroup(s, key, g) && Verdicts(C.Consolidated(g), moves)
  }

  ghost function Next(s: M.Store, step: Step): M.Store
    requires Enabled(s, step)
  {
    match step
    case Write(op) => M.Next(s, op)
    case Consolidate(_, _, moves, now) => M.TransitionedAll(s, moves, now)
  }

  // -------------------------------------------------------------- invariant

  ghost predicate OneActive(rows: map<M.Id, M.Row>) {
    forall a, b | a in rows && b in rows && rows[a].key == rows[b].key
                  && rows[a].status.Active? && rows[b].status.Active? :: a == b
  }

  /** Two live rows of one key that state one claim, whatever their kinds. */
  predicate SameClaim(a: M.Row, b: M.Row) {
    a.key == b.key && a.claim == b.claim && !a.status.Rejected? && !b.status.Rejected?
  }

  ghost predicate OneRowPerClaim(rows: map<M.Id, M.Row>) {
    forall a, b | a in rows && b in rows && SameClaim(rows[a], rows[b]) :: a == b
  }

  ghost predicate Orderly(rows: map<M.Id, M.Row>) { OneActive(rows) && OneRowPerClaim(rows) }

  /** No live row of the key states the claim, of whatever kind. */
  ghost predicate Unclaimed(rows: map<M.Id, M.Row>, key: string, claim: string) {
    forall b | Under(rows, key, b) && !rows[b].status.Rejected? :: rows[b].claim != claim
  }

  /** No other row of the key is active, and no other live row of it states the claim. */
  ghost predicate Alone(rows: map<M.Id, M.Row>, id: M.Id)
    requires id in rows
  {
    && (forall b | Under(rows, rows[id].key, b) && b != id :: !rows[b].status.Active?)
    && Unclaimed(rows - {id}, rows[id].key, rows[id].claim)
  }

  /**
   * A new row is not for a claim that a live row of the key states as another
   * kind, and the user confirms no row beside an active one or beside its own claim.
   */
  ghost predicate Careful(s: M.Store, step: Step) {
    step.Write? ==>
      && (step.op.Upsert? && step.op.twin.None? ==> Unclaimed(s.rows, step.op.input.key, step.op.input.claim))
      && (step.op.Confirm? && step.op.id in s.rows ==> Alone(s.rows, step.op.id))
  }

  ghost predicate AllEnabled(s: M.Store, steps: seq<Step>)
    decreases |steps|
  {
    steps == [] || (Enabled(s, steps[0]) && AllEnabled(Next(s, steps[0]), steps[1..]))
  }

  ghost predicate AllCareful(s: M.Store, steps: seq<Step>)
    requires AllEnabled(s, steps)
    decreases |steps|
  {
    steps == [] || (Careful(s, steps[0]) && AllCareful(Next(s, steps[0]), steps[1..]))
  }

  ghost function Run(s: M.Store, steps: seq<Step>): M.Store
    requires AllEnabled(s, steps)
    decreases |steps|
  {
    if steps == [] then s else Run(Next(s, steps[0]), steps[1..])
  }

  // ---------------------------------------------------------- consolidation

  /** Applied in any order, the verdicts give each automatic row its one verdict. */
  lemma {:induction false} VerdictsApply(s: M.Store, moved: C.Transitions, moves: seq<(M.Id, C.Status)>, now: int,
                                         id: M.Id)
    requires id in s.rows && forall m | m in moves :: m.0 in moved && moved[m.0] == m.1
    ensures var after := M.TransitionedAll(s, moves, now);
            && after.rows.Keys == s.rows.Keys
            && after.rows[id] == s.rows[id].(status := after.rows[id].status, updatedAt := after.rows[id].updatedAt)
            && after.rows[id].status
               == if (exists m :: m in moves && m.0 == id) && s.rows[id].manual.None? then moved[id]
                  else s.rows[id].status
    decreases |moves|
  {
    if moves != [] {
      var init, last := moves[..|moves| - 1], moves[|moves| - 1];
      assert moves == init + [last] && last in moves;
      VerdictsApply(s, moved, init, now, id);
      if last.0 == id { assert moved[id] == last.1; }
    }
  }

  lemma {:induction false} KeysStay(s: M.Store, moves: seq<(M.Id, C.Status)>, now: int)
    ensures M.TransitionedAll(s, moves, now).rows.Keys == s.rows.Keys
    decreases |moves|
  {
    if moves != [] { KeysStay(s, moves[..|moves| - 1], now); }
  }

  /** What a row's status is once its key's verdicts are in. */
  function Judged(moved: C.Transitions, id: M.Id, row: M.Row): C.Status {
    if id in moved && row.manual.None? then moved[id] else row.status
  }

  lemma ConsolidatedRow(s: M.Store, moved: C.Transitions, moves: seq<(M.Id, C.Status)>, now: int, id: M.Id)
    requires id in s.rows && Verdicts(moved, moves)
    ensures var after := M.TransitionedAll(s, moves, now);
            && after.rows.Keys == s.rows.Keys
            && after.rows[id] == s.rows[id].(status := Judged(moved, id, s.rows[id]),
                                             updatedAt := after.rows[id].updatedAt)
  {
    VerdictsApply(s, moved, moves, now, id);
    if id in moved { assert (id, moved[id]) in moves; }
  }

  lemma ListingIsOrderly(rows: map<M.Id, M.Row>, key: string, listing: seq<C.Row>)
    requires Lists(rows, key, listing) && Orderly(rows)
    ensures C.DistinctIds(listing) && C.SingleActive(listing) && C.DistinctClaims(listing)
  {
    forall r, t | r in listing && t in listing && !r.status.Rejected? && !t.status.Rejected? && r.claim == t.claim
      ensures r == t
    {
      assert SameClaim(rows[r.id], rows[t.id]);
    }
  }

  /** Only the listed rows are judged. */
  lemma {:induction false} PromotionsStayListed(g: C.Group, n: nat, id: M.Id)
    requires n <= |g.rows| && id in C.Promotions(g, n)
    ensures exists r :: r in g.rows && r.id == id
  {
    if n > 0 && id !in C.Promotions(g, n - 1) {
      var row := g.rows[n - 1];
      if id == row.id { assert row in g.rows; }
    } else if n > 0 {
      PromotionsStayListed(g, n - 1, id);
    }
  }

  lemma {:induction false} SupersessionsStayListed(g: C.Group, moved: C.Transitions, k: nat, id: M.Id)
    requires k <= |g.rows| && id in C.Supersessions(g, moved, k) && id !in moved
    ensures exists r :: r in g.rows && r.id == id
    decreases |g.rows| - k
  {
    if k < |g.rows| {
      var row := g.rows[k];
      var winner := if C.IsActive(moved, row) && !row.manual then C.Winner(g, moved, row, |g.rows|) else None;
      if winner.Some? {
        C.WinnerIsFreshest(g, moved, row, |g.rows|, winner);
        assert g.rows[..|g.rows|] == g.rows && row in g.rows;
      } else {
        SupersessionsStayListed(g, moved, k + 1, id);
      }
    }
  }

  lemma OnlyListedMove(s: M.Store, key: string, g: C.Group, id: M.Id)
    requires IsGroup(s, key, g) && id in C.Consolidated(g)
    ensures Under(s.rows, key, id)
  {
    if id in C.Promotions(g, |g.rows|) { PromotionsStayListed(g, |g.rows|, id); }
    else { SupersessionsStayListed(g, C.Promotions(g, |g.rows|), 0, id); }
  }

  /** A row's status in the group after the pass. */
  lemma JudgedInGroup(s: M.Store, key: string, g: C.Group, id: M.Id)
    requires IsGroup(s, key, g) && Under(s.rows, key, id)
    ensures RowOf(id, s.rows[id]).(status := Judged(C.Consolidated(g), id, s.rows[id])) in C.After(g).rows
  {
    var row := RowOf(id, s.rows[id]);
    var i :| 0 <= i < |g.rows| && g.rows[i] == row;
    assert C.After(g).rows[i] == row.(status := Judged(C.Consolidated(g), id, s.rows[id]));
  }

  lemma ConsolidationKeepsOneActive(s: M.Store, key: string, g: C.Group, moves: seq<(M.Id, C.Status)>, now: int)
    requires Orderly(s.rows) && IsGroup(s, key, g) && Verdicts(C.Consolidated(g), moves)
    ensures OneActive(M.TransitionedAll(s, moves, now).rows)
  {
    var moved, after := C.Consolidated(g), M.TransitionedAll(s, moves, now).rows;
    KeysStay(s, moves, now);
    ListingIsOrderly(s.rows, key, g.rows);
    C.DistinctMeansNoTwins(g.rows);
    C.NoTwinsKeepsSingleActive(g);
    forall a, b | a in after && b in after && after[a].key == after[b].key
                  && after[a].status.Active? && after[b].status.Active?
      ensures a == b
    {
      ConsolidatedRow(s, moved, moves, now, a);
      ConsolidatedRow(s, moved, moves, now, b);
      if Under(s.rows, key, a) {
        JudgedInGroup(s, key, g, a);
        JudgedInGroup(s, key, g, b);
      } else {
        if a in moved { OnlyListedMove(s, key, g, a); }
        if b in moved { OnlyListedMove(s, key, g, b); }
      }
    }
  }

  lemma NoneRevivedKeeps(before: map<M.Id, M.Row>, after: map<M.Id, M.Row>)
    requires OneRowPerClaim(before) && M.NoneRevived(before, after)
    ensures OneRowPerClaim(after)
  {
  }

  lemma ConsolidationIsOrderly(s: M.Store, key: string, g: C.Group, moves: seq<(M.Id, C.Status)>, now: int)
    requires Orderly(s.rows) && IsGroup(s, key, g) && Verdicts(C.Consolidated(g), moves)
    ensures Orderly(M.TransitionedAll(s, moves, now).rows)
  {
    ConsolidationKeepsOneActive(s, key, g, moves, now);
    ListingIsOrderly(s.rows, key, g.rows);
    C.PassIsLawful(g);
    forall m | m in moves ensures m.0 in s.rows && !s.rows[m.0].status.Rejected? {
      OnlyListedMove(s, key, g, m.0);
      assert RowOf(m.0, s.rows[m.0]) in g.rows;
    }
    M.WriteRevivesNone(s, M.ApplyTransitions(moves, now));
    NoneRevivedKeeps(s.rows, M.TransitionedAll(s, moves, now).rows);
  }

  // ------------------------------------------------------------- the writers

  /** Rows that are active after were active before, under the same key. */
  ghost predicate NoneActivated(before: map<M.Id, M.Row>, after: map<M.Id, M.Row>) {
    forall id | id in after && after[id].status.Active? ::
      id in before && after[id].key == before[id].key && before[id].status.Active?
  }

  lemma NoneActivatedKeeps(before: map<M.Id, M.Row>, after: map<M.Id, M.Row>)
    requires OneActive(before) && NoneActivated(before, after)
    ensures OneActive(after)
  {
  }

  lemma WriteActivatesNone(s: M.Store, op: M.Op)
    requires M.Enabled(s, op) && !op.Confirm? && !op.ApplyTransitions?
    ensures NoneActivated(s.rows, M.Next(s, op).rows)
  {
    match op
    case DeleteEpisodes(episodes) => M.WithoutEpisodesRows(s, episodes);
    case _ =>
  }

  /** A confirmation keeps the order exactly when the row stands alone. */
  lemma ConfirmIsOrderlyIff(s: M.Store, id: M.Id, now: int)
    requires Orderly(s.rows) && id in s.rows
    ensures Orderly(M.Confirmed(s, id, now).rows) <==> Alone(s.rows, id)
  {
    var after := M.Confirmed(s, id, now).rows;
    if b: M.Id :| Under(s.rows, s.rows[id].key, b) && b != id && s.rows[b].status.Active? {
      assert after[b].status.Active? && after[id].status.Active? && after[b].key == after[id].key;
    }
    if b: M.Id :| Under(s.rows - {id}, s.rows[id].key, b) && !s.rows[b].status.Rejected?
                  && s.rows[b].claim == s.rows[id].claim {
      assert SameClaim(after[id], after[b]);
    }
  }

  /** A new row keeps the order exactly when no live row of the key, of whatever kind, states its claim. */
  lemma InsertIsOrderlyIff(s: M.Store, op: M.Op)
    requires Orderly(s.rows) && M.Enabled(s, op) && op.Upsert? && op.twin.None?
    ensures Orderly(M.Next(s, op).rows) <==> Unclaimed(s.rows, op.input.key, op.input.claim)
  {
    var after := M.Next(s, op).rows;
    if b: M.Id :| Under(s.rows, op.input.key, b) && !s.rows[b].status.Rejected? && s.rows[b].claim == op.input.claim {
      assert SameClaim(after[op.id], after[b]);
    }
  }

  lemma WriteIsOrderly(s: M.Store, op: M.Op)
    requires Orderly(s.rows) && Enabled(s, Write(op)) && Careful(s, Write(op))
    ensures Orderly(M.Next(s, op).rows)
  {
    if op.Confirm? {
      if op.id in s.rows { ConfirmIsOrderlyIff(s, op.id, op.now); }
    } else if op.Upsert? && op.twin.None? {
      InsertIsOrderlyIff(s, op);
    } else {
      M.WriteRevivesNone(s, op);
      NoneRevivedKeeps(s.rows, M.Next(s, op).rows);
      WriteActivatesNone(s, op);
      NoneActivatedKeeps(s.rows, M.Next(s, op).rows);
    }
  }

  /**
   * Over every run in which no claim of a key is stored under two kinds and the
   * user confirms no row beside an active one or beside its own claim:
   * consolidated again and again between all the other writers, each key has at
   * most one active row, and one live row for each claim.
   */
  lemma {:induction false} OneActivePerKey(s: M.Store, steps: seq<Step>)
    requires Orderly(s.rows) && AllEnabled(s, steps) && AllCareful(s, steps)
    ensures Orderly(Run(s, steps).rows)
    decreases |steps|
  {
    if steps != [] {
      match steps[0] {
        case Write(op) => WriteIsOrderly(s, op);
        case Consolidate(key, g, moves, now) => ConsolidationIsOrderly(s, key, g, moves, now);
      }
      OneActivePerKey(Next(s, steps[0]), steps[1..]);
    }
  }

  /** Beside a row of the key another may not be active, nor an automatic candidate of its claim. */
  predicate Apart(rows: map<M.Id, M.Row>, id: M.Id, b: M.Id)
    requires id in rows && b in rows
  {
    && !rows[b].status.Active?
    && !(rows[b].status.Candidate? && rows[b].manual.None? && rows[b].claim == rows[id].claim)
  }

  lemma ListedApart(s: M.Store, id: M.Id, now: int, listing: seq<C.Row>)
    requires id in s.rows && Lists(M.Confirmed(s, id, now).rows, s.rows[id].key, listing)
    ensures C.SingleActive(listing) && C.NoTwins(listing)
       <==> forall b | Under(s.rows, s.rows[id].key, b) && b != id :: Apart(s.rows, id, b)
  {
    var after, key := M.Confirmed(s, id, now).rows, s.rows[id].key;
    var confirmed := RowOf(id, after[id]);
    assert Under(after, key, id) && confirmed in listing && confirmed.manual && confirmed.status.Active?;
    forall r | r in listing && r != confirmed
      ensures Under(s.rows, key, r.id) && r.id != id && after[r.id] == s.rows[r.id]
    {
    }
    if b: M.Id :| Under(s.rows, key, b) && b != id && !Apart(s.rows, id, b) {
      assert after[b] == s.rows[b] && RowOf(b, after[b]) in listing;
    }
  }

  /**
   * A confirmation is safe, the next pass leaving one active row whatever was
   * observed, exactly when no other row of the key is active and no automatic
   * candidate of it states the same claim.
   */
  lemma ConfirmIsSafeIff(s: M.Store, id: M.Id, now: int, listing: seq<C.Row>)
    requires id in s.rows && Lists(M.Confirmed(s, id, now).rows, s.rows[id].key, listing)
    ensures (forall observed: map<C.Id, C.Observed> :: C.SingleActive(C.After(C.Group(listing, observed)).rows))
       <==> forall b | Under(s.rows, s.rows[id].key, b) && b != id :: Apart(s.rows, id, b)
  {
    ListedApart(s, id, now, listing);
    C.SingleActiveIffNoTwins(listing);
  }

  /** Beside a new row of its claim: not active, and a waiting candidate only under a confirmed row. */
  ghost predicate Tolerates(rows: map<M.Id, M.Row>, b: M.Id)
    requires b in rows
  {
    && !rows[b].status.Active?
    && (C.AutoCandidate(RowOf(b, rows[b])) ==>
          exists a :: Under(rows, rows[b].key, a) && rows[a].status.Active? && rows[a].manual.Some?)
  }

  lemma InsertedListing(s: M.Store, op: M.Op, listing: seq<C.Row>, r: C.Row)
    requires M.Enabled(s, op) && op.Upsert? && op.twin.None?
    requires Lists(M.Next(s, op).rows, op.input.key, listing) && r in listing
    ensures if r.id == op.id then C.AutoCandidate(r) && r.claim == op.input.claim
            else Under(s.rows, op.input.key, r.id) && r == RowOf(r.id, s.rows[r.id])
  {
  }

  lemma NoManualActive(s: M.Store, op: M.Op, listing: seq<C.Row>)
    requires M.Enabled(s, op) && op.Upsert? && op.twin.None?
    requires Lists(M.Next(s, op).rows, op.input.key, listing)
    requires !exists m :: m in listing && m.status.Active? && m.manual
    ensures forall a | Under(s.rows, op.input.key, a) :: !(s.rows[a].status.Active? && s.rows[a].manual.Some?)
  {
    var after := M.Next(s, op).rows;
    forall a | Under(s.rows, op.input.key, a) ensures !(s.rows[a].status.Active? && s.rows[a].manual.Some?) {
      assert Under(after, op.input.key, a) && RowOf(a, after[a]) in listing;
    }
  }

  lemma ToleratedIsSafe(s: M.Store, op: M.Op, listing: seq<C.Row>)
    requires Orderly(s.rows) && M.Enabled(s, op) && op.Upsert? && op.twin.None?
    requires Lists(M.Next(s, op).rows, op.input.key, listing)
    requires forall b | Under(s.rows, op.input.key, b) && s.rows[b].claim == op.input.claim :: Tolerates(s.rows, b)
    ensures C.SingleActive(listing) && C.NoTwins(listing)
  {
    forall r, t | r in listing && t in listing && r.status.Active? && t.status.Active? ensures r == t {
      InsertedListing(s, op, listing, r);
      InsertedListing(s, op, listing, t);
    }
    forall r, c | r in listing && c in listing && r.status.Active? && C.AutoCandidate(c) ensures r.claim != c.claim {
      InsertedListing(s, op, listing, r);
      InsertedListing(s, op, listing, c);
      if c.id != op.id { assert SameClaim(s.rows[r.id], s.rows[c.id]) ==> r.id == c.id; }
    }
    forall r, c | r in listing && c in listing && C.AutoCandidate(r) && C.AutoCandidate(c) && r.claim == c.claim
                  && !(exists m :: m in listing && m.status.Active? && m.manual)
      ensures r == c
    {
      InsertedListing(s, op, listing, r);
      InsertedListing(s, op, listing, c);
      NoManualActive(s, op, listing);
      if r.id != op.id && c.id != op.id { assert SameClaim(s.rows[r.id], s.rows[c.id]); }
    }
  }

  lemma SafeIsTolerated(s: M.Store, op: M.Op, listing: seq<C.Row>, b: M.Id)
    requires M.Enabled(s, op) && op.Upsert? && op.twin.None?
    requires Lists(M.Next(s, op).rows, op.input.key, listing) && C.NoTwins(listing)
    requires Under(s.rows, op.input.key, b) && s.rows[b].claim == op.input.claim
    ensures Tolerates(s.rows, b)
  {
    var after := M.Next(s, op).rows;
    var stored, added := RowOf(b, after[b]), RowOf(op.id, after[op.id]);
    assert Under(after, op.input.key, b) && Under(after, op.input.key, op.id) && stored in listing && added in listing;
    if C.AutoCandidate(stored) {
      var m :| m in listing && m.status.Active? && m.manual;
      InsertedListing(s, op, listing, m);
    }
  }

  /**
   * A new row is safe, the next pass leaving one active row whatever was
   * observed, exactly when every row of the key with its claim tolerates it.
   */
  lemma InsertIsSafeIff(s: M.Store, op: M.Op, listing: seq<C.Row>)
    requires Orderly(s.rows) && M.Enabled(s, op) && op.Upsert? && op.twin.None?
    requires Lists(M.Next(s, op).rows, op.input.key, listing)
    ensures (forall observed: map<C.Id, C.Observed> :: C.SingleActive(C.After(C.Group(listing, observed)).rows))
       <==> forall b | Under(s.rows, op.input.key, b) && s.rows[b].claim == op.input.claim :: Tolerates(s.rows, b)
  {
    C.SingleActiveIffNoTwins(listing);
    if forall b | Under(s.rows, op.input.key, b) && s.rows[b].claim == op.input.claim :: Tolerates(s.rows, b) {
      ToleratedIsSafe(s, op, listing);
    } else {
      var b: M.Id :| Under(s.rows, op.input.key, b) && s.rows[b].claim == op.input.claim && !Tolerates(s.rows, b);
      if C.NoTwins(listing) { SafeIsTolerated(s, op, listing, b); }
    }
  }

  /** One more enabled step at the front of a run. */
  lemma StepsFrom(steps: seq<Step>, s: M.Store, k: nat, after: M.Store)
    requires k < |steps| && Enabled(s, steps[k]) && Next(s, steps[k]) == after && AllEnabled(after, steps[k + 1..])
    ensures AllEnabled(s, steps[k..]) && Run(s, steps[k..]) == Run(after, steps[k + 1..])
  {
    assert steps[k..][1..] == steps[k + 1..];
  }

  lemma LastStep(steps: seq<Step>, s: M.Store, k: nat, after: M.Store)
    requires k + 1 == |steps| && Enabled(s, steps[k]) && Next(s, steps[k]) == after
    ensures AllEnabled(s, steps[k..]) && Run(s, steps[k..]) == after
  {
    assert steps[k..][1..] == [];
  }

  lemma ThreeSteps(steps: seq<Step>, k: nat, a: M.Store, b: M.Store, c: M.Store, d: M.Store)
    requires k + 3 <= |steps| && AllEnabled(d, steps[k + 3..])
    requires Enabled(a, steps[k]) && Next(a, steps[k]) == b
    requires Enabled(b, steps[k + 1]) && Next(b, steps[k + 1]) == c
    requires Enabled(c, steps[k + 2]) && Next(c, steps[k + 2]) == d
    ensures AllEnabled(a, steps[k..]) && Run(a, steps[k..]) == Run(d, steps[k + 3..])
  {
    StepsFrom(steps, c, k + 2, d);
    StepsFrom(steps, b, k + 1, c);
    StepsFrom(steps, a, k, b);
  }
}
