/** The verdicts of a consolidation pass, told from the observations alone with every threshold written out. */
module Verdicts {
  import opened Prelude
  import opened Consolidation

  // --------------------------------------------------------------- thresholds

  predicate TwoEpisodes(evidence: seq<Observation>) {
    exists a, b :: a in evidence && b in evidence && a.episode != b.episode
  }

  predicate ThreeEpisodes(evidence: seq<Observation>) {
    exists a, b, c :: a in evidence && b in evidence && c in evidence
      && a.episode != b.episode && b.episode != c.episode && a.episode != c.episode
  }

  /** Observations on two days of 86 400 000 ms, counted from the epoch. */
  predicate TwoDays(evidence: seq<Observation>) {
    exists a, b :: a in evidence && b in evidence && a.at / 86_400_000 != b.at / 86_400_000
  }

  /** A fact needs two episodes, anything else three on two days, and all of them confidence 0.8. */
  predicate Earns(kind: Kind, seen: Observed) {
    && seen.confidence >= 0.8
    && if kind.Fact? then TwoEpisodes(seen.evidence)
       else ThreeEpisodes(seen.evidence) && TwoDays(seen.evidence)
  }

  predicate NewerThanAll(at: int, seen: Observed) {
    if seen.evidence == [] then at > seen.lastSeen else forall e | e in seen.evidence :: at > e.at
  }

  /** Two episodes newer than everything observed for the other. */
  predicate Outweighs(seen: Observed, other: Observed) {
    exists a, b :: a in seen.evidence && b in seen.evidence && a.episode != b.episode
      && NewerThanAll(a.at, other) && NewerThanAll(b.at, other)
  }

  lemma TwoEpisodesIff(evidence: seq<Observation>)
    ensures TwoEpisodes(evidence) <==> |Episodes(evidence)| >= 2
  {
    if a, b :| a in evidence && b in evidence && a.episode != b.episode {
      TwoMembers(Episodes(evidence), a.episode, b.episode);
    }
    if |Episodes(evidence)| >= 2 {
      var x := SomeMember(Episodes(evidence), {});
      var y := SomeMember(Episodes(evidence), {x});
      var a :| a in evidence && a.episode == x;
      var b :| b in evidence && b.episode == y;
    }
  }

  lemma ThreeEpisodesCount(evidence: seq<Observation>, a: Observation, b: Observation, c: Observation)
    requires a in evidence && b in evidence && c in evidence
    requires a.episode != b.episode && b.episode != c.episode && a.episode != c.episode
    ensures |Episodes(evidence)| >= 3
  {
    ThreeMembers(Episodes(evidence), a.episode, b.episode, c.episode);
  }

  lemma CountedThree(evidence: seq<Observation>)
    requires |Episodes(evidence)| >= 3
    ensures ThreeEpisodes(evidence)
  {
    var x := SomeMember(Episodes(evidence), {});
    var y := SomeMember(Episodes(evidence), {x});
    var z := SomeMember(Episodes(evidence), {x, y});
    var a :| a in evidence && a.episode == x;
    var b :| b in evidence && b.episode == y;
    var c :| c in evidence && c.episode == z;
  }

  lemma ThreeEpisodesIff(evidence: seq<Observation>)
    ensures ThreeEpisodes(evidence) <==> |Episodes(evidence)| >= 3
  {
    if ThreeEpisodes(evidence) {
      var a, b, c :| a in evidence && b in evidence && c in evidence
                     && a.episode != b.episode && b.episode != c.episode && a.episode != c.episode;
      ThreeEpisodesCount(evidence, a, b, c);
    } else if |Episodes(evidence)| >= 3 {
      CountedThree(evidence);
    }
  }

  lemma TwoDaysIff(evidence: seq<Observation>)
    ensures TwoDays(evidence) <==> |UtcDays(evidence)| >= 2
  {
    if a, b :| a in evidence && b in evidence && a.at / 86_400_000 != b.at / 86_400_000 {
      TwoMembers(UtcDays(evidence), a.at / 86_400_000, b.at / 86_400_000);
    }
    if |UtcDays(evidence)| >= 2 {
      var x := SomeMember(UtcDays(evidence), {});
      var y := SomeMember(UtcDays(evidence), {x});
      var a :| a in evidence && a.at / 86_400_000 == x;
      var b :| b in evidence && b.at / 86_400_000 == y;
    }
  }

  /** The promotion matrix, as counted, is the one above. */
  lemma QualifiesIffEarns(kind: Kind, seen: Observed)
    ensures Qualifies(kind, seen) <==> Earns(kind, seen)
  {
    TwoEpisodesIff(seen.evidence);
    ThreeEpisodesIff(seen.evidence);
    TwoDaysIff(seen.evidence);
  }

  lemma NewerThanNewest(at: int, seen: Observed)
    ensures at > NewestAt(seen) <==> NewerThanAll(at, seen)
  {
    if seen.evidence != [] { LatestBounds(seen.evidence); }
  }

  lemma ContradictsIffOutweighs(g: Group, row: Row, other: Row)
    ensures Contradicts(g, row, Newest(g, other)) <==> Outweighs(Seen(g, row.id), Seen(g, other.id))
  {
    var evidence, at := Seen(g, row.id).evidence, Newest(g, other);
    var newer := NewerEpisodes(evidence, at);
    forall e: Observation ensures e.at > at <==> NewerThanAll(e.at, Seen(g, other.id)) {
      NewerThanNewest(e.at, Seen(g, other.id));
    }
    if a, b :| a in evidence && b in evidence && a.episode != b.episode && a.at > at && b.at > at {
      TwoMembers(newer, a.episode, b.episode);
    }
    if |newer| >= 2 {
      var x := SomeMember(newer, {});
      var y := SomeMember(newer, {x});
      var a :| a in evidence && a.at > at && a.episode == x;
      var b :| b in evidence && b.at > at && b.episode == y;
    }
  }

  // -------------------------------------------------------------------- pass 1

  /** Another claim that is active as things stand. */
  predicate IsRival(moved: Transitions, row: Row, r: Row) { IsActive(moved, r) && r.claim != row.claim }

  /** A candidate that has earned it, against no manual rival and none it does not outweigh. */
  ghost predicate Rises(g: Group, moved: Transitions, row: Row) {
    && AutoCandidate(row) && Earns(row.kind, Seen(g, row.id))
    && forall r | r in g.rows && IsRival(moved, row, r) :: !r.manual && Outweighs(Seen(g, row.id), Seen(g, r.id))
  }

  /** The row is active and its rivals are superseded; nothing else is decided anew. */
  ghost predicate Risen(g: Group, moved: Transitions, row: Row, after: Transitions) {
    && row.id in after && after[row.id].Active?
    && forall r | r in g.rows && r.id != row.id ::
         if IsRival(moved, row, r) then r.id in after && after[r.id].Superseded?
         else (r.id in after <==> r.id in moved) && (r.id in moved ==> after[r.id] == moved[r.id])
  }

  lemma RivalsAreIncumbents(g: Group, moved: Transitions, row: Row, r: Row)
    requires DistinctIds(g.rows) && row in g.rows && r in g.rows
    ensures r in Incumbents(g, moved, row) <==> IsRival(moved, row, r)
  {
    if r.id == row.id { SameRow(g.rows, r, row); }
  }

  lemma DemotingRivals(g: Group, moved: Transitions, row: Row)
    requires DistinctIds(g.rows) && row in g.rows
    ensures Risen(g, moved, row, Demoted(moved, Incumbents(g, moved, row))[row.id := Active])
  {
    var incumbents := Incumbents(g, moved, row);
    forall r | r in g.rows && r.id != row.id
      ensures r.id in Ids(incumbents) <==> IsRival(moved, row, r)
    {
      RivalsAreIncumbents(g, moved, row, r);
      if d :| d in incumbents && d.id == r.id { SameRow(g.rows, d, r); }
    }
  }

  lemma NobodyDemoted(moved: Transitions)
    ensures Demoted(moved, {}) == moved
  {
    assert Ids({}) == {};
  }

  /** The same, as pass 1 tests it. */
  predicate PassesTests(g: Group, moved: Transitions, row: Row) {
    && AutoCandidate(row) && Qualifies(row.kind, Seen(g, row.id))
    && forall r | r in Incumbents(g, moved, row) :: !r.manual && Contradicts(g, row, Newest(g, r))
  }

  lemma RisesIffPassesTests(g: Group, moved: Transitions, row: Row)
    requires DistinctIds(g.rows) && row in g.rows
    ensures Rises(g, moved, row) <==> PassesTests(g, moved, row)
  {
    QualifiesIffEarns(row.kind, Seen(g, row.id));
    forall r | r in g.rows
      ensures r in Incumbents(g, moved, row) <==> IsRival(moved, row, r)
      ensures Contradicts(g, row, Newest(g, r)) <==> Outweighs(Seen(g, row.id), Seen(g, r.id))
    {
      RivalsAreIncumbents(g, moved, row, r);
      ContradictsIffOutweighs(g, row, r);
    }
  }

  lemma PromotedByTests(g: Group, moved: Transitions, row: Row)
    ensures Promoted(g, moved, row) == if PassesTests(g, moved, row)
                                       then Demoted(moved, Incumbents(g, moved, row))[row.id := Active] else moved
  {
    NobodyDemoted(moved);
  }

  /** The verdict on one row of pass 1, whatever was decided before it. */
  lemma PromotedIffRises(g: Group, moved: Transitions, row: Row, after: Transitions)
    requires DistinctIds(g.rows) && row in g.rows && after == Promoted(g, moved, row)
    ensures Rises(g, moved, row) ==> Risen(g, moved, row, after)
    ensures !Rises(g, moved, row) ==> after == moved
  {
    RisesIffPassesTests(g, moved, row);
    PromotedByTests(g, moved, row);
    DemotingRivals(g, moved, row);
  }

  // -------------------------------------------------------------------- pass 2

  /** A row of another claim, left waiting or superseded by pass 1, that outweighs the active one. */
  predicate Disputes(g: Group, moved: Transitions, row: Row, active: Row) {
    && (Effective(moved, row).Candidate? || Effective(moved, row).Superseded?) && !row.manual
    && row.claim != active.claim && Outweighs(Seen(g, row.id), Seen(g, active.id))
  }

  ghost predicate IsDisputed(g: Group, moved: Transitions, active: Row) {
    IsActive(moved, active) && !active.manual && exists r :: r in g.rows && Disputes(g, moved, r, active)
  }

  predicate AtLeastAsFresh(seen: Observed, other: Observed) {
    exists e :: e in seen.evidence && forall o | o in other.evidence :: o.at <= e.at
  }

  predicate Fresher(seen: Observed, other: Observed) {
    exists e :: e in seen.evidence && forall o | o in other.evidence :: o.at < e.at
  }

  /** The freshest of the rows that dispute `active`, and of equally fresh ones the first. */
  ghost predicate IsFreshest(g: Group, moved: Transitions, w: Row, active: Row) {
    && w in g.rows && Disputes(g, moved, w, active)
    && (forall r | r in g.rows && Disputes(g, moved, r, active) :: AtLeastAsFresh(Seen(g, w.id), Seen(g, r.id)))
    && exists i :: 0 <= i < |g.rows| && g.rows[i] == w
         && forall j | 0 <= j < i && Disputes(g, moved, g.rows[j], active) ::
              Fresher(Seen(g, w.id), Seen(g, g.rows[j].id))
  }

  lemma FreshnessIsNewest(seen: Observed, other: Observed)
    requires seen.evidence != [] && other.evidence != []
    ensures NewestAt(other) <= NewestAt(seen) ==> AtLeastAsFresh(seen, other)
    ensures NewestAt(other) < NewestAt(seen) ==> Fresher(seen, other)
  {
    LatestBounds(seen.evidence);
    LatestBounds(other.evidence);
    var e :| e in seen.evidence && e.at == Latest(seen.evidence);
  }

  /** Every row with equally fresh evidence comes after the winner. */
  lemma {:induction false} WinnerComesFirst(g: Group, moved: Transitions, active: Row, n: nat, w: Row)
      returns (i: nat)
    requires n <= |g.rows| && Winner(g, moved, active, n) == Some(w)
    ensures i < n && g.rows[i] == w
    ensures forall j | 0 <= j < i && Challenges(g, moved, g.rows[j], active) :: Newest(g, g.rows[j]) < Newest(g, w)
  {
    i := n - 1;
    if Winner(g, moved, active, n - 1) == Some(w) {
      i := WinnerComesFirst(g, moved, active, n - 1, w);
    } else {
      WinnerIsFreshest(g, moved, active, n - 1, Winner(g, moved, active, n - 1));
      forall j | 0 <= j < i && Challenges(g, moved, g.rows[j], active) ensures Newest(g, g.rows[j]) < Newest(g, w) {
        assert g.rows[..n - 1][j] == g.rows[j];
      }
    }
  }

  lemma ChallengesIffDisputes(g: Group, moved: Transitions, r: Row, active: Row)
    ensures Challenges(g, moved, r, active) <==> Disputes(g, moved, r, active)
    ensures Disputes(g, moved, r, active) ==> Seen(g, r.id).evidence != []
  {
    ContradictsIffOutweighs(g, r, active);
  }

  lemma WinnerIsTheFreshest(g: Group, moved: Transitions, active: Row, w: Row)
    requires Winner(g, moved, active, |g.rows|) == Some(w)
    ensures IsFreshest(g, moved, w, active)
  {
    WinnerIsFreshest(g, moved, active, |g.rows|, Some(w));
    assert g.rows[..|g.rows|] == g.rows;
    ChallengesIffDisputes(g, moved, w, active);
    forall r | r in g.rows && Disputes(g, moved, r, active) ensures AtLeastAsFresh(Seen(g, w.id), Seen(g, r.id)) {
      ChallengesIffDisputes(g, moved, r, active);
      FreshnessIsNewest(Seen(g, w.id), Seen(g, r.id));
    }
    var i := WinnerComesFirst(g, moved, active, |g.rows|, w);
    forall j | 0 <= j < i && Disputes(g, moved, g.rows[j], active)
      ensures Fresher(Seen(g, w.id), Seen(g, g.rows[j].id))
    {
      ChallengesIffDisputes(g, moved, g.rows[j], active);
      FreshnessIsNewest(Seen(g, w.id), Seen(g, g.rows[j].id));
    }
  }

  lemma WinnerDisputes(g: Group, moved: Transitions, active: Row, w: Option<Row>)
    requires w == Winner(g, moved, active, |g.rows|)
    ensures w.Some? <==> exists r :: r in g.rows && Disputes(g, moved, r, active)
    ensures w.Some? ==> IsFreshest(g, moved, w.value, active)
  {
    WinnerIsFreshest(g, moved, active, |g.rows|, w);
    assert g.rows[..|g.rows|] == g.rows;
    forall r | r in g.rows ensures Challenges(g, moved, r, active) <==> Disputes(g, moved, r, active) {
      ChallengesIffDisputes(g, moved, r, active);
    }
    if w.Some? { WinnerIsTheFreshest(g, moved, active, w.value); }
  }

  lemma OneRowOfPassTwo(g: Group, moved: Transitions, k: nat, w: Option<Row>)
    requires k < |g.rows| && w == Winner(g, moved, g.rows[k], |g.rows|)
    ensures IsDisputed(g, moved, g.rows[k]) ==>
              && w.Some? && IsFreshest(g, moved, w.value, g.rows[k])
              && Supersessions(g, moved, k) == moved[g.rows[k].id := Superseded][w.value.id := Active]
    ensures !IsDisputed(g, moved, g.rows[k]) ==> Supersessions(g, moved, k) == Supersessions(g, moved, k + 1)
  {
    WinnerDisputes(g, moved, g.rows[k], w);
  }

  lemma {:induction false} NoneYields(g: Group, moved: Transitions, k: nat)
    requires k <= |g.rows| && forall i | k <= i < |g.rows| :: !IsDisputed(g, moved, g.rows[i])
    ensures Supersessions(g, moved, k) == moved
    decreases |g.rows| - k
  {
    if k < |g.rows| {
      OneRowOfPassTwo(g, moved, k, Winner(g, moved, g.rows[k], |g.rows|));
      NoneYields(g, moved, k + 1);
    }
  }

  /** From row `k` on, the first disputed active row, at `i`, gives way to the freshest of those that dispute it. */
  lemma {:induction false} FirstDisputedYields(g: Group, moved: Transitions, k: nat, i: nat) returns (w: Row)
    requires k <= i < |g.rows| && IsDisputed(g, moved, g.rows[i])
    requires forall j | k <= j < i :: !IsDisputed(g, moved, g.rows[j])
    ensures IsFreshest(g, moved, w, g.rows[i])
    ensures Supersessions(g, moved, k) == moved[g.rows[i].id := Superseded][w.id := Active]
    decreases |g.rows| - k
  {
    var winner := Winner(g, moved, g.rows[k], |g.rows|);
    OneRowOfPassTwo(g, moved, k, winner);
    if k == i {
      w := winner.value;
    } else {
      w := FirstDisputedYields(g, moved, k + 1, i);
    }
  }

  // ---------------------------------------------------------------- whole passes

  /** Pass 1 makes active only automatic candidates that have earned it. */
  ghost predicate AllEarned(g: Group, moved: Transitions) {
    forall r | r in g.rows && r.id in moved && moved[r.id].Active? ::
      AutoCandidate(r) && Earns(r.kind, Seen(g, r.id))
  }

  /** Some row of another claim outweighs it. */
  ghost predicate IsOutweighed(g: Group, r: Row) {
    exists s :: s in g.rows && s.claim != r.claim && Outweighs(Seen(g, s.id), Seen(g, r.id))
  }

  ghost predicate OnlyOutweighedFall(g: Group, moved: Transitions) {
    forall r | r in g.rows && r.id in moved && moved[r.id].Superseded? :: IsOutweighed(g, r)
  }

  lemma RisenEarned(g: Group, moved: Transitions, row: Row, after: Transitions)
    requires DistinctIds(g.rows) && row in g.rows && Rises(g, moved, row) && Risen(g, moved, row, after)
    requires AllEarned(g, moved)
    ensures AllEarned(g, after)
  {
    forall r | r in g.rows && r.id in after && after[r.id].Active?
      ensures AutoCandidate(r) && Earns(r.kind, Seen(g, r.id))
    {
      if r.id == row.id { SameRow(g.rows, r, row); }
    }
  }

  lemma RisenOutweighed(g: Group, moved: Transitions, row: Row, after: Transitions)
    requires DistinctIds(g.rows) && row in g.rows && Rises(g, moved, row) && Risen(g, moved, row, after)
    requires OnlyOutweighedFall(g, moved)
    ensures OnlyOutweighedFall(g, after)
  {
    forall r | r in g.rows && r.id in after && after[r.id].Superseded? ensures IsOutweighed(g, r) {
      if r.id == row.id { SameRow(g.rows, r, row); }
    }
  }

  lemma {:induction false} PassOneIsFair(g: Group, n: nat)
    requires DistinctIds(g.rows) && n <= |g.rows|
    ensures AllEarned(g, Promotions(g, n)) && OnlyOutweighedFall(g, Promotions(g, n))
  {
    if n > 0 {
      var moved, row, after := Promotions(g, n - 1), g.rows[n - 1], Promotions(g, n);
      PassOneIsFair(g, n - 1);
      PromotedIffRises(g, moved, row, after);
      if Rises(g, moved, row) {
        RisenEarned(g, moved, row, after);
        RisenOutweighed(g, moved, row, after);
      }
    }
  }

  /** Pass 2 does nothing, or swaps one disputed row for the freshest that disputes it. */
  lemma PassTwoSwapsOnce(g: Group, moved: Transitions) returns (swap: Option<(Row, Row)>)
    ensures swap.None? ==>
              Supersessions(g, moved, 0) == moved && forall r | r in g.rows :: !IsDisputed(g, moved, r)
    ensures swap.Some? ==>
              var (a, w) := swap.value;
              && a in g.rows && IsDisputed(g, moved, a) && IsFreshest(g, moved, w, a)
              && Supersessions(g, moved, 0) == moved[a.id := Superseded][w.id := Active]
  {
    var i := 0;
    while i < |g.rows| && !IsDisputed(g, moved, g.rows[i])
      invariant i <= |g.rows| && forall j | 0 <= j < i :: !IsDisputed(g, moved, g.rows[j])
    {
      i := i + 1;
    }
    if i == |g.rows| {
      swap := None;
      NoneYields(g, moved, 0);
    } else {
      var w := FirstDisputedYields(g, moved, 0, i);
      swap := Some((g.rows[i], w));
    }
  }

  /** It has earned its place, or outweighs a row of another claim that the pass superseded. */
  ghost predicate DeservesActive(g: Group, moved: Transitions, r: Row) {
    || (AutoCandidate(r) && Earns(r.kind, Seen(g, r.id)))
    || exists s :: s in g.rows && s.claim != r.claim && s.id in moved && moved[s.id].Superseded?
                   && Outweighs(Seen(g, r.id), Seen(g, s.id))
  }

  lemma SwapIsFair(g: Group, moved: Transitions, a: Row, w: Row, r: Row)
    requires DistinctIds(g.rows) && AllEarned(g, moved) && OnlyOutweighedFall(g, moved)
    requires a in g.rows && w in g.rows && Disputes(g, moved, w, a) && r in g.rows
    ensures var after := moved[a.id := Superseded][w.id := Active];
            r.id in after ==>
              && (after[r.id].Active? ==> DeservesActive(g, after, r))
              && (after[r.id].Superseded? ==> IsOutweighed(g, r))
  {
    if w.id == a.id { SameRow(g.rows, w, a); }
    if r.id == w.id { SameRow(g.rows, r, w); }
    if r.id == a.id { SameRow(g.rows, r, a); }
  }

  /**
   * Of every group, twins or not. A row the pass makes active has confidence 0.8
   * and two episodes for a fact, three on two days for anything else; or it has
   * two episodes newer than all that was seen for a row of another claim that it
   * displaces. And no row gives way but to one of another claim with such evidence.
   */
  lemma VerdictsAreFair(g: Group, r: Row)
    requires DistinctIds(g.rows) && r in g.rows && r.id in Consolidated(g)
    ensures Consolidated(g)[r.id].Active? ==> DeservesActive(g, Consolidated(g), r)
    ensures Consolidated(g)[r.id].Superseded? ==> IsOutweighed(g, r)
  {
    var moved := Promotions(g, |g.rows|);
    PassOneIsFair(g, |g.rows|);
    var swap := PassTwoSwapsOnce(g, moved);
    if swap.Some? {
      var (a, w) := swap.value;
      SwapIsFair(g, moved, a, w, r);
    }
  }

  /** No row of another claim is active, nor a candidate that could become so. */
  ghost predicate Unrivalled(g: Group, c: Row) {
    forall r | r in g.rows && r.claim != c.claim ::
      !r.status.Active? && !(AutoCandidate(r) && Earns(r.kind, Seen(g, r.id)))
  }

  /** Nobody of another claim than that of `c` has moved. */
  ghost predicate OthersStay(g: Group, c: Row, moved: Transitions) {
    forall r | r in g.rows && r.claim != c.claim :: r.id !in moved
  }

  lemma RisenKeepsOthers(g: Group, moved: Transitions, row: Row, after: Transitions, c: Row)
    requires DistinctIds(g.rows) && row in g.rows && c in g.rows && Unrivalled(g, c) && OthersStay(g, c, moved)
    requires Rises(g, moved, row) && Risen(g, moved, row, after)
    ensures OthersStay(g, c, after)
    ensures c.id in moved && moved[c.id].Active? ==> c.id in after && after[c.id].Active?
  {
    assert row.claim == c.claim;
    forall r | r in g.rows && r.claim != c.claim ensures r.id !in after {
      DifferentId(g.rows, r, row);
      assert !IsActive(moved, r);
    }
  }

  lemma EarnedRisesAtItsTurn(g: Group, moved: Transitions, c: Row)
    requires c in g.rows && AutoCandidate(c) && Earns(c.kind, Seen(g, c.id))
    requires Unrivalled(g, c) && OthersStay(g, c, moved)
    ensures Rises(g, moved, c)
  {
  }

  lemma EarnedStep(g: Group, moved: Transitions, row: Row, after: Transitions, c: Row)
    requires DistinctIds(g.rows) && row in g.rows && after == Promoted(g, moved, row)
    requires c in g.rows && AutoCandidate(c) && Earns(c.kind, Seen(g, c.id))
    requires Unrivalled(g, c) && OthersStay(g, c, moved)
    ensures OthersStay(g, c, after)
    ensures row == c || (c.id in moved && moved[c.id].Active?) ==> c.id in after && after[c.id].Active?
  {
    PromotedIffRises(g, moved, row, after);
    if row == c { EarnedRisesAtItsTurn(g, moved, c); }
    if Rises(g, moved, row) { RisenKeepsOthers(g, moved, row, after, c); }
  }

  lemma {:induction false} EarnedRises(g: Group, i: nat, c: Row, n: nat)
    requires DistinctIds(g.rows) && i < |g.rows| && n <= |g.rows| && c == g.rows[i] && Unrivalled(g, c)
    requires AutoCandidate(c) && Earns(c.kind, Seen(g, c.id))
    ensures OthersStay(g, c, Promotions(g, n))
    ensures i < n ==> c.id in Promotions(g, n) && Promotions(g, n)[c.id].Active?
  {
    if n > 0 {
      EarnedRises(g, i, c, n - 1);
      EarnedStep(g, Promotions(g, n - 1), g.rows[n - 1], Promotions(g, n), c);
    }
  }

  lemma DecidedStaysDecided(g: Group, moved: Transitions, c: Row)
    requires c.id in moved && moved[c.id].Active?
    ensures var after := Supersessions(g, moved, 0);
            c.id in after && (after[c.id].Active? || after[c.id].Superseded?)
  {
    var swap := PassTwoSwapsOnce(g, moved);
  }

  /**
   * An automatic candidate that has earned it becomes active in pass 1 when no
   * row of another claim is or could become active; and it stays active unless
   * a row of another claim outweighs it in pass 2.
   */
  lemma EarnedBecomesActive(g: Group, c: Row)
    requires DistinctIds(g.rows) && c in g.rows && AutoCandidate(c) && Earns(c.kind, Seen(g, c.id))
    requires Unrivalled(g, c)
    ensures c.id in Promotions(g, |g.rows|) && Promotions(g, |g.rows|)[c.id].Active?
    ensures c.id in Consolidated(g)
    ensures Consolidated(g)[c.id].Active? || (Consolidated(g)[c.id].Superseded? && IsOutweighed(g, c))
  {
    var i :| 0 <= i < |g.rows| && g.rows[i] == c;
    EarnedRises(g, i, c, |g.rows|);
    DecidedStaysDecided(g, Promotions(g, |g.rows|), c);
    VerdictsAreFair(g, c);
  }
}
