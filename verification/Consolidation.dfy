/**
 * The rules that promote, supersede and replace the claims kept under one
 * canonical key, in two passes over the group.
 */
module Consolidation {
  import opened Prelude

  type Id = nat

  datatype Kind = Fact | Preference | Procedure

  datatype Status = Candidate | Active | Superseded | Rejected

  /** A stored claim; `claim` is the text trimmed and lower-cased. */
  datatype Row = Row(id: Id, kind: Kind, claim: string, status: Status, manual: bool)

  datatype Observation = Observation(episode: nat, at: int)

  /** What has been observed for a row: its ledger, its top confidence, when it was last seen. */
  datatype Observed = Observed(evidence: seq<Observation>, confidence: real, lastSeen: int)

  /** One canonical key's rows, oldest first. */
  datatype Group = Group(rows: seq<Row>, observed: map<Id, Observed>)

  type Transitions = map<Id, Status>

  const MIN_CONFIDENCE := 0.8
  const FACT_MIN_EPISODES := 2
  const OTHER_MIN_EPISODES := 3
  const OTHER_MIN_DAYS := 2
  const MIN_NEWER_EPISODES := 2
  const DAY_MS := 86_400_000

  // --------------------------------------------------------------- the rules

  function Seen(g: Group, id: Id): Observed {
    if id in g.observed then g.observed[id] else Observed([], 0.0, 0)
  }

  function Episodes(evidence: seq<Observation>): set<nat> { set e | e in evidence :: e.episode }

  function UtcDays(evidence: seq<Observation>): set<int> { set e | e in evidence :: e.at / DAY_MS }

  predicate Qualifies(kind: Kind, seen: Observed) {
    && seen.confidence >= MIN_CONFIDENCE
    && if kind.Fact? then |Episodes(seen.evidence)| >= FACT_MIN_EPISODES
       else |Episodes(seen.evidence)| >= OTHER_MIN_EPISODES && |UtcDays(seen.evidence)| >= OTHER_MIN_DAYS
  }

  function NewerEpisodes(evidence: seq<Observation>, at: int): set<nat> {
    set e | e in evidence && e.at > at :: e.episode
  }

  function Latest(evidence: seq<Observation>): int
    requires evidence != []
  {
    var rest := evidence[..|evidence| - 1];
    var last := evidence[|evidence| - 1].at;
    if rest == [] then last else if Latest(rest) >= last then Latest(rest) else last
  }

  function NewestAt(seen: Observed): int {
    if seen.evidence == [] then seen.lastSeen else Latest(seen.evidence)
  }

  function Newest(g: Group, row: Row): int { NewestAt(Seen(g, row.id)) }

  /** Enough newer episodes to contradict a row whose newest observation is at `at`. */
  predicate Contradicts(g: Group, row: Row, at: int) {
    |NewerEpisodes(Seen(g, row.id).evidence, at)| >= MIN_NEWER_EPISODES
  }

  function Effective(moved: Transitions, row: Row): Status {
    if row.id in moved then moved[row.id] else row.status
  }

  predicate IsActive(moved: Transitions, row: Row) { Effective(moved, row).Active? }

  // ------------------------------------------------------ pass 1: promotions

  /** Active rows of another claim. */
  function Incumbents(g: Group, moved: Transitions, row: Row): set<Row> {
    set r | r in g.rows && r.id != row.id && IsActive(moved, r) && r.claim != row.claim
  }

  function Ids(rows: set<Row>): set<Id> { set r | r in rows :: r.id }

  function Demoted(moved: Transitions, rows: set<Row>): Transitions {
    moved + map id | id in Ids(rows) :: Superseded
  }

  function Promoted(g: Group, moved: Transitions, row: Row): Transitions {
    if !row.status.Candidate? || row.manual || !Qualifies(row.kind, Seen(g, row.id)) then moved
    else
      var incumbents := Incumbents(g, moved, row);
      if incumbents == {} then moved[row.id := Active]
      else if exists r | r in incumbents :: r.manual then moved
      else if exists r | r in incumbents :: !Contradicts(g, row, Newest(g, r)) then moved
      else Demoted(moved, incumbents)[row.id := Active]
  }

  function Promotions(g: Group, n: nat): Transitions
    requires n <= |g.rows|
  {
    if n == 0 then map[] else Promoted(g, Promotions(g, n - 1), g.rows[n - 1])
  }

  // -------------------------------------------------- pass 2: contradictions

  predicate IsChallenger(moved: Transitions, row: Row) {
    (Effective(moved, row).Candidate? || Effective(moved, row).Superseded?) && !row.manual
  }

  predicate Challenges(g: Group, moved: Transitions, row: Row, active: Row) {
    IsChallenger(moved, row) && row.claim != active.claim && Contradicts(g, row, Newest(g, active))
  }

  /** Among the first `n` rows, the first challenger with the freshest evidence. */
  function Winner(g: Group, moved: Transitions, active: Row, n: nat): Option<Row>
    requires n <= |g.rows|
  {
    if n == 0 then None
    else
      var best, row := Winner(g, moved, active, n - 1), g.rows[n - 1];
      if !Challenges(g, moved, row, active) then best
      else if best.None? || Newest(g, row) > Newest(g, best.value) then Some(row) else best
  }

  /** The first active row that has a winner against it gives way; the rest stay. */
  function Supersessions(g: Group, moved: Transitions, k: nat): Transitions
    requires k <= |g.rows|
    decreases |g.rows| - k
  {
    if k == |g.rows| then moved
    else
      var row := g.rows[k];
      var winner := if IsActive(moved, row) && !row.manual then Winner(g, moved, row, |g.rows|) else None;
      if winner.Some? then moved[row.id := Superseded][winner.value.id := Active]
      else Supersessions(g, moved, k + 1)
  }

  /** The verdicts of one full pass. */
  function Consolidated(g: Group): Transitions {
    Supersessions(g, Promotions(g, |g.rows|), 0)
  }

  /** Transitions applied to the stored rows; manual rows are refused. */
  function Applied(rows: seq<Row>, moved: Transitions): seq<Row> {
    seq(|rows|, i requires 0 <= i < |rows| =>
      if rows[i].id in moved && !rows[i].manual then rows[i].(status := moved[rows[i].id]) else rows[i])
  }

  function After(g: Group): Group { g.(rows := Applied(g.rows, Consolidated(g))) }

  // ------------------------------------------------------------- vocabulary

  predicate DistinctIds(rows: seq<Row>) {
    forall i, j | 0 <= i < j < |rows| :: rows[i].id != rows[j].id
  }

  /** No two rows that are not rejected state the same claim. */
  ghost predicate DistinctClaims(rows: seq<Row>) {
    forall r, s | r in rows && s in rows && !r.status.Rejected? && !s.status.Rejected? && r.claim == s.claim :: r == s
  }

  ghost predicate SingleActive(rows: seq<Row>) {
    forall r, s | r in rows && s in rows && r.status.Active? && s.status.Active? :: r == s
  }

  predicate AutoCandidate(row: Row) { row.status.Candidate? && !row.manual }

  /**
   * No claim has two rows that could both become active: with a manual active
   * row, no automatic candidate repeats its claim; otherwise the automatic
   * candidates and the active row all state different claims.
   */
  ghost predicate NoTwins(rows: seq<Row>) {
    && (forall r, c | r in rows && c in rows && r.status.Active? && AutoCandidate(c) :: r.claim != c.claim)
    && ((exists r :: r in rows && r.status.Active? && r.manual)
        || forall r, c | r in rows && c in rows && AutoCandidate(r) && AutoCandidate(c) && r.claim == c.claim :: r == c)
  }

  /** The one row that is active once `moved` is taken into account, if any. */
  ghost predicate ActiveIs(rows: seq<Row>, moved: Transitions, a: Option<Row>) {
    && (a.Some? ==> a.value in rows && IsActive(moved, a.value))
    && forall r | r in rows && IsActive(moved, r) :: a == Some(r)
  }

  lemma SameRow(rows: seq<Row>, r: Row, s: Row)
    requires DistinctIds(rows) && r in rows && s in rows && r.id == s.id
    ensures r == s
  {
    var i :| 0 <= i < |rows| && rows[i] == r;
    var j :| 0 <= j < |rows| && rows[j] == s;
  }

  lemma DifferentId(rows: seq<Row>, r: Row, s: Row)
    requires DistinctIds(rows) && r in rows && s in rows && r != s
    ensures r.id != s.id
  {
  }

  lemma {:induction false} Subset(a: set<nat>, b: set<nat>)
    requires a <= b
    ensures |a| <= |b|
  {
    assert b == a + (b - a);
  }

  lemma FewerNewer(evidence: seq<Observation>, at: int, later: int)
    requires at <= later
    ensures |NewerEpisodes(evidence, later)| <= |NewerEpisodes(evidence, at)|
  {
    Subset(NewerEpisodes(evidence, later), NewerEpisodes(evidence, at));
  }

  lemma {:induction false} LatestBounds(evidence: seq<Observation>)
    requires evidence != []
    ensures forall e | e in evidence :: e.at <= Latest(evidence)
    ensures exists e :: e in evidence && e.at == Latest(evidence)
  {
    var rest, last := evidence[..|evidence| - 1], evidence[|evidence| - 1];
    assert evidence == rest + [last];
    if rest != [] {
      LatestBounds(rest);
      if Latest(rest) >= last.at {
        var e :| e in rest && e.at == Latest(rest);
        assert e in evidence;
      } else {
        assert last in evidence;
      }
    }
  }

  /** Contradicting evidence is newer than what it contradicts. */
  lemma ContradictionIsNewer(g: Group, row: Row, at: int)
    requires Contradicts(g, row, at)
    ensures Newest(g, row) > at
  {
    var evidence := Seen(g, row.id).evidence;
    var episode :| episode in NewerEpisodes(evidence, at);
    var e :| e in evidence && e.at > at && e.episode == episode;
    LatestBounds(evidence);
  }

  // ------------------------------------------------------ at most one active

  predicate Movable(r: Row) { !r.manual && (r.status.Candidate? || r.status.Active?) }

  /** A row superseded in the pass has older evidence than the active row. */
  predicate Outdone(g: Group, moved: Transitions, r: Row, a: Option<Row>) {
    r.id in moved && moved[r.id].Superseded? ==> a.Some? && Newest(g, a.value) > Newest(g, r)
  }

  /** A qualifying candidate still waiting is held back by the active row. */
  predicate Held(g: Group, moved: Transitions, r: Row, a: Option<Row>) {
    AutoCandidate(r) && Qualifies(r.kind, Seen(g, r.id)) && Effective(moved, r).Candidate? ==>
      a.Some? && (a.value.manual || !Contradicts(g, r, Newest(g, a.value)))
  }

  /** Kept by pass 1 after `n` rows: `a` is the only active row and no claim passed over beats it. */
  ghost predicate PassOne(g: Group, moved: Transitions, n: nat, a: Option<Row>) {
    && n <= |g.rows|
    && ActiveIs(g.rows, moved, a)
    && (a.Some? ==> AutoCandidate(a.value) || a.value.status.Active?)
    && (forall r | r in g.rows && r.id in moved :: Movable(r) && (moved[r.id].Active? || moved[r.id].Superseded?))
    && (forall i | n <= i < |g.rows| && AutoCandidate(g.rows[i]) :: g.rows[i].id !in moved)
    && (forall r | r in g.rows :: Outdone(g, moved, r, a))
    && (forall i | 0 <= i < n :: Held(g, moved, g.rows[i], a))
  }

  lemma HeldStays(g: Group, moved: Transitions, later: Transitions, r: Row, a: Row, b: Row)
    requires Held(g, moved, r, Some(a)) && !a.manual && Newest(g, a) <= Newest(g, b)
    requires Effective(later, r).Candidate? ==> Effective(moved, r).Candidate?
    ensures Held(g, later, r, Some(b))
  {
    FewerNewer(Seen(g, r.id).evidence, Newest(g, a), Newest(g, b));
  }

  /** With an active row of the same claim as a waiting candidate there would be twins. */
  lemma ActiveDiffers(g: Group, moved: Transitions, n: nat, a: Row)
    requires DistinctIds(g.rows) && NoTwins(g.rows)
    requires PassOne(g, moved, n, Some(a)) && n < |g.rows| && AutoCandidate(g.rows[n])
    ensures a.claim != g.rows[n].claim && Incumbents(g, moved, g.rows[n]) == {a}
  {
    var row := g.rows[n];
    assert row in g.rows && !IsActive(moved, row);
    if a.id == row.id { SameRow(g.rows, a, row); }
    if m :| m in g.rows && m.status.Active? && m.manual { assert IsActive(moved, m); }
  }

  lemma PassOneSkips(g: Group, moved: Transitions, n: nat, a: Option<Row>)
    requires PassOne(g, moved, n, a) && n < |g.rows|
    requires Held(g, moved, g.rows[n], a)
    ensures PassOne(g, moved, n + 1, a)
  {
  }

  lemma PassOneActivates(g: Group, moved: Transitions, n: nat)
    requires DistinctIds(g.rows) && PassOne(g, moved, n, None) && n < |g.rows| && AutoCandidate(g.rows[n])
    ensures PassOne(g, moved[g.rows[n].id := Active], n + 1, Some(g.rows[n]))
  {
    var row := g.rows[n];
    forall r | r in g.rows && r.id == row.id ensures r == row { SameRow(g.rows, r, row); }
  }

  lemma PassOneReplaces(g: Group, moved: Transitions, n: nat, a: Row)
    requires DistinctIds(g.rows) && PassOne(g, moved, n, Some(a)) && n < |g.rows| && AutoCandidate(g.rows[n])
    requires !a.manual && a.id != g.rows[n].id && Newest(g, g.rows[n]) > Newest(g, a)
    ensures PassOne(g, moved[a.id := Superseded][g.rows[n].id := Active], n + 1, Some(g.rows[n]))
  {
    var row := g.rows[n];
    var later := moved[a.id := Superseded][row.id := Active];
    forall r | r in g.rows && r.id == row.id ensures r == row { SameRow(g.rows, r, row); }
    forall r | r in g.rows && r.id == a.id ensures r == a { SameRow(g.rows, r, a); }
    forall r | r in g.rows ensures Outdone(g, later, r, Some(row)) { assert Outdone(g, moved, r, Some(a)); }
    forall i | 0 <= i < n + 1 ensures Held(g, later, g.rows[i], Some(row)) {
      if i < n { HeldStays(g, moved, later, g.rows[i], a, row); }
    }
  }

  lemma DemotedOne(moved: Transitions, x: Row)
    ensures Demoted(moved, {x}) == moved[x.id := Superseded]
  {
    assert Ids({x}) == {x.id};
  }

  /** A qualifying candidate against one active row of another claim. */
  lemma PassOneContest(g: Group, moved: Transitions, n: nat, x: Row) returns (b: Option<Row>)
    requires DistinctIds(g.rows) && NoTwins(g.rows) && PassOne(g, moved, n, Some(x)) && n < |g.rows|
    requires AutoCandidate(g.rows[n]) && Qualifies(g.rows[n].kind, Seen(g, g.rows[n].id))
    ensures PassOne(g, Promoted(g, moved, g.rows[n]), n + 1, b)
  {
    var row := g.rows[n];
    ActiveDiffers(g, moved, n, x);
    if x.manual || !Contradicts(g, row, Newest(g, x)) {
      b := Some(x);
      PassOneSkips(g, moved, n, Some(x));
    } else {
      b := Some(row);
      ContradictionIsNewer(g, row, Newest(g, x));
      assert x.id != row.id;
      PassOneReplaces(g, moved, n, x);
      DemotedOne(moved, x);
    }
  }

  /** One more row: who is active now. */
  lemma PassOneStep(g: Group, moved: Transitions, n: nat, a: Option<Row>) returns (b: Option<Row>)
    requires DistinctIds(g.rows) && NoTwins(g.rows) && PassOne(g, moved, n, a) && n < |g.rows|
    ensures PassOne(g, Promoted(g, moved, g.rows[n]), n + 1, b)
  {
    var row := g.rows[n];
    if !AutoCandidate(row) || !Qualifies(row.kind, Seen(g, row.id)) {
      b := a;
      PassOneSkips(g, moved, n, a);
    } else if a.Some? {
      b := PassOneContest(g, moved, n, a.value);
    } else {
      b := Some(row);
      assert Incumbents(g, moved, row) == {};
      PassOneActivates(g, moved, n);
    }
  }

  lemma {:induction false} PassOneHolds(g: Group, n: nat, a: Option<Row>) returns (b: Option<Row>)
    requires DistinctIds(g.rows) && NoTwins(g.rows) && n <= |g.rows| && ActiveIs(g.rows, map[], a)
    ensures PassOne(g, Promotions(g, n), n, b)
  {
    if n == 0 {
      b := a;
    } else {
      var c := PassOneHolds(g, n - 1, a);
      b := PassOneStep(g, Promotions(g, n - 1), n - 1, c);
    }
  }

  // ------------------------------------------------------------------ pass 2

  lemma {:induction false} WinnerIsFreshest(g: Group, moved: Transitions, active: Row, n: nat, w: Option<Row>)
    requires n <= |g.rows| && w == Winner(g, moved, active, n)
    ensures w.Some? ==> w.value in g.rows[..n] && Challenges(g, moved, w.value, active)
    ensures forall r | r in g.rows[..n] && Challenges(g, moved, r, active) ::
              w.Some? && Newest(g, r) <= Newest(g, w.value)
  {
    if n > 0 {
      WinnerIsFreshest(g, moved, active, n - 1, Winner(g, moved, active, n - 1));
      assert g.rows[..n] == g.rows[..n - 1] + [g.rows[n - 1]];
    }
  }

  lemma {:induction false} NobodyToSupersede(g: Group, moved: Transitions, k: nat)
    requires k <= |g.rows|
    requires forall i | k <= i < |g.rows| && IsActive(moved, g.rows[i]) && !g.rows[i].manual ::
               Winner(g, moved, g.rows[i], |g.rows|).None?
    ensures Supersessions(g, moved, k) == moved
    decreases |g.rows| - k
  {
    if k < |g.rows| { NobodyToSupersede(g, moved, k + 1); }
  }

  function Swapped(moved: Transitions, a: Row, w: Option<Row>): Transitions {
    if w.Some? then moved[a.id := Superseded][w.value.id := Active] else moved
  }

  /** With one active row, pass 2 swaps it for its winner, or does nothing. */
  lemma {:induction false} PassTwoSwaps(g: Group, moved: Transitions, a: Row, k: nat)
    requires ActiveIs(g.rows, moved, Some(a)) && !a.manual && k <= |g.rows| && a in g.rows[k..]
    ensures Supersessions(g, moved, k) == Swapped(moved, a, Winner(g, moved, a, |g.rows|))
    decreases |g.rows| - k
  {
    if g.rows[k] == a {
      if Winner(g, moved, a, |g.rows|).None? { NobodyToSupersede(g, moved, k); }
    } else {
      assert !IsActive(moved, g.rows[k]);
      PassTwoSwaps(g, moved, a, k + 1);
    }
  }

  /** What a whole pass leaves: at most one active row, with newer evidence than any row it outdid. */
  ghost predicate Settled(g: Group, moved: Transitions, b: Option<Row>) {
    && ActiveIs(g.rows, moved, b)
    && (forall r | r in g.rows && r.id in moved :: !r.manual && !r.status.Rejected?)
    && (forall r | r in g.rows && r.id in moved :: moved[r.id].Active? || moved[r.id].Superseded?)
    && (forall r | r in g.rows :: Outdone(g, moved, r, b))
    && (forall r | r in g.rows :: Held(g, moved, r, b))
  }

  ghost predicate Unchallenged(g: Group, moved: Transitions, b: Option<Row>) {
    b.Some? && !b.value.manual ==> forall r | r in g.rows :: !Challenges(g, moved, r, b.value)
  }

  lemma ChallengerLoses(g: Group, moved: Transitions, later: Transitions, a: Row, b: Row, r: Row)
    requires Challenges(g, moved, r, a) ==> Newest(g, r) <= Newest(g, b)
    requires Newest(g, a) < Newest(g, b)
    requires r != a && r != b ==> Effective(later, r) == Effective(moved, r)
    requires r.claim == a.claim && r != a ==> r.status.Rejected? && r.id !in later
    ensures !Challenges(g, later, r, b)
  {
    if Challenges(g, later, r, b) {
      ContradictionIsNewer(g, r, Newest(g, b));
      FewerNewer(Seen(g, r.id).evidence, Newest(g, a), Newest(g, b));
    }
  }

  /** The winner takes over from the active row. */
  lemma SwapSettles(g: Group, moved: Transitions, a: Row, w: Row, later: Transitions)
    requires DistinctIds(g.rows) && PassOne(g, moved, |g.rows|, Some(a)) && !a.manual
    requires w in g.rows && Challenges(g, moved, w, a) && later == moved[a.id := Superseded][w.id := Active]
    ensures Settled(g, later, Some(w)) && Newest(g, a) < Newest(g, w)
    ensures forall r | r in g.rows && r != a && r != w :: Effective(later, r) == Effective(moved, r)
  {
    ContradictionIsNewer(g, w, Newest(g, a));
    forall r | r in g.rows && r.id == w.id ensures r == w { SameRow(g.rows, r, w); }
    forall r | r in g.rows && r.id == a.id ensures r == a { SameRow(g.rows, r, a); }
    forall r | r in g.rows ensures Outdone(g, later, r, Some(w)) { assert Outdone(g, moved, r, Some(a)); }
    forall r | r in g.rows ensures Held(g, later, r, Some(w)) {
      var i :| 0 <= i < |g.rows| && g.rows[i] == r;
      assert Held(g, moved, g.rows[i], Some(a));
      HeldStays(g, moved, later, r, a, w);
    }
  }

  lemma SwapLeavesUnchallenged(g: Group, moved: Transitions, a: Row, w: Row, later: Transitions)
    requires DistinctIds(g.rows) && PassOne(g, moved, |g.rows|, Some(a)) && !a.manual
    requires w in g.rows && Challenges(g, moved, w, a) && later == moved[a.id := Superseded][w.id := Active]
    requires forall r | r in g.rows && Challenges(g, moved, r, a) :: Newest(g, r) <= Newest(g, w)
    requires DistinctClaims(g.rows)
    ensures Unchallenged(g, later, Some(w))
  {
    SwapSettles(g, moved, a, w, later);
    forall r | r in g.rows ensures !Challenges(g, later, r, w) {
      ChallengerLoses(g, moved, later, a, w, r);
    }
  }

  lemma PassTwoSettles(g: Group, moved: Transitions, a: Option<Row>) returns (b: Option<Row>)
    requires DistinctIds(g.rows) && PassOne(g, moved, |g.rows|, a)
    ensures Settled(g, Supersessions(g, moved, 0), b)
    ensures DistinctClaims(g.rows) ==> Unchallenged(g, Supersessions(g, moved, 0), b)
  {
    b := a;
    forall r | r in g.rows ensures Held(g, moved, r, a) {
      var i :| 0 <= i < |g.rows| && g.rows[i] == r;
      assert Held(g, moved, g.rows[i], a);
    }
    if a.None? || a.value.manual {
      NobodyToSupersede(g, moved, 0);
    } else {
      PassTwoSwaps(g, moved, a.value, 0);
      var w := Winner(g, moved, a.value, |g.rows|);
      WinnerIsFreshest(g, moved, a.value, |g.rows|, w);
      assert g.rows[..|g.rows|] == g.rows;
      if w.Some? {
        b := w;
        var later := Supersessions(g, moved, 0);
        SwapSettles(g, moved, a.value, w.value, later);
        if DistinctClaims(g.rows) { SwapLeavesUnchallenged(g, moved, a.value, w.value, later); }
      }
    }
  }

  ghost function TheActive(rows: seq<Row>): Option<Row> {
    if exists r :: r in rows && r.status.Active? then
      var r :| r in rows && r.status.Active?;
      Some(r)
    else None
  }

  lemma PassSettles(g: Group) returns (b: Option<Row>)
    requires DistinctIds(g.rows) && NoTwins(g.rows) && SingleActive(g.rows)
    ensures Settled(g, Consolidated(g), b)
    ensures DistinctClaims(g.rows) ==> Unchallenged(g, Consolidated(g), b)
  {
    var a := PassOneHolds(g, |g.rows|, TheActive(g.rows));
    b := PassTwoSettles(g, Promotions(g, |g.rows|), a);
  }

  /** Applying the verdicts gives each row its effective status. */
  lemma AppliedRows(g: Group, moved: Transitions, b: Option<Row>)
    requires Settled(g, moved, b)
    ensures forall i | 0 <= i < |g.rows| ::
              Applied(g.rows, moved)[i] == g.rows[i].(status := Effective(moved, g.rows[i]))
  {
    forall i | 0 <= i < |g.rows|
      ensures Applied(g.rows, moved)[i] == g.rows[i].(status := Effective(moved, g.rows[i]))
    {
      assert g.rows[i] in g.rows;
    }
  }

  lemma AppliedSingleActive(g: Group, moved: Transitions, b: Option<Row>)
    requires Settled(g, moved, b)
    ensures SingleActive(Applied(g.rows, moved))
  {
    AppliedRows(g, moved, b);
    var after := Applied(g.rows, moved);
    forall r, s | r in after && s in after && r.status.Active? && s.status.Active? ensures r == s {
      var i :| 0 <= i < |after| && after[i] == r;
      var j :| 0 <= j < |after| && after[j] == s;
      assert g.rows[i] in g.rows && g.rows[j] in g.rows;
    }
  }

  /** Without twins a group with one active row at most keeps it that way, whatever was observed. */
  lemma NoTwinsKeepsSingleActive(g: Group)
    requires DistinctIds(g.rows) && NoTwins(g.rows) && SingleActive(g.rows)
    ensures SingleActive(After(g).rows)
  {
    var b := PassSettles(g);
    AppliedSingleActive(g, Consolidated(g), b);
  }

  lemma DistinctMeansNoTwins(rows: seq<Row>)
    requires DistinctClaims(rows)
    ensures NoTwins(rows)
  {
  }

  // --------------------------------------------------------------- idempotent

  /** Nothing left to do: the waiting candidates and the challengers all fail against the active row. */
  ghost predicate Quiescent(g: Group, b: Option<Row>) {
    && ActiveIs(g.rows, map[], b)
    && (forall c | c in g.rows && AutoCandidate(c) && Qualifies(c.kind, Seen(g, c.id)) ::
          && b.Some? && b.value.id != c.id && b.value.claim != c.claim
          && (b.value.manual || !Contradicts(g, c, Newest(g, b.value))))
    && Unchallenged(g, map[], b)
  }

  lemma {:induction false} NoPromotions(g: Group, b: Option<Row>, n: nat)
    requires Quiescent(g, b) && n <= |g.rows|
    ensures Promotions(g, n) == map[]
  {
    if n > 0 {
      NoPromotions(g, b, n - 1);
      var row := g.rows[n - 1];
      assert row in g.rows;
      if AutoCandidate(row) && Qualifies(row.kind, Seen(g, row.id)) {
        assert b.value in Incumbents(g, map[], row);
      }
    }
  }

  lemma QuiescentIsFixed(g: Group, b: Option<Row>)
    requires Quiescent(g, b)
    ensures Consolidated(g) == map[]
  {
    NoPromotions(g, b, |g.rows|);
    forall i | 0 <= i < |g.rows| && IsActive(map[], g.rows[i]) && !g.rows[i].manual
      ensures Winner(g, map[], g.rows[i], |g.rows|).None?
    {
      assert g.rows[i] in g.rows && b == Some(g.rows[i]);
      WinnerIsFreshest(g, map[], g.rows[i], |g.rows|, Winner(g, map[], g.rows[i], |g.rows|));
      assert g.rows[..|g.rows|] == g.rows;
    }
    NobodyToSupersede(g, map[], 0);
  }

  function Now(moved: Transitions, r: Row): Row { r.(status := Effective(moved, r)) }

  lemma HeldBack(g: Group, moved: Transitions, b: Option<Row>, c: Row)
    requires DistinctIds(g.rows) && DistinctClaims(g.rows) && Settled(g, moved, b) && c in g.rows
    requires AutoCandidate(Now(moved, c)) && Qualifies(c.kind, Seen(g, c.id))
    ensures b.Some? && b.value.id != c.id && b.value.claim != c.claim
    ensures b.value.manual || !Contradicts(g, c, Newest(g, b.value))
  {
    assert AutoCandidate(c) && Held(g, moved, c, b);
    assert IsActive(moved, b.value) && !b.value.status.Rejected?;
    if b.value.id == c.id { SameRow(g.rows, b.value, c); }
  }

  /** The rows after a pass are the rows before, each with its effective status. */
  ghost predicate Mirrors(before: seq<Row>, moved: Transitions, after: seq<Row>) {
    && (forall r | r in before :: Now(moved, r) in after)
    && (forall r' | r' in after :: exists r :: r in before && r' == Now(moved, r))
  }

  lemma AppliedMirrors(g: Group, moved: Transitions, b: Option<Row>)
    requires Settled(g, moved, b)
    ensures Mirrors(g.rows, moved, Applied(g.rows, moved))
  {
    AppliedRows(g, moved, b);
    var after := Applied(g.rows, moved);
    forall r' | r' in after ensures exists r :: r in g.rows && r' == Now(moved, r) {
      var i :| 0 <= i < |after| && after[i] == r';
      assert g.rows[i] in g.rows;
    }
    forall r | r in g.rows ensures Now(moved, r) in after {
      var i :| 0 <= i < |g.rows| && g.rows[i] == r;
      assert after[i] in after;
    }
  }

  function ThenNow(moved: Transitions, b: Option<Row>): Option<Row> {
    if b.Some? then Some(Now(moved, b.value)) else None
  }

  lemma AfterHoldsBack(g: Group, h: Group, moved: Transitions, b: Option<Row>, c': Row)
    requires DistinctIds(g.rows) && DistinctClaims(g.rows) && Settled(g, moved, b)
    requires h.observed == g.observed && Mirrors(g.rows, moved, h.rows) && c' in h.rows
    requires AutoCandidate(c') && Qualifies(c'.kind, Seen(h, c'.id))
    ensures var b' := ThenNow(moved, b);
            && b'.Some? && b'.value.id != c'.id && b'.value.claim != c'.claim
            && (b'.value.manual || !Contradicts(h, c', Newest(h, b'.value)))
  {
    var c :| c in g.rows && c' == Now(moved, c);
    HeldBack(g, moved, b, c);
  }

  lemma AfterIsUnchallenged(g: Group, h: Group, moved: Transitions, b: Option<Row>)
    requires h.observed == g.observed && Mirrors(g.rows, moved, h.rows) && Unchallenged(g, moved, b)
    ensures Unchallenged(h, map[], ThenNow(moved, b))
  {
    if b.Some? && !b.value.manual {
      forall r' | r' in h.rows ensures !Challenges(h, map[], r', Now(moved, b.value)) {
        var r :| r in g.rows && r' == Now(moved, r);
        assert !Challenges(g, moved, r, b.value);
      }
    }
  }

  lemma AfterIsQuiescent(g: Group, h: Group, moved: Transitions, b: Option<Row>)
    requires DistinctIds(g.rows) && DistinctClaims(g.rows) && Settled(g, moved, b) && Unchallenged(g, moved, b)
    requires h.observed == g.observed && Mirrors(g.rows, moved, h.rows)
    ensures Quiescent(h, ThenNow(moved, b))
  {
    AfterIsUnchallenged(g, h, moved, b);
    forall c' | c' in h.rows && AutoCandidate(c') && Qualifies(c'.kind, Seen(h, c'.id))
      ensures var b' := ThenNow(moved, b);
              && b'.Some? && b'.value.id != c'.id && b'.value.claim != c'.claim
              && (b'.value.manual || !Contradicts(h, c', Newest(h, b'.value)))
    {
      AfterHoldsBack(g, h, moved, b, c');
    }
    forall r' | r' in h.rows && IsActive(map[], r') ensures ThenNow(moved, b) == Some(r') {
      var r :| r in g.rows && r' == Now(moved, r);
      assert IsActive(moved, r);
    }
  }

  lemma ManualAndRejectedStay(g: Group, moved: Transitions, b: Option<Row>, i: nat)
    requires Settled(g, moved, b) && i < |g.rows| && (g.rows[i].manual || g.rows[i].status.Rejected?)
    ensures g.rows[i].id !in moved && Applied(g.rows, moved)[i] == g.rows[i]
  {
    assert g.rows[i] in g.rows;
  }

  lemma ReplacedByNewer(g: Group, moved: Transitions, b: Option<Row>, r: Row)
    requires Settled(g, moved, b) && r in g.rows && r.id in moved && moved[r.id].Superseded?
    ensures exists a :: a in Applied(g.rows, moved) && a.status.Active? && Newest(g, a) > Newest(g, r)
  {
    assert Outdone(g, moved, r, b);
    AppliedMirrors(g, moved, b);
    assert Now(moved, b.value) in Applied(g.rows, moved);
  }

  lemma SettledIsFinal(g: Group, h: Group, moved: Transitions, b: Option<Row>)
    requires DistinctIds(g.rows) && DistinctClaims(g.rows) && Settled(g, moved, b) && Unchallenged(g, moved, b)
    requires h == g.(rows := Applied(g.rows, moved))
    ensures Consolidated(h) == map[]
  {
    AppliedMirrors(g, moved, b);
    AfterIsQuiescent(g, h, moved, b);
    QuiescentIsFixed(h, ThenNow(moved, b));
  }

  /**
   * With one active row at most and pairwise distinct live claims, a pass leaves
   * one active row at most, touches no manual or rejected row, replaces a row
   * only by one with strictly newer evidence, and has nothing left to do when
   * run again on the same observations.
   */
  lemma PassIsSafeAndFinal(g: Group)
    requires DistinctIds(g.rows) && SingleActive(g.rows) && DistinctClaims(g.rows)
    ensures SingleActive(After(g).rows)
    ensures forall i | 0 <= i < |g.rows| && (g.rows[i].manual || g.rows[i].status.Rejected?) ::
              g.rows[i].id !in Consolidated(g) && After(g).rows[i] == g.rows[i]
    ensures forall r | r in g.rows && r.id in Consolidated(g) && Consolidated(g)[r.id].Superseded? ::
              exists a :: a in After(g).rows && a.status.Active? && Newest(g, a) > Newest(g, r)
    ensures Consolidated(After(g)) == map[]
  {
    var moved := Consolidated(g);
    DistinctMeansNoTwins(g.rows);
    var b := PassSettles(g);
    AppliedSingleActive(g, moved, b);
    SettledIsFinal(g, After(g), moved, b);
    forall i | 0 <= i < |g.rows| && (g.rows[i].manual || g.rows[i].status.Rejected?)
      ensures g.rows[i].id !in moved && After(g).rows[i] == g.rows[i]
    {
      ManualAndRejectedStay(g, moved, b, i);
    }
    forall r | r in g.rows && r.id in moved && moved[r.id].Superseded?
      ensures exists a :: a in After(g).rows && a.status.Active? && Newest(g, a) > Newest(g, r)
    {
      ReplacedByNewer(g, moved, b, r);
    }
  }

  // ---------------------------------------------- twins break single-active

  function Ledger(): seq<Observation> { [Observation(0, 1), Observation(1, DAY_MS), Observation(2, 2 * DAY_MS)] }

  /** Enough for every kind, and newer than an unobserved row. */
  function Strong(): Observed { Observed(Ledger(), 0.9, 2 * DAY_MS) }

  lemma StrongLedger()
    ensures Episodes(Ledger()) == {0, 1, 2} && NewerEpisodes(Ledger(), 0) == {0, 1, 2}
    ensures UtcDays(Ledger()) == {0, 1, 2} && Latest(Ledger()) == 2 * DAY_MS
  {
    var l := Ledger();
    assert l[0] in l && l[1] in l && l[2] in l;
    assert l[..2] == [l[0], l[1]] && l[..2][..1] == [l[0]];
  }

  lemma StrongQualifies(g: Group, row: Row)
    requires Seen(g, row.id) == Strong()
    ensures Qualifies(row.kind, Seen(g, row.id)) && Contradicts(g, row, 0) && Newest(g, row) == 2 * DAY_MS
  {
    StrongLedger();
  }

  /** Only rows with strong observations can be promoted or challenge. */
  ghost predicate OnlyStrong(g: Group, ids: set<Id>) {
    forall id | id !in ids :: id !in g.observed
  }

  lemma WeakNeverMoves(g: Group, ids: set<Id>, row: Row, at: int)
    requires OnlyStrong(g, ids) && row.id !in ids
    ensures !Qualifies(row.kind, Seen(g, row.id)) && !Contradicts(g, row, at) && Newest(g, row) == 0
  {
    assert Seen(g, row.id) == Observed([], 0.0, 0);
    assert NewerEpisodes([], at) == {};
  }

  /** Pass 1 from row `from` on, when nobody there moves. */
  lemma {:induction false} NothingMoves(g: Group, from: nat, n: nat)
    requires from <= n <= |g.rows|
    requires forall i | from <= i < n :: Promoted(g, Promotions(g, from), g.rows[i]) == Promotions(g, from)
    ensures Promotions(g, n) == Promotions(g, from)
    decreases n
  {
    if from < n { NothingMoves(g, from, n - 1); }
  }

  predicate BothActive(rows: seq<Row>, i: nat, j: nat) {
    i < |rows| && j < |rows| && i != j && rows[i].status.Active? && rows[j].status.Active?
  }

  lemma TwoActives(rows: seq<Row>, i: nat, j: nat)
    requires DistinctIds(rows) && BothActive(rows, i, j)
    ensures !SingleActive(rows)
  {
    assert rows[i] in rows && rows[j] in rows;
  }

  lemma AppliedIds(rows: seq<Row>, moved: Transitions)
    requires DistinctIds(rows)
    ensures DistinctIds(Applied(rows, moved))
  {
  }

  lemma NoWinners(g: Group, moved: Transitions)
    requires forall a, r | a in g.rows && r in g.rows && IsActive(moved, a) :: !Challenges(g, moved, r, a)
    ensures Supersessions(g, moved, 0) == moved
  {
    forall i | 0 <= i < |g.rows| && IsActive(moved, g.rows[i])
      ensures Winner(g, moved, g.rows[i], |g.rows|).None?
    {
      assert g.rows[i] in g.rows;
      WinnerIsFreshest(g, moved, g.rows[i], |g.rows|, Winner(g, moved, g.rows[i], |g.rows|));
      assert g.rows[..|g.rows|] == g.rows;
    }
    NobodyToSupersede(g, moved, 0);
  }

  lemma TwinStaysUnchallenged(g: Group, row: Row, moved: Transitions)
    requires DistinctIds(g.rows) && row in g.rows && g.observed == map[row.id := Strong()]
    requires moved == map[row.id := Active]
    ensures Supersessions(g, moved, 0) == moved
  {
    forall a, r | a in g.rows && r in g.rows && IsActive(moved, a) ensures !Challenges(g, moved, r, a) {
      if r.id == row.id { SameRow(g.rows, r, row); } else { WeakNeverMoves(g, {row.id}, r, Newest(g, a)); }
    }
    NoWinners(g, moved);
  }

  /** Weak rows before position `j` are not promoted. */
  lemma {:induction false} WeakPrefix(g: Group, ids: set<Id>, j: nat)
    requires OnlyStrong(g, ids) && j <= |g.rows|
    requires forall k | 0 <= k < j :: g.rows[k].id !in ids
    ensures Promotions(g, j) == map[]
  {
    if j > 0 {
      WeakPrefix(g, ids, j - 1);
      WeakNeverMoves(g, ids, g.rows[j - 1], 0);
    }
  }

  lemma WeakStretch(g: Group, ids: set<Id>, from: nat, n: nat)
    requires OnlyStrong(g, ids) && from <= n <= |g.rows|
    requires forall k | from <= k < n :: g.rows[k].id !in ids
    ensures Promotions(g, n) == Promotions(g, from)
  {
    forall k | from <= k < n ensures Promoted(g, Promotions(g, from), g.rows[k]) == Promotions(g, from) {
      WeakNeverMoves(g, ids, g.rows[k], 0);
    }
    NothingMoves(g, from, n);
  }

  lemma WeakSuffix(g: Group, ids: set<Id>, from: nat)
    requires OnlyStrong(g, ids) && from <= |g.rows|
    requires forall k | from <= k < |g.rows| :: g.rows[k].id !in ids
    ensures Promotions(g, |g.rows|) == Promotions(g, from)
  {
    WeakStretch(g, ids, from, |g.rows|);
  }

  /** A strong candidate that repeats the active claim joins it as a second active row. */
  lemma TwinJoinsActive(rows: seq<Row>, i: nat, j: nat) returns (g: Group)
    requires DistinctIds(rows) && SingleActive(rows) && i < |rows| && j < |rows|
    requires rows[i].status.Active? && AutoCandidate(rows[j]) && rows[i].claim == rows[j].claim
    ensures g == Group(rows, map[rows[j].id := Strong()]) && !SingleActive(After(g).rows)
  {
    var row := rows[j];
    g := Group(rows, map[row.id := Strong()]);
    StrongQualifies(g, row);
    WeakPrefix(g, {row.id}, j);
    assert rows[i] in rows && row in rows;
    assert Incumbents(g, map[], row) == {};
    assert Promotions(g, j + 1) == map[row.id := Active];
    WeakSuffix(g, {row.id}, j + 1);
    var moved := Promotions(g, |rows|);
    TwinStaysUnchallenged(g, row, moved);
    AppliedIds(rows, moved);
    TwoActives(After(g).rows, i, j);
  }

  /** The automatic active row, if any, already moved out of the way. */
  function Cleared(a: Option<Row>): Transitions {
    if a.Some? then map[a.value.id := Superseded] else map[]
  }

  lemma FirstTwinPromoted(g: Group, a: Option<Row>, i: nat, j: nat)
    requires DistinctIds(g.rows) && i < |g.rows| && j < |g.rows| && ActiveIs(g.rows, map[], a)
    requires AutoCandidate(g.rows[i]) && g.observed == map[g.rows[i].id := Strong(), g.rows[j].id := Strong()]
    requires AutoCandidate(g.rows[j]) && (a.Some? ==> !a.value.manual && a.value.claim != g.rows[i].claim)
    ensures Promoted(g, map[], g.rows[i]) == Cleared(a)[g.rows[i].id := Active]
  {
    var row, ids := g.rows[i], {g.rows[i].id, g.rows[j].id};
    assert row in g.rows && g.rows[j] in g.rows;
    StrongQualifies(g, row);
    if a.Some? {
      DifferentId(g.rows, a.value, row);
      DifferentId(g.rows, a.value, g.rows[j]);
      WeakNeverMoves(g, ids, a.value, 0);
      assert Incumbents(g, map[], row) == {a.value};
      assert Ids({a.value}) == {a.value.id};
    } else {
      assert Incumbents(g, map[], row) == {};
    }
  }

  lemma SecondTwinPromoted(g: Group, a: Option<Row>, i: nat, j: nat, moved: Transitions)
    requires DistinctIds(g.rows) && i < j < |g.rows| && ActiveIs(g.rows, map[], a)
    requires g.observed == map[g.rows[i].id := Strong(), g.rows[j].id := Strong()]
    requires moved == Cleared(a)[g.rows[i].id := Active]
    requires AutoCandidate(g.rows[j]) && g.rows[i].claim == g.rows[j].claim
    ensures Promoted(g, moved, g.rows[j]) == moved[g.rows[j].id := Active]
  {
    StrongQualifies(g, g.rows[j]);
    forall r | r in g.rows && IsActive(moved, r) ensures r == g.rows[i] {
      if r.id == g.rows[i].id { SameRow(g.rows, r, g.rows[i]); }
    }
    assert Incumbents(g, moved, g.rows[j]) == {};
  }

  lemma TwinsStayActive(g: Group, a: Option<Row>, i: nat, j: nat, moved: Transitions)
    requires DistinctIds(g.rows) && i < j < |g.rows| && ActiveIs(g.rows, map[], a)
    requires g.observed == map[g.rows[i].id := Strong(), g.rows[j].id := Strong()]
    requires moved == Cleared(a)[g.rows[i].id := Active][g.rows[j].id := Active]
    ensures Supersessions(g, moved, 0) == moved
  {
    forall b, r | b in g.rows && r in g.rows && IsActive(moved, b) ensures !Challenges(g, moved, r, b) {
      if r.id != g.rows[i].id && r.id != g.rows[j].id {
        WeakNeverMoves(g, {g.rows[i].id, g.rows[j].id}, r, Newest(g, b));
      }
    }
    NoWinners(g, moved);
  }

  lemma TwinPromotions(g: Group, a: Option<Row>, i: nat, j: nat)
    requires DistinctIds(g.rows) && i < j < |g.rows| && ActiveIs(g.rows, map[], a)
    requires g.observed == map[g.rows[i].id := Strong(), g.rows[j].id := Strong()]
    requires AutoCandidate(g.rows[i]) && AutoCandidate(g.rows[j]) && g.rows[i].claim == g.rows[j].claim
    requires a.Some? ==> !a.value.manual && a.value.claim != g.rows[i].claim
    ensures Promotions(g, |g.rows|) == Cleared(a)[g.rows[i].id := Active][g.rows[j].id := Active]
  {
    var ids := {g.rows[i].id, g.rows[j].id};
    WeakPrefix(g, ids, i);
    FirstTwinPromoted(g, a, i, j);
    WeakStretch(g, ids, i + 1, j);
    SecondTwinPromoted(g, a, i, j, Cleared(a)[g.rows[i].id := Active]);
    WeakSuffix(g, ids, j + 1);
  }

  lemma TwinsInApplied(rows: seq<Row>, a: Option<Row>, i: nat, j: nat, moved: Transitions)
    requires DistinctIds(rows) && i < j < |rows| && !rows[i].manual && !rows[j].manual
    requires moved == Cleared(a)[rows[i].id := Active][rows[j].id := Active]
    ensures !SingleActive(Applied(rows, moved))
  {
    AppliedIds(rows, moved);
    TwoActives(Applied(rows, moved), i, j);
  }

  /** Two strong candidates of one claim end up both active, once the old active row has gone. */
  lemma TwinsBothActivate(rows: seq<Row>, a: Option<Row>, i: nat, j: nat) returns (g: Group)
    requires DistinctIds(rows) && i < j < |rows| && ActiveIs(rows, map[], a)
    requires AutoCandidate(rows[i]) && AutoCandidate(rows[j]) && rows[i].claim == rows[j].claim
    requires a.Some? ==> !a.value.manual && a.value.claim != rows[i].claim
    ensures g.rows == rows && !SingleActive(After(g).rows)
  {
    g := Group(rows, map[rows[i].id := Strong(), rows[j].id := Strong()]);
    TwinPromotions(g, a, i, j);
    var moved := Cleared(a)[rows[i].id := Active][rows[j].id := Active];
    TwinsStayActive(g, a, i, j, moved);
    TwinsInApplied(rows, a, i, j, moved);
  }

  /** With twins, some observations leave two active rows behind. */
  lemma TwinsBreakSingleActive(rows: seq<Row>) returns (g: Group)
    requires DistinctIds(rows) && SingleActive(rows) && !NoTwins(rows)
    ensures g.rows == rows && !SingleActive(After(g).rows)
  {
    if r, c :| r in rows && c in rows && r.status.Active? && AutoCandidate(c) && r.claim == c.claim {
      var i :| 0 <= i < |rows| && rows[i] == r;
      var j :| 0 <= j < |rows| && rows[j] == c;
      g := TwinJoinsActive(rows, i, j);
    } else {
      var r, c :| r in rows && c in rows && AutoCandidate(r) && AutoCandidate(c) && r.claim == c.claim && r != c;
      var i :| 0 <= i < |rows| && rows[i] == r;
      var j :| 0 <= j < |rows| && rows[j] == c;
      if i < j { g := TwinsBothActivate(rows, TheActive(rows), i, j); }
      else { g := TwinsBothActivate(rows, TheActive(rows), j, i); }
    }
  }

  /** With nothing observed no row moves. */
  lemma UnobservedStays(rows: seq<Row>)
    ensures After(Group(rows, map[])).rows == rows
  {
    var g := Group(rows, map[]);
    WeakPrefix(g, {}, |rows|);
    forall a, r | a in rows && r in rows && IsActive(map[], a) ensures !Challenges(g, map[], r, a) {
      WeakNeverMoves(g, {}, r, Newest(g, a));
    }
    NoWinners(g, map[]);
  }

  /** A pass leaves one active row at most whatever was observed, if and only if there was one at most and no twins. */
  lemma SingleActiveIffNoTwins(rows: seq<Row>)
    requires DistinctIds(rows)
    ensures SingleActive(rows) && NoTwins(rows) <==>
              forall observed: map<Id, Observed> :: SingleActive(After(Group(rows, observed)).rows)
  {
    if !SingleActive(rows) {
      UnobservedStays(rows);
      assert !SingleActive(After(Group(rows, map[])).rows);
    } else if NoTwins(rows) {
      forall observed: map<Id, Observed> ensures SingleActive(After(Group(rows, observed)).rows) {
        NoTwinsKeepsSingleActive(Group(rows, observed));
      }
    } else {
      var g := TwinsBreakSingleActive(rows);
      assert g == Group(rows, g.observed);
    }
  }

  function ActiveRows(rows: seq<Row>, moved: Transitions): set<Row> { set r | r in rows && IsActive(moved, r) }

  lemma SwapKeepsCount(rows: seq<Row>, moved: Transitions, a: Row, w: Row)
    requires DistinctIds(rows) && a in rows && w in rows && IsActive(moved, a) && !IsActive(moved, w)
    ensures |ActiveRows(rows, moved[a.id := Superseded][w.id := Active])| == |ActiveRows(rows, moved)|
  {
    var later := moved[a.id := Superseded][w.id := Active];
    forall r | r in rows ensures IsActive(later, r) <==> r == w || (IsActive(moved, r) && r != a) {
      if r != a { DifferentId(rows, r, a); }
      if r != w { DifferentId(rows, r, w); }
    }
    assert ActiveRows(rows, later) == ActiveRows(rows, moved) - {a} + {w};
  }

  /** Pass 2 never changes how many rows are active: with two, one gives way and another still takes its place. */
  lemma {:induction false} PassTwoKeepsActiveCount(g: Group, moved: Transitions, k: nat)
    requires DistinctIds(g.rows) && k <= |g.rows|
    ensures |ActiveRows(g.rows, Supersessions(g, moved, k))| == |ActiveRows(g.rows, moved)|
    decreases |g.rows| - k
  {
    if k < |g.rows| {
      var row := g.rows[k];
      var winner := if IsActive(moved, row) && !row.manual then Winner(g, moved, row, |g.rows|) else None;
      if winner.Some? {
        WinnerIsFreshest(g, moved, row, |g.rows|, winner);
        assert g.rows[..|g.rows|] == g.rows;
        SwapKeepsCount(g.rows, moved, row, winner.value);
      } else {
        PassTwoKeepsActiveCount(g, moved, k + 1);
      }
    }
  }

  // ------------------------------------------------ what holds of every pass

  /** The user's decisions stand, and nothing becomes active on fewer than two episodes. */
  predicate LawfulMove(g: Group, moved: Transitions, r: Row) {
    r.id in moved ==>
      && !r.manual && !r.status.Rejected? && (moved[r.id].Active? || moved[r.id].Superseded?)
      && (moved[r.id].Active? ==> |Episodes(Seen(g, r.id).evidence)| >= 2)
  }

  ghost predicate Lawful(g: Group, moved: Transitions) { forall r | r in g.rows :: LawfulMove(g, moved, r) }

  lemma ContradictionNeedsTwo(g: Group, row: Row, at: int)
    requires Contradicts(g, row, at)
    ensures |Episodes(Seen(g, row.id).evidence)| >= 2
  {
    Subset(NewerEpisodes(Seen(g, row.id).evidence, at), Episodes(Seen(g, row.id).evidence));
  }

  lemma ActivationIsLawful(g: Group, moved: Transitions, row: Row)
    requires DistinctIds(g.rows) && Lawful(g, moved) && row in g.rows && !row.manual && !row.status.Rejected?
    requires |Episodes(Seen(g, row.id).evidence)| >= 2
    ensures Lawful(g, moved[row.id := Active])
  {
    forall r | r in g.rows ensures LawfulMove(g, moved[row.id := Active], r) {
      assert LawfulMove(g, moved, r);
      if r.id == row.id { SameRow(g.rows, r, row); }
    }
  }

  lemma DemotionIsLawful(g: Group, moved: Transitions, demoted: set<Row>)
    requires DistinctIds(g.rows) && Lawful(g, moved)
    requires forall r | r in demoted :: r in g.rows && !r.manual && IsActive(moved, r)
    ensures Lawful(g, Demoted(moved, demoted))
  {
    forall r | r in g.rows ensures LawfulMove(g, Demoted(moved, demoted), r) {
      assert LawfulMove(g, moved, r);
      if r.id in Ids(demoted) {
        var d :| d in demoted && d.id == r.id;
        SameRow(g.rows, r, d);
      }
    }
  }

  lemma PromotionIsLawful(g: Group, moved: Transitions, row: Row)
    requires DistinctIds(g.rows) && Lawful(g, moved) && row in g.rows
    ensures Lawful(g, Promoted(g, moved, row))
  {
    if AutoCandidate(row) && Qualifies(row.kind, Seen(g, row.id)) {
      var incumbents := Incumbents(g, moved, row);
      if incumbents == {} {
        ActivationIsLawful(g, moved, row);
      } else if forall r | r in incumbents :: !r.manual {
        DemotionIsLawful(g, moved, incumbents);
        ActivationIsLawful(g, Demoted(moved, incumbents), row);
      }
    }
  }

  lemma {:induction false} PromotionsAreLawful(g: Group, n: nat)
    requires DistinctIds(g.rows) && n <= |g.rows|
    ensures Lawful(g, Promotions(g, n))
  {
    if n > 0 {
      PromotionsAreLawful(g, n - 1);
      PromotionIsLawful(g, Promotions(g, n - 1), g.rows[n - 1]);
    }
  }

  lemma SwapIsLawful(g: Group, moved: Transitions, a: Row, w: Row)
    requires DistinctIds(g.rows) && Lawful(g, moved) && a in g.rows && w in g.rows
    requires IsActive(moved, a) && !a.manual && Challenges(g, moved, w, a)
    ensures Lawful(g, moved[a.id := Superseded][w.id := Active])
  {
    DemotionIsLawful(g, moved, {a});
    DemotedOne(moved, a);
    assert LawfulMove(g, moved, w);
    ContradictionNeedsTwo(g, w, Newest(g, a));
    ActivationIsLawful(g, moved[a.id := Superseded], w);
  }

  lemma {:induction false} SupersessionsAreLawful(g: Group, moved: Transitions, k: nat)
    requires DistinctIds(g.rows) && Lawful(g, moved) && k <= |g.rows|
    ensures Lawful(g, Supersessions(g, moved, k))
    decreases |g.rows| - k
  {
    if k < |g.rows| {
      var row := g.rows[k];
      var winner := if IsActive(moved, row) && !row.manual then Winner(g, moved, row, |g.rows|) else None;
      if winner.Some? {
        WinnerIsFreshest(g, moved, row, |g.rows|, winner);
        assert g.rows[..|g.rows|] == g.rows;
        SwapIsLawful(g, moved, row, winner.value);
      } else {
        SupersessionsAreLawful(g, moved, k + 1);
      }
    }
  }

  /**
   * Of every group, twins or not: manual and rejected rows are never moved, and
   * no row becomes active on observations of fewer than two episodes.
   */
  lemma PassIsLawful(g: Group)
    requires DistinctIds(g.rows)
    ensures forall r | r in g.rows && r.id in Consolidated(g) ::
              !r.manual && !r.status.Rejected? && (Consolidated(g)[r.id].Active? || Consolidated(g)[r.id].Superseded?)
    ensures forall r | r in g.rows && r.id in Consolidated(g) && Consolidated(g)[r.id].Active? ::
              |Episodes(Seen(g, r.id).evidence)| >= 2
  {
    PromotionsAreLawful(g, |g.rows|);
    SupersessionsAreLawful(g, Promotions(g, |g.rows|), 0);
    forall r | r in g.rows ensures LawfulMove(g, Consolidated(g), r) { }
  }

  // --------------------------------------------------------------- the engine

  method FindWinner(g: Group, moved: Transitions, active: Row) returns (winner: Option<Row>)
    ensures winner == Winner(g, moved, active, |g.rows|)
  {
    winner := None;
    for i := 0 to |g.rows|
      invariant winner == Winner(g, moved, active, i)
    {
      var row := g.rows[i];
      if !IsChallenger(moved, row) || row.claim == active.claim { continue; }
      if |NewerEpisodes(Seen(g, row.id).evidence, Newest(g, active))| < MIN_NEWER_EPISODES { continue; }
      if winner.None? || Newest(g, row) > Newest(g, winner.value) { winner := Some(row); }
    }
  }

  method SupersedeContradicted(g: Group, promoted: Transitions) returns (byId: Transitions)
    ensures byId == Supersessions(g, promoted, 0)
  {
    byId := promoted;
    var challengerActivated := false;
    for k := 0 to |g.rows|
      invariant challengerActivated ==> byId == Supersessions(g, promoted, 0)
      invariant !challengerActivated ==>
                  byId == promoted && Supersessions(g, promoted, k) == Supersessions(g, promoted, 0)
    {
      // The snapshot taken after pass 1 decides who is active and who challenges.
      var active := g.rows[k];
      if !IsActive(promoted, active) || active.manual { continue; }
      var winner := FindWinner(g, promoted, active);
      if winner.Some? && !challengerActivated {
        byId := byId[active.id := Superseded][winner.value.id := Active];
        challengerActivated := true;
      }
    }
  }

  /** Both passes over the group, verdicts kept per row in a map. */
  method ConsolidateGroup(g: Group) returns (byId: Transitions)
    ensures byId == Consolidated(g)
  {
    byId := map[];
    for i := 0 to |g.rows|
      invariant byId == Promotions(g, i)
    {
      var row := g.rows[i];
      if !row.status.Candidate? || row.manual { continue; }
      if !Qualifies(row.kind, Seen(g, row.id)) { continue; }
      var incumbents := Incumbents(g, byId, row);
      if |incumbents| == 0 {
        byId := byId[row.id := Active];
        continue;
      }
      if exists r | r in incumbents :: r.manual { continue; }
      var supersedable := forall r | r in incumbents :: Contradicts(g, row, Newest(g, r));
      if !supersedable { continue; }
      byId := Demoted(byId, incumbents)[row.id := Active];
    }
    byId := SupersedeContradicted(g, byId);
  }
}
