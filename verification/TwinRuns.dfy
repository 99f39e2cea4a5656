/** Runs from the empty store that leave two active rows of one claim under one key. */
module TwinRuns {
  import opened Prelude
  import opened MemoryLife
  import C = Consolidation
  import M = MemoryStore

  // ---------------------------------------------------------- a confirmed twin

  const VIM := M.Input(C.Fact, "editor", "Vim", "vim", 0.9)

  function Seen(at: int): M.Observation { M.Observation(0.9, at) }

  function VimRow(id: M.Id, kind: C.Kind, status: C.Status, seen: int, last: int, count: nat, updated: int,
                  manual: Option<int>): M.Row {
    M.Row(id, kind, "editor", "Vim", "vim", 0.9, status, seen, last, count, seen, updated, manual)
  }

  const VIM_INDEXED := M.Indexed("Vim", "editor")

  const FIRST_SEEN := M.Store(
    map[0 := VimRow(0, C.Fact, C.Candidate, 1, 1, 1, 1, None)], map[(0, 0) := Seen(1)], map[0 := VIM_INDEXED])

  const REJECTED := FIRST_SEEN.(rows := map[0 := VimRow(0, C.Fact, C.Rejected, 1, 1, 1, 2, None)])

  /** The rejected row is no twin, so the claim gets a row of its own. */
  const SEEN_AGAIN := M.Store(
    map[0 := REJECTED.rows[0], 1 := VimRow(1, C.Fact, C.Candidate, 3, 3, 1, 3, None)],
    map[(0, 0) := Seen(1), (1, 1) := Seen(3)], map[0 := VIM_INDEXED, 1 := VIM_INDEXED])

  const SEEN_TWICE := SEEN_AGAIN.(
    rows := map[0 := REJECTED.rows[0], 1 := VimRow(1, C.Fact, C.Candidate, 3, 4, 2, 4, None)],
    evidence := map[(0, 0) := Seen(1), (1, 1) := Seen(3), (1, 2) := Seen(4)])

  const CONFIRMED := SEEN_TWICE.(
    rows := map[0 := VimRow(0, C.Fact, C.Active, 1, 1, 1, 5, Some(5)), 1 := SEEN_TWICE.rows[1]])

  const CONFIRMED_GROUP := C.Group(
    [C.Row(0, C.Fact, "vim", C.Active, true), C.Row(1, C.Fact, "vim", C.Candidate, false)],
    map[0 := C.Observed([C.Observation(0, 1)], 0.9, 1),
        1 := C.Observed([C.Observation(1, 3), C.Observation(2, 4)], 0.9, 4)])

  /** A row is rejected, its claim is seen twice more, and the user confirms the rejected row after all. */
  const TWIN_STEPS: seq<Step> := [
    Write(M.Upsert(VIM, None, 0, 0, 0, Seen(1), 1)),
    Write(M.Reject(0, 2)),
    Write(M.Upsert(VIM, None, 1, 1, 1, Seen(3), 3)),
    Write(M.Upsert(VIM, Some(1), 2, 2, 2, Seen(4), 4)),
    Write(M.Confirm(0, 5)),
    Consolidate("editor", CONFIRMED_GROUP, [(1, C.Active)], 6)]

  lemma FirstSteps()
    ensures Enabled(M.EMPTY, TWIN_STEPS[0]) && Next(M.EMPTY, TWIN_STEPS[0]) == FIRST_SEEN
    ensures Enabled(FIRST_SEEN, TWIN_STEPS[1]) && Next(FIRST_SEEN, TWIN_STEPS[1]) == REJECTED
  {
  }

  lemma SeenAgain()
    ensures Enabled(REJECTED, TWIN_STEPS[2]) && Next(REJECTED, TWIN_STEPS[2]) == SEEN_AGAIN
  {
  }

  lemma SeenTwice()
    ensures Enabled(SEEN_AGAIN, TWIN_STEPS[3]) && Next(SEEN_AGAIN, TWIN_STEPS[3]) == SEEN_TWICE
  {
    var evidence := M.AddEvidence(SEEN_AGAIN.evidence, 1, 2, Seen(4));
    assert M.Of(evidence, 1) == {(1, 1), (1, 2)};
  }

  lemma ConfirmedAfterAll()
    ensures Enabled(SEEN_TWICE, TWIN_STEPS[4]) && Next(SEEN_TWICE, TWIN_STEPS[4]) == CONFIRMED
    ensures !M.DistinctLive(CONFIRMED.rows)
  {
    assert M.SameClaim(CONFIRMED.rows[0], CONFIRMED.rows[1]);
  }

  lemma TwinQualifies()
    ensures C.Promoted(CONFIRMED_GROUP, map[], CONFIRMED_GROUP.rows[1]) == map[1 := C.Active]
  {
    var g := CONFIRMED_GROUP;
    var evidence := g.observed[1].evidence;
    assert evidence[0] in evidence && evidence[1] in evidence;
    assert C.Episodes(evidence) == {1, 2};
    assert C.Incumbents(g, map[], g.rows[1]) == {};
  }

  lemma TwinGroupConsolidated()
    ensures C.Consolidated(CONFIRMED_GROUP) == map[1 := C.Active]
  {
    var g := CONFIRMED_GROUP;
    TwinQualifies();
    assert C.Promotions(g, 1) == C.Promoted(g, C.Promotions(g, 0), g.rows[0]) == map[];
    assert C.Promotions(g, 2) == map[1 := C.Active];
    forall a, r | a in g.rows && r in g.rows && C.IsActive(map[1 := C.Active], a)
      ensures !C.Challenges(g, map[1 := C.Active], r, a)
    {
    }
    C.NoWinners(g, map[1 := C.Active]);
  }

  lemma ConfirmedIsListed()
    ensures Lists(CONFIRMED.rows, "editor", CONFIRMED_GROUP.rows)
  {
    var rows := CONFIRMED_GROUP.rows;
    assert rows[0] in rows && rows[1] in rows;
  }

  lemma ConfirmedIsLedgered()
    ensures Ledgered(CONFIRMED, 0, CONFIRMED_GROUP.observed[0]) && Ledgered(CONFIRMED, 1, CONFIRMED_GROUP.observed[1])
  {
    var first, second := CONFIRMED_GROUP.observed[0].evidence, CONFIRMED_GROUP.observed[1].evidence;
    assert first[0] in first && second[0] in second && second[1] in second;
  }

  const BOTH_ACTIVE := CONFIRMED.(
    rows := CONFIRMED.rows[1 := VimRow(1, C.Fact, C.Active, 3, 4, 2, 6, None)])

  lemma TwinActivated()
    ensures Enabled(CONFIRMED, TWIN_STEPS[5]) && Next(CONFIRMED, TWIN_STEPS[5]) == BOTH_ACTIVE
  {
    ConfirmedIsListed();
    ConfirmedIsLedgered();
    TwinGroupConsolidated();
    var moves := TWIN_STEPS[5].moves;
    assert moves[0] in moves && moves[..0] == [];
  }

  lemma StepsFromRejection()
    ensures AllEnabled(REJECTED, TWIN_STEPS[2..]) && Run(REJECTED, TWIN_STEPS[2..]) == BOTH_ACTIVE
  {
    SeenAgain();
    SeenTwice();
    ConfirmedAfterAll();
    TwinActivated();
    assert TWIN_STEPS[6..] == [];
    StepsFrom(TWIN_STEPS, CONFIRMED, 5, BOTH_ACTIVE);
    StepsFrom(TWIN_STEPS, SEEN_TWICE, 4, CONFIRMED);
    StepsFrom(TWIN_STEPS, SEEN_AGAIN, 3, SEEN_TWICE);
    StepsFrom(TWIN_STEPS, REJECTED, 2, SEEN_AGAIN);
  }

  /**
   * A twin confirmed back to life: with every step enabled, the pass leaves two
   * active rows of one claim under one key, the confirmed one and its twin.
   */
  lemma ConfirmedTwinBothActive()
    ensures AllEnabled(M.EMPTY, TWIN_STEPS)
    ensures var s := Run(M.EMPTY, TWIN_STEPS);
            && 0 in s.rows && 1 in s.rows && s.rows[0].claim == s.rows[1].claim && s.rows[0].key == s.rows[1].key
            && s.rows[0].status.Active? && s.rows[1].status.Active?
  {
    FirstSteps();
    StepsFromRejection();
    StepsFrom(TWIN_STEPS, FIRST_SEEN, 1, REJECTED);
    StepsFrom(TWIN_STEPS, M.EMPTY, 0, FIRST_SEEN);
    assert TWIN_STEPS[0..] == TWIN_STEPS;
  }

  // -------------------------------------------------- one claim as two kinds

  const LIKED := M.Input(C.Preference, "editor", "Vim", "vim", 0.9)

  const FACT_TWICE := M.Store(
    map[0 := VimRow(0, C.Fact, C.Candidate, 1, 2, 2, 2, None)], map[(0, 0) := Seen(1), (0, 1) := Seen(2)],
    map[0 := VIM_INDEXED])

  /** A twin must be of the same kind, so the preference gets a row of its own. */
  const LIKED_ONCE := M.Store(
    map[0 := FACT_TWICE.rows[0], 1 := VimRow(1, C.Preference, C.Candidate, 3, 3, 1, 3, None)],
    map[(0, 0) := Seen(1), (0, 1) := Seen(2), (1, 0) := Seen(3)], map[0 := VIM_INDEXED, 1 := VIM_INDEXED])

  const LIKED_TWICE := LIKED_ONCE.(
    rows := map[0 := FACT_TWICE.rows[0], 1 := VimRow(1, C.Preference, C.Candidate, 3, 4, 2, 4, None)],
    evidence := map[(0, 0) := Seen(1), (0, 1) := Seen(2), (1, 0) := Seen(3), (1, 1) := Seen(4)])

  const LIKED_NEXT_DAY := LIKED_ONCE.(
    rows := map[0 := FACT_TWICE.rows[0],
                1 := VimRow(1, C.Preference, C.Candidate, 3, C.DAY_MS, 3, C.DAY_MS, None)],
    evidence := LIKED_TWICE.evidence[(1, 2) := Seen(C.DAY_MS)])

  const KINDS_GROUP := C.Group(
    [C.Row(0, C.Fact, "vim", C.Candidate, false), C.Row(1, C.Preference, "vim", C.Candidate, false)],
    map[0 := C.Observed([C.Observation(0, 1), C.Observation(1, 2)], 0.9, 2),
        1 := C.Observed([C.Observation(0, 3), C.Observation(1, 4), C.Observation(2, C.DAY_MS)], 0.9, C.DAY_MS)])

  const BOTH_KINDS_ACTIVE := LIKED_NEXT_DAY.(
    rows := map[0 := VimRow(0, C.Fact, C.Active, 1, 2, 2, C.DAY_MS + 1, None),
                1 := VimRow(1, C.Preference, C.Active, 3, C.DAY_MS, 3, C.DAY_MS + 1, None)])

  /** A fact seen in two episodes, the same claim as a preference in three on two days, then one pass. */
  const KINDS_STEPS: seq<Step> := [
    Write(M.Upsert(VIM, None, 0, 0, 0, Seen(1), 1)),
    Write(M.Upsert(VIM, Some(0), 0, 0, 1, Seen(2), 2)),
    Write(M.Upsert(LIKED, None, 1, 1, 0, Seen(3), 3)),
    Write(M.Upsert(LIKED, Some(1), 1, 1, 1, Seen(4), 4)),
    Write(M.Upsert(LIKED, Some(1), 1, 1, 2, Seen(C.DAY_MS), C.DAY_MS)),
    Consolidate("editor", KINDS_GROUP, [(0, C.Active), (1, C.Active)], C.DAY_MS + 1)]

  lemma FactSeen()
    ensures Enabled(M.EMPTY, KINDS_STEPS[0]) && Next(M.EMPTY, KINDS_STEPS[0]) == FIRST_SEEN
  {
  }

  lemma FactSeenTwice()
    ensures Enabled(FIRST_SEEN, KINDS_STEPS[1]) && Next(FIRST_SEEN, KINDS_STEPS[1]) == FACT_TWICE
  {
    assert M.Of(M.AddEvidence(FIRST_SEEN.evidence, 0, 1, Seen(2)), 0) == {(0, 0), (0, 1)};
  }

  lemma LikedOnce()
    ensures Enabled(FACT_TWICE, KINDS_STEPS[2]) && Next(FACT_TWICE, KINDS_STEPS[2]) == LIKED_ONCE
  {
  }

  lemma LikedTwice()
    ensures Enabled(LIKED_ONCE, KINDS_STEPS[3]) && Next(LIKED_ONCE, KINDS_STEPS[3]) == LIKED_TWICE
  {
    assert M.Of(M.AddEvidence(LIKED_ONCE.evidence, 1, 1, Seen(4)), 1) == {(1, 0), (1, 1)};
  }

  lemma NextDayLedger()
    ensures M.AddEvidence(LIKED_TWICE.evidence, 1, 2, Seen(C.DAY_MS)) == LIKED_NEXT_DAY.evidence
    ensures |M.Of(LIKED_NEXT_DAY.evidence, 1)| == 3
  {
    assert M.Of(LIKED_NEXT_DAY.evidence, 1) == {(1, 0), (1, 1), (1, 2)};
  }

  lemma LikedNextDay()
    ensures M.Absorb(LIKED_TWICE, 1, LIKED, 2, Seen(C.DAY_MS), C.DAY_MS) == LIKED_NEXT_DAY
  {
    NextDayLedger();
  }

  lemma PreferenceHasTwin()
    ensures Enabled(LIKED_TWICE, KINDS_STEPS[4])
  {
  }

  lemma FactQualifies()
    ensures C.Promoted(KINDS_GROUP, map[], KINDS_GROUP.rows[0]) == map[0 := C.Active]
  {
    var g := KINDS_GROUP;
    var evidence := g.observed[0].evidence;
    assert evidence[0] in evidence && evidence[1] in evidence;
    assert C.Episodes(evidence) == {0, 1};
    assert C.Incumbents(g, map[], g.rows[0]) == {};
  }

  lemma PreferenceQualifies()
    ensures C.Promoted(KINDS_GROUP, map[0 := C.Active], KINDS_GROUP.rows[1]) == map[0 := C.Active, 1 := C.Active]
  {
    var g := KINDS_GROUP;
    var evidence := g.observed[1].evidence;
    assert evidence[0] in evidence && evidence[1] in evidence && evidence[2] in evidence;
    assert C.Episodes(evidence) == {0, 1, 2} && C.UtcDays(evidence) == {0, 1};
    assert C.Incumbents(g, map[0 := C.Active], g.rows[1]) == {};
  }

  lemma KindsConsolidated()
    ensures C.Consolidated(KINDS_GROUP) == map[0 := C.Active, 1 := C.Active]
  {
    var g, moved := KINDS_GROUP, map[0 := C.Active, 1 := C.Active];
    FactQualifies();
    PreferenceQualifies();
    assert C.Promotions(g, 1) == C.Promoted(g, C.Promotions(g, 0), g.rows[0]);
    assert C.Promotions(g, 2) == moved;
    forall a, r | a in g.rows && r in g.rows && C.IsActive(moved, a) ensures !C.Challenges(g, moved, r, a) {
    }
    C.NoWinners(g, moved);
  }

  lemma KindsAreListed()
    ensures Lists(LIKED_NEXT_DAY.rows, "editor", KINDS_GROUP.rows)
  {
    var rows := KINDS_GROUP.rows;
    assert rows[0] in rows && rows[1] in rows;
  }

  lemma FactIsLedgered()
    ensures Ledgered(LIKED_NEXT_DAY, 0, KINDS_GROUP.observed[0])
  {
    var evidence := KINDS_GROUP.observed[0].evidence;
    assert evidence[0] in evidence && evidence[1] in evidence;
  }

  lemma PreferenceIsLedgered()
    ensures Ledgered(LIKED_NEXT_DAY, 1, KINDS_GROUP.observed[1])
  {
    var evidence := KINDS_GROUP.observed[1].evidence;
    assert evidence[0] in evidence && evidence[1] in evidence && evidence[2] in evidence;
  }

  lemma KindsPassIsEnabled()
    ensures Enabled(LIKED_NEXT_DAY, KINDS_STEPS[5])
  {
    KindsAreListed();
    FactIsLedgered();
    PreferenceIsLedgered();
    KindsConsolidated();
    var moves := KINDS_STEPS[5].moves;
    assert moves[0] in moves && moves[1] in moves;
  }

  const FACT_ACTIVE := LIKED_NEXT_DAY.(
    rows := LIKED_NEXT_DAY.rows[0 := VimRow(0, C.Fact, C.Active, 1, 2, 2, C.DAY_MS + 1, None)])

  lemma FactMoves()
    ensures M.TransitionedAll(LIKED_NEXT_DAY, [(0, C.Active)], C.DAY_MS + 1) == FACT_ACTIVE
  {
    var moves: seq<(M.Id, C.Status)> := [(0, C.Active)];
    assert moves[..0] == [];
  }

  lemma PreferenceMoves()
    ensures M.Transitioned(FACT_ACTIVE, 1, C.Active, C.DAY_MS + 1) == BOTH_KINDS_ACTIVE
  {
  }

  lemma TwoMoves(s: M.Store, a: (M.Id, C.Status), b: (M.Id, C.Status), now: int)
    ensures M.TransitionedAll(s, [a, b], now)
         == M.Transitioned(M.TransitionedAll(s, [a], now), b.0, b.1, now)
  {
    var moves := [a, b];
    assert moves[..1] == [a];
  }

  lemma KindsActivated()
    ensures Enabled(LIKED_NEXT_DAY, KINDS_STEPS[5]) && Next(LIKED_NEXT_DAY, KINDS_STEPS[5]) == BOTH_KINDS_ACTIVE
  {
    KindsPassIsEnabled();
    FactMoves();
    PreferenceMoves();
    TwoMoves(LIKED_NEXT_DAY, (0, C.Active), (1, C.Active), C.DAY_MS + 1);
  }

  lemma FirstKinds()
    requires AllEnabled(LIKED_ONCE, KINDS_STEPS[3..]) && Run(LIKED_ONCE, KINDS_STEPS[3..]) == BOTH_KINDS_ACTIVE
    ensures AllEnabled(M.EMPTY, KINDS_STEPS) && Run(M.EMPTY, KINDS_STEPS) == BOTH_KINDS_ACTIVE
  {
    FactSeen();
    FactSeenTwice();
    LikedOnce();
    ThreeSteps(KINDS_STEPS, 0, M.EMPTY, FIRST_SEEN, FACT_TWICE, LIKED_ONCE);
    assert KINDS_STEPS[0..] == KINDS_STEPS;
  }

  lemma FromNextDay()
    ensures AllEnabled(LIKED_NEXT_DAY, KINDS_STEPS[5..]) && Run(LIKED_NEXT_DAY, KINDS_STEPS[5..]) == BOTH_KINDS_ACTIVE
  {
    KindsActivated();
    LastStep(KINDS_STEPS, LIKED_NEXT_DAY, 5, BOTH_KINDS_ACTIVE);
  }

  lemma FromLikedTwice()
    ensures AllEnabled(LIKED_TWICE, KINDS_STEPS[4..]) && Run(LIKED_TWICE, KINDS_STEPS[4..]) == BOTH_KINDS_ACTIVE
  {
    FromNextDay();
    PreferenceHasTwin();
    LikedNextDay();
    StepsFrom(KINDS_STEPS, LIKED_TWICE, 4, LIKED_NEXT_DAY);
  }

  lemma FromLikedOnce()
    ensures AllEnabled(LIKED_ONCE, KINDS_STEPS[3..]) && Run(LIKED_ONCE, KINDS_STEPS[3..]) == BOTH_KINDS_ACTIVE
  {
    FromLikedTwice();
    LikedTwice();
    StepsFrom(KINDS_STEPS, LIKED_ONCE, 3, LIKED_TWICE);
  }

  /**
   * One claim stored under two kinds: with every step enabled, one pass activates
   * both rows, though nobody confirmed anything.
   */
  lemma TwoKindsBothActive()
    ensures AllEnabled(M.EMPTY, KINDS_STEPS)
    ensures var s := Run(M.EMPTY, KINDS_STEPS);
            && 0 in s.rows && 1 in s.rows && s.rows[0].claim == s.rows[1].claim && s.rows[0].key == s.rows[1].key
            && s.rows[0].status.Active? && s.rows[1].status.Active?
  {
    FromLikedOnce();
    FirstKinds();
  }
}
