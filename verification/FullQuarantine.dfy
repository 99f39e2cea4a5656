/** A run of the spool that fills the quarantine, and then loses a quarantined file for nothing. */
module FullQuarantine {
  import opened Prelude
  import opened Spool
  import opened SpoolRuns

  const BATCH := BatchOf(0)

  // ----------------------------------------------------- one delivery attempt

  function Alone(k: Key, line: nat): map<Key, File> { map[k := File([BATCH], line, Some(0))] }

  function Attempt(kept: set<Key>): seq<Op> { [StartReplay(0, {}), Load(true), Fail(false, kept)] }

  function Loading(s: Store, k: Key): Store { Underway(s, [k], Delivery([BATCH], 0, true), s.acked) }

  lemma OnlyFileLoads(s: Store, k: Key, line: nat)
    requires s.pass.None? && s.disk.files == Alone(k, line) && k.stamp >= 0
    ensures AllEnabled(s, [StartReplay(0, {}), Load(true)])
    ensures Run(s, [StartReplay(0, {}), Load(true)]) == Loading(s, k)
  {
    assert s.disk.files.Keys == {k};
    SortedOne(k);
    ReplayStarts(s, [k]);
    OneStep(s, StartReplay(0, {}), Listed(s, [k]));
    ThenStep(s, [StartReplay(0, {})], Load(true), Loading(s, k));
  }

  lemma AttemptFails(s: Store, k: Key, line: nat, kept: set<Key>)
    requires s.pass.None? && s.disk.files == Alone(k, line) && k.stamp >= 0 && Trimmed(s.disk.poison, kept)
    ensures AllEnabled(s, Attempt(kept)) && Run(s, Attempt(kept)) == Failed(Loading(s, k), false, kept)
  {
    OnlyFileLoads(s, k, line);
    OneSend(BATCH);
    ThenStep(s, [StartReplay(0, {}), Load(true)], Fail(false, kept), Failed(Loading(s, k), false, kept));
    assert [StartReplay(0, {}), Load(true)] + [Fail(false, kept)] == Attempt(kept);
  }

  // -------------------------------------------------------- filling it up

  function Name(n: nat): Key { Key(0, n, n) }

  function Names(n: nat): set<Key> { set i | 0 <= i < n :: Name(i) }

  lemma {:induction false} NamesCount(n: nat)
    ensures |Names(n)| == n && Name(n) !in Names(n)
  {
    if n > 0 {
      NamesCount(n - 1);
      assert Names(n) == Names(n - 1) + {Name(n - 1)};
    } else {
      assert Names(0) == {};
    }
  }

  /** The first `n` names quarantined, and nothing else. */
  function Filled(n: nat): Store {
    Store(Disk(map[], Names(n), map k | k in Names(n) :: Gone(File([BATCH], 1, Some(0)), Quarantined)),
          Index(map[], map[], 0), None, map[], None, set k | k in Names(n) :: (k, BATCH), {})
  }

  /** One more file, with its strikes. */
  function Struck(n: nat, strikes: nat): Store {
    WithFile(Filled(n), Name(n), BATCH, 1).(
      writer := None, failures := if strikes == 0 then map[] else map[Name(n) := strikes])
  }

  function AppendNext(n: nat): Op { Append(BATCH, 1, Name(n), 0, false, {}) }

  lemma FileIsAppended(n: nat)
    ensures AllEnabled(Filled(n), [AppendNext(n)])
    ensures Run(Filled(n), [AppendNext(n)]) == Struck(n, 0).(writer := Some(Writer(Name(n), 1)))
  {
    NamesCount(n);
    AppendOpens(Filled(n), Name(n), BATCH, 1);
    var after := WithFile(Filled(n), Name(n), BATCH, 1);
    assert after.index.sizes == map[Name(n) := 1];
    SumOfOne(Name(n), 1);
    OneStep(Filled(n), AppendNext(n), after);
  }

  lemma FileIsStruck(n: nat, strikes: nat, writer: Option<Writer>, kept: set<Key>)
    requires strikes < 2 && Trimmed(Names(n), kept)
    ensures AllEnabled(Struck(n, strikes).(writer := writer), Attempt(kept))
    ensures Run(Struck(n, strikes).(writer := writer), Attempt(kept)) == Struck(n, strikes + 1)
  {
    var s := Struck(n, strikes).(writer := writer);
    assert s.disk.files == Alone(Name(n), 1);
    AttemptFails(s, Name(n), 1, kept);
    assert s.failures[Name(n) := strikes + 1] == map[Name(n) := strikes + 1];
  }

  lemma MovedAside(n: nat)
    ensures Failed(Loading(Struck(n, 2), Name(n)), false, Names(n)) == Filled(n + 1).(pass := Some(Pass([], None)))
  {
    var k, after := Name(n), Failed(Loading(Struck(n, 2), Name(n)), false, Names(n));
    assert Names(n + 1) == Names(n) + {k};
    assert [k][1..] == [];
    assert after.disk == Filled(n + 1).disk;
    assert after.index == Filled(n + 1).index;
    assert after.appended == Filled(n + 1).appended;
  }

  lemma FileIsQuarantined(n: nat)
    requires n < MAX_QUARANTINED
    ensures AllEnabled(Struck(n, 2), Attempt(Names(n)) + [EndPass])
    ensures Run(Struck(n, 2), Attempt(Names(n)) + [EndPass]) == Filled(n + 1)
  {
    NamesCount(n);
    var s, k := Struck(n, 2), Name(n);
    AttemptFails(s, k, 1, Names(n));
    MovedAside(n);
    ThenStep(s, Attempt(Names(n)), EndPass, Filled(n + 1));
  }

  /** Append a file and fail to deliver it twice. */
  function TwoStrikes(n: nat, kept: set<Key>): seq<Op> { [AppendNext(n)] + Attempt(kept) + Attempt(kept) }

  lemma StruckOnce(n: nat, kept: set<Key>)
    requires Trimmed(Names(n), kept)
    ensures AllEnabled(Filled(n), [AppendNext(n)] + Attempt(kept))
    ensures Run(Filled(n), [AppendNext(n)] + Attempt(kept)) == Struck(n, 1)
  {
    FileIsAppended(n);
    FileIsStruck(n, 0, Some(Writer(Name(n), 1)), kept);
    RunOn(Filled(n), [AppendNext(n)], Struck(n, 0).(writer := Some(Writer(Name(n), 1))), Attempt(kept), Struck(n, 1));
  }

  lemma StruckAgain(n: nat, kept: set<Key>)
    requires Trimmed(Names(n), kept)
    ensures AllEnabled(Struck(n, 1), Attempt(kept)) && Run(Struck(n, 1), Attempt(kept)) == Struck(n, 2)
  {
    FileIsStruck(n, 1, None, kept);
    assert Struck(n, 1).(writer := None) == Struck(n, 1);
  }

  lemma StruckTwice(n: nat, kept: set<Key>)
    requires Trimmed(Names(n), kept)
    ensures AllEnabled(Filled(n), TwoStrikes(n, kept)) && Run(Filled(n), TwoStrikes(n, kept)) == Struck(n, 2)
  {
    StruckOnce(n, kept);
    StruckAgain(n, kept);
    RunOn(Filled(n), [AppendNext(n)] + Attempt(kept), Struck(n, 1), Attempt(kept), Struck(n, 2));
  }

  lemma ThenStruckTwice(first: seq<Op>, n: nat, kept: set<Key>)
    requires AllEnabled(EMPTY, first) && Run(EMPTY, first) == Filled(n) && Trimmed(Names(n), kept)
    ensures AllEnabled(EMPTY, first + TwoStrikes(n, kept)) && Run(EMPTY, first + TwoStrikes(n, kept)) == Struck(n, 2)
  {
    StruckTwice(n, kept);
    RunOn(EMPTY, first, Filled(n), TwoStrikes(n, kept), Struck(n, 2));
  }

  function Round(n: nat): seq<Op> { TwoStrikes(n, Names(n)) + (Attempt(Names(n)) + [EndPass]) }

  lemma RoundQuarantines(n: nat)
    requires n < MAX_QUARANTINED
    ensures AllEnabled(Filled(n), Round(n)) && Run(Filled(n), Round(n)) == Filled(n + 1)
  {
    NamesCount(n);
    StruckTwice(n, Names(n));
    FileIsQuarantined(n);
    RunOn(Filled(n), TwoStrikes(n, Names(n)), Struck(n, 2), Attempt(Names(n)) + [EndPass], Filled(n + 1));
  }

  function Filling(n: nat): seq<Op> { if n == 0 then [] else Filling(n - 1) + Round(n - 1) }

  /** Any number of quarantined names up to the limit is reached. */
  lemma {:induction false} QuarantineFills(n: nat)
    requires n <= MAX_QUARANTINED
    ensures AllEnabled(EMPTY, Filling(n)) && Run(EMPTY, Filling(n)) == Filled(n)
  {
    if n == 0 {
      assert Filled(0) == EMPTY by { assert Names(0) == {}; }
    } else {
      QuarantineFills(n - 1);
      RoundQuarantines(n - 1);
      RunsJoin(EMPTY, Filling(n - 1), Round(n - 1));
    }
  }

  // ------------------------------------------------------ a name lost for nothing

  const FULL := MAX_QUARANTINED

  /** All names but the first. */
  function Kept(): set<Key> { Names(FULL) - {Name(0)} }

  lemma KeptIsTrimmed()
    ensures Trimmed(Names(FULL), Kept()) && |Kept()| == FULL - 1
  {
    NamesCount(FULL);
    assert Name(0) in Names(FULL);
  }

  /** Appended while the last file is being delivered: as big as the cap, so that file is evicted. */
  const HUGE: Op := Append(BATCH, TOTAL_CAP_BYTES, Name(FULL + 1), 0, false, {})

  const LOADED_THEN_EVICTED: seq<Op> := [StartReplay(0, {}), Load(true), HUGE]

  function Evicting(): Store {
    Removed(WithFile(Loading(Struck(FULL, 2), Name(FULL)), Name(FULL + 1), BATCH, TOTAL_CAP_BYTES), Name(FULL), Evicted)
  }

  /** Two files just too big together: the older one goes. */
  lemma EvictsFirst(s: Store, k: Key, n: nat, o: Key, m: nat)
    requires Less(k, o) && s.index.sizes == map[k := n, o := m] && n + m > TOTAL_CAP_BYTES >= m
    ensures Capped(s, {}) == Removed(s, k, Evicted)
  {
    SumWithout(s.index.sizes, k);
    assert s.index.sizes - {k} == map[o := m];
    SumOfOne(o, m);
    LeastIsUnique(s.index.sizes.Keys, k);
  }

  lemma HugeEvicts()
    ensures Enabled(Loading(Struck(FULL, 2), Name(FULL)), HUGE)
    ensures Next(Loading(Struck(FULL, 2), Name(FULL)), HUGE) == Evicting()
  {
    var s := Loading(Struck(FULL, 2), Name(FULL));
    var k, huge := Name(FULL), Name(FULL + 1);
    assert huge !in Names(FULL);
    AppendOpens(s, huge, BATCH, TOTAL_CAP_BYTES);
    var longer := WithFile(s, huge, BATCH, TOTAL_CAP_BYTES);
    assert longer.index.sizes == map[k := 1, huge := TOTAL_CAP_BYTES];
    EvictsFirst(longer, k, 1, huge, TOTAL_CAP_BYTES);
  }

  lemma FileIsEvicted()
    ensures AllEnabled(Struck(FULL, 2), LOADED_THEN_EVICTED)
    ensures Run(Struck(FULL, 2), LOADED_THEN_EVICTED) == Evicting()
  {
    var s := Struck(FULL, 2);
    assert s.disk.files == Alone(Name(FULL), 1);
    OnlyFileLoads(s, Name(FULL), 1);
    HugeEvicts();
    ThenStep(s, [StartReplay(0, {}), Load(true)], HUGE, Evicting());
    assert [StartReplay(0, {}), Load(true)] + [HUGE] == LOADED_THEN_EVICTED;
  }

  lemma ThirdStrike()
    ensures Enabled(Evicting(), Fail(false, Kept()))
    ensures Next(Evicting(), Fail(false, Kept())).disk.poison == Kept()
    ensures Next(Evicting(), Fail(false, Kept())).disk.gone == Evicting().disk.gone
  {
    OneSend(BATCH);
    KeptIsTrimmed();
    assert Kept() - {Name(FULL)} == Kept();
  }

  function Before(): seq<Op> { Filling(FULL) + TwoStrikes(FULL, Kept()) + LOADED_THEN_EVICTED }

  lemma StruckTwiceWhenFull()
    ensures AllEnabled(EMPTY, Filling(FULL) + TwoStrikes(FULL, Kept()))
    ensures Run(EMPTY, Filling(FULL) + TwoStrikes(FULL, Kept())) == Struck(FULL, 2)
  {
    QuarantineFills(FULL);
    KeptIsTrimmed();
    ThenStruckTwice(Filling(FULL), FULL, Kept());
  }

  lemma ThenEvicted(first: seq<Op>)
    requires AllEnabled(EMPTY, first) && Run(EMPTY, first) == Struck(FULL, 2)
    ensures AllEnabled(EMPTY, first + LOADED_THEN_EVICTED) && Run(EMPTY, first + LOADED_THEN_EVICTED) == Evicting()
  {
    FileIsEvicted();
    RunOn(EMPTY, first, Struck(FULL, 2), LOADED_THEN_EVICTED, Evicting());
  }

  lemma EvictingIsReached()
    ensures AllEnabled(EMPTY, Before()) && Run(EMPTY, Before()) == Evicting()
  {
    StruckTwiceWhenFull();
    ThenEvicted(Filling(FULL) + TwoStrikes(FULL, Kept()));
  }

  lemma EvictingIsFull()
    ensures Evicting().disk.poison == Names(FULL) && |Names(FULL)| == MAX_QUARANTINED
  {
    NamesCount(FULL);
  }

  /**
   * With the quarantine full, a file struck twice is evicted in the middle of its
   * third attempt; the attempt fails, nothing is moved to the quarantine, and yet
   * its first file is no longer there.
   */
  lemma QuarantinedFileIsLost()
    ensures AllEnabled(EMPTY, Before()) && AllEnabled(EMPTY, Before() + [Fail(false, Kept())])
    ensures var s, after := Run(EMPTY, Before()), Run(EMPTY, Before() + [Fail(false, Kept())]);
            && s.disk.poison == Names(FULL) && |s.disk.poison| == 32
            && after.disk.poison == s.disk.poison - {Name(0)} && |after.disk.poison| == 31
            && after.disk.gone == s.disk.gone
  {
    EvictingIsReached();
    EvictingIsFull();
    ThirdStrike();
    ThenStep(EMPTY, Before(), Fail(false, Kept()), Next(Evicting(), Fail(false, Kept())));
    KeptIsTrimmed();
  }
}
