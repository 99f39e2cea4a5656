/** Replay passes from start to end, and runs of the spool that end badly. */
module SpoolRuns {
  import opened Prelude
  import opened Spool

  // ------------------------------------------------------- a pass is in order

  /** The pass has left the file behind, delivered, and nothing is appended to it any more. */
  ghost predicate Behind(s: Store, k: Key) {
    Known(s.disk, k) && !(s.writer.Some? && s.writer.value.key == k) && Delivered(s, k)
  }

  lemma FadesStaysBehind(s: Store, after: Store, k: Key)
    requires Behind(s, k) && Fades(s, after)
    ensures Behind(after, k)
  {
  }

  lemma AppendStaysBehind(s: Store, batch: Batch, line: nat, unused: Key, now: int, torn: bool, locked: set<Key>,
                          k: Key)
    requires Behind(s, k) && Unused(s, unused)
    ensures Behind(Appended(s, batch, line, unused, now, torn, locked), k)
  {
    var ready := Rotated(s, line, unused, now);
    assert Behind(ready, k);
    if !torn && ready.writer.Some? && ready.writer.value.key in ready.disk.files {
      var written := Written(ready, ready.writer.value.key, batch, line, now);
      assert Behind(written, k);
      CappedFades(written, locked);
      FadesStaysBehind(written, Capped(written, locked), k);
    }
  }

  lemma ReplayStaysBehind(s: Store, op: Op, k: Key)
    requires Enabled(s, op) && Behind(s, k) && Replaying(s) && k != s.pass.value.files[0]
    requires op.Load? || op.Answer? || op.Fail? || op.Finish?
    ensures Behind(Next(s, op), k)
  {
  }

  lemma StaysBehind(s: Store, op: Op, k: Key)
    requires Enabled(s, op) && Behind(s, k) && s.pass.Some? && k !in s.pass.value.files && !op.Restart?
    ensures Behind(Next(s, op), k)
  {
    match op
    case Append(batch, line, unused, now, torn, locked) =>
      AppendStaysBehind(s, batch, line, unused, now, torn, locked, k);
    case PurgeExpired(now, locked) =>
      PurgedFades(s, Sorted(s.disk.files.Keys), now, locked);
      FadesStaysBehind(s, Next(s, op), k);
    case StartReplay(_, _) =>
    case EndPass =>
    case _ => ReplayStaysBehind(s, op, k);
  }

  /** The file the pass goes on from. */
  lemma FirstGetsBehind(s: Store, op: Op)
    requires Sound(s) && Enabled(s, op) && Replaying(s) && (op.Load? || op.Answer? || op.Fail? || op.Finish?)
    requires Delivered(Next(s, op), s.pass.value.files[0])
    ensures Behind(Next(s, op), s.pass.value.files[0])
  {
  }

  /** `n` files of the listing are behind the pass. */
  ghost predicate PassedBy(s: Store, listing: seq<Key>, n: nat) {
    && s.pass.Some? && n <= |listing| && s.pass.value.files == listing[n..]
    && forall i | 0 <= i < n :: Behind(s, listing[i])
  }

  lemma GoesOn(s: Store, op: Op, listing: seq<Key>, n: nat)
    requires Sound(s) && Enabled(s, op) && PassedBy(s, listing, n) && Replaying(s) && op != Load(false)
    requires Next(s, op).pass.Some? && Next(s, op).pass.value.files != s.pass.value.files
    ensures n < |listing| && Next(s, op).pass.value.files == listing[n + 1..] && Behind(Next(s, op), listing[n])
  {
    PassGoesOnInOrder(s, op);
    if op.Append? || op.PurgeExpired? || op.StartReplay? || op.Restart? { OthersKeepPass(s, op); }
    FirstGetsBehind(s, op);
  }

  lemma NotAhead(listing: seq<Key>, i: nat, n: nat)
    requires Ascending(listing) && i < n <= |listing|
    ensures listing[i] !in listing[n..]
  {
  }

  lemma StepPassesBy(s: Store, op: Op, listing: seq<Key>, n: nat) returns (m: nat)
    requires Sound(s) && Enabled(s, op) && PassedBy(s, listing, n) && Ascending(listing) && op != Load(false)
    requires Next(s, op).pass.Some?
    ensures PassedBy(Next(s, op), listing, m)
  {
    if op.Restart? { OthersKeepPass(s, op); }
    forall i | 0 <= i < n ensures Behind(Next(s, op), listing[i]) {
      NotAhead(listing, i, n);
      StaysBehind(s, op, listing[i]);
    }
    m := n;
    if Next(s, op).pass.value.files != s.pass.value.files {
      if !Replaying(s) { OthersKeepPass(s, op); }
      GoesOn(s, op, listing, n);
      m := n + 1;
    }
  }

  /** The pass is still under way after every step. */
  ghost predicate Lasts(s: Store, ops: seq<Op>)
    requires AllEnabled(s, ops)
    decreases |ops|
  {
    s.pass.Some? && (ops == [] || Lasts(Next(s, ops[0]), ops[1..]))
  }

  lemma {:induction false} RunPassesBy(s: Store, ops: seq<Op>, listing: seq<Key>, n: nat) returns (m: nat)
    requires Sound(s) && AllEnabled(s, ops) && Lasts(s, ops) && Load(false) !in ops
    requires PassedBy(s, listing, n) && Ascending(listing)
    ensures PassedBy(Run(s, ops), listing, m)
    decreases |ops|
  {
    m := n;
    if ops != [] {
      assert ops[0] in ops && forall op | op in ops[1..] :: op in ops;
      NextIsSound(s, ops[0]);
      m := StepPassesBy(s, ops[0], listing, n);
      m := RunPassesBy(Next(s, ops[0]), ops[1..], listing, m);
    }
  }

  /**
   * In every pass of every run, whatever is appended, purged or evicted
   * meanwhile: as long as each file can be read, all files listed before the
   * current one have left the spool or are wholly acknowledged.
   */
  lemma PassIsInOrder(before: seq<Op>, now: int, locked: set<Key>, ops: seq<Op>)
    requires AllEnabled(EMPTY, before) && Run(EMPTY, before).pass.None?
    requires var start := Next(Run(EMPTY, before), StartReplay(now, locked));
             AllEnabled(start, ops) && Lasts(start, ops) && Load(false) !in ops
    ensures var start := Next(Run(EMPTY, before), StartReplay(now, locked));
            var s, listing := Run(start, ops), start.pass.value.files;
            s.pass.Some? &&
            exists n :: 0 <= n <= |listing| && s.pass.value.files == listing[n..]
                        && forall i | 0 <= i < n :: Delivered(s, listing[i])
  {
    SpoolLedger(before);
    var reached := Run(EMPTY, before);
    NextIsSound(reached, StartReplay(now, locked));
    var start := Next(reached, StartReplay(now, locked));
    var listing := start.pass.value.files;
    assert listing[0..] == listing;
    var n := RunPassesBy(start, ops, listing, 0);
    assert forall i | 0 <= i < n :: Behind(Run(start, ops), listing[i]);
  }

  // ---------------------------------------------------------- building runs

  lemma OneStep(s: Store, op: Op, after: Store)
    requires Enabled(s, op) && Next(s, op) == after
    ensures AllEnabled(s, [op]) && Run(s, [op]) == after
  {
    assert [op][1..] == [];
  }

  lemma {:induction false} RunsJoin(s: Store, first: seq<Op>, second: seq<Op>)
    requires AllEnabled(s, first) && AllEnabled(Run(s, first), second)
    ensures AllEnabled(s, first + second) && Run(s, first + second) == Run(Run(s, first), second)
    decreases |first|
  {
    if first == [] {
      assert first + second == second;
    } else {
      assert (first + second)[1..] == first[1..] + second;
      RunsJoin(Next(s, first[0]), first[1..], second);
    }
  }

  lemma RunOn(s: Store, first: seq<Op>, mid: Store, second: seq<Op>, after: Store)
    requires AllEnabled(s, first) && Run(s, first) == mid && AllEnabled(mid, second) && Run(mid, second) == after
    ensures AllEnabled(s, first + second) && Run(s, first + second) == after
  {
    RunsJoin(s, first, second);
  }

  lemma ThenStep(s: Store, ops: seq<Op>, op: Op, after: Store)
    requires AllEnabled(s, ops) && Enabled(Run(s, ops), op) && Next(Run(s, ops), op) == after
    ensures AllEnabled(s, ops + [op]) && Run(s, ops + [op]) == after
  {
    OneStep(Run(s, ops), op, after);
    RunsJoin(s, ops, [op]);
  }

  function BatchOf(id: nat): Batch { Batch([Event(id, 0)], 0) }

  lemma OneSend(batch: Batch)
    requires batch.frame <= 1_048_576
    ensures Sends([batch]) == [Send(batch.events, batch.frame)]
  {
    assert [batch][..0] == [];
    assert Sends([]) == [];
  }

  lemma SortedOne(k: Key)
    ensures Sorted({k}) == [k]
  {
    assert IsLeast({k}, k);
    assert {k} - {k} == {};
  }

  lemma SortedTwo(a: Key, b: Key)
    requires Less(a, b)
    ensures Sorted({a, b}) == [a, b]
  {
    LeastIsUnique({a, b}, a);
    assert {a, b} - {a} == {b};
    SortedOne(b);
  }

  lemma {:induction false} NothingExpired(s: Store, listing: seq<Key>, now: int)
    requires forall k | k in s.disk.files :: k.stamp >= now - MAX_AGE_MS
    ensures Purged(s, listing, now, {}) == s
    decreases |listing|
  {
    if listing != [] { NothingExpired(s, listing[..|listing| - 1], now); }
  }

  function Listed(s: Store, listing: seq<Key>): Store { s.(writer := None, pass := Some(Pass(listing, None))) }

  lemma ReplayStarts(s: Store, listing: seq<Key>)
    requires s.pass.None? && Sorted(s.disk.files.Keys) == listing
    requires forall k | k in s.disk.files :: k.stamp >= 0
    ensures Next(s, StartReplay(0, {})) == Listed(s, listing)
  {
    NothingExpired(s.(writer := None), Sorted(s.disk.files.Keys), 0);
  }

  /** A batch alone in a new file. */
  function WithFile(s: Store, k: Key, batch: Batch, line: nat): Store {
    s.(disk := s.disk.(files := s.disk.files[k := File([batch], line, Some(0))]),
       index := Index(s.index.counts[k := |batch.events|], s.index.sizes[k := line],
                      s.index.total + |batch.events|),
       writer := Some(Writer(k, line)),
       appended := s.appended + {(k, batch)})
  }

  lemma FileOpens(s: Store, k: Key, batch: Batch, line: nat)
    requires s.writer.None? && Unused(s, k) && k !in s.index.counts
    ensures var ready := Rotated(s, line, k, 0);
            ready.writer == Some(Writer(k, 0)) && k in ready.disk.files
            && Written(ready, k, batch, line, 0) == WithFile(s, k, batch, line)
  {
    var ready, after := Rotated(s, line, k, 0), WithFile(s, k, batch, line);
    assert Longer(ready.disk.files[k], batch, line, 0) == after.disk.files[k];
    assert ready.disk.files[k := after.disk.files[k]] == after.disk.files;
    assert CountedIn(ready.index, k, |batch.events|, line).sizes == after.index.sizes;
  }

  lemma AppendOpens(s: Store, k: Key, batch: Batch, line: nat)
    requires s.writer.None? && Unused(s, k) && k !in s.index.counts
    ensures Next(s, Append(batch, line, k, 0, false, {})) == Capped(WithFile(s, k, batch, line), {})
  {
    FileOpens(s, k, batch, line);
  }

  // -------------------------------------------- an unreadable file is overtaken

  const OLDER := Key(0, 0, 0)
  const NEWER := Key(0, 1, 1)

  const ONE_FILE := WithFile(EMPTY, OLDER, BatchOf(0), 1)
  const SEALED := ONE_FILE.(writer := None)
  const TWO_FILES := WithFile(SEALED, NEWER, BatchOf(1), 1)

  lemma SumOfOne(k: Key, n: nat)
    ensures Sum(map[k := n]) == n
  {
    SumWithout(map[k := n], k);
    assert map[k := n] - {k} == map[];
  }

  const FIRST_FILE: seq<Op> := [Append(BatchOf(0), 1, OLDER, 0, false, {})]

  /** The first replay cannot read the file, and seals it. */
  const FIRST_REPLAY: seq<Op> := [StartReplay(0, {}), Load(false), EndPass]

  const SECOND_FILE: seq<Op> := [Append(BatchOf(1), 1, NEWER, 0, false, {})]

  /** Nor can the second one, which goes on to the newer file. */
  const SECOND_REPLAY: seq<Op> := [StartReplay(0, {}), Load(false), Load(true)]

  const DELIVERY: seq<Op> := [Answer(1), Finish({})]

  lemma FirstFile()
    ensures AllEnabled(EMPTY, FIRST_FILE) && Run(EMPTY, FIRST_FILE) == ONE_FILE
  {
    AppendOpens(EMPTY, OLDER, BatchOf(0), 1);
    assert ONE_FILE.index.sizes == map[OLDER := 1];
    SumOfOne(OLDER, 1);
    OneStep(EMPTY, FIRST_FILE[0], ONE_FILE);
  }

  lemma FirstReplay()
    ensures AllEnabled(ONE_FILE, FIRST_REPLAY) && Run(ONE_FILE, FIRST_REPLAY) == SEALED
  {
    assert ONE_FILE.disk.files.Keys == {OLDER};
    SortedOne(OLDER);
    ReplayStarts(ONE_FILE, [OLDER]);
    OneStep(ONE_FILE, StartReplay(0, {}), Listed(ONE_FILE, [OLDER]));
    ThenStep(ONE_FILE, [StartReplay(0, {})], Load(false), Listed(ONE_FILE, []));
    ThenStep(ONE_FILE, [StartReplay(0, {}), Load(false)], EndPass, SEALED);
  }

  lemma SecondFile()
    ensures AllEnabled(SEALED, SECOND_FILE) && Run(SEALED, SECOND_FILE) == TWO_FILES
  {
    AppendOpens(SEALED, NEWER, BatchOf(1), 1);
    assert TWO_FILES.index.sizes == map[OLDER := 1, NEWER := 1];
    SumWithout(TWO_FILES.index.sizes, NEWER);
    assert TWO_FILES.index.sizes - {NEWER} == map[OLDER := 1];
    SumOfOne(OLDER, 1);
    OneStep(SEALED, SECOND_FILE[0], TWO_FILES);
  }

  function Underway(s: Store, listing: seq<Key>, delivery: Delivery, acked: set<nat>): Store {
    s.(writer := None, pass := Some(Pass(listing, Some(delivery))), acked := acked)
  }

  const LOADED := Underway(TWO_FILES, [NEWER], Delivery([BatchOf(1)], 0, true), {})
  const ANSWERED := Underway(TWO_FILES, [NEWER], Delivery([BatchOf(1)], 1, true), {1})

  lemma NewerIsLoaded()
    ensures AllEnabled(TWO_FILES, SECOND_REPLAY) && Run(TWO_FILES, SECOND_REPLAY) == LOADED
  {
    assert TWO_FILES.disk.files.Keys == {OLDER, NEWER};
    SortedTwo(OLDER, NEWER);
    ReplayStarts(TWO_FILES, [OLDER, NEWER]);
    OneStep(TWO_FILES, StartReplay(0, {}), Listed(TWO_FILES, [OLDER, NEWER]));
    assert [OLDER, NEWER][1..] == [NEWER];
    ThenStep(TWO_FILES, [StartReplay(0, {})], Load(false), Listed(TWO_FILES, [NEWER]));
    ThenStep(TWO_FILES, [StartReplay(0, {}), Load(false)], Load(true), LOADED);
    assert [StartReplay(0, {}), Load(false)] + [Load(true)] == SECOND_REPLAY;
  }

  lemma NewerIsDelivered()
    ensures AllEnabled(LOADED, DELIVERY) && Run(LOADED, DELIVERY) == Finished(ANSWERED, {})
  {
    OneSend(BatchOf(1));
    assert IdsOf([Event(1, 0)]) == {1} by { assert [Event(1, 0)][0] in [Event(1, 0)]; }
    OneStep(LOADED, Answer(1), ANSWERED);
    ThenStep(LOADED, [Answer(1)], Finish({}), Finished(ANSWERED, {}));
    assert [Answer(1)] + [Finish({})] == DELIVERY;
  }

  const NEWER_FILE := FIRST_FILE + FIRST_REPLAY + SECOND_FILE

  lemma NewerOpens()
    ensures AllEnabled(EMPTY, NEWER_FILE) && Run(EMPTY, NEWER_FILE) == TWO_FILES
  {
    FirstFile();
    FirstReplay();
    RunsJoin(EMPTY, FIRST_FILE, FIRST_REPLAY);
    SecondFile();
    RunsJoin(EMPTY, FIRST_FILE + FIRST_REPLAY, SECOND_FILE);
  }

  /**
   * The order is broken exactly where the step lemma allows it: an older file
   * that could not be read stays, its event unacknowledged, while the newer
   * file is delivered and gone.
   */
  lemma UnreadableFileIsOvertaken() returns (ops: seq<Op>)
    ensures AllEnabled(EMPTY, ops)
    ensures var s := Run(EMPTY, ops);
            && Less(OLDER, NEWER) && (OLDER, BatchOf(0)) in s.appended && (NEWER, BatchOf(1)) in s.appended
            && OLDER in s.disk.files && BatchOf(0) in s.disk.files[OLDER].batches && 0 !in s.acked
            && NEWER !in s.disk.files && 1 in s.acked
  {
    NewerOpens();
    NewerIsLoaded();
    RunsJoin(EMPTY, NEWER_FILE, SECOND_REPLAY);
    NewerIsDelivered();
    RunsJoin(EMPTY, NEWER_FILE + SECOND_REPLAY, DELIVERY);
    ops := NEWER_FILE + SECOND_REPLAY + DELIVERY;
  }
}
