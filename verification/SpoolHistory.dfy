/** What the daemon's answers decide: the fate of a file told from the operations of a run alone. */
module SpoolHistory {
  import opened Prelude
  import opened Spool

  // ------------------------------------------------------------------ answers

  /** The answers since the last load, oldest first. */
  function Noted(answers: seq<nat>, op: Op): seq<nat> {
    match op
    case Load(_) => []
    case Answer(n) => answers + [n]
    case _ => answers
  }

  function Answers(answers: seq<nat>, ops: seq<Op>): seq<nat>
    decreases |ops|
  {
    if ops == [] then answers else Answers(Noted(answers, ops[0]), ops[1..])
  }

  /** The first frames of a delivery were each answered, and each answer accounts for its whole frame. */
  predicate AllCovered(answers: seq<nat>, batches: seq<Batch>) {
    |answers| <= |Sends(batches)| && forall i | 0 <= i < |answers| :: answers[i] >= |Sends(batches)[i].events|
  }

  /** One answer a frame sent; the delivery counts as covered exactly while every answer covers its frame. */
  ghost predicate Remembers(s: Store, answers: seq<nat>) {
    Delivering(s) ==>
      var d := s.pass.value.delivery.value;
      d.sent == |answers| <= |Sends(d.batches)| && (d.covered <==> AllCovered(answers, d.batches))
  }

  lemma AnswerIsRemembered(s: Store, answers: seq<nat>, n: nat)
    requires Remembers(s, answers) && Enabled(s, Answer(n))
    ensures Remembers(Next(s, Answer(n)), answers + [n])
  {
    var d := s.pass.value.delivery.value;
    var all := answers + [n];
    assert all[|answers|] == n;
    assert forall i | 0 <= i < |answers| :: all[i] == answers[i];
  }

  lemma NextIsRemembered(s: Store, answers: seq<nat>, op: Op)
    requires Remembers(s, answers) && Enabled(s, op)
    ensures Remembers(Next(s, op), Noted(answers, op))
  {
    match op
    case Answer(n) => AnswerIsRemembered(s, answers, n);
    case Append(batch, line, unused, now, torn, locked) =>
      AppendKeepsPass(s, batch, line, unused, now, torn, locked);
    case PurgeExpired(now, locked) => PurgedFades(s, Sorted(s.disk.files.Keys), now, locked);
    case Restart(torn, now, locked) => RestartEndsPass(s, torn, now, locked);
    case _ =>
  }

  lemma {:induction false} RunIsRemembered(s: Store, answers: seq<nat>, ops: seq<Op>)
    requires Remembers(s, answers) && AllEnabled(s, ops)
    ensures Remembers(Run(s, ops), Answers(answers, ops))
    decreases |ops|
  {
    if ops != [] {
      NextIsRemembered(s, answers, ops[0]);
      RunIsRemembered(Next(s, ops[0]), Noted(answers, ops[0]), ops[1..]);
    }
  }

  /** The current file leaves the disk as acknowledged, and the pass goes on. */
  ghost predicate Acknowledged(s: Store, after: Store, k: Key)
    requires k in s.disk.files
  {
    && after.disk.files == s.disk.files - {k} && after.disk.gone == s.disk.gone[k := Gone(s.disk.files[k], Acked)]
    && after.pass.Some? && after.acked == s.acked && after.appended == s.appended
  }

  /**
   * A finished delivery, in any state of any run: one answer short of its frame
   * ends the pass with every file where it was, and with none short the file is
   * removed as acknowledged, unless it is gone or the file system holds on to it.
   */
  lemma ShortAnswerBlocks(ops: seq<Op>, locked: set<Key>)
    requires AllEnabled(EMPTY, ops) && Enabled(Run(EMPTY, ops), Finish(locked))
    ensures var s, answers := Run(EMPTY, ops), Answers([], ops);
            var k, batches, after := Current(s), s.pass.value.delivery.value.batches, Next(s, Finish(locked));
            && |answers| == |Sends(batches)|
            && ((exists i :: 0 <= i < |answers| && answers[i] < |Sends(batches)[i].events|) ==>
                  after == s.(pass := None))
            && ((forall i | 0 <= i < |answers| :: answers[i] >= |Sends(batches)[i].events|) ==>
                  after.pass == Some(Pass(s.pass.value.files[1..], None))
                  && if k in s.disk.files && k !in locked then Acknowledged(s, after, k) else after.disk == s.disk)
  {
    RunIsRemembered(EMPTY, [], ops);
  }

  // -------------------------------------------------------------- who is acked

  predicate IsAcked(gone: map<Key, Gone>, k: Key) { k in gone && gone[k].fate.Acked? }

  predicate Apart(disk: Disk) { disk.files.Keys !! disk.gone.Keys }

  /** No file is newly acknowledged, and the removed ones stay as they left. */
  ghost predicate AcksNone(gone: map<Key, Gone>, after: Disk) {
    && Apart(after) && (forall k | IsAcked(after.gone, k) :: IsAcked(gone, k))
    && forall k | k in gone :: k in after.gone && after.gone[k] == gone[k]
  }

  lemma {:induction false} CappedAcksNone(s: Store, locked: set<Key>)
    requires Apart(s.disk)
    ensures AcksNone(s.disk.gone, Capped(s, locked).disk)
    decreases |s.index.sizes|
  {
    if s.index.sizes != map[] && Sum(s.index.sizes) > TOTAL_CAP_BYTES {
      var k := Least(s.index.sizes.Keys);
      assert |s.index.sizes - {k}| < |s.index.sizes|;
      if !Stuck(s.disk, locked, k) { CappedAcksNone(Removed(s, k, Evicted), locked); }
    }
  }

  lemma {:induction false} PurgedAcksNone(s: Store, listing: seq<Key>, now: int, locked: set<Key>)
    requires Apart(s.disk)
    ensures AcksNone(s.disk.gone, Purged(s, listing, now, locked).disk)
    decreases |listing|
  {
    if listing != [] { PurgedAcksNone(s, listing[..|listing| - 1], now, locked); }
  }

  lemma AppendAcksNone(s: Store, batch: Batch, line: nat, unused: Key, now: int, torn: bool, locked: set<Key>)
    requires Apart(s.disk) && Unused(s, unused)
    ensures AcksNone(s.disk.gone, Appended(s, batch, line, unused, now, torn, locked).disk)
  {
    var ready := Rotated(s, line, unused, now);
    if !torn && ready.writer.Some? && ready.writer.value.key in ready.disk.files {
      CappedAcksNone(Written(ready, ready.writer.value.key, batch, line, now), locked);
    }
  }

  lemma SnapshotAcksNone(s: Store, now: int, locked: set<Key>)
    requires Apart(s.disk)
    ensures AcksNone(s.disk.gone, Snapshot(s, now, locked).disk)
  {
    var sealed := s.(writer := None);
    PurgedAcksNone(sealed, Sorted(sealed.disk.files.Keys), now, locked);
  }

  lemma RestartAcksNone(s: Store, torn: nat, now: int, locked: set<Key>)
    requires Apart(s.disk)
    ensures AcksNone(s.disk.gone, Restarted(s, torn, now, locked).disk)
  {
    var files := TornTail(s.disk.files, s.writer, torn);
    var bare := s.(disk := s.disk.(files := files), index := Index(map[], map[], 0), writer := None,
                   failures := map[], pass := None);
    PurgedAcksNone(bare, Sorted(files.Keys), now, locked);
  }

  lemma FailAcksNone(s: Store, environmental: bool, kept: set<Key>)
    requires Apart(s.disk) && Delivering(s)
    ensures AcksNone(s.disk.gone, Failed(s, environmental, kept).disk)
  {
  }

  lemma OthersAckNone(s: Store, op: Op)
    requires Apart(s.disk) && Enabled(s, op) && !op.Finish?
    ensures AcksNone(s.disk.gone, Next(s, op).disk)
  {
    match op
    case Append(batch, line, unused, now, torn, locked) =>
      AppendAcksNone(s, batch, line, unused, now, torn, locked);
    case PurgeExpired(now, locked) => PurgedAcksNone(s, Sorted(s.disk.files.Keys), now, locked);
    case StartReplay(now, locked) => if s.pass.None? { SnapshotAcksNone(s, now, locked); }
    case Restart(torn, now, locked) => RestartAcksNone(s, torn, now, locked);
    case Fail(environmental, kept) => FailAcksNone(s, environmental, kept);
    case _ =>
  }

  /** The `n`-th operation finishes file `k`, every frame of which was answered in full since it was loaded. */
  ghost predicate AccountedAt(s: Store, answers: seq<nat>, ops: seq<Op>, n: nat, k: Key, file: File) {
    && n < |ops| && ops[n].Finish? && AllEnabled(s, ops[..n])
    && var before, noted := Run(s, ops[..n]), Answers(answers, ops[..n]);
       && Delivering(before) && Current(before) == k && k in before.disk.files && before.disk.files[k] == file
       && |noted| == |Sends(file.batches)| && AllCovered(noted, file.batches)
  }

  lemma FinishAccounts(s: Store, answers: seq<nat>, ops: seq<Op>, k: Key)
    requires Sound(s) && Remembers(s, answers) && AllEnabled(s, ops) && ops != []
    requires !IsAcked(s.disk.gone, k) && IsAcked(Next(s, ops[0]).disk.gone, k)
    ensures AccountedAt(s, answers, ops, 0, k, Next(s, ops[0]).disk.gone[k].file)
  {
    if !ops[0].Finish? { OthersAckNone(s, ops[0]); }
    assert ops[..0] == [];
  }

  lemma LaterAccounts(s: Store, answers: seq<nat>, ops: seq<Op>, n: nat, k: Key, file: File)
    requires AllEnabled(s, ops) && ops != []
    requires AccountedAt(Next(s, ops[0]), Noted(answers, ops[0]), ops[1..], n, k, file)
    ensures AccountedAt(s, answers, ops, n + 1, k, file)
  {
    assert ops[..n + 1][0] == ops[0] && ops[..n + 1][1..] == ops[1..][..n];
  }

  lemma GoneStays(s: Store, op: Op)
    requires Sound(s) && Enabled(s, op)
    ensures forall k | k in s.disk.gone :: k in Next(s, op).disk.gone && Next(s, op).disk.gone[k] == s.disk.gone[k]
  {
    if !op.Finish? { OthersAckNone(s, op); }
  }

  /** How a file left is never revised. */
  lemma {:induction false} GoneIsFinal(s: Store, ops: seq<Op>, k: Key)
    requires Sound(s) && AllEnabled(s, ops) && k in s.disk.gone
    ensures k in Run(s, ops).disk.gone && Run(s, ops).disk.gone[k] == s.disk.gone[k]
    decreases |ops|
  {
    if ops != [] {
      GoneStays(s, ops[0]);
      NextIsSound(s, ops[0]);
      GoneIsFinal(Next(s, ops[0]), ops[1..], k);
    }
  }

  lemma {:induction false} NewlyAckedWasAccounted(s: Store, answers: seq<nat>, ops: seq<Op>, k: Key) returns (n: nat)
    requires Sound(s) && Remembers(s, answers) && AllEnabled(s, ops)
    requires !IsAcked(s.disk.gone, k) && IsAcked(Run(s, ops).disk.gone, k)
    ensures AccountedAt(s, answers, ops, n, k, Run(s, ops).disk.gone[k].file)
    decreases |ops|
  {
    var next := Next(s, ops[0]);
    NextIsSound(s, ops[0]);
    NextIsRemembered(s, answers, ops[0]);
    if IsAcked(next.disk.gone, k) {
      n := 0;
      FinishAccounts(s, answers, ops, k);
      GoneIsFinal(next, ops[1..], k);
    } else {
      n := NewlyAckedWasAccounted(next, Noted(answers, ops[0]), ops[1..], k);
      LaterAccounts(s, answers, ops, n, k, Run(s, ops).disk.gone[k].file);
      n := n + 1;
    }
  }

  /**
   * A file is removed as acknowledged only by a finish before which, since the
   * file's load, every one of its frames was answered, and answered in full:
   * this can be told from the operations alone.
   */
  lemma AckedFileWasAccounted(ops: seq<Op>, k: Key) returns (n: nat)
    requires AllEnabled(EMPTY, ops) && IsAcked(Run(EMPTY, ops).disk.gone, k)
    ensures AccountedAt(EMPTY, [], ops, n, k, Run(EMPTY, ops).disk.gone[k].file)
  {
    EmptyIsSound();
    n := NewlyAckedWasAccounted(EMPTY, [], ops, k);
  }

  // ------------------------------------------------------- acknowledged events

  /** The next frame carries the event, and the answer accounts for the whole of it. */
  ghost predicate AnswersFor(s: Store, op: Op, id: nat) {
    op.Answer? && Sendable(s) &&
    var d := s.pass.value.delivery.value;
    var send := Sends(d.batches)[d.sent];
    id in IdsOf(send.events) && op.accounted >= |send.events|
  }

  lemma CappedAcked(s: Store, locked: set<Key>)
    ensures Capped(s, locked).acked == s.acked
  {
    CappedFades(s, locked);
  }

  lemma NextAcked(s: Store, op: Op, id: nat)
    requires Enabled(s, op)
    ensures id in Next(s, op).acked <==> id in s.acked || AnswersFor(s, op, id)
  {
    match op
    case Append(batch, line, unused, now, torn, locked) =>
      var ready := Rotated(s, line, unused, now);
      if !torn && ready.writer.Some? && ready.writer.value.key in ready.disk.files {
        CappedAcked(Written(ready, ready.writer.value.key, batch, line, now), locked);
      }
    case PurgeExpired(now, locked) => PurgedFades(s, Sorted(s.disk.files.Keys), now, locked);
    case StartReplay(now, locked) =>
      if s.pass.None? { PurgedFades(s.(writer := None), Sorted(s.disk.files.Keys), now, locked); }
    case Restart(torn, now, locked) =>
      var files := TornTail(s.disk.files, s.writer, torn);
      var bare := s.(disk := s.disk.(files := files), index := Index(map[], map[], 0), writer := None,
                     failures := map[], pass := None);
      PurgedFades(bare, Sorted(files.Keys), now, locked);
    case _ =>
  }

  /** Some operation of the run answers for the event. */
  ghost predicate AnsweredFor(s: Store, ops: seq<Op>, id: nat)
    requires AllEnabled(s, ops)
    decreases |ops|
  {
    ops != [] && (AnswersFor(s, ops[0], id) || AnsweredFor(Next(s, ops[0]), ops[1..], id))
  }

  /** The acknowledged events are exactly those of frames that an answer accounted for in full. */
  lemma {:induction false} AckedIsAnsweredFor(s: Store, ops: seq<Op>, id: nat)
    requires AllEnabled(s, ops)
    ensures id in Run(s, ops).acked <==> id in s.acked || AnsweredFor(s, ops, id)
    decreases |ops|
  {
    if ops != [] {
      NextAcked(s, ops[0], id);
      AckedIsAnsweredFor(Next(s, ops[0]), ops[1..], id);
    }
  }
}
