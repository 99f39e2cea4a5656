/**
 * The recorder's offline spool: rotating files under a size cap and an age
 * limit, with replay passes that interleave with appends.
 */
module Spool {
  import opened Prelude
  import Framing

  const ROTATE_BYTES := 512 * 1024
  const TOTAL_CAP_BYTES := 25 * 1024 * 1024
  const MAX_AGE_MS := 48 * 60 * 60 * 1000
  const MAX_SEND_FAILURES := 3
  const MAX_QUARANTINED := 32

  /** What orders files: the stamp in the name, the creation sequence, then the name itself. */
  datatype Key = Key(stamp: int, sequence: int, name: nat)

  /** `frame` is the encoded size of a frame that carries the event alone. */
  datatype Event = Event(id: nat, frame: nat)

  /** `frame` is the encoded size of the whole batch. */
  datatype Batch = Batch(events: seq<Event>, frame: nat)

  datatype File = File(batches: seq<Batch>, bytes: nat, modified: Option<int>)

  // ------------------------------------------------------------------- order

  predicate Less(a: Key, b: Key) {
    if a.stamp != b.stamp then a.stamp < b.stamp
    else if a.sequence != b.sequence then a.sequence < b.sequence
    else a.name < b.name
  }

  predicate IsLeast(keys: set<Key>, k: Key) { k in keys && forall o | o in keys && o != k :: Less(k, o) }

  lemma {:induction false} LeastExists(keys: set<Key>)
    requires keys != {}
    ensures exists k :: IsLeast(keys, k)
    decreases |keys|
  {
    var x :| x in keys;
    var rest := keys - {x};
    assert keys == rest + {x};
    if rest == {} {
      assert keys == {x} && IsLeast({x}, x);
    } else {
      LeastExists(rest);
      var y :| IsLeast(rest, y);
      var k := if Less(x, y) then x else y;
      assert forall o | o in rest + {x} && o != k :: Less(k, o);
      assert IsLeast(keys, k);
    }
  }

  ghost function Least(keys: set<Key>): (k: Key)
    requires keys != {}
    ensures IsLeast(keys, k)
  {
    LeastExists(keys);
    var k :| IsLeast(keys, k);
    k
  }

  predicate Ascending(keys: seq<Key>) { forall i, j | 0 <= i < j < |keys| :: Less(keys[i], keys[j]) }

  /** The directory listing in replay order. */
  ghost function Sorted(keys: set<Key>): seq<Key> {
    if keys == {} then [] else [Least(keys)] + Sorted(keys - {Least(keys)})
  }

  lemma {:induction false} SortedLists(keys: set<Key>)
    ensures Ascending(Sorted(keys)) && forall k :: k in Sorted(keys) <==> k in keys
    decreases |keys|
  {
    if keys != {} {
      var k := Least(keys);
      SortedLists(keys - {k});
      var rest := Sorted(keys - {k});
      forall j | 0 <= j < |rest| ensures Less(k, rest[j]) { assert rest[j] in rest; }
    }
  }

  // --------------------------------------------------------------------- sums

  ghost function Sum(m: map<Key, nat>): nat {
    if m == map[] then 0 else var k := Least(m.Keys); m[k] + Sum(m - {k})
  }

  lemma {:induction false} SumWithout(m: map<Key, nat>, k: Key)
    requires k in m
    ensures Sum(m) == m[k] + Sum(m - {k})
    decreases |m|
  {
    var least := Least(m.Keys);
    if least != k {
      SumWithout(m - {least}, k);
      assert (m - {least}) - {k} == (m - {k}) - {least};
      assert IsLeast((m - {k}).Keys, least);
      assert Least((m - {k}).Keys) == least;
    }
  }

  lemma SumUpdate(m: map<Key, nat>, k: Key, n: nat)
    ensures Sum(m[k := n]) == Sum(m) - (if k in m then m[k] else 0) + n
  {
    SumWithout(m[k := n], k);
    assert m[k := n] - {k} == m - {k};
    if k in m { SumWithout(m, k); } else { assert m - {k} == m; }
  }

  // ------------------------------------------------------------------- state

  function EventCount(batches: seq<Batch>): nat {
    if batches == [] then 0 else EventCount(batches[..|batches| - 1]) + |batches[|batches| - 1].events|
  }

  datatype Fate = Acked | Quarantined | Evicted | Expired

  datatype Gone = Gone(file: File, fate: Fate)

  /** The files, the quarantined ones, and, for reasoning only, what became of every file removed. */
  datatype Disk = Disk(files: map<Key, File>, poison: set<Key>, gone: map<Key, Gone>)

  /** The in-memory index. */
  datatype Index = Index(counts: map<Key, nat>, sizes: map<Key, nat>, total: int)

  /** The file being delivered: its decoded batches and how many sends have been answered. */
  datatype Delivery = Delivery(batches: seq<Batch>, sent: nat, covered: bool)

  /** A replay pass; the first file is the one under way. */
  datatype Pass = Pass(files: seq<Key>, delivery: Option<Delivery>)

  datatype Writer = Writer(key: Key, size: nat)

  datatype Store = Store(
    disk: Disk, index: Index, writer: Option<Writer>, failures: map<Key, nat>, pass: Option<Pass>,
    appended: set<(Key, Batch)>,   // every batch successfully appended
    acked: set<nat>)               // events covered by an acknowledgement that accounted for its whole frame

  // --------------------------------------------------------------- operations

  function Drop(index: Index, k: Key): Index {
    // A file without a count is counted on disk, where it no longer is.
    Index(index.counts - {k}, index.sizes - {k}, index.total - if k in index.counts then index.counts[k] else 0)
  }

  /** A file leaves the spool; a phantom index entry is only forgotten. */
  function Removed(s: Store, k: Key, fate: Fate): Store {
    s.(disk := if k in s.disk.files
               then s.disk.(files := s.disk.files - {k}, gone := s.disk.gone[k := Gone(s.disk.files[k], fate)])
               else s.disk,
       index := Drop(s.index, k),
       writer := if s.writer.Some? && s.writer.value.key == k then None else s.writer)
  }

  /** A file the file system refuses to delete; deleting one that is not there fails harmlessly. */
  predicate Stuck(disk: Disk, locked: set<Key>, k: Key) { k in disk.files && k in locked }

  /** Oldest files first, until the indexed sizes fit the cap; a stuck file ends the eviction. */
  ghost function Capped(s: Store, locked: set<Key>): Store
    decreases |s.index.sizes|
  {
    if s.index.sizes == map[] || Sum(s.index.sizes) <= TOTAL_CAP_BYTES then s
    else
      var k := Least(s.index.sizes.Keys);
      assert |s.index.sizes - {k}| < |s.index.sizes|;
      if Stuck(s.disk, locked, k) then s else Capped(Removed(s, k, Evicted), locked)
  }

  function Rotated(s: Store, line: nat, unused: Key, now: int): Store {
    if s.writer.None? || s.writer.value.size + line > ROTATE_BYTES then
      s.(disk := s.disk.(files := s.disk.files[unused := File([], 0, Some(now))]),
         index := s.index.(sizes := s.index.sizes[unused := 0]),
         writer := Some(Writer(unused, 0)))
    else s
  }

  function Longer(file: File, batch: Batch, line: nat, now: int): File {
    File(file.batches + [batch], file.bytes + line, Some(now))
  }

  function CountedIn(index: Index, k: Key, events: nat, line: nat): Index {
    Index(index.counts[k := events + if k in index.counts then index.counts[k] else 0],
          index.sizes[k := line + if k in index.sizes then index.sizes[k] else 0],
          index.total + events)
  }

  function Written(s: Store, k: Key, batch: Batch, line: nat, now: int): Store
    requires k in s.disk.files && s.writer.Some?
  {
    s.(disk := s.disk.(files := s.disk.files[k := Longer(s.disk.files[k], batch, line, now)]),
       index := CountedIn(s.index, k, |batch.events|, line),
       writer := Some(Writer(k, s.writer.value.size + line)),
       appended := s.appended + {(k, batch)})
  }

  /** A torn write is cut back to where it began, so only the rotation is left of it. */
  ghost function Appended(s: Store, batch: Batch, line: nat, unused: Key, now: int, torn: bool, locked: set<Key>): Store
  {
    var ready := Rotated(s, line, unused, now);
    if torn || ready.writer.None? || ready.writer.value.key !in ready.disk.files then ready
    else Capped(Written(ready, ready.writer.value.key, batch, line, now), locked)
  }

  predicate IsExpired(files: map<Key, File>, k: Key, now: int) {
    && k in files && k.stamp < now - MAX_AGE_MS
    && files[k].modified.Some? && files[k].modified.value < now - MAX_AGE_MS
  }

  /** Every expired file of the listing is deleted, stuck ones excepted. */
  function Purged(s: Store, listing: seq<Key>, now: int, locked: set<Key>): Store
    decreases |listing|
  {
    if listing == [] then s
    else
      var rest, k := Purged(s, listing[..|listing| - 1], now, locked), listing[|listing| - 1];
      if IsExpired(rest.disk.files, k, now) && k !in locked then Removed(rest, k, Expired) else rest
  }

  /** Seal, purge and list in one critical section. */
  ghost function Snapshot(s: Store, now: int, locked: set<Key>): Store {
    var sealed := s.(writer := None);
    var purged := Purged(sealed, Sorted(sealed.disk.files.Keys), now, locked);
    purged.(pass := Some(Pass(Sorted(purged.disk.files.Keys), None)))
  }

  /** One frame of a delivery. */
  datatype Send = Send(events: seq<Event>, frame: nat)

  /** A batch goes whole when its frame fits, else event by event. */
  function SendsOf(batch: Batch): seq<Send> {
    if batch.frame <= Framing.MAX_FRAME_BYTES then [Send(batch.events, batch.frame)]
    else seq(|batch.events|, i requires 0 <= i < |batch.events| => Send([batch.events[i]], batch.events[i].frame))
  }

  function Sends(batches: seq<Batch>): seq<Send> {
    if batches == [] then [] else Sends(batches[..|batches| - 1]) + SendsOf(batches[|batches| - 1])
  }

  function IdsOf(events: seq<Event>): set<nat> { set e | e in events :: e.id }

  predicate Delivering(s: Store) { s.pass.Some? && s.pass.value.files != [] && s.pass.value.delivery.Some? }

  function Current(s: Store): Key
    requires Delivering(s)
  {
    s.pass.value.files[0]
  }

  function Advanced(s: Store): Store
    requires s.pass.Some? && s.pass.value.files != []
  {
    s.(pass := Some(Pass(s.pass.value.files[1..], None)))
  }

  function Loaded(s: Store, readable: bool): Store
    requires s.pass.Some? && s.pass.value.files != []
  {
    var k := s.pass.value.files[0];
    if readable && k in s.disk.files
    then s.(pass := Some(s.pass.value.(delivery := Some(Delivery(s.disk.files[k].batches, 0, true)))))
    else Advanced(s)
  }

  function Answered(s: Store, accounted: nat): Store
    requires Delivering(s) && s.pass.value.delivery.value.sent < |Sends(s.pass.value.delivery.value.batches)|
  {
    var d := s.pass.value.delivery.value;
    var send := Sends(d.batches)[d.sent];
    var whole := accounted >= |send.events|;
    s.(pass := Some(s.pass.value.(delivery := Some(d.(sent := d.sent + 1, covered := d.covered && whole)))),
       acked := if whole then s.acked + IdsOf(send.events) else s.acked)
  }

  /** Past the replay cursor, at most `MAX_QUARANTINED` such files being kept. */
  function Moved(s: Store, k: Key, poison: set<Key>): Store {
    var removed := Removed(s, k, Quarantined);
    removed.(disk := removed.disk.(poison := poison + {k}), failures := s.failures - {k})
  }

  function Strikes(s: Store, k: Key): nat { if k in s.failures then s.failures[k] else 0 }

  /**
   * An environmental failure blocks without penalty; the third strike quarantines.
   * The quarantined names make room before the file is moved, so they have gone
   * even when the file is no longer there to be moved.
   */
  function Failed(s: Store, environmental: bool, poison: set<Key>): Store
    requires Delivering(s)
  {
    var k := Current(s);
    var struck := s.(failures := s.failures[k := Strikes(s, k) + 1]);
    if environmental then s.(pass := None)
    else if Strikes(s, k) + 1 < MAX_SEND_FAILURES then struck.(pass := None)
    else if k !in s.disk.files then struck.(disk := s.disk.(poison := poison - {k}), pass := None)
    else Moved(Advanced(struck), k, poison)
  }

  /** A fully covered file is removed if the file system lets go of it; any other outcome stops the pass. */
  function Finished(s: Store, locked: set<Key>): Store
    requires Delivering(s)
  {
    var k := Current(s);
    if !s.pass.value.delivery.value.covered then s.(pass := None)
    else if k in s.disk.files && k !in locked then Advanced(Removed(s, k, Acked).(failures := s.failures - {k}))
    else Advanced(s)
  }

  // --------------------------------------------------------------- invariants

  ghost predicate SizesOk(files: map<Key, File>, sizes: map<Key, nat>) {
    sizes.Keys == files.Keys && forall k | k in files :: sizes[k] == files[k].bytes
  }

  ghost predicate CountsOk(files: map<Key, File>, counts: map<Key, nat>) {
    && counts.Keys <= files.Keys
    && forall k | k in files :: EventCount(files[k].batches) == if k in counts then counts[k] else 0
  }

  /** Sizes and counts mirror the files, and the total is the sum of the counts. */
  ghost predicate IndexOk(files: map<Key, File>, index: Index) {
    SizesOk(files, index.sizes) && CountsOk(files, index.counts) && index.total == Sum(index.counts)
  }

  predicate WriterOk(files: map<Key, File>, writer: Option<Writer>) {
    writer.Some? ==> writer.value.key in files && writer.value.size == files[writer.value.key].bytes
  }

  predicate Known(disk: Disk, k: Key) { k in disk.files || k in disk.gone }

  /** Listed files are in replay order, and none of them is the open writer. */
  ghost predicate PassOk(disk: Disk, writer: Option<Writer>, pass: Option<Pass>) {
    pass.Some? ==>
      && Ascending(pass.value.files)
      && forall k | k in pass.value.files ::
           Known(disk, k) && k !in disk.poison && !(writer.Some? && writer.value.key == k)
  }

  function ContentOf(disk: Disk, k: Key): seq<Batch>
    requires Known(disk, k)
  {
    if k in disk.files then disk.files[k].batches else disk.gone[k].file.batches
  }

  ghost predicate AnsweredUpTo(batches: seq<Batch>, n: nat, acked: set<nat>)
    requires n <= |Sends(batches)|
  {
    forall i | 0 <= i < n :: IdsOf(Sends(batches)[i].events) <= acked
  }

  /** Delivered is what the file holds; as long as it counts as covered, every send so far was acknowledged whole. */
  ghost predicate DeliveryOk(disk: Disk, pass: Option<Pass>, acked: set<nat>) {
    pass.Some? && pass.value.files != [] && pass.value.delivery.Some? ==>
      var k, d := pass.value.files[0], pass.value.delivery.value;
      && Known(disk, k) && ContentOf(disk, k) == d.batches && d.sent <= |Sends(d.batches)|
      && (d.covered ==> AnsweredUpTo(d.batches, d.sent, acked))
  }

  /** An appended batch is in its file, on disk or as the file was when it left. */
  ghost predicate LedgerOk(disk: Disk, appended: set<(Key, Batch)>) {
    forall a | a in appended :: Known(disk, a.0) && a.1 in ContentOf(disk, a.0)
  }

  ghost predicate AllAcked(batches: seq<Batch>, acked: set<nat>) {
    forall b | b in batches :: IdsOf(b.events) <= acked
  }

  /** A file removed as acknowledged had every event of every batch acknowledged. */
  ghost predicate AckedOk(gone: map<Key, Gone>, acked: set<nat>) {
    forall k | k in gone && gone[k].fate.Acked? :: AllAcked(gone[k].file.batches, acked)
  }

  /** Two strikes at most while a file is on disk; a bounded number of quarantined files. */
  ghost predicate StrikesOk(disk: Disk, failures: map<Key, nat>) {
    && (forall k | k in failures :: Known(disk, k))
    && (forall k | k in disk.files && k in failures :: failures[k] < MAX_SEND_FAILURES)
    && disk.poison <= disk.gone.Keys && |disk.poison| <= MAX_QUARANTINED
  }

  ghost predicate Sound(s: Store) {
    && s.disk.files.Keys !! s.disk.gone.Keys
    && IndexOk(s.disk.files, s.index)
    && WriterOk(s.disk.files, s.writer)
    && PassOk(s.disk, s.writer, s.pass)
    && DeliveryOk(s.disk, s.pass, s.acked)
    && LedgerOk(s.disk, s.appended)
    && AckedOk(s.disk.gone, s.acked)
    && StrikesOk(s.disk, s.failures)
  }

  lemma DropIsOk(files: map<Key, File>, index: Index, k: Key)
    requires IndexOk(files, index)
    ensures IndexOk(files - {k}, Drop(index, k))
  {
    if k in index.counts { SumWithout(index.counts, k); } else { assert index.counts - {k} == index.counts; }
  }

  lemma RemovedDisk(disk: Disk, after: Disk, k: Key, fate: Fate)
    requires disk.files.Keys !! disk.gone.Keys && k in disk.files
    requires after.files == disk.files - {k} && after.gone == disk.gone[k := Gone(disk.files[k], fate)]
    ensures after.files.Keys !! after.gone.Keys
    ensures forall o | Known(disk, o) :: Known(after, o) && ContentOf(after, o) == ContentOf(disk, o)
  {
  }

  lemma RemovedIsSound(s: Store, k: Key, fate: Fate)
    requires Sound(s) && k in s.disk.files
    requires fate.Acked? ==> AllAcked(s.disk.files[k].batches, s.acked)
    ensures Sound(Removed(s, k, fate))
  {
    var after := Removed(s, k, fate);
    DropIsOk(s.disk.files, s.index, k);
    RemovedDisk(s.disk, after.disk, k, fate);
  }

  lemma {:induction false} CappedIsSound(s: Store, locked: set<Key>)
    requires Sound(s)
    ensures Sound(Capped(s, locked))
    decreases |s.index.sizes|
  {
    if s.index.sizes != map[] && Sum(s.index.sizes) > TOTAL_CAP_BYTES {
      var k := Least(s.index.sizes.Keys);
      RemovedIsSound(s, k, Evicted);
      assert |s.index.sizes - {k}| < |s.index.sizes|;
      if !Stuck(s.disk, locked, k) { CappedIsSound(Removed(s, k, Evicted), locked); }
    }
  }

  /** A new name, never used before. */
  predicate Unused(s: Store, k: Key) { !Known(s.disk, k) }

  lemma AddedIndex(files: map<Key, File>, index: Index, k: Key, now: int)
    requires IndexOk(files, index) && k !in files
    ensures IndexOk(files[k := File([], 0, Some(now))], index.(sizes := index.sizes[k := 0]))
  {
  }

  /** A disk that grew: every file known before still has its batches. */
  ghost predicate Keeps(disk: Disk, after: Disk) {
    forall k | Known(disk, k) :: Known(after, k) && forall b | b in ContentOf(disk, k) :: b in ContentOf(after, k)
  }

  lemma KeepsLedger(disk: Disk, after: Disk, appended: set<(Key, Batch)>)
    requires LedgerOk(disk, appended) && Keeps(disk, after)
    ensures LedgerOk(after, appended)
  {
  }

  /** A delivery is not disturbed by what happens to other files. */
  lemma KeepsPass(disk: Disk, after: Disk, writer: Option<Writer>, later: Option<Writer>, pass: Option<Pass>,
                  acked: set<nat>)
    requires PassOk(disk, writer, pass) && DeliveryOk(disk, pass, acked)
    requires pass.Some? ==> forall k | k in pass.value.files ::
               && Known(after, k) && ContentOf(after, k) == ContentOf(disk, k) && k !in after.poison
               && !(later.Some? && later.value.key == k)
    ensures PassOk(after, later, pass) && DeliveryOk(after, pass, acked)
  {
  }

  lemma RotatedDisk(s: Store, line: nat, unused: Key, now: int, after: Store)
    requires Sound(s) && Unused(s, unused) && after == Rotated(s, line, unused, now)
    ensures IndexOk(after.disk.files, after.index) && StrikesOk(after.disk, after.failures)
    ensures LedgerOk(after.disk, after.appended)
  {
    AddedIndex(s.disk.files, s.index, unused, now);
    assert Keeps(s.disk, after.disk);
    KeepsLedger(s.disk, after.disk, s.appended);
  }

  lemma RotatedPass(s: Store, line: nat, unused: Key, now: int, after: Store)
    requires Sound(s) && Unused(s, unused) && after == Rotated(s, line, unused, now)
    ensures PassOk(after.disk, after.writer, after.pass) && DeliveryOk(after.disk, after.pass, after.acked)
  {
    KeepsPass(s.disk, after.disk, s.writer, after.writer, s.pass, s.acked);
  }

  lemma RotatedIsSound(s: Store, line: nat, unused: Key, now: int)
    requires Sound(s) && Unused(s, unused)
    ensures Sound(Rotated(s, line, unused, now)) && Rotated(s, line, unused, now).writer.Some?
  {
    RotatedDisk(s, line, unused, now, Rotated(s, line, unused, now));
    RotatedPass(s, line, unused, now, Rotated(s, line, unused, now));
  }

  lemma WrittenSizes(files: map<Key, File>, index: Index, k: Key, batch: Batch, line: nat, now: int)
    requires SizesOk(files, index.sizes) && k in files
    ensures SizesOk(files[k := Longer(files[k], batch, line, now)], CountedIn(index, k, |batch.events|, line).sizes)
  {
  }

  lemma OneMoreBatch(batches: seq<Batch>, batch: Batch)
    ensures EventCount(batches + [batch]) == EventCount(batches) + |batch.events|
  {
    assert (batches + [batch])[..|batches|] == batches;
  }

  lemma WrittenCounts(files: map<Key, File>, index: Index, k: Key, batch: Batch, line: nat, now: int)
    requires CountsOk(files, index.counts) && k in files
    ensures CountsOk(files[k := Longer(files[k], batch, line, now)], CountedIn(index, k, |batch.events|, line).counts)
  {
    OneMoreBatch(files[k].batches, batch);
  }

  lemma WrittenTotal(index: Index, k: Key, events: nat, line: nat)
    requires index.total == Sum(index.counts)
    ensures CountedIn(index, k, events, line).total == Sum(CountedIn(index, k, events, line).counts)
  {
    SumUpdate(index.counts, k, events + if k in index.counts then index.counts[k] else 0);
  }

  lemma WrittenIndex(files: map<Key, File>, index: Index, k: Key, batch: Batch, line: nat, now: int,
                     files': map<Key, File>, index': Index)
    requires IndexOk(files, index) && k in files
    requires files' == files[k := Longer(files[k], batch, line, now)]
    requires index' == CountedIn(index, k, |batch.events|, line)
    ensures IndexOk(files', index')
  {
    WrittenSizes(files, index, k, batch, line, now);
    WrittenCounts(files, index, k, batch, line, now);
    WrittenTotal(index, k, |batch.events|, line);
  }

  lemma WrittenLedger(disk: Disk, after: Disk, appended: set<(Key, Batch)>, k: Key, batch: Batch)
    requires k in disk.files && k in after.files && after.gone == disk.gone && LedgerOk(disk, appended)
    requires after.files.Keys == disk.files.Keys && after.files[k].batches == disk.files[k].batches + [batch]
    requires forall o | o in disk.files && o != k :: after.files[o] == disk.files[o]
    ensures LedgerOk(after, appended + {(k, batch)})
  {
    forall a | a in appended + {(k, batch)} ensures Known(after, a.0) && a.1 in ContentOf(after, a.0) {
      var longer := disk.files[k].batches + [batch];
      assert longer[|longer| - 1] == batch;
      if a in appended && a.0 == k { assert a.1 in disk.files[k].batches; }
    }
  }

  lemma WrittenPass(s: Store, batch: Batch, line: nat, now: int, w: Writer, after: Store)
    requires Sound(s) && s.writer == Some(w) && after == Written(s, w.key, batch, line, now)
    ensures PassOk(after.disk, after.writer, after.pass) && DeliveryOk(after.disk, after.pass, after.acked)
  {
    KeepsPass(s.disk, after.disk, s.writer, after.writer, s.pass, s.acked);
  }

  lemma WrittenFiles(s: Store, batch: Batch, line: nat, now: int, w: Writer, after: Store)
    requires Sound(s) && s.writer == Some(w) && after == Written(s, w.key, batch, line, now)
    ensures IndexOk(after.disk.files, after.index)
  {
    WrittenIndex(s.disk.files, s.index, w.key, batch, line, now, after.disk.files, after.index);
  }

  lemma WrittenWriter(s: Store, batch: Batch, line: nat, now: int, w: Writer, after: Store)
    requires Sound(s) && s.writer == Some(w) && after == Written(s, w.key, batch, line, now)
    ensures WriterOk(after.disk.files, after.writer) && after.disk.files.Keys == s.disk.files.Keys
  {
  }

  lemma WrittenLedgerOk(s: Store, batch: Batch, line: nat, now: int, w: Writer, after: Store)
    requires Sound(s) && s.writer == Some(w) && after == Written(s, w.key, batch, line, now)
    ensures LedgerOk(after.disk, after.appended) && StrikesOk(after.disk, after.failures)
  {
    WrittenLedger(s.disk, after.disk, s.appended, w.key, batch);
  }

  lemma WrittenIsSound(s: Store, batch: Batch, line: nat, now: int, w: Writer, after: Store)
    requires Sound(s) && s.writer == Some(w) && after == Written(s, w.key, batch, line, now)
    ensures Sound(after)
  {
    WrittenFiles(s, batch, line, now, w, after);
    WrittenWriter(s, batch, line, now, w, after);
    WrittenPass(s, batch, line, now, w, after);
    WrittenLedgerOk(s, batch, line, now, w, after);
  }

  lemma AppendedIsSound(s: Store, batch: Batch, line: nat, unused: Key, now: int, torn: bool, locked: set<Key>)
    requires Sound(s) && Unused(s, unused)
    ensures Sound(Appended(s, batch, line, unused, now, torn, locked))
  {
    RotatedIsSound(s, line, unused, now);
    var ready := Rotated(s, line, unused, now);
    if !torn {
      var written := Written(ready, ready.writer.value.key, batch, line, now);
      WrittenIsSound(ready, batch, line, now, ready.writer.value, written);
      CappedIsSound(written, locked);
    }
  }

  lemma {:induction false} PurgedIsSound(s: Store, listing: seq<Key>, now: int, locked: set<Key>)
    requires Sound(s)
    ensures Sound(Purged(s, listing, now, locked))
    ensures s.writer.None? ==> Purged(s, listing, now, locked).writer.None?
    decreases |listing|
  {
    if listing != [] {
      PurgedIsSound(s, listing[..|listing| - 1], now, locked);
      var rest, k := Purged(s, listing[..|listing| - 1], now, locked), listing[|listing| - 1];
      if IsExpired(rest.disk.files, k, now) { RemovedIsSound(rest, k, Expired); }
    }
  }

  lemma SnapshotIsSound(s: Store, now: int, locked: set<Key>)
    requires Sound(s) && s.pass.None?
    ensures Sound(Snapshot(s, now, locked))
  {
    var sealed := s.(writer := None);
    PurgedIsSound(sealed, Sorted(sealed.disk.files.Keys), now, locked);
    var purged := Purged(sealed, Sorted(sealed.disk.files.Keys), now, locked);
    SortedLists(purged.disk.files.Keys);
  }

  lemma BatchCovered(batch: Batch, acked: set<nat>)
    requires forall j | 0 <= j < |SendsOf(batch)| :: IdsOf(SendsOf(batch)[j].events) <= acked
    ensures IdsOf(batch.events) <= acked
  {
    if batch.frame <= Framing.MAX_FRAME_BYTES {
      assert SendsOf(batch)[0].events == batch.events;
    } else {
      forall e | e in batch.events ensures e.id in acked {
        var j :| 0 <= j < |batch.events| && batch.events[j] == e;
        assert e in SendsOf(batch)[j].events && e.id in IdsOf(SendsOf(batch)[j].events);
      }
    }
  }

  lemma {:induction false} SendsCover(batches: seq<Batch>, acked: set<nat>)
    requires AnsweredUpTo(batches, |Sends(batches)|, acked)
    ensures AllAcked(batches, acked)
  {
    if batches != [] {
      var init, last := batches[..|batches| - 1], batches[|batches| - 1];
      forall i | 0 <= i < |Sends(init)| ensures IdsOf(Sends(init)[i].events) <= acked {
        assert Sends(batches)[i] == Sends(init)[i];
      }
      SendsCover(init, acked);
      forall j | 0 <= j < |SendsOf(last)| ensures IdsOf(SendsOf(last)[j].events) <= acked {
        assert Sends(batches)[|Sends(init)| + j] == SendsOf(last)[j];
      }
      BatchCovered(last, acked);
      assert batches == init + [last];
    }
  }

  lemma AdvancedPass(disk: Disk, writer: Option<Writer>, pass: Pass, acked: set<nat>)
    requires PassOk(disk, writer, Some(pass)) && pass.files != []
    ensures PassOk(disk, writer, Some(Pass(pass.files[1..], None)))
    ensures DeliveryOk(disk, Some(Pass(pass.files[1..], None)), acked)
  {
  }

  lemma AdvancedIsSound(s: Store)
    requires Sound(s) && s.pass.Some? && s.pass.value.files != []
    ensures Sound(Advanced(s))
  {
    AdvancedPass(s.disk, s.writer, s.pass.value, s.acked);
  }

  lemma LoadedIsSound(s: Store, readable: bool)
    requires Sound(s) && s.pass.Some? && s.pass.value.files != []
    ensures Sound(Loaded(s, readable))
  {
    AdvancedIsSound(s);
  }

  lemma AnsweredIsSound(s: Store, accounted: nat)
    requires Sound(s) && Delivering(s)
    requires s.pass.value.delivery.value.sent < |Sends(s.pass.value.delivery.value.batches)|
    ensures Sound(Answered(s, accounted))
  {
    var after := Answered(s, accounted);
    var d, d' := s.pass.value.delivery.value, after.pass.value.delivery.value;
    if d'.covered {
      forall i | 0 <= i < d'.sent ensures IdsOf(Sends(d.batches)[i].events) <= after.acked {
        if i < d.sent { assert IdsOf(Sends(d.batches)[i].events) <= s.acked; }
      }
    }
    forall k | k in s.disk.gone && s.disk.gone[k].fate.Acked?
      ensures AllAcked(s.disk.gone[k].file.batches, after.acked)
    {
      assert AllAcked(s.disk.gone[k].file.batches, s.acked);
    }
  }

  /** Room for exactly one more: the first poison names have gone if the limit was reached. */
  ghost predicate Trimmed(poison: set<Key>, kept: set<Key>) {
    && kept <= poison && |kept| < MAX_QUARANTINED
    && (if |poison| < MAX_QUARANTINED then kept == poison else |kept| == MAX_QUARANTINED - 1)
    && forall k, o | k in poison - kept && o in kept :: k.name <= o.name
  }

  lemma ForgottenStrikes(s: Store, k: Key)
    requires Sound(s)
    ensures Sound(s.(failures := s.failures - {k}))
  {
  }

  lemma OtherPoisonIsSound(s: Store, poison: set<Key>)
    requires Sound(s) && poison <= s.disk.gone.Keys && |poison| <= MAX_QUARANTINED
    requires s.pass.Some? ==> forall k | k in s.pass.value.files :: k !in poison
    ensures Sound(s.(disk := s.disk.(poison := poison)))
  {
    var disk := s.disk.(poison := poison);
    KeepsLedger(s.disk, disk, s.appended);
    KeepsPass(s.disk, disk, s.writer, s.writer, s.pass, s.acked);
  }

  lemma MovedIsSound(s: Store, k: Key, kept: set<Key>)
    requires Sound(s) && k in s.disk.files && Trimmed(s.disk.poison, kept)
    requires s.pass.Some? ==> k !in s.pass.value.files
    ensures Sound(Moved(s, k, kept))
  {
    var removed := Removed(s, k, Quarantined);
    RemovedIsSound(s, k, Quarantined);
    assert |kept + {k}| <= |kept| + 1;
    ForgottenStrikes(removed, k);
    OtherPoisonIsSound(removed.(failures := s.failures - {k}), kept + {k});
  }

  /** The third strike: the file is moved aside, and the strike is forgotten with it. */
  lemma StruckOut(s: Store, k: Key, strikes: nat, kept: set<Key>)
    requires Sound(s) && k in s.disk.files && Trimmed(s.disk.poison, kept)
    ensures Moved(s.(failures := s.failures[k := strikes]), k, kept) == Moved(s, k, kept)
  {
    assert s.failures[k := strikes] - {k} == s.failures - {k};
  }

  lemma StrikeBlocks(s: Store, k: Key, strikes: nat)
    requires Sound(s) && Known(s.disk, k) && (strikes < MAX_SEND_FAILURES || k !in s.disk.files)
    ensures Sound(s.(failures := s.failures[k := strikes], pass := None))
  {
  }

  lemma MissingIsSound(s: Store, k: Key, strikes: nat, kept: set<Key>)
    requires Sound(s) && Known(s.disk, k) && k !in s.disk.files && Trimmed(s.disk.poison, kept)
    ensures Sound(s.(failures := s.failures[k := strikes], disk := s.disk.(poison := kept - {k}), pass := None))
  {
    StrikeBlocks(s, k, strikes);
    assert |kept - {k}| <= |kept|;
    OtherPoisonIsSound(s.(failures := s.failures[k := strikes], pass := None), kept - {k});
  }

  lemma QuarantineIsSound(s: Store, k: Key, strikes: nat, kept: set<Key>)
    requires Sound(s) && Delivering(s) && k == Current(s) && k in s.disk.files && Trimmed(s.disk.poison, kept)
    ensures Sound(Moved(Advanced(s).(failures := s.failures[k := strikes]), k, kept))
  {
    AdvancedIsSound(s);
    MovedIsSound(Advanced(s), k, kept);
    StruckOut(Advanced(s), k, strikes, kept);
  }

  lemma FailedIsSound(s: Store, environmental: bool, kept: set<Key>)
    requires Sound(s) && Delivering(s) && Trimmed(s.disk.poison, kept)
    ensures Sound(Failed(s, environmental, kept))
  {
    var k, strikes := Current(s), Strikes(s, Current(s)) + 1;
    if environmental {
    } else if strikes < MAX_SEND_FAILURES {
      StrikeBlocks(s, k, strikes);
    } else if k !in s.disk.files {
      MissingIsSound(s, k, strikes, kept);
    } else {
      QuarantineIsSound(s, k, strikes, kept);
    }
  }

  lemma FinishedIsSound(s: Store, locked: set<Key>)
    requires Sound(s) && Delivering(s)
    requires s.pass.value.delivery.value.sent == |Sends(s.pass.value.delivery.value.batches)|
    ensures Sound(Finished(s, locked))
  {
    var k, d := Current(s), s.pass.value.delivery.value;
    if d.covered && k in s.disk.files && k !in locked {
      SendsCover(d.batches, s.acked);
      RemovedIsSound(s, k, Acked);
      ForgottenStrikes(Removed(s, k, Acked), k);
      AdvancedIsSound(Removed(s, k, Acked).(failures := s.failures - {k}));
    } else {
      AdvancedIsSound(s);
    }
  }

  // ----------------------------------------------------------------- sessions

  /** The index a new session builds by scanning the files it finds. */
  ghost function Scanned(files: map<Key, File>): Index {
    var counts := map k | k in files :: EventCount(files[k].batches);
    Index(counts, map k | k in files :: files[k].bytes, Sum(counts))
  }

  /** A crash may leave part of a line at the end of the open file. */
  function TornTail(files: map<Key, File>, writer: Option<Writer>, torn: nat): map<Key, File> {
    if writer.Some? && writer.value.key in files
    then files[writer.value.key := files[writer.value.key].(bytes := files[writer.value.key].bytes + torn)] else files
  }

  /** Memory is lost; the new session purges, then scans. */
  ghost function Restarted(s: Store, torn: nat, now: int, locked: set<Key>): Store {
    var files := TornTail(s.disk.files, s.writer, torn);
    var bare := s.(disk := s.disk.(files := files), index := Index(map[], map[], 0), writer := None,
                   failures := map[], pass := None);
    var purged := Purged(bare, Sorted(files.Keys), now, locked);
    purged.(index := Scanned(purged.disk.files))
  }

  lemma {:induction false} PurgedIgnoresIndex(s: Store, index: Index, listing: seq<Key>, now: int, locked: set<Key>)
    ensures Purged(s.(index := index), listing, now, locked)
         == Purged(s, listing, now, locked).(index := Purged(s.(index := index), listing, now, locked).index)
    decreases |listing|
  {
    if listing != [] { PurgedIgnoresIndex(s, index, listing[..|listing| - 1], now, locked); }
  }

  lemma TornTailKeepsLedger(s: Store, torn: nat)
    requires Sound(s)
    ensures LedgerOk(s.disk.(files := TornTail(s.disk.files, s.writer, torn)), s.appended)
  {
    KeepsLedger(s.disk, s.disk.(files := TornTail(s.disk.files, s.writer, torn)), s.appended);
  }

  lemma RescanIsSound(s: Store)
    requires Sound(s)
    ensures Sound(s.(index := Scanned(s.disk.files)))
  {
  }

  lemma RestartedIsSound(s: Store, torn: nat, now: int, locked: set<Key>)
    requires Sound(s)
    ensures Sound(Restarted(s, torn, now, locked))
  {
    var files := TornTail(s.disk.files, s.writer, torn);
    TornTailKeepsLedger(s, torn);
    var rescanned := Store(s.disk.(files := files), Scanned(files), None, map[], None, s.appended, s.acked);
    assert Sound(rescanned);
    PurgedIsSound(rescanned, Sorted(files.Keys), now, locked);
    PurgedIgnoresIndex(rescanned, Index(map[], map[], 0), Sorted(files.Keys), now, locked);
    RescanIsSound(Purged(rescanned, Sorted(files.Keys), now, locked));
  }

  // ---------------------------------------------------------------- all runs

  /** `locked` are the files the file system refuses to delete during the operation. */
  datatype Op =
    | Append(batch: Batch, line: nat, unused: Key, now: int, torn: bool, locked: set<Key>)
    | PurgeExpired(now: int, locked: set<Key>)
    | StartReplay(now: int, locked: set<Key>)
    | Load(readable: bool)
    | Answer(accounted: nat)
    | Fail(environmental: bool, kept: set<Key>)
    | Finish(locked: set<Key>)
    | EndPass
    | Restart(partial: nat, now: int, locked: set<Key>)

  predicate Sendable(s: Store) {
    Delivering(s) && s.pass.value.delivery.value.sent < |Sends(s.pass.value.delivery.value.batches)|
  }

  /** A frame beyond the wire limit is never sent: it fails at once. */
  predicate Fits(s: Store)
    requires Sendable(s)
  {
    var d := s.pass.value.delivery.value;
    Sends(d.batches)[d.sent].frame <= Framing.MAX_FRAME_BYTES
  }

  ghost predicate Enabled(s: Store, op: Op) {
    match op
    case Append(_, _, unused, _, _, _) => Unused(s, unused)
    case Load(_) => s.pass.Some? && s.pass.value.files != [] && s.pass.value.delivery.None?
    case Answer(_) => Sendable(s) && Fits(s)
    case Fail(environmental, kept) => Sendable(s) && (environmental ==> Fits(s)) && Trimmed(s.disk.poison, kept)
    case Finish(_) =>
      && Delivering(s) && !Sendable(s)
      && s.pass.value.delivery.value.sent <= |Sends(s.pass.value.delivery.value.batches)|
    case EndPass => s.pass.Some? && s.pass.value.files == []
    case _ => true
  }

  ghost function Next(s: Store, op: Op): Store
    requires Enabled(s, op)
  {
    match op
    case Append(batch, line, unused, now, torn, locked) => Appended(s, batch, line, unused, now, torn, locked)
    case PurgeExpired(now, locked) => Purged(s, Sorted(s.disk.files.Keys), now, locked)
    case StartReplay(now, locked) => if s.pass.Some? then s else Snapshot(s, now, locked)
    case Load(readable) => Loaded(s, readable)
    case Answer(accounted) => Answered(s, accounted)
    case Fail(environmental, kept) => Failed(s, environmental, kept)
    case Finish(locked) => Finished(s, locked)
    case EndPass => s.(pass := None)
    case Restart(torn, now, locked) => Restarted(s, torn, now, locked)
  }

  lemma NextIsSound(s: Store, op: Op)
    requires Sound(s) && Enabled(s, op)
    ensures Sound(Next(s, op))
  {
    match op
    case Append(batch, line, unused, now, torn, locked) =>
      AppendedIsSound(s, batch, line, unused, now, torn, locked);
    case PurgeExpired(now, locked) => PurgedIsSound(s, Sorted(s.disk.files.Keys), now, locked);
    case StartReplay(now, locked) => if s.pass.None? { SnapshotIsSound(s, now, locked); }
    case Load(readable) => LoadedIsSound(s, readable);
    case Answer(accounted) => AnsweredIsSound(s, accounted);
    case Fail(environmental, kept) => FailedIsSound(s, environmental, kept);
    case Finish(locked) => FinishedIsSound(s, locked);
    case EndPass =>
    case Restart(torn, now, locked) => RestartedIsSound(s, torn, now, locked);
  }

  const EMPTY := Store(Disk(map[], {}, map[]), Index(map[], map[], 0), None, map[], None, {}, {})

  ghost predicate AllEnabled(s: Store, ops: seq<Op>)
    decreases |ops|
  {
    ops == [] || (Enabled(s, ops[0]) && AllEnabled(Next(s, ops[0]), ops[1..]))
  }

  ghost function Run(s: Store, ops: seq<Op>): Store
    requires AllEnabled(s, ops)
    decreases |ops|
  {
    if ops == [] then s else Run(Next(s, ops[0]), ops[1..])
  }

  lemma {:induction false} RunIsSound(s: Store, ops: seq<Op>)
    requires Sound(s) && AllEnabled(s, ops)
    ensures Sound(Run(s, ops))
    decreases |ops|
  {
    if ops != [] {
      NextIsSound(s, ops[0]);
      RunIsSound(Next(s, ops[0]), ops[1..]);
    }
  }

  lemma EmptyIsSound()
    ensures Sound(EMPTY)
  {
  }

  /**
   * However appends, replay passes, evictions, purges and crashes interleave:
   * every batch ever appended is on disk, or its file was quarantined, evicted
   * or expired, or removed with every event of it acknowledged; the event total
   * is the sum over the files; a listed file is never the open writer.
   */
  lemma SpoolLedger(ops: seq<Op>)
    requires AllEnabled(EMPTY, ops)
    ensures var s := Run(EMPTY, ops);
            forall a | a in s.appended ::
              || (a.0 in s.disk.files && a.1 in s.disk.files[a.0].batches)
              || (a.0 in s.disk.gone && a.1 in s.disk.gone[a.0].file.batches
                  && (s.disk.gone[a.0].fate.Acked? ==> IdsOf(a.1.events) <= s.acked))
    ensures Sound(Run(EMPTY, ops))
  {
    EmptyIsSound();
    RunIsSound(EMPTY, ops);
    var s := Run(EMPTY, ops);
    forall a | a in s.appended && a.0 !in s.disk.files && s.disk.gone[a.0].fate.Acked?
      ensures IdsOf(a.1.events) <= s.acked
    {
      assert AllAcked(s.disk.gone[a.0].file.batches, s.acked);
    }
  }

  /** The third strike of a file that went away during its delivery. */
  predicate StrikesOutMissing(s: Store, environmental: bool)
    requires Delivering(s)
  {
    !environmental && Strikes(s, Current(s)) + 1 >= MAX_SEND_FAILURES && Current(s) !in s.disk.files
  }

  lemma FinishedStopsPass(s: Store, locked: set<Key>)
    requires Sound(s) && Delivering(s)
    requires s.pass.value.delivery.value.sent == |Sends(s.pass.value.delivery.value.batches)|
    ensures var k, after := Current(s), Finished(s, locked);
            if after.pass.None? then after.disk == s.disk
            else after.pass.value.files == s.pass.value.files[1..]
                 && (k in after.disk.files ==> AllAcked(after.disk.files[k].batches, after.acked))
  {
    if s.pass.value.delivery.value.covered { SendsCover(s.pass.value.delivery.value.batches, s.acked); }
  }

  lemma FailedStopsPass(s: Store, environmental: bool, kept: set<Key>)
    requires Sound(s) && Delivering(s) && Trimmed(s.disk.poison, kept)
    ensures var after := Failed(s, environmental, kept);
            if after.pass.None? then
              && after.disk.files == s.disk.files && after.disk.gone == s.disk.gone
              && (after.disk.poison == s.disk.poison <==>
                    !(StrikesOutMissing(s, environmental) && |s.disk.poison| >= MAX_QUARANTINED))
            else after.pass.value.files == s.pass.value.files[1..] && Current(s) !in after.disk.files
  {
    if StrikesOutMissing(s, environmental) { assert kept - {Current(s)} == kept; }
  }

  /** What a removal by age or by the cap leaves alone. */
  ghost predicate Fades(s: Store, after: Store) {
    && (forall k | k in after.disk.files :: k in s.disk.files && after.disk.files[k] == s.disk.files[k])
    && (forall k | Known(s.disk, k) :: Known(after.disk, k))
    && (after.writer == s.writer || after.writer.None?)
    && after.pass == s.pass && after.acked == s.acked
  }

  lemma FadesOn(s: Store, mid: Store, after: Store)
    requires Fades(s, mid) && Fades(mid, after)
    ensures Fades(s, after)
  {
  }

  lemma {:induction false} CappedFades(s: Store, locked: set<Key>)
    ensures Fades(s, Capped(s, locked))
    decreases |s.index.sizes|
  {
    if s.index.sizes != map[] && Sum(s.index.sizes) > TOTAL_CAP_BYTES {
      var k := Least(s.index.sizes.Keys);
      assert |s.index.sizes - {k}| < |s.index.sizes|;
      if !Stuck(s.disk, locked, k) {
        CappedFades(Removed(s, k, Evicted), locked);
        FadesOn(s, Removed(s, k, Evicted), Capped(s, locked));
      }
    }
  }

  lemma {:induction false} PurgedFades(s: Store, listing: seq<Key>, now: int, locked: set<Key>)
    ensures Fades(s, Purged(s, listing, now, locked))
    decreases |listing|
  {
    if listing != [] {
      var rest := Purged(s, listing[..|listing| - 1], now, locked);
      PurgedFades(s, listing[..|listing| - 1], now, locked);
      FadesOn(s, rest, Purged(s, listing, now, locked));
    }
  }

  lemma AppendKeepsPass(s: Store, batch: Batch, line: nat, unused: Key, now: int, torn: bool, locked: set<Key>)
    ensures Appended(s, batch, line, unused, now, torn, locked).pass == s.pass
  {
    var ready := Rotated(s, line, unused, now);
    if !torn && ready.writer.Some? && ready.writer.value.key in ready.disk.files {
      CappedFades(Written(ready, ready.writer.value.key, batch, line, now), locked);
    }
  }

  lemma RestartEndsPass(s: Store, torn: nat, now: int, locked: set<Key>)
    ensures Restarted(s, torn, now, locked).pass.None?
  {
    var files := TornTail(s.disk.files, s.writer, torn);
    var bare := s.(disk := s.disk.(files := files), index := Index(map[], map[], 0), writer := None,
                   failures := map[], pass := None);
    PurgedFades(bare, Sorted(files.Keys), now, locked);
  }

  /** Only a step of the replay itself moves a pass on. */
  lemma OthersKeepPass(s: Store, op: Op)
    requires Enabled(s, op) && s.pass.Some? && (op.Append? || op.PurgeExpired? || op.StartReplay? || op.Restart?)
    ensures Next(s, op).pass == if op.Restart? then None else s.pass
  {
    match op
    case Append(batch, line, unused, now, torn, locked) =>
      AppendKeepsPass(s, batch, line, unused, now, torn, locked);
    case PurgeExpired(now, locked) => PurgedFades(s, Sorted(s.disk.files.Keys), now, locked);
    case Restart(torn, now, locked) => RestartEndsPass(s, torn, now, locked);
    case StartReplay(_, _) =>
  }

  predicate Replaying(s: Store) { s.pass.Some? && s.pass.value.files != [] }

  /** The file has left the spool, or every event in it is acknowledged. */
  ghost predicate Delivered(s: Store, k: Key) { k in s.disk.files ==> AllAcked(s.disk.files[k].batches, s.acked) }

  /**
   * Whatever happens, the pass goes on to the next file only when this one is
   * delivered, or when it could not be read: that file is skipped where it lies.
   */
  lemma PassGoesOnInOrder(s: Store, op: Op)
    requires Sound(s) && Enabled(s, op) && Replaying(s)
    ensures var k, after := s.pass.value.files[0], Next(s, op);
            after.pass.Some? && after.pass.value.files != s.pass.value.files ==>
              && after.pass.value.files == s.pass.value.files[1..]
              && (Delivered(after, k) || op == Load(false))
    ensures op == Load(false) ==> Next(s, op).disk == s.disk && Next(s, op).acked == s.acked
                                  && Next(s, op).pass == Some(Pass(s.pass.value.files[1..], None))
  {
    match op
    case Finish(locked) => FinishedStopsPass(s, locked);
    case Fail(environmental, kept) => FailedStopsPass(s, environmental, kept);
    case Load(_) =>
    case Answer(_) =>
    case EndPass =>
    case _ => OthersKeepPass(s, op);
  }

  /**
   * A pass that stops at an undelivered file leaves every spool file alone, and
   * quarantined ones too, unless the third strike falls on a file that is gone
   * while the quarantine is full.
   */
  lemma UndeliveredFileStopsPass(s: Store, op: Op)
    requires Sound(s) && Enabled(s, op) && (op.Fail? || op.Finish?)
    ensures Next(s, op).pass.None? <== !Delivered(Next(s, op), Current(s))
    ensures var after := Next(s, op);
            after.pass.None? ==>
              && after.disk.files == s.disk.files && after.disk.gone == s.disk.gone
              && (after.disk.poison == s.disk.poison <==>
                    !(op.Fail? && StrikesOutMissing(s, op.environmental) && |s.disk.poison| >= MAX_QUARANTINED))
  {
    match op
    case Finish(locked) => FinishedStopsPass(s, locked);
    case Fail(environmental, kept) => FailedStopsPass(s, environmental, kept);
  }

  // ----------------------------------------------------------------- the cap

  /** `e` is the last file evicted, and without its eviction the cap would still be exceeded. */
  ghost predicate WasNeeded(evicted: set<Key>, e: Key, before: Index, after: Index) {
    && e in evicted && e in before.sizes && Sum(after.sizes) + before.sizes[e] > 26_214_400
    && forall o | o in evicted && o != e :: Less(o, e)
  }

  /** From one set of files to another by eviction of a prefix in replay order, none of it too much. */
  ghost predicate PrefixEvicted(files: map<Key, File>, index: Index, left: map<Key, File>, after: Index) {
    var evicted := files.Keys - left.Keys;
    && left.Keys <= files.Keys && (forall k | k in left :: left[k] == files[k])
    && (forall e, k | e in evicted && k in left :: Less(e, k))
    && (evicted == {} ==> after == index)
    && (evicted != {} ==> exists e :: WasNeeded(evicted, e, index, after))
  }

  lemma EvictedOneMore(k: Key, before: Index, next: Index, after: Index, rest: set<Key>)
    requires IsLeast(before.sizes.Keys, k) && Sum(before.sizes) > TOTAL_CAP_BYTES
    requires next.sizes == before.sizes - {k} && rest <= next.sizes.Keys
    requires rest == {} ==> after == next
    requires rest == {} || exists e :: WasNeeded(rest, e, next, after)
    ensures exists e :: WasNeeded(rest + {k}, e, before, after)
  {
    if rest == {} {
      SumWithout(before.sizes, k);
      assert WasNeeded(rest + {k}, k, before, after);
    } else {
      var e :| WasNeeded(rest, e, next, after);
      assert WasNeeded(rest + {k}, e, before, after);
    }
  }

  lemma PrefixOneMore(files: map<Key, File>, before: Index, k: Key, next: Index, left: map<Key, File>, after: Index)
    requires before.sizes.Keys == files.Keys && IsLeast(files.Keys, k) && Sum(before.sizes) > TOTAL_CAP_BYTES
    requires next.sizes == before.sizes - {k} && PrefixEvicted(files - {k}, next, left, after)
    ensures PrefixEvicted(files, before, left, after)
  {
    var rest := (files - {k}).Keys - left.Keys;
    EvictedOneMore(k, before, next, after, rest);
    assert files.Keys - left.Keys == rest + {k};
  }

  /** Eviction takes a prefix in replay order, and ends within the cap of 25 MiB or at a file that cannot be deleted. */
  lemma {:induction false} CapEvictsPrefix(s: Store, locked: set<Key>)
    requires Sound(s)
    ensures PrefixEvicted(s.disk.files, s.index, Capped(s, locked).disk.files, Capped(s, locked).index)
    ensures var sizes := Capped(s, locked).index.sizes;
            Sum(sizes) <= 26_214_400 || (sizes != map[] && Least(sizes.Keys) in locked)
    decreases |s.index.sizes|
  {
    if s.index.sizes != map[] && Sum(s.index.sizes) > TOTAL_CAP_BYTES {
      var k := Least(s.index.sizes.Keys);
      var next := Removed(s, k, Evicted);
      RemovedIsSound(s, k, Evicted);
      assert |s.index.sizes - {k}| < |s.index.sizes|;
      if !Stuck(s.disk, locked, k) {
        CapEvictsPrefix(next, locked);
        var after := Capped(next, locked);
        PrefixOneMore(s.disk.files, s.index, k, next.index, after.disk.files, after.index);
      }
    }
  }

  // ---------------------------------------------------------------- the store

  lemma LeastIsUnique(keys: set<Key>, k: Key)
    requires IsLeast(keys, k)
    ensures Least(keys) == k
  {
  }

  method Oldest(keys: set<Key>) returns (oldest: Key)
    requires keys != {}
    ensures IsLeast(keys, oldest)
  {
    oldest :| oldest in keys;
    var todo := keys;
    while todo != {}
      invariant todo <= keys && oldest in keys
      invariant forall o | o in keys - todo && o != oldest :: Less(oldest, o)
      decreases |todo|
    {
      var k :| k in todo;
      todo := todo - {k};
      if Less(k, oldest) {
        forall o | o in keys - todo && o != k ensures Less(k, o) { assert o == oldest || Less(oldest, o); }
        oldest := k;
      }
    }
  }

  method SortedFiles(keys: set<Key>) returns (listing: seq<Key>)
    ensures listing == Sorted(keys)
  {
    listing := [];
    var todo := keys;
    while todo != {}
      invariant listing + Sorted(todo) == Sorted(keys)
      decreases |todo|
    {
      var k := Oldest(todo);
      LeastIsUnique(todo, k);
      assert listing + Sorted(todo) == listing + [k] + Sorted(todo - {k});
      listing, todo := listing + [k], todo - {k};
    }
  }

  method Bytes(sizes: map<Key, nat>) returns (total: nat)
    ensures total == Sum(sizes)
  {
    total := 0;
    var rest := sizes;
    while rest != map[]
      invariant total + Sum(rest) == Sum(sizes)
      decreases |rest|
    {
      var k :| k in rest;
      SumWithout(rest, k);
      total, rest := total + rest[k], rest - {k};
    }
  }

  class SpoolStore {
    var disk: Disk
    var counts: map<Key, nat>
    var sizes: map<Key, nat>
    var total: int
    var writer: Option<Writer>
    var failures: map<Key, nat>
    var pass: Option<Pass>
    ghost var appended: set<(Key, Batch)>
    ghost var acked: set<nat>

    ghost function State(): Store
      reads this
    {
      Store(disk, Index(counts, sizes, total), writer, failures, pass, appended, acked)
    }

    constructor ()
      ensures State() == EMPTY
    {
      disk, counts, sizes, total := Disk(map[], {}, map[]), map[], map[], 0;
      writer, failures, pass, appended, acked := None, map[], None, {}, {};
    }

    /** Deletes the file if it is there, and forgets it. */
    method Remove(k: Key, fate: Fate)
      modifies this
      ensures State() == Removed(old(State()), k, fate)
    {
      if k in disk.files {
        disk := disk.(files := disk.files - {k}, gone := disk.gone[k := Gone(disk.files[k], fate)]);
      }
      var count := if k in counts then counts[k] else 0;
      counts, sizes, total := counts - {k}, sizes - {k}, total - count;
      if writer.Some? && writer.value.key == k { writer := None; }
    }

    method EnforceCap(locked: set<Key>)
      modifies this
      ensures State() == Capped(old(State()), locked)
    {
      var bytes := Bytes(sizes);
      while sizes != map[] && bytes > TOTAL_CAP_BYTES
        invariant Capped(State(), locked) == Capped(old(State()), locked) && bytes == Sum(sizes)
        decreases |sizes|
      {
        var victim := Oldest(sizes.Keys);
        LeastIsUnique(sizes.Keys, victim);
        assert |sizes - {victim}| < |sizes|;
        if Stuck(disk, locked, victim) { return; }
        Remove(victim, Evicted);
        bytes := Bytes(sizes);
      }
    }

    method OpenWriterIfNeeded(line: nat, unused: Key, now: int)
      modifies this
      ensures State() == Rotated(old(State()), line, unused, now)
    {
      if writer.None? || writer.value.size + line > ROTATE_BYTES {
        disk := disk.(files := disk.files[unused := File([], 0, Some(now))]);
        writer := Some(Writer(unused, 0));
        sizes := sizes[unused := 0];
      }
    }

    /** The write failed part-way: cut back to the offset captured before it. */
    method TruncateTo(safeOffset: nat)
      requires writer.Some? && writer.value.key in sizes
      requires writer.value.size == safeOffset && sizes[writer.value.key] == safeOffset
      modifies this
      ensures State() == old(State())
    {
      var k := writer.value.key;
      assert sizes[k := safeOffset] == sizes;
      writer := Some(Writer(k, safeOffset));
      sizes := sizes[k := safeOffset];
    }

    method CountLine(k: Key, events: nat, line: nat)
      modifies this`counts, this`sizes, this`total
      ensures Index(counts, sizes, total) == CountedIn(Index(old(counts), old(sizes), old(total)), k, events, line)
    {
      counts := counts[k := events + if k in counts then counts[k] else 0];
      total := total + events;
      sizes := sizes[k := line + if k in sizes then sizes[k] else 0];
    }

    method WriteLine(k: Key, batch: Batch, line: nat, now: int)
      requires k in disk.files && writer.Some?
      modifies this
      ensures State() == Written(old(State()), k, batch, line, now)
    {
      disk := disk.(files := disk.files[k := Longer(disk.files[k], batch, line, now)]);
      writer := Some(Writer(k, writer.value.size + line));
      CountLine(k, |batch.events|, line);
      appended := appended + {(k, batch)};
    }

    method AppendBatch(batch: Batch, line: nat, unused: Key, now: int, torn: bool, locked: set<Key>)
      returns (stored: bool)
      requires Sound(State()) && Unused(State(), unused)
      modifies this
      ensures State() == Appended(old(State()), batch, line, unused, now, torn, locked) && stored == !torn
    {
      RotatedIsSound(State(), line, unused, now);
      OpenWriterIfNeeded(line, unused, now);
      var k := writer.value.key;
      var safeOffset := disk.files[k].bytes;
      if torn {
        TruncateTo(safeOffset);
        return false;
      }
      WriteLine(k, batch, line, now);
      EnforceCap(locked);
      stored := true;
    }

    method PurgeExpiredFiles(now: int, locked: set<Key>)
      modifies this
      ensures State() == Purged(old(State()), Sorted(old(disk).files.Keys), now, locked)
    {
      var listing := SortedFiles(disk.files.Keys);
      for i := 0 to |listing|
        invariant State() == Purged(old(State()), listing[..i], now, locked)
      {
        assert listing[..i + 1][..i] == listing[..i];
        if IsExpired(disk.files, listing[i], now) && listing[i] !in locked { Remove(listing[i], Expired); }
      }
      assert listing[..|listing|] == listing;
    }

    method BeginReplaySnapshot(now: int, locked: set<Key>)
      requires pass.None?
      modifies this
      ensures State() == Snapshot(old(State()), now, locked)
    {
      writer := None;
      PurgeExpiredFiles(now, locked);
      var files := SortedFiles(disk.files.Keys);
      pass := Some(Pass(files, None));
    }

    method FirstName(names: set<Key>) returns (first: Key)
      requires names != {}
      ensures first in names && forall o | o in names :: first.name <= o.name
    {
      first :| first in names;
      var todo := names;
      while todo != {}
        invariant todo <= names && first in names && forall o | o in names - todo :: first.name <= o.name
        decreases |todo|
      {
        var k :| k in todo;
        todo := todo - {k};
        if k.name < first.name { first := k; }
      }
    }

    /** Oldest poison names first, until there is room for one more. */
    method TrimPoison() returns (kept: set<Key>)
      ensures Trimmed(disk.poison, kept)
    {
      kept := disk.poison;
      while |kept| >= MAX_QUARANTINED
        invariant kept <= disk.poison
        invariant if |disk.poison| < MAX_QUARANTINED then kept == disk.poison else |kept| >= MAX_QUARANTINED - 1
        invariant forall k, o | k in disk.poison - kept && o in kept :: k.name <= o.name
        decreases |kept|
      {
        var first := FirstName(kept);
        kept := kept - {first};
      }
    }

    /** Makes room among the quarantined names, then moves the file there, if it still exists. */
    method Quarantine(k: Key, poison: set<Key>) returns (moved: bool)
      modifies this
      ensures moved == (k in old(disk).files)
      ensures State() == if moved then Moved(old(State()), k, poison)
                         else old(State()).(disk := old(disk).(poison := poison - {k}))
    {
      disk := disk.(poison := poison - {k});
      moved := k in disk.files;
      if moved {
        Remove(k, Quarantined);
        disk := disk.(poison := disk.poison + {k});
        failures := failures - {k};
        assert poison - {k} + {k} == poison + {k};
      }
    }

    /** A failed send of the current file; `kept` is what is left of the quarantined ones. */
    method ClassifySendFailure(environmental: bool) returns (ghost kept: set<Key>)
      requires Delivering(State())
      modifies this
      ensures Trimmed(old(disk).poison, kept) && State() == Failed(old(State()), environmental, kept)
    {
      var poison := TrimPoison();
      kept := poison;
      if environmental {
        pass := None;
        return;
      }
      var k := pass.value.files[0];
      var strikes := 1 + if k in failures then failures[k] else 0;
      failures := failures[k := strikes];
      if strikes < MAX_SEND_FAILURES {
        pass := None;
        return;
      }
      var next := Some(Pass(pass.value.files[1..], None));
      var moved := Quarantine(k, poison);
      pass := if moved then next else None;
    }

    method FinishFile(locked: set<Key>)
      requires Delivering(State())
      modifies this
      ensures State() == Finished(old(State()), locked)
    {
      var k := pass.value.files[0];
      if !pass.value.delivery.value.covered {
        pass := None;
        return;
      }
      if k in disk.files && k !in locked {
        Remove(k, Acked);
        failures := failures - {k};
      }
      pass := Some(Pass(pass.value.files[1..], None));
    }
  }
}
