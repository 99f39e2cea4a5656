/** The spool's bounds in figures, and what each of them decides. */
module SpoolBounds {
  import opened Prelude
  import opened Spool

  // ------------------------------------------------------------------- frames

  function EventLists(batches: seq<Batch>): seq<seq<Event>> {
    seq(|batches|, i requires 0 <= i < |batches| => batches[i].events)
  }

  function SentLists(sends: seq<Send>): seq<seq<Event>> {
    seq(|sends|, i requires 0 <= i < |sends| => sends[i].events)
  }

  lemma {:induction false} FlattenJoins<T>(a: seq<seq<T>>, b: seq<seq<T>>)
    ensures Flatten(a + b) == Flatten(a) + Flatten(b)
  {
    if b == [] {
      assert a + b == a;
    } else {
      var last := |b| - 1;
      FlattenJoins(a, b[..last]);
      FlattenAppends(a + b[..last], b[last]);
      FlattenAppends(b[..last], b[last]);
      assert a + b == a + b[..last] + [b[last]] && b == b[..last] + [b[last]];
    }
  }

  lemma {:induction false} SinglesSpell(events: seq<Event>, lists: seq<seq<Event>>)
    requires |lists| == |events| && forall i | 0 <= i < |events| :: lists[i] == [events[i]]
    ensures Flatten(lists) == events
  {
    if events != [] {
      var last := |events| - 1;
      SinglesSpell(events[..last], lists[..last]);
      FlattenAppends(lists[..last], lists[last]);
      assert lists == lists[..last] + [lists[last]] && events == events[..last] + [events[last]];
    }
  }

  lemma BatchSpells(batch: Batch)
    ensures Flatten(SentLists(SendsOf(batch))) == batch.events
  {
    var lists := SentLists(SendsOf(batch));
    if |lists| == 1 && lists[0] == batch.events {
      assert lists == [batch.events];
      FlattenAppends<Event>([], batch.events);
      assert [] + [batch.events] == lists;
    } else {
      SinglesSpell(batch.events, lists);
    }
  }

  lemma SentListsJoin(a: seq<Send>, b: seq<Send>)
    ensures SentLists(a + b) == SentLists(a) + SentLists(b)
  {
  }

  lemma MoreSends(init: seq<Batch>, last: Batch)
    ensures Sends(init + [last]) == Sends(init) + SendsOf(last)
    ensures EventLists(init + [last]) == EventLists(init) + [last.events]
  {
    assert (init + [last])[..|init|] == init;
  }

  /** The frames of a delivery, one after the other, carry the file's events in order and each of them once. */
  lemma {:induction false} SendsSpell(batches: seq<Batch>)
    ensures Flatten(SentLists(Sends(batches))) == Flatten(EventLists(batches))
  {
    if batches != [] {
      var init, last := batches[..|batches| - 1], batches[|batches| - 1];
      assert batches == init + [last];
      SendsSpell(init);
      MoreSends(init, last);
      SentListsJoin(Sends(init), SendsOf(last));
      FlattenJoins(SentLists(Sends(init)), SentLists(SendsOf(last)));
      BatchSpells(last);
      FlattenAppends(EventLists(init), last.events);
    }
  }

  /** A batch that fits a frame of 1 MiB goes in one frame, and only a larger one is taken apart. */
  lemma BatchGoesWholeIfItFits(batch: Batch)
    ensures batch.frame <= 1_048_576 ==> SendsOf(batch) == [Send(batch.events, batch.frame)]
    ensures batch.frame > 1_048_576 ==> forall send | send in SendsOf(batch) :: |send.events| == 1
  {
  }

  // ----------------------------------------------------------------- rotation

  lemma {:induction false} CappedKeepsAppended(s: Store, locked: set<Key>)
    ensures Capped(s, locked).appended == s.appended
    decreases |s.index.sizes|
  {
    if s.index.sizes != map[] && Sum(s.index.sizes) > TOTAL_CAP_BYTES {
      var k := Least(s.index.sizes.Keys);
      assert |s.index.sizes - {k}| < |s.index.sizes|;
      if !Stuck(s.disk, locked, k) { CappedKeepsAppended(Removed(s, k, Evicted), locked); }
    }
  }

  /** A batch goes to the open file while the line fits into its 512 KiB, and to a new one otherwise. */
  lemma AppendRotatesAtLimit(s: Store, batch: Batch, line: nat, unused: Key, now: int, torn: bool, locked: set<Key>)
    requires Sound(s) && Unused(s, unused)
    ensures var after := Appended(s, batch, line, unused, now, torn, locked);
            if torn then after.appended == s.appended
            else if s.writer.Some? && s.writer.value.size + line <= 524_288
            then after.appended == s.appended + {(s.writer.value.key, batch)}
            else after.appended == s.appended + {(unused, batch)}
  {
    var ready := Rotated(s, line, unused, now);
    if !torn && ready.writer.Some? && ready.writer.value.key in ready.disk.files {
      CappedKeepsAppended(Written(ready, ready.writer.value.key, batch, line, now), locked);
    }
  }

  // ---------------------------------------------------------------------- age

  /** Named and last written more than 48 hours ago. */
  predicate IsOld(files: map<Key, File>, k: Key, now: int) {
    && k in files && k.stamp < now - 172_800_000
    && files[k].modified.Some? && files[k].modified.value < now - 172_800_000
  }

  predicate Goes(files: map<Key, File>, listing: seq<Key>, k: Key, now: int, locked: set<Key>) {
    k in listing && IsOld(files, k, now) && k !in locked
  }

  lemma {:induction false} PurgedExactly(s: Store, listing: seq<Key>, now: int, locked: set<Key>)
    ensures var after := Purged(s, listing, now, locked);
            && (forall k ::
                  k in after.disk.files <==> k in s.disk.files && !Goes(s.disk.files, listing, k, now, locked))
            && (forall k | k in after.disk.files :: after.disk.files[k] == s.disk.files[k])
    decreases |listing|
  {
    if listing != [] {
      var init, last := listing[..|listing| - 1], listing[|listing| - 1];
      PurgedExactly(s, init, now, locked);
      assert forall k :: k in listing <==> k in init || k == last;
    }
  }

  /** A purge removes the files that are old by name and by date and can be deleted; no other is touched. */
  lemma PurgeTakesExactlyTheOld(s: Store, now: int, locked: set<Key>)
    ensures var after := Next(s, PurgeExpired(now, locked));
            && (forall k :: k in after.disk.files <==>
                  k in s.disk.files && !(IsOld(s.disk.files, k, now) && k !in locked))
            && (forall k | k in after.disk.files :: after.disk.files[k] == s.disk.files[k])
  {
    SortedLists(s.disk.files.Keys);
    PurgedExactly(s, Sorted(s.disk.files.Keys), now, locked);
  }

  /** In replay order the stamps never fall, and for one stamp neither do the sequence numbers. */
  lemma ReplayIsOldestFirst(keys: set<Key>, i: nat, j: nat)
    requires i < j < |Sorted(keys)|
    ensures var a, b := Sorted(keys)[i], Sorted(keys)[j];
            && a != b && a.stamp <= b.stamp && (a.stamp == b.stamp ==> a.sequence <= b.sequence)
            && (a.stamp == b.stamp && a.sequence == b.sequence ==> a.name < b.name)
  {
    SortedLists(keys);
    assert Less(Sorted(keys)[i], Sorted(keys)[j]);
  }

  /** A pass takes up every file the purge before it leaves, in replay order, with no file left open. */
  lemma ReplayListsEverything(s: Store, now: int, locked: set<Key>)
    requires s.pass.None?
    ensures var after := Next(s, StartReplay(now, locked));
            && after.pass.Some? && after.pass.value.delivery.None? && after.writer.None?
            && Ascending(after.pass.value.files)
            && (forall k :: k in after.pass.value.files <==> k in after.disk.files)
            && (forall k :: k in after.disk.files <==>
                  k in s.disk.files && !(IsOld(s.disk.files, k, now) && k !in locked))
  {
    var sealed := s.(writer := None);
    var listing := Sorted(sealed.disk.files.Keys);
    SortedLists(sealed.disk.files.Keys);
    PurgedExactly(sealed, listing, now, locked);
    PurgedFades(sealed, listing, now, locked);
    SortedLists(Purged(sealed, listing, now, locked).disk.files.Keys);
  }

  // ------------------------------------------------------------------ strikes

  /** Two failed passes block, the third quarantines, and an environmental failure is no strike. */
  lemma ThirdStrikeQuarantines(s: Store, environmental: bool, kept: set<Key>)
    requires Sound(s) && Enabled(s, Fail(environmental, kept))
    ensures var k, after := Current(s), Next(s, Fail(environmental, kept));
            var strikes := if k in s.failures then s.failures[k] else 0;
            if environmental then after == s.(pass := None)
            else if strikes < 2 then
              after.disk == s.disk && after.pass.None? && after.failures == s.failures[k := strikes + 1]
            else if k in s.disk.files then
              && after.disk.files == s.disk.files - {k} && after.disk.poison == kept + {k}
              && after.disk.gone == s.disk.gone[k := Gone(s.disk.files[k], Quarantined)]
              && k !in after.failures && after.pass == Some(Pass(s.pass.value.files[1..], None))
            else after.disk.files == s.disk.files && after.disk.gone == s.disk.gone && after.pass.None?
  {
  }
}
