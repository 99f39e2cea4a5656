/** When a segment is closed: at one of three boundaries, and at nothing else. */
module SegmentBounds {
  import opened Prelude
  import C = Coalescer
  import S = Segmenter

  /**
   * A timestamp that ends the window: more than 2 s back from the last activity,
   * five minutes or more past it, or half an hour or more past the start.
   */
  predicate IsDue(startedAt: int, lastActivity: int, at: int) {
    at < lastActivity - 2_000 || at - lastActivity >= 300_000 || at - startedAt >= 1_800_000
  }

  /** The row of `h` closed as of its last activity, with its one new job; every other row is as it was. */
  ghost predicate ClosedNow(before: S.Db, after: S.Db, h: S.Handle)
    requires h.id < |before.segments|
  {
    && |after.segments| == |before.segments| && after.jobs == before.jobs + [h.id]
    && after.processed == before.processed
    && (forall id | 0 <= id < |before.segments| && id != h.id :: after.segments[id] == before.segments[id])
    && !after.segments[h.id].open && after.segments[h.id].endedAt == Some(h.lastActivity)
    && after.segments[h.id].job == Some(|before.jobs|)
    && after.segments[h.id].steps == before.segments[h.id].steps
    && after.segments[h.id].eventCount == before.segments[h.id].eventCount
  }

  /** A window stays open and untouched unless the timestamp ends it, and then it is closed on the spot. */
  lemma SettleClosesIffDue(s: S.State, at: int, h: S.Handle)
    requires S.Healthy(s.db, s.cache) && S.Current(s.db, s.cache) == Some(h)
    ensures h.id < |s.db.segments| && h.startedAt == s.db.segments[h.id].startedAt
    ensures !IsDue(h.startedAt, h.lastActivity, at) ==> S.Settle(s, at) == s.(cache := Some(h))
    ensures IsDue(h.startedAt, h.lastActivity, at) ==>
              ClosedNow(s.db, S.Settle(s, at).db, h) && S.Settle(s, at).cache == None
  {
    S.CurrentIsHealthy(s.db, s.cache);
  }

  /** Row `id` counts `more` further events; every other row is as it was. */
  ghost predicate CountsMore(before: S.Db, after: S.Db, id: nat, more: nat)
    requires id < |before.segments|
  {
    && |after.segments| == |before.segments| && after.jobs == before.jobs
    && after.segments[id].eventCount == before.segments[id].eventCount + more
    && after.segments[id].steps == before.segments[id].steps && after.segments[id].open == before.segments[id].open
    && forall k | 0 <= k < |before.segments| && k != id :: after.segments[k] == before.segments[k]
  }

  /**
   * A dropped event counts for the window open at its own time, and at once;
   * only when its time ends the window, or none is open, does it wait.
   */
  lemma DropCountsInItsWindow(s: S.State, at: int)
    requires S.Healthy(s.db, s.cache)
    ensures var after := S.Dropped(s, at);
            match S.Current(s.db, s.cache)
            case Some(h) =>
              && h.id < |s.db.segments|
              && if IsDue(h.startedAt, h.lastActivity, at)
                 then after.orphans == s.orphans + 1 && after.touched == s.touched && ClosedNow(s.db, after.db, h)
                 else after.orphans == s.orphans && after.touched == Some(h.id) && CountsMore(s.db, after.db, h.id, 1)
            case None => after == s.(orphans := s.orphans + 1)
  {
    S.CurrentIsHealthy(s.db, s.cache);
    var current := S.Current(s.db, s.cache);
    if current.Some? { SettleClosesIffDue(s, at, current.value); }
  }

  /** A window that the step's start does not end takes the step and the waiting drops; nothing else changes. */
  lemma StepJoinsItsWindow(s: S.State, step: C.Step, h: S.Handle)
    requires S.Healthy(s.db, s.cache) && S.Current(s.db, s.cache) == Some(h)
    requires !IsDue(h.startedAt, h.lastActivity, step.startedAt)
    ensures var rows, after := s.db.segments, S.Appended(s, step);
            && h.id < |rows| == |after.db.segments| && after.db.jobs == s.db.jobs && after.orphans == 0
            && after.db.segments[h.id].steps == rows[h.id].steps + [step]
            && after.db.segments[h.id].eventCount == rows[h.id].eventCount + s.orphans + step.count
            && (forall k | 0 <= k < |rows| && k != h.id :: after.db.segments[k] == rows[k])
            && after.cache == Some(S.Handle(h.id, h.startedAt, step.endedAt, Some(step.lastId)))
  {
    SettleClosesIffDue(s, step.startedAt, h);
    S.JoinedIsOnePut(s.(cache := Some(h)), h, step);
  }

  /** The state is `s` with one more row, which holds just the step and the waiting drops. */
  ghost predicate StartedBy(s: S.State, after: S.State, step: C.Step) {
    var n := |s.db.segments|;
    && |after.db.segments| == n + 1 && after.db.segments[..n] == s.db.segments
    && after.db.jobs == s.db.jobs && after.orphans == 0
    && after.db.segments[n] == S.Segment(step.startedAt, None, true, step.firstId, Some(step.lastId),
                                         s.orphans + step.count, None, [step])
    && after.cache == Some(S.Handle(n, step.startedAt, step.endedAt, Some(step.lastId)))
  }

  lemma OpeningStarts(s: S.State, step: C.Step)
    requires s.cache.None?
    ensures var ready := S.Opened(s, step); StartedBy(s, S.Joined(ready, ready.cache.value, step), step)
  {
    var ready := S.Opened(s, step);
    S.JoinedIsOnePut(ready, ready.cache.value, step);
  }

  /** With no window left open the step starts a segment, which the waiting drops join. */
  lemma StepStartsWindow(s: S.State, step: C.Step)
    requires S.Healthy(s.db, s.cache)
    requires var c := S.Current(s.db, s.cache);
             c.Some? ==> IsDue(c.value.startedAt, c.value.lastActivity, step.startedAt)
    ensures StartedBy(S.Settle(s, step.startedAt), S.Appended(s, step), step)
  {
    var current := S.Current(s.db, s.cache);
    if current.Some? { SettleClosesIffDue(s, step.startedAt, current.value); }
    OpeningStarts(S.Settle(s, step.startedAt), step);
  }

  // -------------------------------------------------------------- whole batches

  ghost predicate IsTimeOf(events: seq<C.Event>, at: int) { exists e :: e in events && e.observedAt == at }

  /** Some event of the batch ends this closed segment. */
  ghost predicate EndedByOneOf(seg: S.Segment, events: seq<C.Event>) {
    seg.endedAt.Some? && exists e :: e in events && IsDue(seg.startedAt, seg.endedAt.value, e.observedAt)
  }

  /** The segments closed since `before` were each ended by an event of the batch. */
  ghost predicate ClosedForCause(before: seq<S.Segment>, after: seq<S.Segment>, events: seq<C.Event>) {
    forall id | 0 <= id < |after| && !after[id].open && (id < |before| ==> before[id].open) ::
      EndedByOneOf(after[id], events)
  }

  lemma SettleForCause(before: seq<S.Segment>, s: S.State, at: int, events: seq<C.Event>)
    requires S.Healthy(s.db, s.cache) && ClosedForCause(before, s.db.segments, events) && IsTimeOf(events, at)
    ensures ClosedForCause(before, S.Settle(s, at).db.segments, events)
  {
    var current := S.Current(s.db, s.cache);
    if current.Some? {
      var h := current.value;
      SettleClosesIffDue(s, at, h);
      if IsDue(h.startedAt, h.lastActivity, at) {
        S.CurrentIsHealthy(s.db, s.cache);
        assert EndedByOneOf(S.Settle(s, at).db.segments[h.id], events);
      }
    }
  }

  lemma PutForCause(before: seq<S.Segment>, segments: seq<S.Segment>, id: nat, seg: S.Segment, events: seq<C.Event>)
    requires ClosedForCause(before, segments, events) && id < |segments| && seg.open == segments[id].open
    requires seg.startedAt == segments[id].startedAt && seg.endedAt == segments[id].endedAt
    ensures ClosedForCause(before, segments[id := seg], events)
  {
    forall k | 0 <= k < |segments| && !segments[id := seg][k].open && (k < |before| ==> before[k].open)
      ensures EndedByOneOf(segments[id := seg][k], events)
    {
      assert EndedByOneOf(segments[k], events);
    }
  }

  lemma TallyForCause(before: seq<S.Segment>, db: S.Db, id: nat, delta: nat, events: seq<C.Event>)
    requires ClosedForCause(before, db.segments, events)
    ensures ClosedForCause(before, S.Tally(db, id, delta, None).segments, events)
  {
    if id < |db.segments| {
      PutForCause(before, db.segments, id, S.Tallied(db.segments[id], delta, None), events);
    }
  }

  lemma DroppedForCause(before: seq<S.Segment>, s: S.State, at: int, events: seq<C.Event>)
    requires S.Healthy(s.db, s.cache) && ClosedForCause(before, s.db.segments, events) && IsTimeOf(events, at)
    ensures ClosedForCause(before, S.Dropped(s, at).db.segments, events)
  {
    SettleForCause(before, s, at, events);
    var settled := S.Settle(s, at);
    if settled.cache.Some? { TallyForCause(before, settled.db, settled.cache.value.id, 1, events); }
  }

  lemma {:induction false} DropsForCause(before: seq<S.Segment>, s: S.State, drops: seq<C.Event>,
                                         events: seq<C.Event>)
    requires S.Healthy(s.db, s.cache) && ClosedForCause(before, s.db.segments, events)
    requires forall e | e in drops :: e in events
    ensures ClosedForCause(before, S.DroppedAll(s, drops).db.segments, events)
    decreases |drops|
  {
    if drops != [] {
      var rest, last := drops[..|drops| - 1], drops[|drops| - 1];
      DropsForCause(before, s, rest, events);
      S.DropsAreHealthy(s, rest);
      assert last in events;
      DroppedForCause(before, S.DroppedAll(s, rest), last.observedAt, events);
    }
  }

  lemma OpenedForCause(before: seq<S.Segment>, s: S.State, step: C.Step, events: seq<C.Event>)
    requires ClosedForCause(before, s.db.segments, events)
    ensures ClosedForCause(before, S.Opened(s, step).db.segments, events)
  {
    var after := S.Opened(s, step).db.segments;
    forall id | 0 <= id < |after| && !after[id].open && (id < |before| ==> before[id].open)
      ensures EndedByOneOf(after[id], events)
    {
      assert after[id] == s.db.segments[id];
    }
  }

  lemma JoinedForCause(before: seq<S.Segment>, s: S.State, h: S.Handle, step: C.Step, events: seq<C.Event>)
    requires ClosedForCause(before, s.db.segments, events) && h.id < |s.db.segments|
    ensures ClosedForCause(before, S.Joined(s, h, step).db.segments, events)
  {
    S.JoinedIsOnePut(s, h, step);
    PutForCause(before, s.db.segments, h.id, S.Grown(s.db.segments[h.id], s.orphans, step), events);
  }

  lemma AppendedForCause(before: seq<S.Segment>, s: S.State, step: C.Step, events: seq<C.Event>)
    requires S.Healthy(s.db, s.cache) && ClosedForCause(before, s.db.segments, events)
    requires IsTimeOf(events, step.startedAt)
    ensures ClosedForCause(before, S.Appended(s, step).db.segments, events)
  {
    SettleForCause(before, s, step.startedAt, events);
    S.SettleIsHealthy(s, step.startedAt);
    var settled := S.Settle(s, step.startedAt);
    OpenedForCause(before, settled, step, events);
    var ready := S.Opened(settled, step);
    JoinedForCause(before, ready, ready.cache.value, step, events);
  }

  lemma StepStartsAtEvent(events: seq<C.Event>, steps: seq<C.Step>, spans: seq<C.Span>, k: nat)
    requires C.Spanned(events, steps, spans) && k < |steps|
    ensures IsTimeOf(events, steps[k].startedAt)
  {
    assert C.IsRun(events, steps[k], spans[k]);
    assert events[spans[k].lo] in events;
  }

  lemma {:induction false} SweptForCause(before: seq<S.Segment>, s: S.State, events: seq<C.Event>,
                                         steps: seq<C.Step>, spans: seq<C.Span>, k: nat)
    requires C.Spanned(events, steps, spans) && k <= |steps|
    requires S.Healthy(s.db, s.cache) && ClosedForCause(before, s.db.segments, events)
    ensures ClosedForCause(before, S.Swept(s, events, steps, spans, k).db.segments, events)
  {
    if k > 0 {
      SweptForCause(before, s, events, steps, spans, k - 1);
      S.SweptIsHealthy(s, events, steps, spans, k - 1);
      var swept := S.Swept(s, events, steps, spans, k - 1);
      var gap := C.Gap(events, steps, spans, k - 1);
      DropsForCause(before, swept, gap, events);
      S.DropsAreHealthy(swept, gap);
      StepStartsAtEvent(events, steps, spans, k - 1);
      AppendedForCause(before, S.DroppedAll(swept, gap), steps[k - 1], events);
    }
  }

  /** Every segment a batch closes has an event in the batch that ends it: none is cut short. */
  lemma BatchClosesForCause(db: S.Db, cache: Option<S.Handle>, sorted: seq<C.Event>)
    requires S.Healthy(db, cache)
    ensures ClosedForCause(db.segments, S.AppliedDb(db, cache, sorted).segments, sorted)
  {
    C.StepsAreRuns(sorted);
    var steps, spans, start := C.Coalesced(sorted), C.Spans(sorted), S.State(db, cache, 0, None);
    SweptForCause(db.segments, start, sorted, steps, spans, |steps|);
    S.SweptIsHealthy(start, sorted, steps, spans, |steps|);
    DropsForCause(db.segments, S.Swept(start, sorted, steps, spans, |steps|),
                  C.Gap(sorted, steps, spans, |steps|), sorted);
    var end := S.SweptAll(db, cache, sorted);
    if end.touched.Some? { TallyForCause(db.segments, end.db, end.touched.value, end.orphans, sorted); }
  }

  /** In every state a run can reach, a delivery closes no segment that none of its events ends. */
  lemma DeliveryClosesForCause(ops: seq<S.Op>, events: seq<C.Event>)
    requires S.AllEligible(S.World(S.EMPTY_DB, None), ops) && C.DistinctIds(events)
    ensures var w := S.Run(S.World(S.EMPTY_DB, None), ops);
            ClosedForCause(w.db.segments, S.Next(w, S.Deliver(events, true)).db.segments, events)
  {
    var w := S.Run(S.World(S.EMPTY_DB, None), ops);
    S.RunIsGood(S.World(S.EMPTY_DB, None), ops);
    C.SortOrders(events);
    var sorted := C.Sort(events);
    BatchClosesForCause(w.db, w.cache, sorted);
    forall e | e in sorted ensures e in events { assert e in multiset(sorted); }
  }
}
