/**
 * Steps and drops attributed to activity segments that close and open in the
 * middle of a batch, with the cached open segment and its rollbacks.
 */
module Segmenter {
  import opened Prelude
  import C = Coalescer

  /** Position in the table of segments, which only grows. */
  type SegmentId = nat

  const IDLE_CLOSE_MS := 300_000
  const MAX_DURATION_MS := 1_800_000
  const WATERMARK_LAG_MS := 2_000

  datatype Segment = Segment(
    startedAt: int, endedAt: Option<int>, open: bool, firstEventId: nat, lastEventId: Option<nat>,
    eventCount: nat, job: Option<nat>, steps: seq<C.Step>)

  /** The tables; `jobs[j]` is the segment that initial summarize job `j` is for. */
  datatype Db = Db(segments: seq<Segment>, jobs: seq<SegmentId>, processed: set<nat>)

  const EMPTY_DB := Db([], [], {})

  /** The cached handle on the open segment. */
  datatype Handle = Handle(id: SegmentId, startedAt: int, lastActivity: int, lastEventId: Option<nat>)

  /** Database and cache, with the drops of the batch waiting for a window. */
  datatype State = State(db: Db, cache: Option<Handle>, orphans: nat, touched: Option<SegmentId>)

  // -------------------------------------------------------------- statements

  function Put(db: Db, id: SegmentId, seg: Segment): Db
    requires id < |db.segments|
  {
    db.(segments := db.segments[id := seg])
  }

  function Tallied(seg: Segment, delta: nat, last: Option<nat>): Segment {
    seg.(eventCount := seg.eventCount + delta, lastEventId := if last.Some? then last else seg.lastEventId)
  }

  function Tally(db: Db, id: SegmentId, delta: nat, last: Option<nat>): Db {
    if id < |db.segments| then Put(db, id, Tallied(db.segments[id], delta, last)) else db
  }

  function AppendStep(db: Db, id: SegmentId, step: C.Step): Db {
    if id < |db.segments| then Put(db, id, db.segments[id].(steps := db.segments[id].steps + [step])) else db
  }

  function CreateOpen(db: Db, startedAt: int, firstEventId: nat): Db {
    db.(segments := db.segments + [Segment(startedAt, None, true, firstEventId, None, 0, None, [])])
  }

  function Finalized(seg: Segment, h: Handle, job: nat): Segment {
    seg.(open := false, endedAt := Some(h.lastActivity), job := Some(job),
         lastEventId := if h.lastEventId.Some? then h.lastEventId else seg.lastEventId)
  }

  /** Enqueue, finalize and mark, in one transaction; a no-op on a segment closed before. */
  function Close(db: Db, h: Handle): Db {
    if h.id < |db.segments| && db.segments[h.id].open && db.segments[h.id].job.None? then
      Put(db, h.id, Finalized(db.segments[h.id], h, |db.jobs|)).(jobs := db.jobs + [h.id])
    else db
  }

  // ------------------------------------------------------------ the sweep

  /** The latest end among the steps, the start when there is none. */
  function LatestEnd(steps: seq<C.Step>, start: int): int {
    if steps == [] then start
    else if |steps| == 1 then steps[0].endedAt
    else
      var earlier, last := LatestEnd(steps[..|steps| - 1], start), steps[|steps| - 1].endedAt;
      if earlier >= last then earlier else last
  }

  function LastEnd(steps: seq<C.Step>, start: int): int {
    if steps == [] then start else steps[|steps| - 1].endedAt
  }

  predicate IsOpen(db: Db, id: SegmentId) { id < |db.segments| && db.segments[id].open }

  function HydratedFrom(seg: Segment, id: SegmentId): Handle {
    Handle(id, seg.startedAt, LatestEnd(seg.steps, seg.startedAt), seg.lastEventId)
  }

  /**
   * The handle a fresh read of the open segment gives. Were there several among
   * the first `n`, it is one that started last; the read leaves a tie open.
   */
  function Stored(db: Db, n: nat): Option<Handle>
    requires n <= |db.segments|
  {
    if n == 0 then None
    else
      var best, seg := Stored(db, n - 1), db.segments[n - 1];
      if seg.open && (best.None? || seg.startedAt >= best.value.startedAt) then Some(HydratedFrom(seg, n - 1)) else best
  }

  /** The cached handle, or else the open segment read from the database. */
  function Current(db: Db, cache: Option<Handle>): Option<Handle> {
    if cache.Some? then cache else Stored(db, |db.segments|)
  }

  predicate Closes(h: Handle, at: int) {
    at < h.lastActivity - WATERMARK_LAG_MS || at - h.lastActivity >= IDLE_CLOSE_MS
    || at - h.startedAt >= MAX_DURATION_MS
  }

  /** The close boundaries applied to an incoming timestamp. */
  function Settle(s: State, at: int): State {
    match Current(s.db, s.cache)
    case None => s.(cache := None)
    case Some(h) => if Closes(h, at) then s.(db := Close(s.db, h), cache := None) else s.(cache := Some(h))
  }

  /** A dropped event counts for the window open at its own time, or waits for the next. */
  function Counted(s: State): State {
    match s.cache
    case None => s.(orphans := s.orphans + 1)
    case Some(h) => s.(db := Tally(s.db, h.id, 1, None), touched := Some(h.id))
  }

  function Dropped(s: State, at: int): State { Counted(Settle(s, at)) }

  function DroppedAll(s: State, drops: seq<C.Event>): State
    decreases |drops|
  {
    if drops == [] then s else Dropped(DroppedAll(s, drops[..|drops| - 1]), drops[|drops| - 1].observedAt)
  }

  /** With no window open, the step starts one. */
  function Opened(s: State, step: C.Step): State {
    match s.cache
    case Some(_) => s
    case None => s.(db := CreateOpen(s.db, step.startedAt, step.firstId),
                    cache := Some(Handle(|s.db.segments|, step.startedAt, step.startedAt, None)))
  }

  /** The step joins the window of handle `h`; waiting drops land with it. */
  function Joined(s: State, h: Handle, step: C.Step): State {
    State(Tally(AppendStep(Tally(s.db, h.id, s.orphans, None), h.id, step), h.id, step.count, Some(step.lastId)),
          Some(h.(lastActivity := step.endedAt, lastEventId := Some(step.lastId))), 0, Some(h.id))
  }

  function Appended(s: State, step: C.Step): State {
    var ready := Opened(Settle(s, step.startedAt), step);
    match ready.cache
    case Some(h) => Joined(ready, h, step)
    case None => ready
  }

  /** The batch in chronological order: the drops before each step, then the step. */
  function Swept(s: State, events: seq<C.Event>, steps: seq<C.Step>, spans: seq<C.Span>, k: nat): State
    requires C.Spanned(events, steps, spans) && k <= |steps|
  {
    if k == 0 then s
    else
      Appended(DroppedAll(Swept(s, events, steps, spans, k - 1), C.Gap(events, steps, spans, k - 1)), steps[k - 1])
  }

  function LandOrphans(s: State): Db {
    if s.orphans > 0 && s.touched.Some? then Tally(s.db, s.touched.value, s.orphans, None) else s.db
  }

  function MarkProcessed(db: Db, events: seq<C.Event>): Db {
    db.(processed := db.processed + set e | e in events :: e.id)
  }

  function SweptAll(db: Db, cache: Option<Handle>, sorted: seq<C.Event>): State {
    C.StepsAreRuns(sorted);
    var steps, spans := C.Coalesced(sorted), C.Spans(sorted);
    DroppedAll(Swept(State(db, cache, 0, None), sorted, steps, spans, |steps|),
               C.Gap(sorted, steps, spans, |steps|))
  }

  /** What a sorted batch leaves in the database when its transaction commits. */
  function AppliedDb(db: Db, cache: Option<Handle>, sorted: seq<C.Event>): Db {
    MarkProcessed(LandOrphans(SweptAll(db, cache, sorted)), sorted)
  }

  function AppliedCache(db: Db, cache: Option<Handle>, sorted: seq<C.Event>): Option<Handle> {
    SweptAll(db, cache, sorted).cache
  }

  // ------------------------------------------------------- event conservation

  function Total(segments: seq<Segment>): nat {
    if segments == [] then 0 else Total(segments[..|segments| - 1]) + segments[|segments| - 1].eventCount
  }

  lemma {:induction false} TotalAfterPut(segments: seq<Segment>, id: SegmentId, seg: Segment)
    requires id < |segments|
    ensures Total(segments[id := seg]) == Total(segments) - segments[id].eventCount + seg.eventCount
  {
    var last := |segments| - 1;
    if id == last {
      assert segments[id := seg][..last] == segments[..last];
    } else {
      TotalAfterPut(segments[..last], id, seg);
      assert segments[id := seg][..last] == segments[..last][id := seg];
    }
  }

  /** Whatever the cache and the batch refer to is a row of the table. */
  predicate Placed(s: State) {
    (s.cache.Some? ==> s.cache.value.id < |s.db.segments|) && (s.touched.Some? ==> s.touched.value < |s.db.segments|)
  }

  /** Events counted so far, those waiting for a window included. */
  function Weight(s: State): nat { Total(s.db.segments) + s.orphans }

  lemma {:induction false} StoredIsOpen(db: Db, n: nat)
    requires n <= |db.segments|
    ensures Stored(db, n).Some? ==>
      IsOpen(db, Stored(db, n).value.id) && Stored(db, n).value
        == HydratedFrom(db.segments[Stored(db, n).value.id], Stored(db, n).value.id)
    ensures forall id: nat | id < n && IsOpen(db, id) ::
              Stored(db, n).Some? && db.segments[id].startedAt <= Stored(db, n).value.startedAt
  {
    if n > 0 { StoredIsOpen(db, n - 1); }
  }

  lemma SettleKeepsWeight(s: State, at: int)
    requires Placed(s)
    ensures Placed(Settle(s, at)) && Weight(Settle(s, at)) == Weight(s)
    ensures Settle(s, at).touched == s.touched && Settle(s, at).orphans == s.orphans
  {
    StoredIsOpen(s.db, |s.db.segments|);
    var current := Current(s.db, s.cache);
    if current.Some? {
      var h := current.value;
      TotalAfterPut(s.db.segments, h.id, Finalized(s.db.segments[h.id], h, |s.db.jobs|));
    }
  }

  lemma TallyAdds(db: Db, id: SegmentId, delta: nat, last: Option<nat>)
    requires id < |db.segments|
    ensures Total(Tally(db, id, delta, last).segments) == Total(db.segments) + delta
  {
    TotalAfterPut(db.segments, id, Tallied(db.segments[id], delta, last));
  }

  lemma DroppedWeighsOne(s: State, at: int)
    requires Placed(s)
    ensures Placed(Dropped(s, at)) && Weight(Dropped(s, at)) == Weight(s) + 1
    ensures s.touched.Some? ==> Dropped(s, at).touched.Some?
  {
    SettleKeepsWeight(s, at);
    var settled := Settle(s, at);
    if settled.cache.Some? { TallyAdds(settled.db, settled.cache.value.id, 1, None); }
  }

  lemma {:induction false} DropsWeigh(s: State, drops: seq<C.Event>)
    requires Placed(s)
    ensures Placed(DroppedAll(s, drops)) && Weight(DroppedAll(s, drops)) == Weight(s) + |drops|
    ensures s.touched.Some? ==> DroppedAll(s, drops).touched.Some?
    decreases |drops|
  {
    if drops != [] {
      DropsWeigh(s, drops[..|drops| - 1]);
      DroppedWeighsOne(DroppedAll(s, drops[..|drops| - 1]), drops[|drops| - 1].observedAt);
    }
  }

  lemma OpenedKeepsWeight(s: State, step: C.Step)
    requires Placed(s)
    ensures Placed(Opened(s, step)) && Weight(Opened(s, step)) == Weight(s) && Opened(s, step).cache.Some?
  {
    if s.cache.None? {
      var grown := CreateOpen(s.db, step.startedAt, step.firstId).segments;
      assert grown[..|grown| - 1] == s.db.segments;
    }
  }

  lemma JoinedWeighs(s: State, h: Handle, step: C.Step)
    requires h.id < |s.db.segments|
    ensures Placed(Joined(s, h, step)) && Joined(s, h, step).touched.Some?
    ensures Weight(Joined(s, h, step)) == Weight(s) + step.count
  {
    var landed := Tally(s.db, h.id, s.orphans, None);
    TallyAdds(s.db, h.id, s.orphans, None);
    var appended := AppendStep(landed, h.id, step);
    TotalAfterPut(landed.segments, h.id, landed.segments[h.id].(steps := landed.segments[h.id].steps + [step]));
    TallyAdds(appended, h.id, step.count, Some(step.lastId));
  }

  lemma AppendedWeighs(s: State, step: C.Step)
    requires Placed(s)
    ensures Placed(Appended(s, step)) && Appended(s, step).touched.Some?
    ensures Weight(Appended(s, step)) == Weight(s) + step.count
  {
    SettleKeepsWeight(s, step.startedAt);
    OpenedKeepsWeight(Settle(s, step.startedAt), step);
    var ready := Opened(Settle(s, step.startedAt), step);
    JoinedWeighs(ready, ready.cache.value, step);
  }

  /** One round of the sweep: the drops before a step, then the step. */
  lemma RoundWeighs(s: State, gap: seq<C.Event>, step: C.Step)
    requires Placed(s)
    ensures Placed(Appended(DroppedAll(s, gap), step)) && Appended(DroppedAll(s, gap), step).touched.Some?
    ensures Weight(Appended(DroppedAll(s, gap), step)) == Weight(s) + |gap| + step.count
  {
    DropsWeigh(s, gap);
    AppendedWeighs(DroppedAll(s, gap), step);
  }

  lemma StepsCountGrows(steps: seq<C.Step>, k: nat)
    requires 0 < k <= |steps|
    ensures C.StepsCount(steps[..k]) == C.StepsCount(steps[..k - 1]) + steps[k - 1].count
  {
    assert steps[..k][..k - 1] == steps[..k - 1];
  }

  lemma {:induction false} SweptWeighs(s: State, events: seq<C.Event>, steps: seq<C.Step>, spans: seq<C.Span>, k: nat)
    requires C.Spanned(events, steps, spans) && k <= |steps| && Placed(s)
    ensures Placed(Swept(s, events, steps, spans, k))
    ensures k > 0 ==> Swept(s, events, steps, spans, k).touched.Some?
    ensures Weight(Swept(s, events, steps, spans, k))
         == Weight(s) + C.StepsCount(steps[..k]) + C.DropCount(events, steps, spans, k)
  {
    if k > 0 {
      SweptWeighs(s, events, steps, spans, k - 1);
      RoundWeighs(Swept(s, events, steps, spans, k - 1), C.Gap(events, steps, spans, k - 1), steps[k - 1]);
      StepsCountGrows(steps, k);
    }
  }

  lemma SweepWeighs(s: State, events: seq<C.Event>, steps: seq<C.Step>, spans: seq<C.Span>)
    requires C.Spanned(events, steps, spans) && Placed(s) && events != []
    ensures var end := DroppedAll(Swept(s, events, steps, spans, |steps|), C.Gap(events, steps, spans, |steps|));
            Placed(end) && end.touched.Some? && Weight(end) == Weight(s) + |events|
  {
    C.CountsPartition(events, steps, spans);
    SweptWeighs(s, events, steps, spans, |steps|);
    assert steps[..|steps|] == steps;
    DropsWeigh(Swept(s, events, steps, spans, |steps|), C.Gap(events, steps, spans, |steps|));
  }

  lemma LandingWeighs(end: State)
    requires Placed(end) && end.touched.Some?
    ensures Total(LandOrphans(end).segments) == Weight(end) && |LandOrphans(end).segments| == |end.db.segments|
  {
    TallyAdds(end.db, end.touched.value, end.orphans, None);
  }

  /**
   * The counts a batch adds to segments sum to exactly its size, even when drops
   * and steps close and open segments half-way; the cache stays on a stored row.
   */
  lemma BatchIsConserved(db: Db, cache: Option<Handle>, sorted: seq<C.Event>)
    requires sorted != [] && (cache.Some? ==> cache.value.id < |db.segments|)
    ensures Total(AppliedDb(db, cache, sorted).segments) == Total(db.segments) + |sorted|
    ensures AppliedCache(db, cache, sorted).Some?
        ==> AppliedCache(db, cache, sorted).value.id < |AppliedDb(db, cache, sorted).segments|
  {
    C.StepsAreRuns(sorted);
    var start := State(db, cache, 0, None);
    SweepWeighs(start, sorted, C.Coalesced(sorted), C.Spans(sorted));
    LandingWeighs(SweptAll(db, cache, sorted));
  }

  // ------------------------------------------------------- segment lifecycle

  predicate Follows(seg: Segment, k: nat)
    requires k < |seg.steps|
  {
    && seg.steps[k].startedAt >= LastEnd(seg.steps[..k], seg.startedAt) - WATERMARK_LAG_MS
    && seg.steps[k].startedAt < LatestEnd(seg.steps[..k], seg.startedAt) + IDLE_CLOSE_MS
    && seg.steps[k].startedAt < seg.startedAt + MAX_DURATION_MS
  }

  /** Each later step starts where none of the three boundaries would have closed the segment. */
  ghost predicate Chronological(seg: Segment) {
    && seg.steps != [] && seg.steps[0].startedAt == seg.startedAt
    && forall k | 0 < k < |seg.steps| :: Follows(seg, k)
  }

  /**
   * The row tells its steps: first and last event, no fewer events than the steps
   * folded, and once closed an end between the last step's end and the latest.
   */
  predicate Described(seg: Segment) {
    && seg.steps != [] && seg.firstEventId == seg.steps[0].firstId
    && seg.lastEventId == Some(seg.steps[|seg.steps| - 1].lastId)
    && C.StepsCount(seg.steps) <= seg.eventCount
    && (if seg.open then seg.endedAt.None? else
          seg.endedAt.Some?
          && LastEnd(seg.steps, seg.startedAt) <= seg.endedAt.value <= LatestEnd(seg.steps, seg.startedAt))
  }

  ghost predicate SingleOpen(segments: seq<Segment>) {
    forall a, b | 0 <= a < |segments| && 0 <= b < |segments| && segments[a].open && segments[b].open :: a == b
  }

  /** A segment is finalized iff it has a job, and then exactly that one job is for it. */
  ghost predicate OneJobEach(db: Db) {
    && (forall id | 0 <= id < |db.segments| ::
          (db.segments[id].open <==> db.segments[id].job.None?)
          && (db.segments[id].job.Some? ==>
                db.segments[id].job.value < |db.jobs| && db.jobs[db.segments[id].job.value] == id))
    && (forall j | 0 <= j < |db.jobs| ::
          db.jobs[j] < |db.segments| && db.segments[db.jobs[j]].job == Some(j))
  }

  ghost predicate AllSane(segments: seq<Segment>) {
    forall id | 0 <= id < |segments| :: Chronological(segments[id]) && Described(segments[id])
  }

  ghost predicate Lifecycle(db: Db) {
    SingleOpen(db.segments) && OneJobEach(db) && AllSane(db.segments)
  }

  /** The handle is on the open row, and its last activity lies between the last end and the latest end. */
  predicate Tracks(segments: seq<Segment>, h: Handle) {
    && h.id < |segments| && segments[h.id].open && h.startedAt == segments[h.id].startedAt
    && LastEnd(segments[h.id].steps, h.startedAt) <= h.lastActivity
    && h.lastActivity <= LatestEnd(segments[h.id].steps, h.startedAt)
    && h.lastEventId == segments[h.id].lastEventId
  }

  ghost predicate Healthy(db: Db, cache: Option<Handle>) {
    Lifecycle(db) && (cache.Some? ==> Tracks(db.segments, cache.value))
  }

  lemma EndsOrdered(steps: seq<C.Step>, start: int)
    ensures LastEnd(steps, start) <= LatestEnd(steps, start)
  {
  }

  lemma CurrentIsHealthy(db: Db, cache: Option<Handle>)
    requires Healthy(db, cache)
    ensures Healthy(db, Current(db, cache))
    ensures Current(db, cache).None? ==> forall id | 0 <= id < |db.segments| :: !db.segments[id].open
  {
    StoredIsOpen(db, |db.segments|);
    var current := Current(db, cache);
    if current.Some? && cache.None? {
      EndsOrdered(db.segments[current.value.id].steps, db.segments[current.value.id].startedAt);
    }
    if current.None? {
      forall id | 0 <= id < |db.segments| ensures !db.segments[id].open { assert !IsOpen(db, id); }
    }
  }

  lemma SameStepsSameChronology(seg: Segment, after: Segment)
    requires Chronological(seg) && after.steps == seg.steps && after.startedAt == seg.startedAt
    ensures Chronological(after)
  {
    forall k | 0 < k < |after.steps| ensures Follows(after, k) { assert Follows(seg, k); }
  }

  lemma CloseKeepsSane(segments: seq<Segment>, h: Handle, job: nat)
    requires AllSane(segments) && Tracks(segments, h)
    ensures AllSane(segments[h.id := Finalized(segments[h.id], h, job)])
  {
    SameStepsSameChronology(segments[h.id], Finalized(segments[h.id], h, job));
  }

  lemma CloseKeepsJobs(db: Db, h: Handle)
    requires OneJobEach(db) && IsOpen(db, h.id)
    ensures OneJobEach(Close(db, h))
    ensures Close(db, h).segments == db.segments[h.id := Finalized(db.segments[h.id], h, |db.jobs|)]
  {
  }

  lemma CloseLeavesNoneOpen(db: Db, h: Handle)
    requires SingleOpen(db.segments) && OneJobEach(db) && IsOpen(db, h.id)
    ensures |Close(db, h).segments| == |db.segments|
    ensures forall id | 0 <= id < |db.segments| :: !Close(db, h).segments[id].open
  {
    forall id | 0 <= id < |db.segments| ensures !Close(db, h).segments[id].open { assert db.segments[h.id].open; }
  }

  lemma CloseIsHealthy(db: Db, h: Handle)
    requires Healthy(db, Some(h))
    ensures Healthy(Close(db, h), None)
    ensures forall id | 0 <= id < |db.segments| :: !Close(db, h).segments[id].open
  {
    CloseLeavesNoneOpen(db, h);
    CloseKeepsJobs(db, h);
    CloseKeepsSane(db.segments, h, |db.jobs|);
  }

  /** Once settled either nothing is open or the handle accepts the timestamp. */
  lemma SettleIsHealthy(s: State, at: int)
    requires Healthy(s.db, s.cache)
    ensures Healthy(Settle(s, at).db, Settle(s, at).cache)
    ensures Settle(s, at).cache.Some? ==> !Closes(Settle(s, at).cache.value, at)
    ensures Settle(s, at).cache.None? ==>
              forall id | 0 <= id < |Settle(s, at).db.segments| :: !Settle(s, at).db.segments[id].open
  {
    CurrentIsHealthy(s.db, s.cache);
    var current := Current(s.db, s.cache);
    if current.Some? { CloseIsHealthy(s.db, current.value); }
  }

  lemma TallyKeepsSane(segments: seq<Segment>, id: SegmentId, delta: nat)
    requires AllSane(segments) && id < |segments|
    ensures AllSane(segments[id := Tallied(segments[id], delta, None)])
  {
    SameStepsSameChronology(segments[id], Tallied(segments[id], delta, None));
  }

  lemma TallyKeepsJobs(db: Db, id: SegmentId, delta: nat)
    requires OneJobEach(db) && SingleOpen(db.segments)
    ensures OneJobEach(Tally(db, id, delta, None)) && SingleOpen(Tally(db, id, delta, None).segments)
  {
  }

  lemma TallyIsHealthy(db: Db, cache: Option<Handle>, id: SegmentId, delta: nat)
    requires Healthy(db, cache)
    ensures Healthy(Tally(db, id, delta, None), cache)
  {
    TallyKeepsJobs(db, id, delta);
    if id < |db.segments| { TallyKeepsSane(db.segments, id, delta); }
  }

  lemma DroppedIsHealthy(s: State, at: int)
    requires Healthy(s.db, s.cache)
    ensures Healthy(Dropped(s, at).db, Dropped(s, at).cache)
  {
    SettleIsHealthy(s, at);
    var settled := Settle(s, at);
    if settled.cache.Some? { TallyIsHealthy(settled.db, settled.cache, settled.cache.value.id, 1); }
  }

  lemma {:induction false} DropsAreHealthy(s: State, drops: seq<C.Event>)
    requires Healthy(s.db, s.cache)
    ensures Healthy(DroppedAll(s, drops).db, DroppedAll(s, drops).cache)
    decreases |drops|
  {
    if drops != [] {
      DropsAreHealthy(s, drops[..|drops| - 1]);
      DroppedIsHealthy(DroppedAll(s, drops[..|drops| - 1]), drops[|drops| - 1].observedAt);
    }
  }

  /** The segment after the waiting drops, the step and its events joined it. */
  function Grown(seg: Segment, orphans: nat, step: C.Step): Segment {
    seg.(steps := seg.steps + [step], eventCount := seg.eventCount + orphans + step.count,
         lastEventId := Some(step.lastId))
  }

  lemma JoinedIsOnePut(s: State, h: Handle, step: C.Step)
    requires h.id < |s.db.segments|
    ensures Joined(s, h, step).db == Put(s.db, h.id, Grown(s.db.segments[h.id], s.orphans, step))
  {
    var segments := s.db.segments;
    var landed := Tallied(segments[h.id], s.orphans, None);
    var appended := landed.(steps := landed.steps + [step]);
    assert segments[h.id := landed][h.id := appended][h.id := Tallied(appended, step.count, Some(step.lastId))]
        == segments[h.id := Tallied(appended, step.count, Some(step.lastId))];
  }

  lemma GrownIsChronological(seg: Segment, orphans: nat, step: C.Step)
    requires seg.steps == [] ==> step.startedAt == seg.startedAt
    requires seg.steps != [] ==> Chronological(seg)
    requires seg.steps != [] ==>
      && step.startedAt >= LastEnd(seg.steps, seg.startedAt) - WATERMARK_LAG_MS
      && step.startedAt < LatestEnd(seg.steps, seg.startedAt) + IDLE_CLOSE_MS
      && step.startedAt < seg.startedAt + MAX_DURATION_MS
    ensures Chronological(Grown(seg, orphans, step))
  {
    var after := Grown(seg, orphans, step);
    forall k | 0 < k < |after.steps| ensures Follows(after, k) {
      assert after.steps[..k] == seg.steps[..k];
      if k < |seg.steps| {
        assert Follows(seg, k);
      } else {
        assert seg.steps[..k] == seg.steps;
      }
    }
  }

  lemma GrownIsDescribed(seg: Segment, orphans: nat, step: C.Step)
    requires seg.open && seg.endedAt.None?
    requires if seg.steps == [] then seg.firstEventId == step.firstId else Described(seg)
    ensures Described(Grown(seg, orphans, step))
  {
    var after := Grown(seg, orphans, step);
    assert after.steps[..|after.steps| - 1] == seg.steps;
  }

  lemma GrownEnds(steps: seq<C.Step>, step: C.Step, start: int)
    ensures LastEnd(steps + [step], start) == step.endedAt <= LatestEnd(steps + [step], start)
  {
    EndsOrdered(steps + [step], start);
  }

  lemma JoinedIsHealthy(s: State, h: Handle, step: C.Step)
    requires Healthy(s.db, Some(h)) && !Closes(h, step.startedAt)
    ensures Healthy(Joined(s, h, step).db, Joined(s, h, step).cache)
  {
    var seg := s.db.segments[h.id];
    assert Chronological(seg) && Described(seg);
    JoinedIsOnePut(s, h, step);
    GrownIsChronological(seg, s.orphans, step);
    GrownIsDescribed(seg, s.orphans, step);
    GrownEnds(seg.steps, step, seg.startedAt);
  }

  lemma StartedIsHealthy(s: State, step: C.Step)
    requires Healthy(s.db, None) && s.cache.None?
    requires forall id | 0 <= id < |s.db.segments| :: !s.db.segments[id].open
    ensures var ready := Opened(s, step);
            var joined := Joined(ready, ready.cache.value, step);
            Healthy(joined.db, joined.cache)
  {
    var ready := Opened(s, step);
    var h := ready.cache.value;
    var seg := ready.db.segments[h.id];
    JoinedIsOnePut(ready, h, step);
    GrownIsChronological(seg, ready.orphans, step);
    GrownIsDescribed(seg, ready.orphans, step);
    GrownEnds(seg.steps, step, seg.startedAt);
    var segments := Joined(ready, h, step).db.segments;
    assert segments[..h.id] == s.db.segments;
    assert forall id | 0 <= id < h.id :: segments[id] == s.db.segments[id];
  }

  lemma AppendedIsHealthy(s: State, step: C.Step)
    requires Healthy(s.db, s.cache)
    ensures Healthy(Appended(s, step).db, Appended(s, step).cache)
  {
    SettleIsHealthy(s, step.startedAt);
    var settled := Settle(s, step.startedAt);
    match settled.cache
    case Some(h) => JoinedIsHealthy(settled, h, step);
    case None => StartedIsHealthy(settled, step);
  }

  lemma {:induction false} SweptIsHealthy(s: State, events: seq<C.Event>, steps: seq<C.Step>,
                                          spans: seq<C.Span>, k: nat)
    requires C.Spanned(events, steps, spans) && k <= |steps| && Healthy(s.db, s.cache)
    ensures Healthy(Swept(s, events, steps, spans, k).db, Swept(s, events, steps, spans, k).cache)
  {
    if k > 0 {
      SweptIsHealthy(s, events, steps, spans, k - 1);
      var before := Swept(s, events, steps, spans, k - 1);
      var gap := C.Gap(events, steps, spans, k - 1);
      DropsAreHealthy(before, gap);
      AppendedIsHealthy(DroppedAll(before, gap), steps[k - 1]);
    }
  }

  lemma SweptAllIsHealthy(db: Db, cache: Option<Handle>, sorted: seq<C.Event>)
    requires Healthy(db, cache)
    ensures Healthy(SweptAll(db, cache, sorted).db, SweptAll(db, cache, sorted).cache)
  {
    C.StepsAreRuns(sorted);
    var steps, spans := C.Coalesced(sorted), C.Spans(sorted);
    var start := State(db, cache, 0, None);
    SweptIsHealthy(start, sorted, steps, spans, |steps|);
    DropsAreHealthy(Swept(start, sorted, steps, spans, |steps|), C.Gap(sorted, steps, spans, |steps|));
  }

  lemma LandingIsHealthy(end: State, sorted: seq<C.Event>)
    requires Healthy(end.db, end.cache)
    ensures Healthy(MarkProcessed(LandOrphans(end), sorted), end.cache)
  {
    if end.touched.Some? { TallyIsHealthy(end.db, end.cache, end.touched.value, end.orphans); }
    var landed := LandOrphans(end);
    var marked := MarkProcessed(landed, sorted);
    assert marked.segments == landed.segments && marked.jobs == landed.jobs;
  }

  /** A committed batch leaves one open segment at most, one job a finalized segment, and time in order. */
  lemma BatchKeepsLifecycle(db: Db, cache: Option<Handle>, sorted: seq<C.Event>)
    requires Healthy(db, cache)
    ensures Healthy(AppliedDb(db, cache, sorted), AppliedCache(db, cache, sorted))
  {
    SweptAllIsHealthy(db, cache, sorted);
    LandingIsHealthy(SweptAll(db, cache, sorted), sorted);
  }

  // -------------------------------------------- finalized segments are frozen

  /** Rows finalized before the batch are as they were, and the batch has not touched them. */
  ghost predicate Frozen(before: seq<Segment>, s: State) {
    && |before| <= |s.db.segments|
    && (forall id | 0 <= id < |before| && !before[id].open :: s.db.segments[id] == before[id])
    && (s.touched.Some? ==> s.touched.value >= |before| || before[s.touched.value].open)
  }

  lemma CurrentIsOpen(db: Db, cache: Option<Handle>)
    requires cache.Some? ==> Tracks(db.segments, cache.value)
    ensures Current(db, cache).Some? ==> IsOpen(db, Current(db, cache).value.id)
  {
    StoredIsOpen(db, |db.segments|);
  }

  lemma CloseKeepsFrozen(before: seq<Segment>, s: State, h: Handle)
    requires Frozen(before, s) && IsOpen(s.db, h.id)
    ensures Frozen(before, s.(db := Close(s.db, h), cache := None))
  {
  }

  lemma SettleKeepsFrozen(before: seq<Segment>, s: State, at: int)
    requires Frozen(before, s) && (s.cache.Some? ==> Tracks(s.db.segments, s.cache.value))
    ensures Frozen(before, Settle(s, at))
  {
    CurrentIsOpen(s.db, s.cache);
    var current := Current(s.db, s.cache);
    if current.Some? { CloseKeepsFrozen(before, s, current.value); }
  }

  lemma DroppedKeepsFrozen(before: seq<Segment>, s: State, at: int)
    requires Healthy(s.db, s.cache) && Frozen(before, s)
    ensures Frozen(before, Dropped(s, at))
  {
    SettleKeepsFrozen(before, s, at);
    SettleIsHealthy(s, at);
  }

  lemma {:induction false} DropsKeepFrozen(before: seq<Segment>, s: State, drops: seq<C.Event>)
    requires Healthy(s.db, s.cache) && Frozen(before, s)
    ensures Frozen(before, DroppedAll(s, drops))
    decreases |drops|
  {
    if drops != [] {
      DropsKeepFrozen(before, s, drops[..|drops| - 1]);
      DropsAreHealthy(s, drops[..|drops| - 1]);
      DroppedKeepsFrozen(before, DroppedAll(s, drops[..|drops| - 1]), drops[|drops| - 1].observedAt);
    }
  }

  lemma AppendedKeepsFrozen(before: seq<Segment>, s: State, step: C.Step)
    requires Healthy(s.db, s.cache) && Frozen(before, s)
    ensures Frozen(before, Appended(s, step))
  {
    SettleKeepsFrozen(before, s, step.startedAt);
    SettleIsHealthy(s, step.startedAt);
    var ready := Opened(Settle(s, step.startedAt), step);
    assert ready.db.segments[ready.cache.value.id].open;
    JoinedIsOnePut(ready, ready.cache.value, step);
  }

  lemma {:induction false} SweptKeepsFrozen(before: seq<Segment>, s: State, events: seq<C.Event>,
                                            steps: seq<C.Step>, spans: seq<C.Span>, k: nat)
    requires C.Spanned(events, steps, spans) && k <= |steps| && Healthy(s.db, s.cache) && Frozen(before, s)
    ensures Frozen(before, Swept(s, events, steps, spans, k))
  {
    if k > 0 {
      SweptKeepsFrozen(before, s, events, steps, spans, k - 1);
      SweptIsHealthy(s, events, steps, spans, k - 1);
      var swept := Swept(s, events, steps, spans, k - 1);
      var gap := C.Gap(events, steps, spans, k - 1);
      DropsKeepFrozen(before, swept, gap);
      DropsAreHealthy(swept, gap);
      AppendedKeepsFrozen(before, DroppedAll(swept, gap), steps[k - 1]);
    }
  }

  lemma SweptAllKeepsFrozen(db: Db, cache: Option<Handle>, sorted: seq<C.Event>)
    requires Healthy(db, cache)
    ensures Frozen(db.segments, SweptAll(db, cache, sorted))
  {
    C.StepsAreRuns(sorted);
    var steps, spans := C.Coalesced(sorted), C.Spans(sorted);
    var start := State(db, cache, 0, None);
    SweptKeepsFrozen(db.segments, start, sorted, steps, spans, |steps|);
    SweptIsHealthy(start, sorted, steps, spans, |steps|);
    DropsKeepFrozen(db.segments, Swept(start, sorted, steps, spans, |steps|), C.Gap(sorted, steps, spans, |steps|));
  }

  lemma LandingKeepsFrozen(before: seq<Segment>, end: State, sorted: seq<C.Event>)
    requires Frozen(before, end)
    ensures Frozen(before, end.(db := MarkProcessed(LandOrphans(end), sorted)))
  {
  }

  /** What a summarize job reads is final: no later batch changes a finalized segment, its count included. */
  lemma FinalizedStaysFixed(db: Db, cache: Option<Handle>, sorted: seq<C.Event>, id: SegmentId)
    requires Healthy(db, cache) && id < |db.segments| && !db.segments[id].open
    ensures id < |AppliedDb(db, cache, sorted).segments|
    ensures AppliedDb(db, cache, sorted).segments[id] == db.segments[id]
  {
    SweptAllKeepsFrozen(db, cache, sorted);
    LandingKeepsFrozen(db.segments, SweptAll(db, cache, sorted), sorted);
  }

  // ---------------------------------------------------------------- all runs

  datatype Op =
    | Deliver(events: seq<C.Event>, commits: bool)  // a sweep; its transaction may roll back
    | Shutdown
    | Restart                                        // a crash: the cache is lost

  datatype World = World(db: Db, cache: Option<Handle>)

  /** A sweep hands over stored events not yet processed. */
  predicate Eligible(w: World, op: Op) {
    op.Deliver? ==> C.DistinctIds(op.events) && forall e | e in op.events :: e.id !in w.db.processed
  }

  function ShutDown(w: World): World {
    match Current(w.db, w.cache)
    case None => w
    case Some(h) => World(Close(w.db, h), None)
  }

  function Next(w: World, op: Op): World {
    match op
    case Deliver(events, commits) =>
      if events == [] then w
      else if !commits then w.(cache := None)
      else
        var sorted := C.Sort(events);
        World(AppliedDb(w.db, w.cache, sorted), AppliedCache(w.db, w.cache, sorted))
    case Shutdown => ShutDown(w)
    case Restart => w.(cache := None)
  }

  ghost predicate Good(w: World) {
    Healthy(w.db, w.cache) && Total(w.db.segments) == |w.db.processed|
  }

  lemma {:induction false} IdsCount(events: seq<C.Event>)
    requires C.DistinctIds(events)
    ensures |set e | e in events :: e.id| == |events|
  {
    if events != [] {
      var last := |events| - 1;
      IdsCount(events[..last]);
      var ids := set e | e in events[..last] :: e.id;
      assert events == events[..last] + [events[last]];
      assert (set e | e in events :: e.id) == ids + {events[last].id};
      assert events[last].id !in ids;
    }
  }

  lemma ProcessedGrows(db: Db, events: seq<C.Event>)
    requires C.DistinctIds(events) && forall e | e in events :: e.id !in db.processed
    ensures |MarkProcessed(db, events).processed| == |db.processed| + |events|
  {
    IdsCount(events);
    var ids := set e | e in events :: e.id;
    assert db.processed !! ids;
  }

  lemma {:induction false} DropsLeaveProcessed(s: State, drops: seq<C.Event>)
    ensures DroppedAll(s, drops).db.processed == s.db.processed
    decreases |drops|
  {
    if drops != [] { DropsLeaveProcessed(s, drops[..|drops| - 1]); }
  }

  lemma AppendedLeavesProcessed(s: State, step: C.Step)
    ensures Appended(s, step).db.processed == s.db.processed
  {
  }

  lemma {:induction false} SweptLeavesProcessed(s: State, events: seq<C.Event>, steps: seq<C.Step>,
                                                spans: seq<C.Span>, k: nat)
    requires C.Spanned(events, steps, spans) && k <= |steps|
    ensures Swept(s, events, steps, spans, k).db.processed == s.db.processed
  {
    if k > 0 {
      SweptLeavesProcessed(s, events, steps, spans, k - 1);
      var before, gap := Swept(s, events, steps, spans, k - 1), C.Gap(events, steps, spans, k - 1);
      DropsLeaveProcessed(before, gap);
      AppendedLeavesProcessed(DroppedAll(before, gap), steps[k - 1]);
    }
  }

  lemma SweepLeavesProcessed(db: Db, cache: Option<Handle>, sorted: seq<C.Event>)
    ensures LandOrphans(SweptAll(db, cache, sorted)).processed == db.processed
  {
    C.StepsAreRuns(sorted);
    var steps, spans, start := C.Coalesced(sorted), C.Spans(sorted), State(db, cache, 0, None);
    SweptLeavesProcessed(start, sorted, steps, spans, |steps|);
    DropsLeaveProcessed(Swept(start, sorted, steps, spans, |steps|), C.Gap(sorted, steps, spans, |steps|));
  }

  lemma DeliveryIsGood(w: World, events: seq<C.Event>)
    requires Good(w) && Eligible(w, Deliver(events, true)) && events != []
    ensures Good(Next(w, Deliver(events, true)))
  {
    C.SortOrders(events);
    var sorted := C.Sort(events);
    forall e | e in sorted ensures e.id !in w.db.processed { assert e in multiset(events); }
    BatchKeepsLifecycle(w.db, w.cache, sorted);
    BatchIsConserved(w.db, w.cache, sorted);
    SweepLeavesProcessed(w.db, w.cache, sorted);
    ProcessedGrows(LandOrphans(SweptAll(w.db, w.cache, sorted)), sorted);
  }

  lemma ShutdownIsGood(w: World)
    requires Good(w)
    ensures Good(ShutDown(w)) && forall id | 0 <= id < |ShutDown(w).db.segments| :: !ShutDown(w).db.segments[id].open
  {
    CurrentIsHealthy(w.db, w.cache);
    var current := Current(w.db, w.cache);
    if current.Some? {
      CloseIsHealthy(w.db, current.value);
      SettleKeepsWeight(State(w.db, current, 0, None), current.value.lastActivity + IDLE_CLOSE_MS);
    }
  }

  predicate AllEligible(w: World, ops: seq<Op>)
    decreases |ops|
  {
    ops == [] || (Eligible(w, ops[0]) && AllEligible(Next(w, ops[0]), ops[1..]))
  }

  function Run(w: World, ops: seq<Op>): World
    decreases |ops|
  {
    if ops == [] then w else Run(Next(w, ops[0]), ops[1..])
  }

  lemma NextIsGood(w: World, op: Op)
    requires Good(w) && Eligible(w, op)
    ensures Good(Next(w, op))
  {
    match op
    case Deliver(events, commits) => if commits && events != [] { DeliveryIsGood(w, events); }
    case Shutdown => ShutdownIsGood(w);
    case Restart =>
  }

  lemma {:induction false} RunIsGood(w: World, ops: seq<Op>)
    requires Good(w) && AllEligible(w, ops)
    ensures Good(Run(w, ops))
    decreases |ops|
  {
    if ops != [] {
      NextIsGood(w, ops[0]);
      RunIsGood(Next(w, ops[0]), ops[1..]);
    }
  }

  /**
   * Over every run of sweeps, rollbacks, shutdowns and crashes from the empty
   * database: at most one segment is open, a segment is finalized iff it has its
   * one summarize job, steps are chronological within the boundaries, rows tell
   * their steps, and counts sum to exactly the events marked processed.
   */
  lemma SegmentsAlwaysGood(ops: seq<Op>)
    requires AllEligible(World(EMPTY_DB, None), ops)
    ensures Lifecycle(Run(World(EMPTY_DB, None), ops).db)
    ensures Total(Run(World(EMPTY_DB, None), ops).db.segments) == |Run(World(EMPTY_DB, None), ops).db.processed|
  {
    RunIsGood(World(EMPTY_DB, None), ops);
  }

  // ------------------------------------------------------------ the segmenter

  lemma OneMoreGap(done: seq<C.DroppedGroup>, tail: seq<C.DroppedGroup>, n: nat, gap: seq<C.Event>)
      returns (longer: seq<C.DroppedGroup>)
    ensures C.AddGroup(done + tail, n, gap) == done + longer
    ensures longer == if gap == [] then tail else tail + [C.DroppedGroup(n, gap)]
  {
    longer := if gap == [] then tail else tail + [C.DroppedGroup(n, gap)];
    assert done + tail + [C.DroppedGroup(n, gap)] == done + (tail + [C.DroppedGroup(n, gap)]);
  }

  /** The groups of the gaps before step `k` come first; what follows stands at step `k` or later. */
  lemma {:induction false} LaterGroups(events: seq<C.Event>, steps: seq<C.Step>, spans: seq<C.Span>, k: nat, n: nat)
      returns (tail: seq<C.DroppedGroup>)
    requires C.Spanned(events, steps, spans) && k <= n <= |steps| + 1
    ensures C.Groups(events, steps, spans, n) == C.Groups(events, steps, spans, k) + tail
    ensures forall i | 0 <= i < |tail| :: tail[i].beforeStep >= k
  {
    tail := [];
    if k < n {
      var rest := LaterGroups(events, steps, spans, k, n - 1);
      tail := OneMoreGap(C.Groups(events, steps, spans, k), rest, n - 1, C.Gap(events, steps, spans, n - 1));
    }
  }

  lemma GroupAt(all: seq<C.DroppedGroup>, done: seq<C.DroppedGroup>, tail: seq<C.DroppedGroup>, k: nat,
                gap: seq<C.Event>)
    requires all == C.AddGroup(done, k, gap) + tail && forall i | 0 <= i < |tail| :: tail[i].beforeStep > k
    ensures gap != [] ==> |done| < |all| && all[|done|] == C.DroppedGroup(k, gap)
                          && |C.AddGroup(done, k, gap)| == |done| + 1
    ensures gap == [] ==> !(|done| < |all| && all[|done|].beforeStep == k) && |C.AddGroup(done, k, gap)| == |done|
  {
    if gap == [] && |done| < |all| { assert all[|done|] == tail[0]; }
  }

  /** The next group is the one before step `k` exactly when something was dropped there. */
  lemma NextGroup(events: seq<C.Event>, steps: seq<C.Step>, spans: seq<C.Span>, k: nat)
    requires C.Spanned(events, steps, spans) && k <= |steps|
    ensures var all, at := C.Groups(events, steps, spans, |steps| + 1), |C.Groups(events, steps, spans, k)|;
            var gap := C.Gap(events, steps, spans, k);
            && (gap != [] ==> at < |all| && all[at] == C.DroppedGroup(k, gap)
                              && |C.Groups(events, steps, spans, k + 1)| == at + 1)
            && (gap == [] ==> !(at < |all| && all[at].beforeStep == k)
                              && |C.Groups(events, steps, spans, k + 1)| == at)
  {
    var tail := LaterGroups(events, steps, spans, k + 1, |steps| + 1);
    GroupAt(C.Groups(events, steps, spans, |steps| + 1), C.Groups(events, steps, spans, k), tail, k,
            C.Gap(events, steps, spans, k));
  }

  lemma TallyNothing(db: Db, id: SegmentId)
    ensures Tally(db, id, 0, None) == db
  {
    if id < |db.segments| { assert db.segments[id := db.segments[id]] == db.segments; }
  }

  class Segmenter {
    var db: Db
    var openSegment: Option<Handle>

    constructor ()
      ensures db == EMPTY_DB && openSegment == None
    {
      db, openSegment := EMPTY_DB, None;
    }

    /** The cached open segment, read from the database on first touch. */
    method CurrentOpen() returns (open: Option<Handle>)
      modifies this`openSegment
      ensures open == Current(db, old(openSegment)) && openSegment == open
    {
      if openSegment.Some? { return openSegment; }
      open := None;
      for n := 0 to |db.segments|
        invariant open == Stored(db, n)
      {
        var seg := db.segments[n];
        if seg.open && (open.None? || seg.startedAt >= open.value.startedAt) {
          open := Some(Handle(n, seg.startedAt, LatestEnd(seg.steps, seg.startedAt), seg.lastEventId));
        }
      }
      openSegment := open;
    }

    method CloseSegment(h: Handle)
      modifies this
      ensures openSegment == None && db == Close(old(db), h)
    {
      openSegment := None;
      if h.id >= |db.segments| { return; }
      var row := db.segments[h.id];
      if !row.open || row.job.Some? { return; }
      var jobId := |db.jobs|;
      db := db.(
        jobs := db.jobs + [h.id],
        segments := db.segments[h.id := row.(
          open := false, endedAt := Some(h.lastActivity), job := Some(jobId),
          lastEventId := if h.lastEventId.Some? then h.lastEventId else row.lastEventId)]);
    }

    /** Late arrival, idle gap or full duration: each boundary closes on its own. */
    method SettleBoundary(at: int, ghost orphans: nat, ghost touched: Option<SegmentId>)
        returns (open: Option<Handle>)
      modifies this
      ensures State(db, openSegment, orphans, touched)
           == Settle(State(old(db), old(openSegment), orphans, touched), at)
      ensures open == openSegment
    {
      open := CurrentOpen();
      if open.Some? && at < open.value.lastActivity - WATERMARK_LAG_MS {
        CloseSegment(open.value);
        open := None;
      }
      if open.Some? && at - open.value.lastActivity >= IDLE_CLOSE_MS {
        CloseSegment(open.value);
        open := None;
      }
      if open.Some? && at - open.value.startedAt >= MAX_DURATION_MS {
        CloseSegment(open.value);
        open := None;
      }
    }

    method TallyDrops(drops: seq<C.Event>, orphaned: nat, touched: Option<SegmentId>)
        returns (orphaned': nat, touched': Option<SegmentId>)
      modifies this
      ensures State(db, openSegment, orphaned', touched')
           == DroppedAll(State(old(db), old(openSegment), orphaned, touched), drops)
    {
      orphaned', touched' := orphaned, touched;
      ghost var start := State(db, openSegment, orphaned, touched);
      for i := 0 to |drops|
        invariant State(db, openSegment, orphaned', touched') == DroppedAll(start, drops[..i])
      {
        assert drops[..i + 1][..i] == drops[..i];
        var open := SettleBoundary(drops[i].observedAt, orphaned', touched');
        if open.None? {
          orphaned' := orphaned' + 1;
        } else {
          db := Tally(db, open.value.id, 1, None);
          touched' := Some(open.value.id);
        }
      }
      assert drops[..|drops|] == drops;
    }

    method Append(step: C.Step, orphaned: nat, ghost touched: Option<SegmentId>)
      modifies this
      ensures openSegment.Some?
      ensures State(db, openSegment, 0, Some(openSegment.value.id))
           == Appended(State(old(db), old(openSegment), orphaned, touched), step)
    {
      var open := SettleBoundary(step.startedAt, orphaned, touched);
      if open.None? {
        open := Some(Handle(|db.segments|, step.startedAt, step.startedAt, None));
        db := CreateOpen(db, step.startedAt, step.firstId);
      }
      var h := open.value;
      // Without waiting drops the first tally changes nothing.
      if orphaned > 0 { db := Tally(db, h.id, orphaned, None); } else { TallyNothing(db, h.id); }
      db := AppendStep(db, h.id, step);
      db := Tally(db, h.id, step.count, Some(step.lastId));
      openSegment := Some(h.(lastActivity := step.endedAt, lastEventId := Some(step.lastId)));
    }

    /** Each step after the drops that precede it. */
    method SweepSteps(sorted: seq<C.Event>, steps: seq<C.Step>, ghost spans: seq<C.Span>, groups: seq<C.DroppedGroup>)
        returns (groupIdx: nat, orphaned: nat, touched: Option<SegmentId>)
      requires C.Spanned(sorted, steps, spans) && groups == C.Groups(sorted, steps, spans, |steps| + 1)
      modifies this
      ensures groupIdx == |C.Groups(sorted, steps, spans, |steps|)|
      ensures State(db, openSegment, orphaned, touched)
           == Swept(State(old(db), old(openSegment), 0, None), sorted, steps, spans, |steps|)
    {
      ghost var start := State(db, openSegment, 0, None);
      groupIdx, orphaned, touched := 0, 0, None;
      for k := 0 to |steps|
        invariant groupIdx == |C.Groups(sorted, steps, spans, k)|
        invariant State(db, openSegment, orphaned, touched) == Swept(start, sorted, steps, spans, k)
      {
        NextGroup(sorted, steps, spans, k);
        if groupIdx < |groups| && groups[groupIdx].beforeStep == k {
          orphaned, touched := TallyDrops(groups[groupIdx].events, orphaned, touched);
          groupIdx := groupIdx + 1;
        }
        Append(steps[k], orphaned, touched);
        orphaned, touched := 0, Some(openSegment.value.id);
      }
    }

    /** Drops still waiting land in the last window touched; the whole batch is marked. */
    method FinishBatch(sorted: seq<C.Event>, orphaned: nat, touched: Option<SegmentId>)
      modifies this`db
      ensures db == MarkProcessed(LandOrphans(State(old(db), openSegment, orphaned, touched)), sorted)
    {
      if orphaned > 0 && touched.Some? {
        db := Tally(db, touched.value, orphaned, None);
      }
      db := db.(processed := db.processed + set e | e in sorted :: e.id);
    }

    /** The body of the apply transaction. */
    method ApplyTx(sorted: seq<C.Event>, steps: seq<C.Step>)
      requires C.DistinctIds(sorted) && steps == C.Coalesced(sorted)
      modifies this
      ensures db == AppliedDb(old(db), old(openSegment), sorted)
      ensures openSegment == AppliedCache(old(db), old(openSegment), sorted)
    {
      C.StepsAreRuns(sorted);
      ghost var spans := C.Spans(sorted);
      var grouped := C.GroupDroppedEvents(sorted, steps, spans);
      var groups := grouped.value;
      var groupIdx, orphaned, touched := SweepSteps(sorted, steps, spans, groups);
      NextGroup(sorted, steps, spans, |steps|);
      if groupIdx < |groups| {
        orphaned, touched := TallyDrops(groups[groupIdx].events, orphaned, touched);
      }
      FinishBatch(sorted, orphaned, touched);
    }

    /** One sweep; `commits` is whether its transaction commits or throws and rolls back. */
    method OnEventsEligible(events: seq<C.Event>, commits: bool) returns (thrown: bool)
      requires C.DistinctIds(events)
      modifies this
      ensures World(db, openSegment) == Next(World(old(db), old(openSegment)), Deliver(events, commits))
      ensures thrown <==> events != [] && !commits
    {
      if events == [] { return false; }
      C.SortOrders(events);
      var sorted := C.Sort(events);
      C.OrderedIsUnique(C.Sort(sorted), sorted) by { C.SortOrders(sorted); }
      var steps := C.CoalesceEvents(sorted);
      var stored := db;
      ApplyTx(sorted, steps);
      if !commits {
        db, openSegment := stored, None;
        return true;
      }
      thrown := false;
    }

    method FinalizeForShutdown() returns (closed: Option<SegmentId>)
      modifies this
      ensures World(db, openSegment) == Next(World(old(db), old(openSegment)), Shutdown)
      ensures closed.Some? <==> Current(old(db), old(openSegment)).Some?
      ensures closed.Some? ==> closed.value == Current(old(db), old(openSegment)).value.id
    {
      var open := CurrentOpen();
      if open.None? { return None; }
      CloseSegment(open.value);
      closed := Some(open.value.id);
    }
  }
}
