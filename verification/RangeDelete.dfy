/**
 * Deleting a time range: one transaction over events, steps, episodes, evidence,
 * memories and workflows, its cascades worked off in portions of 500.
 */
module RangeDelete {
  import opened Prelude
  import Fingerprint
  import M = MemoryStore

  const PORTION := 500
  const MIN_OCCURRENCES := 3
  const MIN_DISTINCT_DAYS := 2
  const DAY_MS := 86_400_000

  datatype Interval = Interval(start: int, end: Option<int>)

  /** Inclusive bounds; an absent one is unbounded. */
  datatype Range = Range(from: Option<int>, to: Option<int>)

  datatype Workflow = Workflow(candidate: bool, occurrenceCount: nat, medianSimilarity: real)

  /** The similarity recorded for each (workflow, episode). */
  type Occurrences = map<(nat, nat), real>

  datatype Tables = Tables(
    events: map<nat, int>, steps: map<nat, Interval>, episodes: map<nat, Interval>,
    links: set<(nat, nat)>,          // (episode, step)
    memory: M.Store,
    occurrences: Occurrences,
    workflows: map<nat, Workflow>)

  datatype Stats = Stats(rawEvents: nat, steps: nat, episodes: nat, memories: nat, workflows: nat)

  // ------------------------------------------------------ the one-shot delete

  predicate Overlaps(r: Range, i: Interval) {
    && (r.from.Some? ==> (if i.end.Some? then i.end.value else i.start) >= r.from.value)
    && (r.to.Some? ==> i.start <= r.to.value)
  }

  function EventsIn(t: Tables, r: Range): set<nat> {
    set id | id in t.events && Overlaps(r, Interval(t.events[id], None))
  }

  function StepsIn(t: Tables, r: Range): set<nat> { set id | id in t.steps && Overlaps(r, t.steps[id]) }

  function EpisodesIn(t: Tables, r: Range): set<nat> { set id | id in t.episodes && Overlaps(r, t.episodes[id]) }

  /** Candidate occurrences of dead episodes go before the thresholds are judged. */
  function Surviving(t: Tables): Occurrences {
    map o | o in t.occurrences && (o.1 in t.episodes || !(o.0 in t.workflows && t.workflows[o.0].candidate))
      :: t.occurrences[o]
  }

  function OfWorkflow(occurrences: Occurrences, workflow: nat): Occurrences {
    map o | o in occurrences && o.0 == workflow :: occurrences[o]
  }

  function DaysOf(occurrences: Occurrences, episodes: map<nat, Interval>, workflow: nat): set<int> {
    set o | o in occurrences && o.0 == workflow && o.1 in episodes :: episodes[o.1].start / DAY_MS
  }

  predicate BelowThreshold(occurrences: Occurrences, episodes: map<nat, Interval>, workflow: nat) {
    |OfWorkflow(occurrences, workflow)| < MIN_OCCURRENCES
    || |DaysOf(occurrences, episodes, workflow)| < MIN_DISTINCT_DAYS
  }

  function WeakWorkflows(t: Tables): set<nat> {
    set id | id in t.workflows && t.workflows[id].candidate && BelowThreshold(Surviving(t), t.episodes, id)
  }

  ghost function AnyOf(occurrences: Occurrences): (o: (nat, nat))
    requires occurrences != map[]
    ensures o in occurrences
  {
    var o :| o in occurrences;
    o
  }

  /** The similarities in some order; the median does not depend on it. */
  ghost function Listed(occurrences: Occurrences): seq<real> {
    if occurrences == map[] then []
    else [occurrences[AnyOf(occurrences)]] + Listed(occurrences - {AnyOf(occurrences)})
  }

  /** Count and median follow the ledger. */
  ghost function Recomputed(w: Workflow, ledger: Occurrences): Workflow {
    if w.candidate then w.(occurrenceCount := |ledger|, medianSimilarity := Fingerprint.Median(Listed(ledger))) else w
  }

  ghost function Purged(t: Tables): Tables {
    var weak, surviving := WeakWorkflows(t), Surviving(t);
    t.(occurrences := (map o | o in surviving && o.0 !in weak :: surviving[o]),
       workflows := map id | id in t.workflows && id !in weak ::
         Recomputed(t.workflows[id], OfWorkflow(surviving, id)))
  }

  /** The rows of the given steps and episodes, and all that hangs on them, removed at once. */
  function Cascaded(t: Tables, events: set<nat>, steps: set<nat>, episodes: set<nat>): Tables {
    Tables(t.events - events, t.steps - steps, t.episodes - episodes,
           (set l | l in t.links && l.0 !in episodes && l.1 !in steps),
           M.WithoutEpisodes(t.memory, episodes),
           (map o | o in t.occurrences && o.1 !in episodes :: t.occurrences[o]),
           t.workflows)
  }

  ghost function Deleted(t: Tables, r: Range): Tables {
    Purged(Cascaded(t, EventsIn(t, r), StepsIn(t, r), EpisodesIn(t, r)))
  }

  function DeleteStats(t: Tables, r: Range): Stats {
    Stats(|EventsIn(t, r)|, |StepsIn(t, r)|, |EpisodesIn(t, r)|, |M.Killed(t.memory, EpisodesIn(t, r))|,
          |WeakWorkflows(Cascaded(t, EventsIn(t, r), StepsIn(t, r), EpisodesIn(t, r)))|)
  }

  // ------------------------------------------------------- repeating a delete

  lemma NothingLeftIn(t: Tables, r: Range)
    ensures EventsIn(Deleted(t, r), r) == {} && StepsIn(Deleted(t, r), r) == {} && EpisodesIn(Deleted(t, r), r) == {}
  {
  }

  lemma NoEpisodesNoChange(s: M.Store)
    ensures M.WithoutEpisodes(s, {}) == s && M.Killed(s, {}) == {}
  {
    M.WithoutEpisodesRows(s, {});
    assert M.Pruned(s.evidence, {}) == s.evidence;
    assert M.Affected(s.evidence, {}) == {};
    assert M.Killed(s, {}) == {} && M.RowIds(s.rows, {}) == {};
    assert M.WithoutEpisodes(s, {}).rows == s.rows;
  }

  lemma EmptyCascade(t: Tables)
    ensures Cascaded(t, {}, {}, {}) == t
  {
    NoEpisodesNoChange(t.memory);
  }

  lemma PurgedKeepsLedger(t: Tables, id: nat)
    requires id in Purged(t).workflows
    ensures OfWorkflow(Purged(t).occurrences, id) == OfWorkflow(Surviving(t), id)
    ensures DaysOf(Purged(t).occurrences, t.episodes, id) == DaysOf(Surviving(t), t.episodes, id)
  {
    assert forall o | o in Surviving(t) && o.0 == id :: o in Purged(t).occurrences;
  }

  lemma PurgedSurvives(t: Tables)
    ensures Surviving(Purged(t)) == Purged(t).occurrences
  {
  }

  lemma PurgedHasNoneWeak(t: Tables)
    ensures WeakWorkflows(Purged(t)) == {}
  {
    PurgedSurvives(t);
    forall id | id in Purged(t).workflows && Purged(t).workflows[id].candidate
      ensures !BelowThreshold(Purged(t).occurrences, t.episodes, id)
    {
      PurgedKeepsLedger(t, id);
    }
  }

  lemma PurgedFixed(p: Tables)
    requires WeakWorkflows(p) == {} && Surviving(p) == p.occurrences
    requires forall id | id in p.workflows ::
               Recomputed(p.workflows[id], OfWorkflow(p.occurrences, id)) == p.workflows[id]
    ensures Purged(p) == p
  {
    assert Purged(p).workflows == p.workflows;
    assert Purged(p).occurrences == p.occurrences;
  }

  /** After a purge every candidate that is left meets both thresholds. */
  lemma PurgedStaysPurged(t: Tables)
    ensures WeakWorkflows(Purged(t)) == {} && Purged(Purged(t)) == Purged(t)
  {
    var p := Purged(t);
    PurgedHasNoneWeak(t);
    PurgedSurvives(t);
    forall id | id in p.workflows
      ensures Recomputed(p.workflows[id], OfWorkflow(p.occurrences, id)) == p.workflows[id]
    {
      PurgedKeepsLedger(t, id);
    }
    PurgedFixed(p);
  }

  /** Repeating the same explicit range reports zeros and changes nothing. */
  lemma RepeatReportsZeros(t: Tables, r: Range)
    ensures DeleteStats(Deleted(t, r), r) == Stats(0, 0, 0, 0, 0)
    ensures Deleted(Deleted(t, r), r) == Deleted(t, r)
  {
    var d := Deleted(t, r);
    NothingLeftIn(t, r);
    EmptyCascade(d);
    NoEpisodesNoChange(d.memory);
    PurgedStaysPurged(Cascaded(t, EventsIn(t, r), StepsIn(t, r), EpisodesIn(t, r)));
  }

  // --------------------------------------------------------------- references

  /** Every reference points at a row that exists. */
  ghost predicate Referential(t: Tables) {
    && (forall l | l in t.links :: l.0 in t.episodes && l.1 in t.steps)
    && (forall o | o in t.occurrences :: o.0 in t.workflows && o.1 in t.episodes)
    && (forall k | k in t.memory.evidence :: k.1 in t.episodes)
    && M.Sound(t.memory)
  }

  /** The foreign keys declare no cascade; the delete itself leaves nothing dangling. */
  lemma DeleteKeepsReferences(t: Tables, r: Range)
    requires Referential(t)
    ensures Referential(Deleted(t, r))
  {
    M.WithoutEpisodesIsSound(t.memory, EpisodesIn(t, r));
    M.WithoutEpisodesRows(t.memory, EpisodesIn(t, r));
  }

  // ---------------------------------------------------- portions of 500 add up

  function ToSet(s: seq<nat>): set<nat> { set x | x in s }

  lemma TwoPortions(items: seq<nat>, i: nat, j: nat)
    requires i <= j <= |items|
    ensures ToSet(items[..j]) == ToSet(items[..i]) + ToSet(items[i..j])
  {
    assert items[..j] == items[..i] + items[i..j];
  }

  lemma InvalidatedTwice(s: M.Store, a: set<nat>, b: set<nat>)
    ensures M.Invalidated(s, a) + M.Invalidated(M.DeletedInvalidated(s, a), b) == M.Invalidated(s, a + b)
    ensures M.Invalidated(s, a) !! M.Invalidated(M.DeletedInvalidated(s, a), b)
  {
  }

  /** Rows and index entries of `gone` taken out. */
  function Taken(s: M.Store, gone: set<nat>): M.Store {
    M.Store(s.rows - gone, s.evidence, s.fts - M.RowIds(s.rows, gone))
  }

  lemma TakenTwice(s: M.Store, gone: set<nat>, later: set<nat>)
    ensures Taken(Taken(s, gone), later) == Taken(s, gone + later)
  {
    M.RowIdsTwice(s.rows, s.rows - gone, gone, later);
    assert s.rows - gone - later == s.rows - (gone + later);
  }

  lemma Disjoint(a: set<nat>, b: set<nat>)
    requires a !! b
    ensures |a + b| == |a| + |b|
  {
  }

  lemma DeletedInvalidatedTwice(s: M.Store, a: set<nat>, b: set<nat>)
    ensures M.DeletedInvalidated(M.DeletedInvalidated(s, a), b) == M.DeletedInvalidated(s, a + b)
    ensures |M.Invalidated(s, a + b)|
         == |M.Invalidated(s, a)| + |M.Invalidated(M.DeletedInvalidated(s, a), b)|
  {
    InvalidatedTwice(s, a, b);
    var gone, later := M.Invalidated(s, a), M.Invalidated(M.DeletedInvalidated(s, a), b);
    TakenTwice(s, gone, later);
    Disjoint(gone, later);
  }

  lemma DeletedInvalidatedNone(s: M.Store)
    ensures M.DeletedInvalidated(s, {}) == s && M.Invalidated(s, {}) == {}
  {
    assert M.Invalidated(s, {}) == {} && M.RowIds(s.rows, {}) == {};
  }

  lemma RecountedTwice(s: M.Store, a: set<nat>, b: set<nat>)
    ensures M.Recounted(M.Recounted(s, a), b) == M.Recounted(s, a + b)
    ensures M.Recounted(s, {}) == s
  {
  }

  /** Killed in two portions: nobody twice, and the same as at once. */
  lemma KilledAddsUp(s: M.Store, a: set<nat>, b: set<nat>)
    ensures |M.Killed(s, a + b)| == |M.Killed(s, a)| + |M.Killed(M.WithoutEpisodes(s, a), b)|
  {
    M.KilledTwice(s, a, b);
    M.WithoutEpisodesRows(s, a);
    assert M.Killed(s, a) !! M.Killed(M.WithoutEpisodes(s, a), b);
    assert |M.Killed(s, a) + M.Killed(M.WithoutEpisodes(s, a), b)|
        == |M.Killed(s, a)| + |M.Killed(M.WithoutEpisodes(s, a), b)|;
  }

  /** What the portion loop has done after the episodes in `done`. */
  function Detached(t: Tables, done: set<nat>): Tables {
    t.(memory := M.WithoutEpisodes(t.memory, done),
       occurrences := (map o | o in t.occurrences && o.1 !in done :: t.occurrences[o]),
       links := (set l | l in t.links && l.0 !in done))
  }

  lemma DetachedTwice(t: Tables, a: set<nat>, b: set<nat>)
    ensures Detached(Detached(t, a), b) == Detached(t, a + b)
  {
    M.PortionsCompose(t.memory, a, b);
  }

  lemma DetachedNone(t: Tables)
    ensures Detached(t, {}) == t && M.Killed(t.memory, {}) == {}
  {
    NoEpisodesNoChange(t.memory);
  }

  // ------------------------------------------------------- the delete service

  method ToSeq(s: set<nat>) returns (items: seq<nat>)
    ensures ToSet(items) == s && |items| == |s|
  {
    items := [];
    var todo := s;
    while todo != {}
      invariant todo <= s && ToSet(items) == s - todo && |items| == |s| - |todo|
      decreases |todo|
    {
      var x :| x in todo;
      assert ToSet(items + [x]) == ToSet(items) + {x};
      items, todo := items + [x], todo - {x};
    }
  }

  function PortionEnd(i: nat, n: nat): nat
    requires i < n
  {
    if i + PORTION <= n then i + PORTION else n
  }

  /** How often each similarity is recorded. */
  ghost function Bag(occurrences: Occurrences): multiset<real> {
    if occurrences == map[] then multiset{}
    else Bag(occurrences - {AnyOf(occurrences)}) + multiset{occurrences[AnyOf(occurrences)]}
  }

  lemma TwoOut(occurrences: Occurrences, a: (nat, nat), b: (nat, nat))
    ensures occurrences - {a} - {b} == occurrences - {b} - {a}
  {
  }

  lemma SwapOrder(whole: multiset<real>, a: multiset<real>, b: multiset<real>, neither: multiset<real>, x: real,
                  y: real)
    requires whole == a + multiset{x} && a == neither + multiset{y} && b == neither + multiset{x}
    ensures whole == b + multiset{y}
  {
  }

  lemma {:induction false} BagWithout(occurrences: Occurrences, o: (nat, nat))
    requires o in occurrences
    ensures Bag(occurrences) == Bag(occurrences - {o}) + multiset{occurrences[o]}
    decreases |occurrences|
  {
    var first := AnyOf(occurrences);
    if first != o {
      var rest, others := occurrences - {first}, occurrences - {o};
      BagWithout(rest, o);
      BagWithout(others, first);
      TwoOut(occurrences, first, o);
      SwapOrder(Bag(occurrences), Bag(rest), Bag(others), Bag(rest - {o}), occurrences[first], occurrences[o]);
    }
  }

  lemma {:induction false} ListedIsBag(occurrences: Occurrences)
    ensures multiset(Listed(occurrences)) == Bag(occurrences)
    decreases |occurrences|
  {
    if occurrences != map[] {
      ListedIsBag(occurrences - {AnyOf(occurrences)});
    }
  }

  lemma OneMore(values: seq<real>, x: real, rest: multiset<real>)
    ensures multiset(values + [x]) + rest == multiset(values) + (rest + multiset{x})
  {
  }

  method SimilaritiesOf(ledger: Occurrences) returns (values: seq<real>)
    ensures multiset(values) == Bag(ledger) && |values| == |ledger|
  {
    values := [];
    var todo := ledger;
    while todo != map[]
      invariant multiset(values) + Bag(todo) == Bag(ledger)
      invariant |values| + |todo| == |ledger|
      decreases |todo|
    {
      var o :| o in todo;
      BagWithout(todo, o);
      OneMore(values, todo[o], Bag(todo - {o}));
      assert |todo| == |todo - {o}| + 1;
      values, todo := values + [todo[o]], todo - {o};
    }
  }

  function Weak(surviving: Occurrences, episodes: map<nat, Interval>, candidates: set<nat>): set<nat> {
    set id | id in candidates && BelowThreshold(surviving, episodes, id)
  }

  /** The candidates in `done` brought up to date. */
  ghost function Judged(t: Tables, done: set<nat>): Tables {
    t.(workflows := map id | id in t.workflows ::
         if id in done then Recomputed(t.workflows[id], OfWorkflow(t.occurrences, id)) else t.workflows[id])
  }

  lemma JudgedNone(t: Tables)
    ensures Judged(t, {}) == t
  {
    assert Judged(t, {}).workflows == t.workflows;
  }

  lemma JudgedOneMore(t: Tables, done: set<nat>, id: nat)
    requires id in t.workflows && id !in done
    ensures id in Judged(t, done).workflows && Judged(t, done).workflows[id] == t.workflows[id]
    ensures Judged(t, done).(workflows :=
              Judged(t, done).workflows[id := Recomputed(t.workflows[id], OfWorkflow(t.occurrences, id))])
         == Judged(t, done + {id})
  {
    var recomputed := Recomputed(t.workflows[id], OfWorkflow(t.occurrences, id));
    assert Judged(t, done).workflows[id := recomputed] == Judged(t, done + {id}).workflows;
  }

  lemma WeakOneMore(surviving: Occurrences, episodes: map<nat, Interval>, done: set<nat>, id: nat)
    ensures Weak(surviving, episodes, done + {id})
         == if BelowThreshold(surviving, episodes, id) then Weak(surviving, episodes, done) + {id}
            else Weak(surviving, episodes, done)
  {
  }

  lemma WeakWorkflowsAgree(t: Tables, candidates: set<nat>)
    requires candidates == set id | id in t.workflows && t.workflows[id].candidate
    ensures Weak(Surviving(t), t.episodes, candidates) == WeakWorkflows(t)
  {
  }

  lemma AllJudged(t: Tables, candidates: set<nat>)
    requires candidates == set id | id in t.workflows && t.workflows[id].candidate
    ensures Judged(t.(occurrences := Surviving(t)), candidates).workflows - WeakWorkflows(t) == Purged(t).workflows
  {
  }

  class DeleteService {
    var tables: Tables

    constructor (t: Tables)
      ensures tables == t
    {
      tables := t;
    }

    /** Non-manual rows without evidence among the given ids, row and index entry together. */
    method HardDeleteInvalidatedMemories(ids: seq<nat>) returns (deleted: nat)
      modifies this
      ensures tables == old(tables).(memory := M.DeletedInvalidated(old(tables).memory, ToSet(ids)))
      ensures deleted == |M.Invalidated(old(tables).memory, ToSet(ids))|
    {
      ghost var start := tables.memory;
      deleted := 0;
      DeletedInvalidatedNone(start);
      var i := 0;
      assert ToSet(ids[..0]) == {};
      while i < |ids|
        invariant i <= |ids|
        invariant tables == old(tables).(memory := M.DeletedInvalidated(start, ToSet(ids[..i])))
        invariant deleted == |M.Invalidated(start, ToSet(ids[..i]))|
      {
        var j := PortionEnd(i, |ids|);
        TwoPortions(ids, i, j);
        DeletedInvalidatedTwice(start, ToSet(ids[..i]), ToSet(ids[i..j]));
        var victims := M.Invalidated(tables.memory, ToSet(ids[i..j]));
        if victims != {} {
          var rowids := M.RowIds(tables.memory.rows, victims);
          tables := tables.(memory := tables.memory.(fts := tables.memory.fts - rowids));
          tables := tables.(memory := tables.memory.(rows := tables.memory.rows - victims));
          deleted := deleted + |victims|;
        } else {
          DeletedInvalidatedNone(tables.memory);
        }
        i := j;
      }
      assert ids[..|ids|] == ids;
    }

    method RecountEvidence(ids: seq<nat>)
      modifies this
      ensures tables == old(tables).(memory := M.Recounted(old(tables).memory, ToSet(ids)))
    {
      ghost var start := tables.memory;
      var i := 0;
      assert ToSet(ids[..0]) == {};
      RecountedTwice(start, {}, {});
      while i < |ids|
        invariant i <= |ids|
        invariant tables == old(tables).(memory := M.Recounted(start, ToSet(ids[..i])))
      {
        var j := PortionEnd(i, |ids|);
        TwoPortions(ids, i, j);
        RecountedTwice(start, ToSet(ids[..i]), ToSet(ids[i..j]));
        var portion := ids[i..j];
        tables := tables.(memory := tables.memory.(rows := map id | id in tables.memory.rows ::
          if id in portion then tables.memory.rows[id].(evidenceCount := |M.Of(tables.memory.evidence, id)|)
          else tables.memory.rows[id]));
        i := j;
      }
      assert ids[..|ids|] == ids;
    }

    /** Evidence, memories, counts, occurrences and links of one portion of dying episodes. */
    method DetachPortion(portion: seq<nat>) returns (memories: nat)
      modifies this
      ensures tables == Detached(old(tables), ToSet(portion))
      ensures memories == |M.Killed(old(tables).memory, ToSet(portion))|
    {
      var dying := ToSet(portion);
      var affected := ToSeq(M.Affected(tables.memory.evidence, dying));
      tables := tables.(memory := tables.memory.(evidence := M.Pruned(tables.memory.evidence, dying)));
      memories := HardDeleteInvalidatedMemories(affected);
      RecountEvidence(affected);
      tables := tables.(occurrences := map o | o in tables.occurrences && o.1 !in dying :: tables.occurrences[o]);
      tables := tables.(links := (set l | l in tables.links && l.0 !in dying));
    }

    method DetachEpisodes(victims: seq<nat>) returns (memories: nat)
      modifies this
      ensures tables == Detached(old(tables), ToSet(victims))
      ensures memories == |M.Killed(old(tables).memory, ToSet(victims))|
    {
      memories := 0;
      ghost var start := tables;
      DetachedNone(start);
      var i := 0;
      assert ToSet(victims[..0]) == {};
      while i < |victims|
        invariant i <= |victims|
        invariant tables == Detached(start, ToSet(victims[..i]))
        invariant memories == |M.Killed(start.memory, ToSet(victims[..i]))|
      {
        var j := PortionEnd(i, |victims|);
        TwoPortions(victims, i, j);
        DetachedTwice(start, ToSet(victims[..i]), ToSet(victims[i..j]));
        KilledAddsUp(start.memory, ToSet(victims[..i]), ToSet(victims[i..j]));
        var deleted := DetachPortion(victims[i..j]);
        memories := memories + deleted;
        i := j;
      }
      assert victims[..|victims|] == victims;
    }

    method DeleteSteps(victims: seq<nat>)
      modifies this
      ensures tables == old(tables).(links := (set l | l in old(tables).links && l.1 !in ToSet(victims)),
                                     steps := old(tables).steps - ToSet(victims))
    {
      ghost var start := tables;
      var i := 0;
      assert ToSet(victims[..0]) == {};
      while i < |victims|
        invariant i <= |victims|
        invariant tables == start.(links := (set l | l in start.links && l.1 !in ToSet(victims[..i])))
      {
        var j := PortionEnd(i, |victims|);
        TwoPortions(victims, i, j);
        var portion := ToSet(victims[i..j]);
        tables := tables.(links := (set l | l in tables.links && l.1 !in portion));
        i := j;
      }
      assert victims[..|victims|] == victims;
      i := 0;
      ghost var unlinked := tables;
      while i < |victims|
        invariant i <= |victims|
        invariant tables == unlinked.(steps := unlinked.steps - ToSet(victims[..i]))
      {
        var j := PortionEnd(i, |victims|);
        TwoPortions(victims, i, j);
        tables := tables.(steps := tables.steps - ToSet(victims[i..j]));
        i := j;
      }
    }

    method DeleteEpisodeRows(victims: seq<nat>)
      modifies this
      ensures tables == old(tables).(episodes := old(tables).episodes - ToSet(victims))
    {
      ghost var start := tables;
      var i := 0;
      assert ToSet(victims[..0]) == {};
      while i < |victims|
        invariant i <= |victims|
        invariant tables == start.(episodes := start.episodes - ToSet(victims[..i]))
      {
        var j := PortionEnd(i, |victims|);
        TwoPortions(victims, i, j);
        tables := tables.(episodes := tables.episodes - ToSet(victims[i..j]));
        i := j;
      }
      assert victims[..|victims|] == victims;
    }

    /** Count and median of one candidate follow its surviving occurrences. */
    method Judge(id: nat, victims: set<nat>, ghost start: Tables, ghost done: set<nat>) returns (more: set<nat>)
      requires id in start.workflows && start.workflows[id].candidate && id !in done
      requires tables == Judged(start, done) && victims == Weak(start.occurrences, start.episodes, done)
      modifies this
      ensures tables == Judged(start, done + {id}) && more == Weak(start.occurrences, start.episodes, done + {id})
    {
      var ledger := OfWorkflow(tables.occurrences, id);
      var similarities := SimilaritiesOf(ledger);
      ListedIsBag(ledger);
      Fingerprint.MedianIgnoresOrder(similarities, Listed(ledger));
      JudgedOneMore(start, done, id);
      WeakOneMore(start.occurrences, start.episodes, done, id);
      tables := tables.(workflows := tables.workflows[id := tables.workflows[id].(
        occurrenceCount := |similarities|, medianSimilarity := Fingerprint.Median(similarities))]);
      var days := |DaysOf(tables.occurrences, tables.episodes, id)|;
      more := if |similarities| < MIN_OCCURRENCES || days < MIN_DISTINCT_DAYS then victims + {id} else victims;
    }

    /** Every candidate brought up to date, and those below a threshold. */
    method JudgeCandidates(candidates: set<nat>) returns (victims: set<nat>)
      requires forall id | id in candidates :: id in tables.workflows && tables.workflows[id].candidate
      modifies this
      ensures tables == Judged(old(tables), candidates)
      ensures victims == Weak(old(tables).occurrences, old(tables).episodes, candidates)
    {
      ghost var start := tables;
      ghost var done: set<nat> := {};
      victims := {};
      var todo := candidates;
      JudgedNone(start);
      while todo != {}
        invariant done + todo == candidates && done !! todo
        invariant victims == Weak(start.occurrences, start.episodes, done)
        invariant tables == Judged(start, done)
        decreases |todo|
      {
        var id :| id in todo;
        victims := Judge(id, victims, start, done);
        done, todo := done + {id}, todo - {id};
      }
      assert done == candidates;
    }

    method PurgeCandidatesBelowThreshold() returns (deleted: nat)
      modifies this
      ensures tables == Purged(old(tables)) && deleted == |WeakWorkflows(old(tables))|
    {
      ghost var start := tables;
      tables := tables.(occurrences := Surviving(tables));
      var candidates := set id | id in tables.workflows && tables.workflows[id].candidate;
      var victims := JudgeCandidates(candidates);
      WeakWorkflowsAgree(start, candidates);
      AllJudged(start, candidates);
      tables := tables.(occurrences := map o | o in tables.occurrences && o.0 !in victims :: tables.occurrences[o]);
      tables := tables.(workflows := tables.workflows - victims);
      deleted := |victims|;
    }

    /** The chunked cascade leaves what the one-shot delete leaves, and counts the same. */
    method DeleteRange(r: Range) returns (stats: Stats)
      modifies this
      ensures tables == Deleted(old(tables), r) && stats == DeleteStats(old(tables), r)
    {
      ghost var start := tables;
      ghost var steps0, episodes0 := StepsIn(start, r), EpisodesIn(start, r);
      var events := EventsIn(tables, r);
      tables := tables.(events := tables.events - events);
      var steps := ToSeq(StepsIn(tables, r));
      DeleteSteps(steps);
      var episodes := ToSeq(EpisodesIn(tables, r));
      var memories := DetachEpisodes(episodes);
      DeleteEpisodeRows(episodes);
      assert tables == Cascaded(start, events, steps0, episodes0);
      var workflows := PurgeCandidatesBelowThreshold();
      stats := Stats(|events|, |steps|, |episodes|, memories, workflows);
    }
  }
}
