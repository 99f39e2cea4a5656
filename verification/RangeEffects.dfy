/** What a range delete takes of every table, and what it leaves. */
module RangeEffects {
  import opened Prelude
  import opened RangeDelete
  import M = MemoryStore
  import E = MemoryEffects

  /** Its last moment: a step or episode under way has only its start. */
  function LastMoment(i: Interval): int { if i.end.Some? then i.end.value else i.start }

  /** Wholly before the range or wholly after it; an absent bound is on neither side. */
  predicate IsClear(r: Range, first: int, last: int) {
    (r.from.Some? && last < r.from.value) || (r.to.Some? && first > r.to.value)
  }

  predicate IsIn(r: Range, x: int) { (r.from.Some? ==> r.from.value <= x) && (r.to.Some? ==> x <= r.to.value) }

  /** An interval is clear of the range exactly when they have no moment in common. */
  lemma ClearIffNothingInCommon(r: Range, first: int, last: int)
    requires first <= last && (r.from.Some? && r.to.Some? ==> r.from.value <= r.to.value)
    ensures IsClear(r, first, last) <==> forall x | first <= x <= last :: !IsIn(r, x)
  {
    var x := if r.from.Some? && r.from.value > first then r.from.value else first;
    if !IsClear(r, first, last) { assert first <= x <= last && IsIn(r, x); }
  }

  /** Exactly the events, steps and episodes clear of the range are left, and they are as they were. */
  lemma DeleteLeavesTheClear(t: Tables, r: Range)
    ensures var after := Deleted(t, r);
            && (forall id :: id in after.events <==> id in t.events && IsClear(r, t.events[id], t.events[id]))
            && (forall id :: id in after.steps <==>
                  id in t.steps && IsClear(r, t.steps[id].start, LastMoment(t.steps[id])))
            && (forall id :: id in after.episodes <==>
                  id in t.episodes && IsClear(r, t.episodes[id].start, LastMoment(t.episodes[id])))
            && (forall id | id in after.events :: after.events[id] == t.events[id])
            && (forall id | id in after.steps :: after.steps[id] == t.steps[id])
            && (forall id | id in after.episodes :: after.episodes[id] == t.episodes[id])
  {
  }

  /** A link stays exactly as long as both its ends do. */
  lemma LinksFollowTheirEnds(t: Tables, r: Range, l: (nat, nat))
    requires Referential(t)
    ensures l in Deleted(t, r).links <==> l in t.links && l.0 in Deleted(t, r).episodes && l.1 in Deleted(t, r).steps
  {
  }

  /** The row had observations, all of them of episodes not left, and the user does not hold it. */
  predicate HasLostAll(s: M.Store, left: map<nat, Interval>, id: nat)
    requires id in s.rows
  {
    && s.rows[id].manual.None? && (exists k :: k in s.evidence && k.0 == id)
    && forall k | k in s.evidence && k.0 == id :: k.1 !in left
  }

  lemma MemoryAfter(s: M.Store, dead: set<nat>, left: map<nat, Interval>, id: nat)
    requires id in s.rows && forall k | k in s.evidence :: k.1 in dead <==> k.1 !in left
    ensures id in M.WithoutEpisodes(s, dead).rows <==> !HasLostAll(s, left, id)
  {
    E.DeletionTakesTheUnsupported(s, dead, id);
    assert E.WasTouched(s, dead, id) && !E.IsSupported(s, dead, id) <==> HasLostAll(s, left, id);
  }

  /** An observation goes with its episode; a memory goes when dead episodes alone supported it. */
  lemma MemoriesFollowTheirEvidence(t: Tables, r: Range, id: nat, left: map<nat, Interval>)
    requires Referential(t) && id in t.memory.rows && left == Deleted(t, r).episodes
    ensures forall k :: k in Deleted(t, r).memory.evidence <==> k in t.memory.evidence && k.1 in left
    ensures id in Deleted(t, r).memory.rows <==> !HasLostAll(t.memory, left, id)
  {
    var dead := EpisodesIn(t, r);
    assert left == t.episodes - dead && Deleted(t, r).memory == M.WithoutEpisodes(t.memory, dead);
    M.WithoutEpisodesRows(t.memory, dead);
    MemoryAfter(t.memory, dead, left, id);
  }

  // ------------------------------------------------------------------ workflows

  /** Two occurrences that begin on different days of 86 400 000 ms. */
  predicate OnTwoDays(occurrences: Occurrences, episodes: map<nat, Interval>, workflow: nat) {
    exists a, b :: a in occurrences && b in occurrences && a.0 == workflow && b.0 == workflow
      && a.1 in episodes && b.1 in episodes
      && episodes[a.1].start / 86_400_000 != episodes[b.1].start / 86_400_000
  }

  predicate ThreeOccurrences(occurrences: Occurrences, workflow: nat) {
    exists a, b, c :: a in occurrences && b in occurrences && c in occurrences
      && a.0 == workflow && b.0 == workflow && c.0 == workflow && a != b && b != c && a != c
  }

  lemma CountedThree(occurrences: Occurrences, workflow: nat, keys: set<(nat, nat)>)
    requires |keys| >= 3 && forall o | o in keys :: o in occurrences && o.0 == workflow
    ensures ThreeOccurrences(occurrences, workflow)
  {
    var a := SomeMember(keys, {});
    var b := SomeMember(keys, {a});
    var c := SomeMember(keys, {a, b});
  }

  lemma ThreeCounted(occurrences: Occurrences, workflow: nat, keys: set<(nat, nat)>)
    requires ThreeOccurrences(occurrences, workflow)
    requires forall o | o in occurrences && o.0 == workflow :: o in keys
    ensures |keys| >= 3
  {
    var a, b, c :| a in occurrences && b in occurrences && c in occurrences
                   && a.0 == workflow && b.0 == workflow && c.0 == workflow && a != b && b != c && a != c;
    ThreeMembers(keys, a, b, c);
  }

  lemma ThreeIff(occurrences: Occurrences, workflow: nat)
    ensures ThreeOccurrences(occurrences, workflow) <==> |OfWorkflow(occurrences, workflow)| >= 3
  {
    var keys := OfWorkflow(occurrences, workflow).Keys;
    assert |keys| == |OfWorkflow(occurrences, workflow)|;
    if ThreeOccurrences(occurrences, workflow) { ThreeCounted(occurrences, workflow, keys); }
    if |keys| >= 3 { CountedThree(occurrences, workflow, keys); }
  }

  lemma CountedDays(occurrences: Occurrences, episodes: map<nat, Interval>, workflow: nat)
    requires |DaysOf(occurrences, episodes, workflow)| >= 2
    ensures OnTwoDays(occurrences, episodes, workflow)
  {
    var x := SomeMember(DaysOf(occurrences, episodes, workflow), {});
    var y := SomeMember(DaysOf(occurrences, episodes, workflow), {x});
    var a :| a in occurrences && a.0 == workflow && a.1 in episodes && episodes[a.1].start / 86_400_000 == x;
    var b :| b in occurrences && b.0 == workflow && b.1 in episodes && episodes[b.1].start / 86_400_000 == y;
  }

  lemma TwoDaysIff(occurrences: Occurrences, episodes: map<nat, Interval>, workflow: nat)
    ensures OnTwoDays(occurrences, episodes, workflow) <==> |DaysOf(occurrences, episodes, workflow)| >= 2
  {
    var days := DaysOf(occurrences, episodes, workflow);
    if OnTwoDays(occurrences, episodes, workflow) {
      var a, b :| a in occurrences && b in occurrences && a.0 == workflow && b.0 == workflow
                  && a.1 in episodes && b.1 in episodes
                  && episodes[a.1].start / 86_400_000 != episodes[b.1].start / 86_400_000;
      TwoMembers(days, episodes[a.1].start / 86_400_000, episodes[b.1].start / 86_400_000);
    }
    if |days| >= 2 { CountedDays(occurrences, episodes, workflow); }
  }

  /** The occurrences whose episodes are left. */
  function Lasting(t: Tables, episodes: map<nat, Interval>): Occurrences {
    map o | o in t.occurrences && o.1 in episodes :: t.occurrences[o]
  }

  lemma LastingSurvive(t: Tables, r: Range)
    requires Referential(t)
    ensures var mid := Cascaded(t, EventsIn(t, r), StepsIn(t, r), EpisodesIn(t, r));
            mid.occurrences == Lasting(t, mid.episodes) && Surviving(mid) == mid.occurrences
  {
  }

  lemma PurgedRow(mid: Tables, surviving: Occurrences, id: nat)
    requires id in mid.workflows && surviving == Surviving(mid)
    ensures id in Purged(mid).workflows <==>
              !(mid.workflows[id].candidate && BelowThreshold(surviving, mid.episodes, id))
    ensures id in Purged(mid).workflows ==>
              Purged(mid).workflows[id] == Recomputed(mid.workflows[id], OfWorkflow(surviving, id))
  {
  }

  lemma BelowIff(occurrences: Occurrences, episodes: map<nat, Interval>, id: nat)
    ensures BelowThreshold(occurrences, episodes, id) <==>
              !(ThreeOccurrences(occurrences, id) && OnTwoDays(occurrences, episodes, id))
  {
    ThreeIff(occurrences, id);
    TwoDaysIff(occurrences, episodes, id);
  }

  /**
   * A candidate workflow stays exactly while three of its occurrences are left,
   * on two different days; its count is brought up to date. No other is touched.
   */
  lemma WorkflowsFollowTheirOccurrences(t: Tables, r: Range, id: nat)
    requires Referential(t) && id in t.workflows
    ensures var after := Deleted(t, r);
            var left := Lasting(t, after.episodes);
            if t.workflows[id].candidate then
              && (id in after.workflows <==> ThreeOccurrences(left, id) && OnTwoDays(left, after.episodes, id))
              && (id in after.workflows ==>
                    after.workflows[id].candidate && after.workflows[id].occurrenceCount == |OfWorkflow(left, id)|)
            else id in after.workflows && after.workflows[id] == t.workflows[id]
  {
    var mid := Cascaded(t, EventsIn(t, r), StepsIn(t, r), EpisodesIn(t, r));
    LastingSurvive(t, r);
    PurgedRow(mid, mid.occurrences, id);
    BelowIff(mid.occurrences, mid.episodes, id);
  }

  /** An occurrence stays exactly as long as its workflow and its episode. */
  lemma OccurrencesFollowTheirEnds(t: Tables, r: Range, o: (nat, nat))
    requires Referential(t)
    ensures var after := Deleted(t, r);
            && (o in after.occurrences <==> o in t.occurrences && o.0 in after.workflows && o.1 in after.episodes)
            && (o in after.occurrences ==> after.occurrences[o] == t.occurrences[o])
  {
    LastingSurvive(t, r);
  }

  // ---------------------------------------------------------------------- counts

  lemma KeysCount<T>(m: map<nat, T>, gone: set<nat>, left: map<nat, T>)
    requires gone <= m.Keys && left.Keys == m.Keys - gone
    ensures |m| == |left| + |gone|
  {
    assert m.Keys == left.Keys + gone && |left.Keys + gone| == |left.Keys| + |gone|;
  }

  lemma WorkflowsLeft(mid: Tables)
    ensures Purged(mid).workflows.Keys == mid.workflows.Keys - WeakWorkflows(mid)
  {
  }

  lemma MemoriesLeft(s: M.Store, dead: set<nat>)
    ensures |s.rows| == |M.WithoutEpisodes(s, dead).rows| + |M.Killed(s, dead)|
  {
    M.WithoutEpisodesRows(s, dead);
    KeysCount(s.rows, M.Killed(s, dead), M.WithoutEpisodes(s, dead).rows);
  }

  lemma CascadeCounts(t: Tables, r: Range, mid: Tables, stats: Stats)
    requires mid == Cascaded(t, EventsIn(t, r), StepsIn(t, r), EpisodesIn(t, r)) && stats == DeleteStats(t, r)
    ensures |t.events| == |mid.events| + stats.rawEvents && |t.steps| == |mid.steps| + stats.steps
    ensures |t.episodes| == |mid.episodes| + stats.episodes
    ensures |t.memory.rows| == |mid.memory.rows| + stats.memories
  {
    KeysCount(t.events, EventsIn(t, r), mid.events);
    KeysCount(t.steps, StepsIn(t, r), mid.steps);
    KeysCount(t.episodes, EpisodesIn(t, r), mid.episodes);
    MemoriesLeft(t.memory, EpisodesIn(t, r));
  }

  /** The stats reported are what each table has lost. */
  lemma StatsCountTheLoss(t: Tables, r: Range, after: Tables, stats: Stats)
    requires after == Deleted(t, r) && stats == DeleteStats(t, r)
    ensures |t.events| == |after.events| + stats.rawEvents && |t.steps| == |after.steps| + stats.steps
    ensures |t.episodes| == |after.episodes| + stats.episodes
    ensures |t.memory.rows| == |after.memory.rows| + stats.memories
    ensures |t.workflows| == |after.workflows| + stats.workflows
  {
    var mid := Cascaded(t, EventsIn(t, r), StepsIn(t, r), EpisodesIn(t, r));
    CascadeCounts(t, r, mid, stats);
    WorkflowsLeft(mid);
    KeysCount(mid.workflows, WeakWorkflows(mid), after.workflows);
  }
}
