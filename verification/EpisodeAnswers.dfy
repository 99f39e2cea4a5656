/** What one answer of the model leaves behind, and how much of a segment one call may see. */
module EpisodeAnswers {
  import opened Prelude
  import opened Summarizer

  // --------------------------------------------------------------- good splits

  /** The ranges lie between consecutive cuts from 0 to `n`. */
  ghost predicate CutsInto(cuts: seq<int>, split: seq<Range>, n: nat) {
    && |cuts| == |split| + 1 && cuts[0] == 0 && cuts[|split|] == n
    && forall k | 0 <= k < |split| :: cuts[k] < cuts[k + 1] && split[k] == Range(cuts[k], cuts[k + 1] - 1)
  }

  lemma PartitionIsCut(split: seq<Range>, n: nat)
    requires Partitions(split, n)
    ensures exists cuts :: CutsInto(cuts, split, n)
  {
    var cuts := seq(|split| + 1, k requires 0 <= k <= |split| => Reach(split, k));
    forall k | 0 <= k < |split| ensures cuts[k] < cuts[k + 1] && split[k] == Range(cuts[k], cuts[k + 1] - 1) {
      RangeStarts(split, n, k);
    }
    assert CutsInto(cuts, split, n);
  }

  lemma {:induction false} CutsAscend(cuts: seq<int>, split: seq<Range>, n: nat, a: nat, b: nat)
    requires CutsInto(cuts, split, n) && a <= b <= |split|
    ensures cuts[a] <= cuts[b]
    decreases b
  {
    if a < b {
      CutsAscend(cuts, split, n, a, b - 1);
      assert cuts[b - 1] < cuts[b - 1 + 1];
    }
  }

  lemma CutIsPartition(cuts: seq<int>, split: seq<Range>, n: nat)
    requires CutsInto(cuts, split, n) && 1 <= |split| <= 6
    ensures Partitions(split, n)
  {
    assert split[0] == Range(cuts[0], cuts[1] - 1);
    assert split[|split| - 1] == Range(cuts[|split| - 1], cuts[|split| - 1 + 1] - 1);
    forall k | 0 <= k < |split| ensures 0 <= split[k].first <= split[k].last < n {
      CutsAscend(cuts, split, n, 0, k);
      CutsAscend(cuts, split, n, k + 1, |split|);
      assert cuts[k] < cuts[k + 1];
    }
    forall k | 0 <= k < |split| - 1 ensures split[k + 1].first == split[k].last + 1 {
      assert split[k + 1] == Range(cuts[k + 1], cuts[k + 1 + 1] - 1);
    }
  }

  /** A good split is a window cut into one to six stretches. */
  lemma PartitionIffCut(split: seq<Range>, n: nat)
    ensures Partitions(split, n) <==> 1 <= |split| <= 6 && exists cuts :: CutsInto(cuts, split, n)
  {
    if Partitions(split, n) { PartitionIsCut(split, n); }
    if cuts :| 1 <= |split| <= 6 && CutsInto(cuts, split, n) { CutIsPartition(cuts, split, n); }
  }

  // ------------------------------------------------------------------- answers

  /** The episode is the window's steps from `first` to `last`. */
  predicate Tells(e: Episode, window: seq<Row>, first: int, last: int) {
    && 0 <= first <= last < |window|
    && e.steps == Ordinals(window)[first..last + 1] && e.lastOrdinal == window[last].ordinal
    && e.startedAt == window[first].startedAt
    && e.endedAt == if window[last].endedAt.Some? then window[last].endedAt.value else window[last].startedAt
  }

  lemma EpisodeTells(split: seq<Range>, window: seq<Row>, k: nat)
    requires Partitions(split, |window|) && k < |split|
    ensures Tells(NewEpisodes(split, window)[k], window, split[k].first, split[k].last)
  {
    var covered := window[split[k].first..split[k].last + 1];
    assert covered[|covered| - 1] == window[split[k].last];
    assert NewEpisodes(split, window)[k].steps == Ordinals(window)[split[k].first..split[k].last + 1];
  }

  /** No step of the window was purged while the model was thinking. */
  predicate IsWhole(s: Store) { s.inFlight.Some? && forall r | r in s.inFlight.value.window :: r in s.steps }

  /** One episode a range, each of just that range's steps. */
  predicate TellRanges(added: seq<Episode>, window: seq<Row>, split: seq<Range>) {
    && |added| == |split|
    && forall k | 0 <= k < |split| :: Tells(added[k], window, split[k].first, split[k].last)
  }

  lemma EpisodesTell(split: seq<Range>, window: seq<Row>)
    requires Partitions(split, |window|)
    ensures TellRanges(NewEpisodes(split, window), window, split)
  {
    forall k | 0 <= k < |split|
      ensures Tells(NewEpisodes(split, window)[k], window, split[k].first, split[k].last)
    {
      EpisodeTells(split, window, k);
    }
  }

  lemma AnswerAdds(s: Store, split: seq<Range>, used: seq<Range>)
    requires Enabled(s, Answer(split)) && IsWhole(s)
    requires used == if Partitions(split, |s.inFlight.value.window|) then split
                     else [Range(0, |s.inFlight.value.window| - 1)]
    ensures Partitions(used, |s.inFlight.value.window|)
    ensures Next(s, Answer(split)).episodes == s.episodes + NewEpisodes(used, s.inFlight.value.window)
  {
    PersistFields(s, s.inFlight.value, used);
  }

  /**
   * A good split is used as it stands: one episode a range, with just that
   * range's steps. Any other answer makes one episode of the whole window.
   */
  lemma AnswerMakesEpisodes(s: Store, split: seq<Range>)
    requires Enabled(s, Answer(split)) && IsWhole(s)
    ensures var w, n, after := s.inFlight.value.window, |s.episodes|, Next(s, Answer(split)).episodes;
            && s.episodes <= after
            && TellRanges(after[n..], w, if Partitions(split, |w|) then split else [Range(0, |w| - 1)])
  {
    var w := s.inFlight.value.window;
    var used := if Partitions(split, |w|) then split else [Range(0, |w| - 1)];
    AnswerAdds(s, split, used);
    EpisodesTell(used, w);
    assert (s.episodes + NewEpisodes(used, w))[|s.episodes|..] == NewEpisodes(used, w);
  }

  lemma NewLinksAre(added: seq<Episode>, n: nat, l: Link)
    ensures l in NewLinks(added, n) <==> n <= l.0 < n + |added| && l.1 in added[l.0 - n].steps
  {
    if n <= l.0 < n + |added| && l.1 in added[l.0 - n].steps { assert (n + (l.0 - n), l.1) in NewLinks(added, n); }
  }

  /** With them come their links and, when steps are left, the one job that takes up where the window ends. */
  lemma AnswerLinksAndChains(s: Store, split: seq<Range>)
    requires Enabled(s, Answer(split)) && IsWhole(s)
    ensures var f, n, after := s.inFlight.value, |s.episodes|, Next(s, Answer(split));
            && n <= |after.episodes|
            && (forall l: Link :: l in after.links <==>
                  l in s.links || (n <= l.0 < |after.episodes| && l.1 in after.episodes[l.0].steps))
            && after.jobs == (if f.hasMore then s.jobs + [Job(f.window[|f.window| - 1].ordinal, false)] else s.jobs)
            && after.inFlight.None? && after.returned == s.returned + {f.job} && after.steps == s.steps
  {
    var f, n := s.inFlight.value, |s.episodes|;
    var used := Accepted(split, |f.window|);
    PersistFields(s, f, used);
    forall l: Link
      ensures l in NewLinks(NewEpisodes(used, f.window), n) <==>
                n <= l.0 < n + |NewEpisodes(used, f.window)| && l.1 in NewEpisodes(used, f.window)[l.0 - n].steps
    {
      NewLinksAre(NewEpisodes(used, f.window), n, l);
    }
  }

  /** Once a step of the window is gone the answer is thrown away whole. */
  lemma AnswerIsLost(s: Store, split: seq<Range>)
    requires Enabled(s, Answer(split)) && !IsWhole(s)
    ensures Next(s, Answer(split)) == s.(inFlight := None)
  {
  }

  // ------------------------------------------------------------------- windows

  /** A window holds 200 steps, or else all that lie past the offset; `HasMore` tells which. */
  lemma WindowIsFull(rows: seq<Row>, offset: nat)
    requires Ascending(rows)
    ensures var w := Window(rows, offset);
            && |w| <= 200
            && (HasMore(rows, offset) <==> exists r :: r in rows && r.ordinal > offset && r !in w)
            && (HasMore(rows, offset) ==> |w| == 200)
  {
    AfterFacts(rows, offset);
    var all, w := After(rows, offset), Window(rows, offset);
    if HasMore(rows, offset) {
      assert all[200] in all;
      assert forall i | 0 <= i < |w| :: w[i].ordinal < all[200].ordinal;
    } else {
      assert w == all;
    }
  }

  lemma SameStep(rows: seq<Row>, a: Row, b: Row)
    requires Ascending(rows) && a in rows && b in rows && a.ordinal == b.ordinal
    ensures a == b
  {
  }

  /** A purge takes the steps that ended before the cutoff, or began before it and never ended, with their links. */
  lemma PurgeTakesTheOld(s: Store, cutoff: int)
    requires Ascending(s.steps)
    ensures var after := Next(s, Purge(cutoff));
            && (forall r :: r in after.steps <==>
                  r in s.steps && (if r.endedAt.Some? then r.endedAt.value else r.startedAt) >= cutoff)
            && (forall l | l in s.links :: l in after.links <==>
                  !exists r :: r in s.steps && r.ordinal == l.1 && r !in after.steps)
            && after.links <= s.links && after.episodes == s.episodes && after.jobs == s.jobs
  {
    var gone := Victims(s.steps, cutoff);
    KeepFacts(s.steps, gone);
    forall r | r in s.steps ensures r.ordinal in gone <==> !Spared(r, cutoff) {
      if o :| o in s.steps && !Spared(o, cutoff) && o.ordinal == r.ordinal { SameStep(s.steps, o, r); }
    }
  }
}
