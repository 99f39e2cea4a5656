/**
 * One closed segment summarized window by window: the chain of summarize jobs,
 * its re-delivery latch, crashes, invalid splits and retention purges.
 */
module Summarizer {
  import opened Prelude

  /** Steps one model call may see. */
  const MAX_INPUT_STEPS := 200
  const MAX_EPISODES := 6
  const PURGE_PAGE := 500

  /** A stored step; ordinals start at 1 and purges leave gaps between them. */
  datatype Row = Row(ordinal: nat, startedAt: int, endedAt: Option<int>)

  datatype Range = Range(first: int, last: int)

  datatype Episode = Episode(startedAt: int, endedAt: int, lastOrdinal: nat, steps: seq<nat>)

  /** A link from an episode, by position, to a step, by ordinal. */
  type Link = (nat, nat)

  datatype Job = Job(offset: nat, succeeded: bool)

  /** What a running job holds in memory while it awaits the model. */
  datatype InFlight = InFlight(job: nat, window: seq<Row>, hasMore: bool)

  /** `returned` are, for reasoning only, the jobs whose handler has once returned without a throw. */
  datatype Store = Store(steps: seq<Row>, episodes: seq<Episode>, links: set<Link>, jobs: seq<Job>,
                         inFlight: Option<InFlight>, returned: set<nat>)

  // ------------------------------------------------------------------ splits

  /** Consecutive ranges that start at step 0 and end at the last step. */
  predicate Partitions(split: seq<Range>, n: nat) {
    && 1 <= |split| <= MAX_EPISODES
    && split[0].first == 0 && split[|split| - 1].last == n - 1
    && (forall k | 0 <= k < |split| :: 0 <= split[k].first <= split[k].last < n)
    && (forall k | 0 <= k < |split| - 1 :: split[k + 1].first == split[k].last + 1)
  }

  predicate In(range: Range, i: int) { range.first <= i <= range.last }

  lemma {:induction false} RangesAscend(split: seq<Range>, n: nat, a: nat, b: nat)
    requires Partitions(split, n) && a < b < |split|
    ensures split[a].last < split[b].first
    decreases b
  {
    assert split[b - 1 + 1].first == split[b - 1].last + 1;
    if a < b - 1 { RangesAscend(split, n, a, b - 1); }
  }

  /** A partition covers every step exactly once. */
  lemma {:induction false} CoveredOnce(split: seq<Range>, n: nat, i: nat) returns (k: nat)
    requires Partitions(split, n) && i < n
    ensures k < |split| && In(split[k], i)
    ensures forall j | 0 <= j < |split| && In(split[j], i) :: j == k
  {
    k := 0;
    while k + 1 < |split| && split[k + 1].first <= i
      invariant k < |split| && split[k].first <= i
    {
      k := k + 1;
    }
    if k + 1 < |split| { assert split[k + 1].first == split[k].last + 1; }
    forall j | 0 <= j < |split| && In(split[j], i) ensures j == k {
      if j < k { RangesAscend(split, n, j, k); }
      if k < j { RangesAscend(split, n, k, j); }
    }
  }

  datatype Problem =
    | EpisodeCount
    | FirstOutOfRange(k: nat)
    | LastOutOfRange(k: nat)
    | Inverted(k: nat)
    | BreaksContiguity(k: nat)
    | Coverage

  /** The prefix of a split that has shown no problem so far. */
  predicate CleanUpTo(split: seq<Range>, n: nat, k: nat, expected: int)
    requires k <= |split|
  {
    && (forall j | 0 <= j < k :: 0 <= split[j].first <= split[j].last < n)
    && (forall j | 0 <= j < k :: split[j].first == if j == 0 then 0 else split[j - 1].last + 1)
    && expected == if k == 0 then 0 else split[k - 1].last + 1
  }

  /** No problem is reported exactly for the partitions of the window. */
  method ValidateSplit(split: seq<Range>, stepCount: nat) returns (errors: seq<Problem>)
    ensures errors == [] <==> Partitions(split, stepCount)
  {
    errors := [];
    var count := |split|;
    if count < 1 || count > MAX_EPISODES {
      return [EpisodeCount];
    }
    var expectedNext := 0;
    for k := 0 to count
      invariant errors == [] ==> CleanUpTo(split, stepCount, k, expectedNext)
      invariant expectedNext == if k == 0 then 0 else split[k - 1].last + 1
      invariant errors != [] ==> !Partitions(split, stepCount)
    {
      assert Partitions(split, stepCount) && k > 0 ==> split[k - 1 + 1].first == split[k - 1].last + 1;
      var episode := split[k];
      if episode.first < 0 || episode.first >= stepCount { errors := errors + [FirstOutOfRange(k)]; }
      if episode.last < 0 || episode.last >= stepCount { errors := errors + [LastOutOfRange(k)]; }
      if episode.first > episode.last { errors := errors + [Inverted(k)]; }
      if episode.first != expectedNext { errors := errors + [BreaksContiguity(k)]; }
      expectedNext := episode.last + 1;
    }
    if expectedNext != stepCount { errors := errors + [Coverage]; }
    if errors == [] {
      forall k | 0 <= k < |split| - 1 ensures split[k + 1].first == split[k].last + 1 {
        assert split[k + 1].first == if k + 1 == 0 then 0 else split[k + 1 - 1].last + 1;
      }
    }
  }

  /** The single episode used when the repaired split is still invalid. */
  function Fallback(n: nat): seq<Range> { [Range(0, n - 1)] }

  function Accepted(split: seq<Range>, n: nat): (accepted: seq<Range>)
    ensures n > 0 ==> Partitions(accepted, n)
  {
    if Partitions(split, n) then split else Fallback(n)
  }

  // ----------------------------------------------------------------- windows

  predicate Ascending(rows: seq<Row>) {
    forall i, j | 0 <= i < j < |rows| :: rows[i].ordinal < rows[j].ordinal
  }

  function After(rows: seq<Row>, offset: nat): seq<Row> {
    if rows == [] then []
    else (if rows[0].ordinal > offset then [rows[0]] else []) + After(rows[1..], offset)
  }

  function Take<T>(s: seq<T>, n: nat): seq<T> { if |s| <= n then s else s[..n] }

  function Window(rows: seq<Row>, offset: nat): seq<Row> { Take(After(rows, offset), MAX_INPUT_STEPS) }

  function HasMore(rows: seq<Row>, offset: nat): bool { |After(rows, offset)| > MAX_INPUT_STEPS }

  lemma {:induction false} AfterFacts(rows: seq<Row>, offset: nat)
    requires Ascending(rows)
    ensures Ascending(After(rows, offset))
    ensures forall r :: r in After(rows, offset) <==> r in rows && r.ordinal > offset
  {
    if rows != [] {
      AfterFacts(rows[1..], offset);
      assert rows == [rows[0]] + rows[1..];
      var rest := After(rows[1..], offset);
      forall j | 0 <= j < |rest| ensures rows[0].ordinal < rest[j].ordinal { assert rest[j] in rows[1..]; }
    }
  }

  predicate Past(window: seq<Row>, ordinal: nat) { window != [] && ordinal > window[|window| - 1].ordinal }

  /** The window is an initial stretch of the steps past the offset; `HasMore` tells if any is left. */
  lemma WindowFacts(rows: seq<Row>, offset: nat)
    requires Ascending(rows)
    ensures var w := Window(rows, offset);
            && Ascending(w)
            && (forall r | r in w :: r in rows && r.ordinal > offset)
            && (forall r | r in rows && r.ordinal > offset && !Past(w, r.ordinal) :: r in w)
            && (forall r | r in rows && Past(w, r.ordinal) :: HasMore(rows, offset))
  {
    AfterFacts(rows, offset);
    var all, w := After(rows, offset), Window(rows, offset);
    forall r | r in rows && r.ordinal > offset && r !in w ensures Past(w, r.ordinal) && HasMore(rows, offset) {
      assert r in all;
      var i :| 0 <= i < |all| && all[i] == r;
      assert i >= |w| && w == all[..|w|];
    }
    forall r | r in rows && Past(w, r.ordinal) ensures HasMore(rows, offset) {
      assert w[|w| - 1] in w;
      assert forall i | 0 <= i < |w| :: w[i].ordinal <= w[|w| - 1].ordinal;
      assert r in all && r !in w;
    }
  }

  // --------------------------------------------------------------- the latch

  /** The highest ordinal any episode reaches; 0 without episodes. */
  function Frontier(episodes: seq<Episode>): nat {
    if episodes == [] then 0
    else
      var rest, last := Frontier(episodes[..|episodes| - 1]), episodes[|episodes| - 1].lastOrdinal;
      if rest >= last then rest else last
  }

  lemma {:induction false} FrontierBounds(episodes: seq<Episode>)
    ensures forall e | e in episodes :: e.lastOrdinal <= Frontier(episodes)
    ensures episodes == [] || exists e :: e in episodes && e.lastOrdinal == Frontier(episodes)
  {
    if episodes != [] {
      var rest := episodes[..|episodes| - 1];
      FrontierBounds(rest);
      assert episodes == rest + [episodes[|episodes| - 1]];
      assert episodes[|episodes| - 1] in episodes;
      if rest != [] && Frontier(episodes) == Frontier(rest) {
        var e :| e in rest && e.lastOrdinal == Frontier(rest);
        assert e in episodes;
      }
    }
  }

  predicate Linked(links: set<Link>, ordinal: nat) { exists l | l in links :: l.1 == ordinal }

  /** The ordinal tier, then the link tier. */
  predicate Latched(episodes: seq<Episode>, links: set<Link>, window: seq<Row>) {
    window != [] &&
    ((exists e | e in episodes :: e.lastOrdinal >= window[|window| - 1].ordinal)
     || exists r | r in window :: Linked(links, r.ordinal))
  }

  // -------------------------------------------------------------- operations

  function ToNewEpisode(range: Range, window: seq<Row>): Episode
    requires 0 <= range.first <= range.last < |window|
  {
    var covered := window[range.first..range.last + 1];
    var last := covered[|covered| - 1];
    Episode(covered[0].startedAt, if last.endedAt.Some? then last.endedAt.value else last.startedAt, last.ordinal,
            seq(|covered|, i requires 0 <= i < |covered| => covered[i].ordinal))
  }

  function NewEpisodes(split: seq<Range>, window: seq<Row>): (episodes: seq<Episode>)
    requires forall k | 0 <= k < |split| :: 0 <= split[k].first <= split[k].last < |window|
  {
    seq(|split|, k requires 0 <= k < |split| => ToNewEpisode(split[k], window))
  }

  /** One link per episode and step of it, for episodes stored from position `base` on. */
  function NewLinks(episodes: seq<Episode>, base: nat): set<Link> {
    set k, o | 0 <= k < |episodes| && o in episodes[k].steps :: (base + k, o)
  }

  /** The queue marks a job done. */
  function Succeeded(s: Store, job: nat): Store
    requires job < |s.jobs|
  {
    s.(jobs := s.jobs[job := s.jobs[job].(succeeded := true)])
  }

  /** Read the window; skip when it is empty or latched, else start waiting for the model. */
  function Begin(s: Store, job: nat): Store
    requires job < |s.jobs|
  {
    var window := Window(s.steps, s.jobs[job].offset);
    if window == [] || Latched(s.episodes, s.links, window) then s.(returned := s.returned + {job})
    else s.(inFlight := Some(InFlight(job, window, HasMore(s.steps, s.jobs[job].offset))))
  }

  /** Episodes, links and the chained job in one transaction; a link to a purged step violates its key. */
  function Persist(s: Store, job: nat, window: seq<Row>, hasMore: bool, split: seq<Range>): Store
    requires window != [] && Partitions(split, |window|)
  {
    if forall r | r in window :: r in s.steps then
      var episodes := NewEpisodes(split, window);
      s.(episodes := s.episodes + episodes, links := s.links + NewLinks(episodes, |s.episodes|),
         jobs := if hasMore then s.jobs + [Job(window[|window| - 1].ordinal, false)] else s.jobs,
         inFlight := None, returned := s.returned + {job})
    else s.(inFlight := None)
  }

  /** Rows the retention cutoff spares. */
  predicate Spared(r: Row, cutoff: int) {
    (if r.endedAt.Some? then r.endedAt.value else r.startedAt) >= cutoff
  }

  function Keep(rows: seq<Row>, gone: set<nat>): seq<Row> {
    if rows == [] then []
    else (if rows[0].ordinal in gone then [] else [rows[0]]) + Keep(rows[1..], gone)
  }

  function Victims(rows: seq<Row>, cutoff: int): set<nat> {
    set r | r in rows && !Spared(r, cutoff) :: r.ordinal
  }

  function Without(s: Store, gone: set<nat>): Store {
    s.(steps := Keep(s.steps, gone), links := set l | l in s.links && l.1 !in gone)
  }

  datatype Op =
    | BeginJob(job: nat)
    | Answer(split: seq<Range>)  // the model's last answer, valid or not
    | Complete(job: nat)         // left out when a crash or a lost lease comes in between
    | Abort                      // outage, throw or crash while waiting
    | Purge(cutoff: int)

  /** Serialized: a job starts only when none is in flight, and only if it has not succeeded. */
  predicate Enabled(s: Store, op: Op) {
    match op
    case BeginJob(job) => s.inFlight.None? && job < |s.jobs| && !s.jobs[job].succeeded
    case Complete(job) => job in s.returned && job < |s.jobs|
    case Answer(_) =>
      s.inFlight.Some? && s.inFlight.value.window != [] && s.inFlight.value.job < |s.jobs|
    case _ => true
  }

  function Next(s: Store, op: Op): Store
    requires Enabled(s, op)
  {
    match op
    case BeginJob(job) => Begin(s, job)
    case Answer(split) =>
      var f := s.inFlight.value;
      Persist(s, f.job, f.window, f.hasMore, Accepted(split, |f.window|))
    case Complete(job) => Succeeded(s, job)
    case Abort => s.(inFlight := None)
    case Purge(cutoff) => Without(s, Victims(s.steps, cutoff))
  }

  // ------------------------------------------------------ exactly-once cover

  /** The step is linked to exactly one episode. */
  ghost predicate LinkedOnce(links: set<Link>, ordinal: nat) {
    exists e: nat :: (e, ordinal) in links && forall l | l in links && l.1 == ordinal :: l.0 == e
  }

  /** Up to the frontier every surviving step is linked once, beyond it none is. */
  ghost predicate CoveredUpTo(steps: seq<Row>, links: set<Link>, m: nat) {
    && (forall r | r in steps && r.ordinal <= m :: LinkedOnce(links, r.ordinal))
    && (forall l | l in links :: l.1 <= m)
  }

  predicate Uncovered(steps: seq<Row>, m: nat) { exists r | r in steps :: r.ordinal > m }

  /** While a step is left, a job that has not succeeded starts right at the frontier. */
  ghost predicate Chained(jobs: seq<Job>, steps: seq<Row>, m: nat) {
    && (forall j | 0 <= j < |jobs| :: jobs[j].offset <= m)
    && (Uncovered(steps, m) ==> exists j :: 0 <= j < |jobs| && jobs[j] == Job(m, false))
  }

  /** The window in memory is the stretch of steps right past the frontier, some maybe purged since. */
  ghost predicate WindowAhead(f: InFlight, jobs: seq<Job>, steps: seq<Row>, m: nat) {
    && f.job < |jobs| && f.window != [] && Ascending(f.window)
    && (forall r | r in f.window :: r.ordinal > m)
    && (forall r | r in steps && r.ordinal > m && !Past(f.window, r.ordinal) :: r in f.window)
    && ((exists r | r in steps :: Past(f.window, r.ordinal)) ==> f.hasMore)
  }

  /** The frontier has left the job's offset behind, or there is nothing left to do. */
  predicate PartIsDone(jobs: seq<Job>, steps: seq<Row>, m: nat, job: nat) {
    job < |jobs| && (jobs[job].offset == m ==> !Uncovered(steps, m))
  }

  ghost predicate Good(s: Store) {
    var m := Frontier(s.episodes);
    && Ascending(s.steps) && (forall r | r in s.steps :: r.ordinal > 0)
    && (forall l | l in s.links :: l.0 < |s.episodes|)
    && CoveredUpTo(s.steps, s.links, m)
    && Chained(s.jobs, s.steps, m)
    && (s.inFlight.Some? ==> WindowAhead(s.inFlight.value, s.jobs, s.steps, m))
    && (forall j | j in s.returned :: PartIsDone(s.jobs, s.steps, m, j))
  }

  /** A latched or empty window means the job does not stand at a frontier with steps left. */
  lemma SkipLosesNothing(s: Store, job: nat)
    requires Good(s) && job < |s.jobs|
    requires var w := Window(s.steps, s.jobs[job].offset); w == [] || Latched(s.episodes, s.links, w)
    requires s.jobs[job].offset == Frontier(s.episodes)
    ensures !Uncovered(s.steps, Frontier(s.episodes))
  {
    var m := Frontier(s.episodes);
    var w := Window(s.steps, m);
    WindowFacts(s.steps, m);
    FrontierBounds(s.episodes);
    if w != [] {
      assert w[|w| - 1] in w;
      assert forall r | r in w :: !Linked(s.links, r.ordinal);
    }
  }

  lemma SucceedKeepsChained(jobs: seq<Job>, steps: seq<Row>, m: nat, job: nat)
    requires Chained(jobs, steps, m) && PartIsDone(jobs, steps, m, job)
    ensures Chained(jobs[job := jobs[job].(succeeded := true)], steps, m)
  {
    var after := jobs[job := jobs[job].(succeeded := true)];
    if Uncovered(steps, m) {
      var j :| 0 <= j < |jobs| && jobs[j] == Job(m, false);
      assert after[j] == Job(m, false);
    }
  }

  /** An unlatched window starts right past the frontier, whatever the job's own offset. */
  lemma UnlatchedWindowIsAhead(s: Store, job: nat)
    requires Good(s) && job < |s.jobs|
    requires var w := Window(s.steps, s.jobs[job].offset); w != [] && !Latched(s.episodes, s.links, w)
    ensures var offset := s.jobs[job].offset;
            WindowAhead(InFlight(job, Window(s.steps, offset), HasMore(s.steps, offset)), s.jobs, s.steps,
                        Frontier(s.episodes))
  {
    var m, offset := Frontier(s.episodes), s.jobs[job].offset;
    var w := Window(s.steps, offset);
    WindowFacts(s.steps, offset);
    forall r | r in s.steps && r.ordinal <= m ensures Linked(s.links, r.ordinal) {
      assert LinkedOnce(s.links, r.ordinal);
    }
  }

  lemma BeginIsGood(s: Store, job: nat)
    requires Good(s) && Enabled(s, BeginJob(job))
    ensures Good(Begin(s, job))
  {
    var w := Window(s.steps, s.jobs[job].offset);
    if w == [] || Latched(s.episodes, s.links, w) {
      if s.jobs[job].offset == Frontier(s.episodes) { SkipLosesNothing(s, job); }
    } else {
      UnlatchedWindowIsAhead(s, job);
    }
  }

  lemma CompleteIsGood(s: Store, job: nat)
    requires Good(s) && Enabled(s, Complete(job))
    ensures Good(Succeeded(s, job))
  {
    SucceedKeepsChained(s.jobs, s.steps, Frontier(s.episodes), job);
  }

  lemma EpisodeStepsAre(split: seq<Range>, window: seq<Row>, k: nat, o: nat)
    requires Partitions(split, |window|) && k < |split|
    ensures o in NewEpisodes(split, window)[k].steps
       <==> exists i :: 0 <= i < |window| && In(split[k], i) && window[i].ordinal == o
  {
    var covered := window[split[k].first..split[k].last + 1];
    var steps := NewEpisodes(split, window)[k].steps;
    if o in steps {
      var j :| 0 <= j < |steps| && steps[j] == o;
      assert In(split[k], split[k].first + j) && window[split[k].first + j] == covered[j];
    }
    if i :| 0 <= i < |window| && In(split[k], i) && window[i].ordinal == o {
      assert steps[i - split[k].first] == o;
    }
  }

  /** The new links reach only the window's steps, each of them from exactly one new episode. */
  lemma NewLinksCoverWindow(split: seq<Range>, window: seq<Row>, base: nat, i: nat) returns (k: nat)
    requires Partitions(split, |window|) && Ascending(window) && i < |window|
    ensures k < |split| && (base + k, window[i].ordinal) in NewLinks(NewEpisodes(split, window), base)
    ensures forall l | l in NewLinks(NewEpisodes(split, window), base) && l.1 == window[i].ordinal :: l.0 == base + k
  {
    k := CoveredOnce(split, |window|, i);
    EpisodeStepsAre(split, window, k, window[i].ordinal);
    forall l | l in NewLinks(NewEpisodes(split, window), base) && l.1 == window[i].ordinal ensures l.0 == base + k {
      EpisodeStepsAre(split, window, l.0 - base, window[i].ordinal);
    }
  }

  lemma NewLinksStayInWindow(split: seq<Range>, window: seq<Row>, base: nat, l: Link)
    requires Partitions(split, |window|) && l in NewLinks(NewEpisodes(split, window), base)
    ensures base <= l.0 < base + |split| && exists r :: r in window && r.ordinal == l.1
  {
    EpisodeStepsAre(split, window, l.0 - base, l.1);
    var i :| 0 <= i < |window| && In(split[l.0 - base], i) && window[i].ordinal == l.1;
    assert window[i] in window;
  }

  lemma LastOfEpisode(split: seq<Range>, window: seq<Row>, k: nat)
    requires Partitions(split, |window|) && k < |split|
    ensures NewEpisodes(split, window)[k].lastOrdinal == window[split[k].last].ordinal
  {
    var covered := window[split[k].first..split[k].last + 1];
    assert covered[|covered| - 1] == window[split[k].last];
  }

  lemma FrontierIs(episodes: seq<Episode>, m: nat)
    requires forall e | e in episodes :: e.lastOrdinal <= m
    requires exists e :: e in episodes && e.lastOrdinal == m
    ensures Frontier(episodes) == m
  {
    FrontierBounds(episodes);
  }

  function Ordinals(rows: seq<Row>): seq<nat> { seq(|rows|, i requires 0 <= i < |rows| => rows[i].ordinal) }

  function StepLists(episodes: seq<Episode>): seq<seq<nat>> {
    seq(|episodes|, k requires 0 <= k < |episodes| => episodes[k].steps)
  }

  /** How far the first `n` ranges reach. */
  function Reach(split: seq<Range>, n: nat): int
    requires n <= |split|
  {
    if n == 0 then 0 else split[n - 1].last + 1
  }

  lemma RangeStarts(split: seq<Range>, n: nat, k: nat)
    requires Partitions(split, n) && k < |split|
    ensures split[k].first == Reach(split, k) && 0 <= Reach(split, k) <= Reach(split, k + 1) <= n
  {
    if k > 0 { assert split[k - 1 + 1].first == split[k - 1].last + 1; }
  }

  lemma {:induction false} FirstEpisodesSpell(split: seq<Range>, window: seq<Row>, n: nat, lists: seq<seq<nat>>)
    requires Partitions(split, |window|) && n <= |split| && lists == StepLists(NewEpisodes(split, window))
    ensures 0 <= Reach(split, n) <= |window|
    ensures Flatten(lists[..n]) == Ordinals(window)[..Reach(split, n)]
  {
    if n > 0 {
      FirstEpisodesSpell(split, window, n - 1, lists);
      RangeStarts(split, |window|, n - 1);
      FlattenAppends(lists[..n - 1], lists[n - 1]);
      assert lists[..n] == lists[..n - 1] + [lists[n - 1]];
      assert lists[n - 1] == Ordinals(window)[Reach(split, n - 1)..Reach(split, n)];
    }
  }

  /** The new episodes' steps, one list after the other, are the window's steps in order. */
  lemma EpisodesSpellWindow(split: seq<Range>, window: seq<Row>)
    requires Partitions(split, |window|)
    ensures Flatten(StepLists(NewEpisodes(split, window))) == Ordinals(window)
  {
    var lists := StepLists(NewEpisodes(split, window));
    FirstEpisodesSpell(split, window, |split|, lists);
    assert lists[..|split|] == lists;
  }

  /** The last new episode ends where the window ends, and none ends later. */
  lemma NewEpisodesEnd(split: seq<Range>, window: seq<Row>, added: seq<Episode>)
    requires window != [] && Partitions(split, |window|) && Ascending(window) && added == NewEpisodes(split, window)
    ensures added != [] && added[|added| - 1].lastOrdinal == window[|window| - 1].ordinal
    ensures forall e | e in added :: e.lastOrdinal <= window[|window| - 1].ordinal
  {
    LastOfEpisode(split, window, |split| - 1);
    forall k | 0 <= k < |added| ensures added[k].lastOrdinal <= window[|window| - 1].ordinal {
      LastOfEpisode(split, window, k);
    }
  }

  lemma FrontierAfter(episodes: seq<Episode>, added: seq<Episode>, last: nat)
    requires added != [] && added[|added| - 1].lastOrdinal == last && Frontier(episodes) <= last
    requires forall e | e in added :: e.lastOrdinal <= last
    ensures Frontier(episodes + added) == last
  {
    FrontierBounds(episodes);
    assert added[|added| - 1] in episodes + added;
    FrontierIs(episodes + added, last);
  }

  lemma FrontierMoves(episodes: seq<Episode>, split: seq<Range>, window: seq<Row>)
    requires window != [] && Partitions(split, |window|) && Ascending(window)
    requires forall r | r in window :: r.ordinal > Frontier(episodes)
    ensures Frontier(episodes + NewEpisodes(split, window)) == window[|window| - 1].ordinal
  {
    assert window[|window| - 1] in window;
    NewEpisodesEnd(split, window, NewEpisodes(split, window));
    FrontierAfter(episodes, NewEpisodes(split, window), window[|window| - 1].ordinal);
  }

  lemma OldStaysLinkedOnce(links: set<Link>, added: set<Link>, m: nat, ordinal: nat)
    requires LinkedOnce(links, ordinal) && ordinal <= m && forall l | l in added :: l.1 > m
    ensures LinkedOnce(links + added, ordinal)
  {
    var e: nat :| (e, ordinal) in links && forall l | l in links && l.1 == ordinal :: l.0 == e;
    assert (e, ordinal) in links + added;
  }

  lemma LinkedByOne(links: set<Link>, added: set<Link>, m: nat, e: nat, ordinal: nat)
    requires (e, ordinal) in added && forall l | l in added && l.1 == ordinal :: l.0 == e
    requires ordinal > m && forall l | l in links :: l.1 <= m
    ensures LinkedOnce(links + added, ordinal)
  {
    assert (e, ordinal) in links + added;
  }

  lemma NewIsLinkedOnce(links: set<Link>, m: nat, split: seq<Range>, window: seq<Row>, base: nat, i: nat)
    requires Partitions(split, |window|) && Ascending(window) && i < |window|
    requires window[i].ordinal > m && forall l | l in links :: l.1 <= m
    ensures LinkedOnce(links + NewLinks(NewEpisodes(split, window), base), window[i].ordinal)
  {
    var k := NewLinksCoverWindow(split, window, base, i);
    LinkedByOne(links, NewLinks(NewEpisodes(split, window), base), m, base + k, window[i].ordinal);
  }

  lemma NewLinksBounded(split: seq<Range>, window: seq<Row>, base: nat, m: nat)
    requires window != [] && Partitions(split, |window|) && Ascending(window)
    requires forall r | r in window :: r.ordinal > m
    ensures forall l | l in NewLinks(NewEpisodes(split, window), base) :: m < l.1 <= window[|window| - 1].ordinal
  {
    forall l | l in NewLinks(NewEpisodes(split, window), base) ensures m < l.1 <= window[|window| - 1].ordinal {
      NewLinksStayInWindow(split, window, base, l);
    }
  }

  /** The window's steps become linked once each; nothing covered before changes. */
  lemma CoverGrows(steps: seq<Row>, links: set<Link>, m: nat, split: seq<Range>, window: seq<Row>, base: nat)
    requires CoveredUpTo(steps, links, m) && window != [] && Ascending(window) && Partitions(split, |window|)
    requires forall r | r in window :: r.ordinal > m
    requires forall r | r in steps && r.ordinal > m && !Past(window, r.ordinal) :: r in window
    ensures CoveredUpTo(steps, links + NewLinks(NewEpisodes(split, window), base), window[|window| - 1].ordinal)
  {
    var added, last := NewLinks(NewEpisodes(split, window), base), window[|window| - 1].ordinal;
    NewLinksBounded(split, window, base, m);
    assert window[|window| - 1] in window;
    forall r | r in steps && r.ordinal <= last ensures LinkedOnce(links + added, r.ordinal) {
      if r.ordinal <= m {
        OldStaysLinkedOnce(links, added, m, r.ordinal);
      } else {
        var i :| 0 <= i < |window| && window[i] == r;
        NewIsLinkedOnce(links, m, split, window, base, i);
      }
    }
  }

  lemma PersistKeepsChained(jobs: seq<Job>, steps: seq<Row>, m: nat, f: InFlight)
    requires Chained(jobs, steps, m) && WindowAhead(f, jobs, steps, m)
    ensures var last := f.window[|f.window| - 1].ordinal;
            Chained(if f.hasMore then jobs + [Job(last, false)] else jobs, steps, last) && last > m
  {
    var last := f.window[|f.window| - 1].ordinal;
    var chained := if f.hasMore then jobs + [Job(last, false)] else jobs;
    assert f.window[|f.window| - 1] in f.window;
    if Uncovered(steps, last) {
      var r :| r in steps && r.ordinal > last;
      assert Past(f.window, r.ordinal);
      assert chained[|jobs|] == Job(last, false);
    }
  }

  /** Once the frontier moves past the offsets of all jobs so far, their parts are done. */
  lemma AllPartsAreDone(jobs: seq<Job>, chained: seq<Job>, steps: seq<Row>, m: nat, last: nat, returned: set<nat>)
    requires Chained(jobs, steps, m) && m < last && jobs <= chained && forall j | j in returned :: j < |jobs|
    ensures forall j | j in returned :: PartIsDone(chained, steps, last, j)
  {
    forall j | j in returned ensures PartIsDone(chained, steps, last, j) {
      assert chained[j] == jobs[j];
    }
  }

  /** What a committed answer leaves, field by field. */
  lemma PersistFields(s: Store, f: InFlight, split: seq<Range>)
    requires f.window != [] && Partitions(split, |f.window|) && forall r | r in f.window :: r in s.steps
    ensures var after := Persist(s, f.job, f.window, f.hasMore, split);
            && after.steps == s.steps && after.inFlight == None && after.returned == s.returned + {f.job}
            && after.episodes == s.episodes + NewEpisodes(split, f.window)
            && after.links == s.links + NewLinks(NewEpisodes(split, f.window), |s.episodes|)
            && after.jobs == if f.hasMore then s.jobs + [Job(f.window[|f.window| - 1].ordinal, false)] else s.jobs
  {
  }

  lemma FrontierGood(s: Store, f: InFlight, split: seq<Range>)
    requires Good(s) && s.inFlight == Some(f) && Partitions(split, |f.window|)
    ensures Frontier(s.episodes + NewEpisodes(split, f.window)) == f.window[|f.window| - 1].ordinal
  {
    FrontierMoves(s.episodes, split, f.window);
  }

  lemma CoverGood(s: Store, f: InFlight, split: seq<Range>)
    requires Good(s) && s.inFlight == Some(f) && Partitions(split, |f.window|)
    ensures CoveredUpTo(s.steps, s.links + NewLinks(NewEpisodes(split, f.window), |s.episodes|),
                        f.window[|f.window| - 1].ordinal)
  {
    CoverGrows(s.steps, s.links, Frontier(s.episodes), split, f.window, |s.episodes|);
  }

  lemma LinksInRange(links: set<Link>, base: nat, split: seq<Range>, window: seq<Row>)
    requires Partitions(split, |window|) && forall l | l in links :: l.0 < base
    ensures forall l | l in links + NewLinks(NewEpisodes(split, window), base) ::
              l.0 < base + |NewEpisodes(split, window)|
  {
    forall l | l in NewLinks(NewEpisodes(split, window), base) ensures l.0 < base + |split| {
      NewLinksStayInWindow(split, window, base, l);
    }
  }

  /** A committed answer moves the frontier to the window's end and keeps the cover exact. */
  lemma CommittedAnswerIsGood(s: Store, f: InFlight, split: seq<Range>, after: Store)
    requires Good(s) && s.inFlight == Some(f) && Partitions(split, |f.window|)
    requires after.steps == s.steps && after.inFlight == None && after.returned == s.returned + {f.job}
    requires after.episodes == s.episodes + NewEpisodes(split, f.window)
    requires after.links == s.links + NewLinks(NewEpisodes(split, f.window), |s.episodes|)
    requires after.jobs == if f.hasMore then s.jobs + [Job(f.window[|f.window| - 1].ordinal, false)] else s.jobs
    ensures Good(after)
  {
    var m := Frontier(s.episodes);
    FrontierGood(s, f, split);
    CoverGood(s, f, split);
    PersistKeepsChained(s.jobs, s.steps, m, f);
    LinksInRange(s.links, |s.episodes|, split, f.window);
    AllPartsAreDone(s.jobs, after.jobs, s.steps, m, Frontier(after.episodes), after.returned);
  }

  lemma AnswerIsGood(s: Store, split: seq<Range>)
    requires Good(s) && Enabled(s, Answer(split))
    ensures Good(Next(s, Answer(split)))
  {
    var f := s.inFlight.value;
    if forall r | r in f.window :: r in s.steps {
      PersistFields(s, f, Accepted(split, |f.window|));
      CommittedAnswerIsGood(s, f, Accepted(split, |f.window|), Next(s, Answer(split)));
    }
  }

  lemma {:induction false} KeepFacts(rows: seq<Row>, gone: set<nat>)
    requires Ascending(rows)
    ensures Ascending(Keep(rows, gone))
    ensures forall r :: r in Keep(rows, gone) <==> r in rows && r.ordinal !in gone
  {
    if rows != [] {
      KeepFacts(rows[1..], gone);
      assert rows == [rows[0]] + rows[1..];
      var rest := Keep(rows[1..], gone);
      forall j | 0 <= j < |rest| ensures rows[0].ordinal < rest[j].ordinal { assert rest[j] in rows[1..]; }
    }
  }

  lemma WithoutIsGood(s: Store, gone: set<nat>)
    requires Good(s)
    ensures Good(Without(s, gone))
  {
    KeepFacts(s.steps, gone);
    var after, m := Without(s, gone), Frontier(s.episodes);
    forall r | r in after.steps && r.ordinal <= m ensures LinkedOnce(after.links, r.ordinal) {
      assert LinkedOnce(s.links, r.ordinal);
      var e: nat :| (e, r.ordinal) in s.links && forall l | l in s.links && l.1 == r.ordinal :: l.0 == e;
      assert (e, r.ordinal) in after.links;
    }
  }

  lemma NextIsGood(s: Store, op: Op)
    requires Good(s) && Enabled(s, op)
    ensures Good(Next(s, op))
  {
    match op
    case BeginJob(job) => BeginIsGood(s, job);
    case Answer(split) => AnswerIsGood(s, split);
    case Complete(job) => CompleteIsGood(s, job);
    case Abort =>
    case Purge(cutoff) => WithoutIsGood(s, Victims(s.steps, cutoff));
  }

  // ---------------------------------------------------------------- all runs

  /** A segment just closed: its steps, and the one job enqueued with it. */
  function Closed(steps: seq<Row>): Store { Store(steps, [], {}, [Job(0, false)], None, {}) }

  predicate AllEnabled(s: Store, ops: seq<Op>)
    decreases |ops|
  {
    ops == [] || (Enabled(s, ops[0]) && AllEnabled(Next(s, ops[0]), ops[1..]))
  }

  function Run(s: Store, ops: seq<Op>): Store
    requires AllEnabled(s, ops)
    decreases |ops|
  {
    if ops == [] then s else Run(Next(s, ops[0]), ops[1..])
  }

  lemma {:induction false} RunIsGood(s: Store, ops: seq<Op>)
    requires Good(s) && AllEnabled(s, ops)
    ensures Good(Run(s, ops))
    decreases |ops|
  {
    if ops != [] {
      NextIsGood(s, ops[0]);
      RunIsGood(Next(s, ops[0]), ops[1..]);
    }
  }

  predicate Numbered(steps: seq<Row>) { Ascending(steps) && forall r | r in steps :: r.ordinal > 0 }

  /**
   * Whatever jobs run, crash, are delivered again or purged around: up to the
   * frontier every surviving step belongs to exactly one episode, beyond it to
   * none, and a job that has not succeeded is there to take up the rest.
   */
  lemma ExactlyOnceCover(steps: seq<Row>, ops: seq<Op>)
    requires Numbered(steps) && AllEnabled(Closed(steps), ops)
    ensures var s := Run(Closed(steps), ops);
            var m := Frontier(s.episodes);
            && (forall r | r in s.steps ::
                  if r.ordinal <= m then LinkedOnce(s.links, r.ordinal) else !Linked(s.links, r.ordinal))
            && (Uncovered(s.steps, m) ==> exists j :: 0 <= j < |s.jobs| && s.jobs[j] == Job(m, false))
  {
    assert Closed(steps).jobs[0] == Job(0, false);
    RunIsGood(Closed(steps), ops);
  }

  /** Once every job has succeeded, every surviving step is in exactly one episode. */
  lemma DoneMeansCovered(steps: seq<Row>, ops: seq<Op>)
    requires Numbered(steps) && AllEnabled(Closed(steps), ops)
    requires var s := Run(Closed(steps), ops); forall j | 0 <= j < |s.jobs| :: s.jobs[j].succeeded
    ensures var s := Run(Closed(steps), ops); forall r | r in s.steps :: LinkedOnce(s.links, r.ordinal)
  {
    ExactlyOnceCover(steps, ops);
  }

  // ------------------------------------------------------------ the summarizer

  lemma {:induction false} KeepTwice(rows: seq<Row>, a: set<nat>, b: set<nat>)
    ensures Keep(Keep(rows, a), b) == Keep(rows, a + b)
  {
    if rows != [] {
      KeepTwice(rows[1..], a, b);
      var kept := Keep(rows, a);
      if rows[0].ordinal in a {
        assert kept == Keep(rows[1..], a);
      } else {
        assert kept == [rows[0]] + Keep(rows[1..], a) && kept[1..] == Keep(rows[1..], a);
      }
    }
  }

  lemma WithoutTwice(s: Store, a: set<nat>, b: set<nat>)
    ensures Without(Without(s, a), b) == Without(s, a + b)
  {
    KeepTwice(s.steps, a, b);
  }

  lemma {:induction false} KeepAll(rows: seq<Row>)
    ensures Keep(rows, {}) == rows
  {
    if rows != [] { KeepAll(rows[1..]); }
  }

  lemma KeepNone(s: Store)
    ensures Without(s, {}) == s
  {
    KeepAll(s.steps);
  }

  lemma {:induction false} KeepShrinks(rows: seq<Row>, gone: set<nat>)
    ensures |Keep(rows, gone)| <= |rows|
    ensures (exists r | r in rows :: r.ordinal in gone) ==> |Keep(rows, gone)| < |rows|
  {
    if rows != [] { KeepShrinks(rows[1..], gone); }
  }

  lemma PurgedAll(s: Store, gone: set<nat>, cutoff: int)
    requires Ascending(s.steps) && gone <= Victims(s.steps, cutoff)
    requires Victims(Without(s, gone).steps, cutoff) == {}
    ensures gone == Victims(s.steps, cutoff)
  {
    KeepFacts(s.steps, gone);
    forall o | o in Victims(s.steps, cutoff) ensures o in gone {
      var r :| r in s.steps && !Spared(r, cutoff) && r.ordinal == o;
      assert r in Without(s, gone).steps ==> o in Victims(Without(s, gone).steps, cutoff);
    }
  }

  class EpisodeSummarizer {
    var store: Store

    constructor (steps: seq<Row>)
      ensures store == Closed(steps)
    {
      store := Closed(steps);
    }

    /** The latch: does any episode already stand for this window? */
    method HasEpisodesForSteps(rows: seq<Row>) returns (found: bool)
      requires Ascending(rows)
      ensures found == Latched(store.episodes, store.links, rows)
    {
      if rows == [] { return false; }
      var maxOrdinal := rows[0].ordinal;
      for i := 0 to |rows|
        invariant maxOrdinal == rows[if i == 0 then 0 else i - 1].ordinal
      {
        if rows[i].ordinal > maxOrdinal { maxOrdinal := rows[i].ordinal; }
      }
      if exists e | e in store.episodes :: e.lastOrdinal >= maxOrdinal { return true; }
      found := exists r | r in rows :: exists l | l in store.links :: l.1 == r.ordinal;
    }

    /** `handle` up to the point where it awaits the model. */
    method HandleUntilModel(job: nat) returns (waiting: bool)
      requires Good(store) && Enabled(store, BeginJob(job))
      modifies this
      ensures store == Next(old(store), BeginJob(job))
      ensures waiting == store.inFlight.Some?
    {
      AfterFacts(store.steps, store.jobs[job].offset);
      var probe := Take(After(store.steps, store.jobs[job].offset), MAX_INPUT_STEPS + 1);
      var hasMore := |probe| > MAX_INPUT_STEPS;
      var inputSteps := if hasMore then probe[..MAX_INPUT_STEPS] else probe;
      assert inputSteps == Window(store.steps, store.jobs[job].offset);
      var skip := |probe| == 0;
      if !skip { skip := HasEpisodesForSteps(inputSteps); }
      if skip {
        store := store.(returned := store.returned + {job});
        return false;
      }
      store := store.(inFlight := Some(InFlight(job, inputSteps, hasMore)));
      waiting := true;
    }

    method BuildEpisodes(split: seq<Range>, window: seq<Row>) returns (episodes: seq<Episode>)
      requires Partitions(split, |window|)
      ensures episodes == NewEpisodes(split, window)
    {
      episodes := [];
      for k := 0 to |split|
        invariant |episodes| == k && forall j | 0 <= j < k :: episodes[j] == ToNewEpisode(split[j], window)
      {
        episodes := episodes + [ToNewEpisode(split[k], window)];
      }
    }

    /** `handle` after the model's last answer; `thrown` is the foreign key firing. */
    method HandleAnswer(split: seq<Range>) returns (thrown: bool)
      requires Enabled(store, Answer(split))
      modifies this
      ensures store == Next(old(store), Answer(split))
      ensures thrown <==> exists r | r in old(store).inFlight.value.window :: r !in old(store).steps
    {
      var f := store.inFlight.value;
      var errors := ValidateSplit(split, |f.window|);
      var accepted := if errors == [] then split else [Range(0, |f.window| - 1)];
      assert accepted == Accepted(split, |f.window|);
      var episodes := BuildEpisodes(accepted, f.window);
      if exists r | r in f.window :: r !in store.steps {
        store := store.(inFlight := None);
        return true;
      }
      var jobs := if f.hasMore then store.jobs + [Job(f.window[|f.window| - 1].ordinal, false)] else store.jobs;
      store := store.(episodes := store.episodes + episodes, inFlight := None, jobs := jobs,
                      links := store.links + NewLinks(episodes, |store.episodes|),
                      returned := store.returned + {f.job});
      thrown := false;
    }

    /** Victims of one page; empty only when there is none left. */
    method SelectVictims(cutoff: int) returns (page: set<nat>)
      ensures page <= Victims(store.steps, cutoff) && |page| <= PURGE_PAGE
      ensures page == {} ==> Victims(store.steps, cutoff) == {}
    {
      page := {};
      for i := 0 to |store.steps|
        invariant page <= Victims(store.steps, cutoff) && |page| <= PURGE_PAGE
        invariant page == {} ==> forall j | 0 <= j < i :: Spared(store.steps[j], cutoff)
      {
        if !Spared(store.steps[i], cutoff) && |page| < PURGE_PAGE {
          page := page + {store.steps[i].ordinal};
        }
      }
    }

    /** Pages of at most 500 victims, until a page comes back empty. */
    method PurgeStepsOlderThan(cutoff: int)
      requires Good(store)
      modifies this
      ensures store == Next(old(store), Purge(cutoff))
    {
      var victims := Victims(store.steps, cutoff);
      ghost var gone: set<nat> := {};
      KeepNone(store);
      var page := SelectVictims(cutoff);
      while page != {}
        invariant gone <= victims && store == Without(old(store), gone)
        invariant page <= Victims(store.steps, cutoff)
        invariant page == {} ==> Victims(store.steps, cutoff) == {}
        decreases |store.steps|
      {
        KeepFacts(old(store).steps, gone);
        KeepShrinks(store.steps, page);
        WithoutTwice(old(store), gone, page);
        gone := gone + page;
        store := store.(steps := Keep(store.steps, page), links := set l | l in store.links && l.1 !in page);
        page := SelectVictims(cutoff);
      }
      PurgedAll(old(store), gone, cutoff);
    }
  }
}
