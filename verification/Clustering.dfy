/** Greedy clustering of episodes around a seed, with its score cache. */
module Clustering {
  import opened Prelude
  import Fingerprint

  const OCCURRENCE_SIMILARITY_MIN := 0.74

  /** A pool entry; `id` is the episode's primary key. */
  datatype Episode = Episode(id: nat, fingerprint: Fingerprint.Fingerprint)

  function Score(candidate: Episode, member: Episode): real {
    Fingerprint.Similarity(candidate.fingerprint, member.fingerprint)
  }

  predicate Similar(candidate: Episode, member: Episode) {
    Score(candidate, member) >= OCCURRENCE_SIMILARITY_MIN
  }

  lemma SimilarIsSymmetric(a: Episode, b: Episode)
    ensures Similar(a, b) == Similar(b, a)
  {
    Fingerprint.SimilarityRange(a.fingerprint, b.fingerprint);
  }

  /** Members in joining order, and the similarity recorded for each id. */
  datatype Cluster = Cluster(members: seq<Episode>, recorded: map<nat, real>)

  // ------------------------------------------------- the greedy rule, uncached

  /** The score against the first member, from position `from` on, that clears the bar. */
  function FirstScore(c: Episode, members: seq<Episode>, from: nat): Option<real>
    decreases |members| - from
  {
    if from >= |members| then None
    else if Similar(c, members[from]) then Some(Score(c, members[from]))
    else FirstScore(c, members, from + 1)
  }

  function Consider(cl: Cluster, c: Episode): Cluster {
    if c.id in cl.recorded then cl
    else match FirstScore(c, cl.members, 0)
         case None => cl
         case Some(score) => Cluster(cl.members + [c], cl.recorded[c.id := score])
  }

  function Pass(cl: Cluster, pool: seq<Episode>): Cluster
    decreases |pool|
  {
    if pool == [] then cl else Pass(Consider(cl, pool[0]), pool[1..])
  }

  function Ids(pool: seq<Episode>): set<nat> { set e | e in pool :: e.id }

  /** A pass only adds members of the pool, and records exactly those it adds. */
  lemma {:induction false} PassAdmits(cl: Cluster, pool: seq<Episode>)
    ensures var next := Pass(cl, pool);
            && cl.members <= next.members && cl.recorded.Keys <= next.recorded.Keys
            && next.recorded.Keys <= cl.recorded.Keys + Ids(pool)
            && (next != cl ==> exists e :: e in pool && e.id in next.recorded && e.id !in cl.recorded)
            && (next == cl ==> forall e | e in pool :: Consider(cl, e) == cl)
    decreases |pool|
  {
    if pool != [] {
      var mid := Consider(cl, pool[0]);
      PassAdmits(mid, pool[1..]);
      assert pool[0] in pool && forall e | e in pool[1..] :: e in pool;
      assert Ids(pool) >= Ids(pool[1..]) + {pool[0].id};
      if mid == cl {
        forall e | e in pool && Pass(cl, pool) == cl ensures Consider(cl, e) == cl {
          assert e == pool[0] || e in pool[1..];
        }
      } else {
        assert pool[0].id in mid.recorded && pool[0].id !in cl.recorded;
        assert |Pass(cl, pool).members| > |cl.members|;
      }
    }
  }

  /** Passes over the pool until one of them admits nobody. */
  function Fixpoint(cl: Cluster, pool: seq<Episode>): Cluster
    decreases Ids(pool) - cl.recorded.Keys
  {
    var next := Pass(cl, pool);
    PassAdmits(cl, pool);
    if next == cl then cl else Fixpoint(next, pool)
  }

  function Start(seed: Episode): Cluster { Cluster([seed], map[seed.id := 1.0]) }

  // ------------------------------------------------------------------ closure

  /** A walk inside `u` whose consecutive episodes are similar. */
  predicate Walk(u: set<Episode>, path: seq<Episode>) {
    && path != []
    && (forall e | e in path :: e in u)
    && forall i | 0 < i < |path| :: Similar(path[i], path[i - 1])
  }

  ghost predicate Reaches(u: set<Episode>, a: Episode, b: Episode) {
    exists path :: Walk(u, path) && path[0] == a && path[|path| - 1] == b
  }

  function Universe(seed: Episode, pool: seq<Episode>): set<Episode> { {seed} + set e | e in pool }

  /** Primary keys: no two episodes of the universe share an id. */
  predicate DistinctIds(u: set<Episode>) {
    forall a, b | a in u && b in u && a.id == b.id :: a == b
  }

  /** What every stage of the clustering keeps. */
  ghost predicate Grown(cl: Cluster, u: set<Episode>, seed: Episode) {
    && seed in cl.members
    && cl.recorded.Keys == Ids(cl.members)
    && (forall e | e in cl.members :: e in u && Reaches(u, seed, e))
    && (forall i, j | 0 <= i < j < |cl.members| :: cl.members[i].id != cl.members[j].id)
    && (forall id | id in cl.recorded :: cl.recorded[id] >= OCCURRENCE_SIMILARITY_MIN)
  }

  lemma {:induction false} FirstScoreFinds(c: Episode, members: seq<Episode>, from: nat)
    ensures FirstScore(c, members, from).None? <==> forall i | from <= i < |members| :: !Similar(c, members[i])
    ensures FirstScore(c, members, from).Some? ==> exists m ::
              m in members && Similar(c, m) && FirstScore(c, members, from) == Some(Score(c, m))
    decreases |members| - from
  {
    if from < |members| {
      FirstScoreFinds(c, members, from + 1);
      assert members[from] in members;
    }
  }

  lemma WalkExtends(u: set<Episode>, a: Episode, b: Episode, c: Episode)
    requires Reaches(u, a, b) && c in u && Similar(c, b)
    ensures Reaches(u, a, c)
  {
    var path :| Walk(u, path) && path[0] == a && path[|path| - 1] == b;
    assert Walk(u, path + [c]);
  }

  lemma AdmissionKeepsGrown(cl: Cluster, u: set<Episode>, seed: Episode, c: Episode, score: real)
    requires Grown(cl, u, seed) && c in u && c.id !in cl.recorded
    requires Reaches(u, seed, c) && score >= OCCURRENCE_SIMILARITY_MIN
    ensures Grown(Cluster(cl.members + [c], cl.recorded[c.id := score]), u, seed)
  {
    var members := cl.members + [c];
    assert Ids(members) == Ids(cl.members) + {c.id} by {
      assert c in members && forall e | e in cl.members :: e in members;
    }
    forall i, j | 0 <= i < j < |members| ensures members[i].id != members[j].id {
      if j == |cl.members| {
        assert cl.members[i] in cl.members && cl.members[i].id in Ids(cl.members);
      }
    }
  }

  lemma ConsiderKeepsGrown(cl: Cluster, u: set<Episode>, seed: Episode, c: Episode)
    requires Grown(cl, u, seed) && c in u
    ensures Grown(Consider(cl, c), u, seed)
  {
    FirstScoreFinds(c, cl.members, 0);
    if c.id !in cl.recorded && FirstScore(c, cl.members, 0).Some? {
      var m :| m in cl.members && Similar(c, m) && FirstScore(c, cl.members, 0) == Some(Score(c, m));
      WalkExtends(u, seed, m, c);
      AdmissionKeepsGrown(cl, u, seed, c, Score(c, m));
    }
  }

  lemma {:induction false} PassKeepsGrown(cl: Cluster, u: set<Episode>, seed: Episode, pool: seq<Episode>)
    requires Grown(cl, u, seed) && forall e | e in pool :: e in u
    ensures Grown(Pass(cl, pool), u, seed)
    decreases |pool|
  {
    if pool != [] {
      ConsiderKeepsGrown(cl, u, seed, pool[0]);
      PassKeepsGrown(Consider(cl, pool[0]), u, seed, pool[1..]);
    }
  }

  lemma {:induction false} FixpointKeepsGrown(cl: Cluster, u: set<Episode>, seed: Episode, pool: seq<Episode>)
    requires Grown(cl, u, seed) && forall e | e in pool :: e in u
    ensures Grown(Fixpoint(cl, pool), u, seed)
    ensures Pass(Fixpoint(cl, pool), pool) == Fixpoint(cl, pool)
    decreases Ids(pool) - cl.recorded.Keys
  {
    PassKeepsGrown(cl, u, seed, pool);
    PassAdmits(cl, pool);
    if Pass(cl, pool) != cl {
      FixpointKeepsGrown(Pass(cl, pool), u, seed, pool);
    }
  }

  /** Nobody similar to a member of a finished cluster was left out. */
  lemma {:induction false} ClosedUnderWalks(cl: Cluster, u: set<Episode>, seed: Episode, pool: seq<Episode>,
                                            path: seq<Episode>)
    requires Grown(cl, u, seed) && DistinctIds(u) && u == Universe(seed, pool) && Pass(cl, pool) == cl
    requires Walk(u, path) && path[0] == seed
    ensures path[|path| - 1] in cl.members
    decreases |path|
  {
    if |path| > 1 {
      var c, before := path[|path| - 1], path[..|path| - 1];
      ClosedUnderWalks(cl, u, seed, pool, before);
      var m := before[|before| - 1];
      assert m in cl.members && Similar(c, m) && c in u;
      if c != seed {
        PassAdmits(cl, pool);
        assert c in pool && Consider(cl, c) == cl;
        FirstScoreFinds(c, cl.members, 0);
        var i :| 0 <= i < |cl.members| && cl.members[i] == m;
        assert c.id in Ids(cl.members);
        var e :| e in cl.members && e.id == c.id;
        assert e == c;
      }
    }
  }

  /**
   * The members are exactly the episodes reachable from the seed by steps that
   * clear the bar, each once, and every recorded similarity clears it.
   */
  lemma ClusterIsClosure(seed: Episode, pool: seq<Episode>)
    requires DistinctIds(Universe(seed, pool))
    ensures var cl := Fixpoint(Start(seed), pool);
            Grown(cl, Universe(seed, pool), seed)
            && forall e :: e in cl.members <==> Reaches(Universe(seed, pool), seed, e)
  {
    var u := Universe(seed, pool);
    assert Walk(u, [seed]);
    assert Reaches(u, seed, seed);
    FixpointKeepsGrown(Start(seed), u, seed, pool);
    var cl := Fixpoint(Start(seed), pool);
    forall e | Reaches(u, seed, e) ensures e in cl.members {
      var path :| Walk(u, path) && path[0] == seed && path[|path| - 1] == e;
      ClosedUnderWalks(cl, u, seed, pool, path);
    }
  }

  lemma {:induction false} WalkReverses(u: set<Episode>, path: seq<Episode>)
    requires Walk(u, path)
    ensures Reaches(u, path[|path| - 1], path[0])
    decreases |path|
  {
    var last := path[|path| - 1];
    if |path| == 1 {
      assert Walk(u, [last]);
    } else {
      var rest := path[1..];
      WalkReverses(u, rest);
      SimilarIsSymmetric(path[1], path[0]);
      WalkExtends(u, last, path[1], path[0]);
    }
  }

  lemma ReachesIsTransitive(u: set<Episode>, a: Episode, b: Episode, c: Episode)
    requires Reaches(u, a, b) && Reaches(u, b, c)
    ensures Reaches(u, a, c)
  {
    var one :| Walk(u, one) && one[0] == a && one[|one| - 1] == b;
    var two :| Walk(u, two) && two[0] == b && two[|two| - 1] == c;
    assert Walk(u, one + two[1..]) by {
      forall i | 0 < i < |one + two[1..]| ensures Similar((one + two[1..])[i], (one + two[1..])[i - 1]) {
        if i >= |one| { assert (one + two[1..])[i] == two[i - |one| + 1]; }
      }
    }
  }

  /** Mining the same episodes from any member of the cluster finds the same cluster. */
  lemma SeedDoesNotMatter(seed: Episode, pool: seq<Episode>, other: Episode, otherPool: seq<Episode>)
    requires DistinctIds(Universe(seed, pool)) && Universe(seed, pool) == Universe(other, otherPool)
    requires other in Fixpoint(Start(seed), pool).members
    ensures forall e :: e in Fixpoint(Start(seed), pool).members
                   <==> e in Fixpoint(Start(other), otherPool).members
  {
    var u := Universe(seed, pool);
    ClusterIsClosure(seed, pool);
    ClusterIsClosure(other, otherPool);
    var path :| Walk(u, path) && path[0] == seed && path[|path| - 1] == other;
    WalkReverses(u, path);
    forall e ensures Reaches(u, seed, e) <==> Reaches(u, other, e) {
      if Reaches(u, seed, e) { ReachesIsTransitive(u, other, seed, e); }
      if Reaches(u, other, e) { ReachesIsTransitive(u, seed, other, e); }
    }
  }

  // ----------------------------------------------------------- the gate value

  /** The recorded similarities, the seed's 1 among them, in joining order. */
  function Similarities(cl: Cluster): seq<real> {
    seq(|cl.members|, i requires 0 <= i < |cl.members| =>
      if cl.members[i].id in cl.recorded then cl.recorded[cl.members[i].id] else 0.0)
  }

  /** The median of a cluster clears the bar its members cleared, and splits them in halves. */
  lemma ClusterMedian(seed: Episode, pool: seq<Episode>)
    requires DistinctIds(Universe(seed, pool))
    ensures var similarities := Similarities(Fixpoint(Start(seed), pool));
            var median := Fingerprint.Median(similarities);
            && median >= OCCURRENCE_SIMILARITY_MIN
            && 2 * Fingerprint.Count(similarities, v => v < median) <= |similarities|
            && 2 * Fingerprint.Count(similarities, v => v > median) <= |similarities|
  {
    ClusterIsClosure(seed, pool);
    var cl := Fixpoint(Start(seed), pool);
    forall v | v in Similarities(cl) ensures v >= OCCURRENCE_SIMILARITY_MIN {
      var i :| 0 <= i < |cl.members| && Similarities(cl)[i] == v;
      assert cl.members[i].id in Ids(cl.members);
    }
    Fingerprint.MedianMeetsBound(Similarities(cl), OCCURRENCE_SIMILARITY_MIN);
    Fingerprint.MedianIsInTheMiddle(Similarities(cl));
  }

  // -------------------------------------------------------- the cached search

  /** A candidate still outside has no similar member among those it already scored. */
  ghost predicate CacheSound(scoredUpTo: map<nat, nat>, cl: Cluster, pool: seq<Episode>) {
    forall c | c in pool && c.id in scoredUpTo && c.id !in cl.recorded ::
      scoredUpTo[c.id] <= |cl.members| && forall i | 0 <= i < scoredUpTo[c.id] :: !Similar(c, cl.members[i])
  }

  lemma {:induction false} ScoredPrefixIsIrrelevant(c: Episode, members: seq<Episode>, from: nat, start: nat)
    requires start <= from <= |members| && forall i | start <= i < from :: !Similar(c, members[i])
    ensures FirstScore(c, members, start) == FirstScore(c, members, from)
    decreases from - start
  {
    if start < from { ScoredPrefixIsIrrelevant(c, members, from, start + 1); }
  }

  /** One candidate of one pass: only members it has not scored yet are scored. */
  method ConsiderCached(cl: Cluster, c: Episode, scoredUpTo: map<nat, nat>, ghost pool: seq<Episode>)
      returns (next: Cluster, scored: map<nat, nat>)
    requires c in pool && (forall e | e in pool && e.id == c.id :: e == c) && CacheSound(scoredUpTo, cl, pool)
    ensures next == Consider(cl, c) && CacheSound(scored, next, pool)
  {
    next, scored := cl, scoredUpTo;
    if c.id in cl.recorded { return; }
    var from := if c.id in scored then scored[c.id] else 0;
    var mi, best := from, 0.0;
    while mi < |cl.members| && best < OCCURRENCE_SIMILARITY_MIN
      invariant from <= mi <= |cl.members|
      invariant best < OCCURRENCE_SIMILARITY_MIN ==> forall i | 0 <= i < mi :: !Similar(c, cl.members[i])
      invariant best >= OCCURRENCE_SIMILARITY_MIN ==> FirstScore(c, cl.members, 0) == Some(best)
    {
      var similarity := Fingerprint.EpisodeSimilarity(c.fingerprint, cl.members[mi].fingerprint);
      if similarity >= OCCURRENCE_SIMILARITY_MIN {
        ScoredPrefixIsIrrelevant(c, cl.members, mi, 0);
        best := similarity;
      }
      mi := mi + 1;
    }
    scored := scored[c.id := mi];
    if best >= OCCURRENCE_SIMILARITY_MIN {
      next := Cluster(cl.members + [c], cl.recorded[c.id := best]);
    } else {
      FirstScoreFinds(c, cl.members, 0);
    }
  }

  /** Same members in the same order, with the same similarities and so the same median, as without the cache. */
  method ClusterAround(seed: Episode, pool: seq<Episode>) returns (cl: Cluster, median: real)
    requires DistinctIds(Universe(seed, pool))
    ensures cl == Fixpoint(Start(seed), pool)
    ensures median == Fingerprint.Median(Similarities(Fixpoint(Start(seed), pool)))
  {
    cl := Start(seed);
    var scoredUpTo: map<nat, nat> := map[];
    var grew := true;
    while grew
      invariant CacheSound(scoredUpTo, cl, pool)
      invariant Fixpoint(Start(seed), pool) == if grew then Fixpoint(cl, pool) else cl
      decreases grew, Ids(pool) - cl.recorded.Keys
    {
      grew := false;
      ghost var before := cl;
      PassAdmits(before, pool);
      for i := 0 to |pool|
        invariant CacheSound(scoredUpTo, cl, pool)
        invariant Pass(before, pool) == Pass(cl, pool[i..])
        invariant |before.members| <= |cl.members| && (grew <==> |cl.members| > |before.members|)
        invariant !grew ==> cl == before
      {
        var candidate := pool[i];
        assert candidate in pool && candidate in Universe(seed, pool);
        assert pool[i..][0] == candidate && pool[i..][1..] == pool[i + 1..];
        var next, scored := ConsiderCached(cl, candidate, scoredUpTo, pool);
        grew := grew || |next.members| > |cl.members|;
        cl, scoredUpTo := next, scored;
      }
      assert pool[|pool|..] == [];
    }
    median := Fingerprint.Median(Similarities(cl));
  }
}
