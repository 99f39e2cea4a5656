/** What the weights of the similarity, the bar of a cluster and its median decide, in figures. */
module Likeness {
  import opened Prelude
  import opened Fingerprint
  import Clustering

  // ------------------------------------------------------------------ the parts

  predicate NothingShared(a: seq<string>, b: seq<string>) { forall x | x in a :: x !in b }

  lemma {:induction false} NothingSharedIsFar(a: seq<string>, b: seq<string>)
    requires NothingShared(a, b)
    ensures Distance(a, b) == Max(|a|, |b|)
    decreases |a| + |b|
  {
    if a != [] && b != [] {
      NothingSharedIsFar(Init(a), b);
      NothingSharedIsFar(a, Init(b));
      NothingSharedIsFar(Init(a), Init(b));
      CellRule(a, b);
      assert Last(a) in a && Last(b) in b;
    }
  }

  lemma NothingSharedScoresZero(a: seq<string>, b: seq<string>)
    requires NothingShared(a, b) && (a != [] || b != [])
    ensures SequenceScore(a, b) == 0.0
  {
    NothingSharedIsFar(a, b);
    RatioBounds(Distance(a, b), Max(|a|, |b|));
  }

  lemma DisjointAppsScoreZero(a: set<string>, b: set<string>)
    requires a !! b && a + b != {}
    ensures Overlap(a, b) == 0.0
  {
    assert a * b == {};
  }

  predicate NoCommonIntent(a: Fingerprint, b: Fingerprint) { a.intentKey == "" || a.intentKey != b.intentKey }

  predicate NoCommonApp(a: Fingerprint, b: Fingerprint) { a.apps !! b.apps && a.apps + b.apps != {} }

  predicate NoCommonStep(a: Fingerprint, b: Fingerprint) {
    NothingShared(a.signatures, b.signatures) && (a.signatures != [] || b.signatures != [])
  }

  /** Alone, the same steps are worth 0.60, the same apps 0.25, the same intent 0.15. */
  lemma EachPartWeighs(a: Fingerprint, b: Fingerprint)
    ensures a.signatures == b.signatures && NoCommonApp(a, b) && NoCommonIntent(a, b) ==> Similarity(a, b) == 0.60
    ensures NoCommonStep(a, b) && a.apps == b.apps && NoCommonIntent(a, b) ==> Similarity(a, b) == 0.25
    ensures NoCommonStep(a, b) && NoCommonApp(a, b) && a.intentKey == b.intentKey != "" ==> Similarity(a, b) == 0.15
  {
    SequenceScoreRange(a.signatures, b.signatures);
    OverlapRange(a.apps, b.apps);
    if NoCommonStep(a, b) { NothingSharedScoresZero(a.signatures, b.signatures); }
    if NoCommonApp(a, b) { DisjointAppsScoreZero(a.apps, b.apps); }
  }

  lemma SignOfProduct(x: real, w: real)
    requires w > 0.0
    ensures x >= 0.0 <==> x * w >= 0.0
  {
  }

  lemma RatioAtLeast(ratio: real, part: real, whole: real)
    requires whole > 0.0 && ratio * whole == part
    ensures ratio >= 0.56 <==> 25.0 * part >= 14.0 * whole
  {
    SignOfProduct(ratio - 0.56, whole);
    assert (ratio - 0.56) * whole == part - 0.56 * whole;
  }

  /** For the same steps without an intent the bar asks that 14 of 25 apps be common. */
  lemma BarForSameSteps(a: Clustering.Episode, b: Clustering.Episode)
    requires a.fingerprint.signatures == b.fingerprint.signatures && NoCommonIntent(a.fingerprint, b.fingerprint)
    ensures var one, other := a.fingerprint.apps, b.fingerprint.apps;
            Clustering.Similar(a, b) <==> 25 * |one * other| >= 14 * |one + other|
  {
    var one, other := a.fingerprint.apps, b.fingerprint.apps;
    SequenceScoreRange(a.fingerprint.signatures, b.fingerprint.signatures);
    if one + other == {} {
      assert one * other == {};
    } else {
      RatioAtLeast(Overlap(one, other), |one * other| as real, |one + other| as real);
    }
  }

  /** The same steps for the same stated intent always belong together, whatever the apps. */
  lemma SameStepsAndIntentClear(a: Clustering.Episode, b: Clustering.Episode)
    requires a.fingerprint.signatures == b.fingerprint.signatures
    requires a.fingerprint.intentKey == b.fingerprint.intentKey != ""
    ensures Clustering.Similar(a, b)
  {
    SequenceScoreRange(a.fingerprint.signatures, b.fingerprint.signatures);
    OverlapRange(a.fingerprint.apps, b.fingerprint.apps);
  }

  /** Member `i` is the first that member `k` is similar to, and their score is the one recorded. */
  predicate JoinedOn(cl: Clustering.Cluster, k: nat, i: nat) {
    && i < k < |cl.members| && Clustering.Similar(cl.members[k], cl.members[i])
    && (forall j | 0 <= j < i :: !Clustering.Similar(cl.members[k], cl.members[j]))
    && cl.members[k].id in cl.recorded
    && cl.recorded[cl.members[k].id] == Clustering.Score(cl.members[k], cl.members[i])
  }

  ghost predicate JoinedOnFirst(cl: Clustering.Cluster, k: nat) { exists i: nat :: JoinedOn(cl, k, i) }

  ghost predicate AllJoinedOnFirst(cl: Clustering.Cluster) {
    && (forall k | 0 < k < |cl.members| :: JoinedOnFirst(cl, k))
    && forall e | e in cl.members :: e.id in cl.recorded
  }

  lemma {:induction false} FirstScoreIsFirst(c: Clustering.Episode, members: seq<Clustering.Episode>, from: nat)
      returns (i: nat)
    requires Clustering.FirstScore(c, members, from).Some?
    ensures from <= i < |members| && Clustering.Similar(c, members[i])
    ensures forall j | from <= j < i :: !Clustering.Similar(c, members[j])
    ensures Clustering.FirstScore(c, members, from).value == Clustering.Score(c, members[i])
    decreases |members| - from
  {
    i := from;
    if !Clustering.Similar(c, members[from]) { i := FirstScoreIsFirst(c, members, from + 1); }
  }

  lemma OldStaysJoined(cl: Clustering.Cluster, c: Clustering.Episode, score: real, k: nat, i: nat)
    requires JoinedOn(cl, k, i) && c.id !in cl.recorded
    ensures JoinedOn(Clustering.Cluster(cl.members + [c], cl.recorded[c.id := score]), k, i)
  {
    var next := Clustering.Cluster(cl.members + [c], cl.recorded[c.id := score]);
    assert next.members[k] == cl.members[k] && forall j | 0 <= j <= i :: next.members[j] == cl.members[j];
  }

  lemma NewJoins(cl: Clustering.Cluster, c: Clustering.Episode, i: nat)
    requires i < |cl.members| && Clustering.Similar(c, cl.members[i])
    requires forall j | 0 <= j < i :: !Clustering.Similar(c, cl.members[j])
    ensures var score := Clustering.Score(c, cl.members[i]);
            JoinedOn(Clustering.Cluster(cl.members + [c], cl.recorded[c.id := score]), |cl.members|, i)
  {
    var members := cl.members + [c];
    assert members[|cl.members|] == c && forall j | 0 <= j <= i :: members[j] == cl.members[j];
  }

  lemma AdmissionJoinsOnFirst(cl: Clustering.Cluster, c: Clustering.Episode, score: real, next: Clustering.Cluster)
    requires AllJoinedOnFirst(cl) && c.id !in cl.recorded
    requires Clustering.FirstScore(c, cl.members, 0) == Some(score)
    requires next == Clustering.Cluster(cl.members + [c], cl.recorded[c.id := score])
    ensures AllJoinedOnFirst(next)
  {
    var n := |cl.members|;
    var first := FirstScoreIsFirst(c, cl.members, 0);
    NewJoins(cl, c, first);
    forall k | 0 < k < n + 1 ensures JoinedOnFirst(next, k) {
      if k < n {
        assert JoinedOnFirst(cl, k);
        var i: nat :| JoinedOn(cl, k, i);
        OldStaysJoined(cl, c, score, k, i);
      }
    }
  }

  lemma ConsiderJoinsOnFirst(cl: Clustering.Cluster, c: Clustering.Episode)
    requires AllJoinedOnFirst(cl)
    ensures AllJoinedOnFirst(Clustering.Consider(cl, c))
  {
    if c.id !in cl.recorded && Clustering.FirstScore(c, cl.members, 0).Some? {
      AdmissionJoinsOnFirst(cl, c, Clustering.FirstScore(c, cl.members, 0).value, Clustering.Consider(cl, c));
    }
  }

  lemma {:induction false} PassJoinsOnFirst(cl: Clustering.Cluster, pool: seq<Clustering.Episode>)
    requires AllJoinedOnFirst(cl)
    ensures AllJoinedOnFirst(Clustering.Pass(cl, pool))
    decreases |pool|
  {
    if pool != [] {
      ConsiderJoinsOnFirst(cl, pool[0]);
      PassJoinsOnFirst(Clustering.Consider(cl, pool[0]), pool[1..]);
    }
  }

  lemma {:induction false} FixpointJoinsOnFirst(cl: Clustering.Cluster, pool: seq<Clustering.Episode>)
    requires AllJoinedOnFirst(cl)
    ensures AllJoinedOnFirst(Clustering.Fixpoint(cl, pool))
    decreases Clustering.Ids(pool) - cl.recorded.Keys
  {
    PassJoinsOnFirst(cl, pool);
    Clustering.PassAdmits(cl, pool);
    if Clustering.Pass(cl, pool) != cl { FixpointJoinsOnFirst(Clustering.Pass(cl, pool), pool); }
  }

  /** The similarity recorded for a member is its score against the earliest member it is similar to. */
  lemma RecordedIsFirstScore(seed: Clustering.Episode, pool: seq<Clustering.Episode>)
    ensures AllJoinedOnFirst(Clustering.Fixpoint(Clustering.Start(seed), pool))
  {
    FixpointJoinsOnFirst(Clustering.Start(seed), pool);
  }

  // ------------------------------------------------------------------- the median

  lemma {:induction false} CountAtLeast(values: seq<real>, at: real -> bool, lo: nat, hi: nat)
    requires lo <= hi <= |values| && forall i | lo <= i < hi :: at(values[i])
    ensures Count(values, at) >= hi - lo
    decreases |values|
  {
    if lo < hi {
      var lo', hi' := if lo > 0 then lo - 1 else 0, hi - 1;
      forall i | lo' <= i < hi' ensures at(values[1..][i]) { assert at(values[i + 1]); }
      CountAtLeast(values[1..], at, lo', hi');
    }
  }

  lemma MidpointSplits(values: seq<real>, sorted: seq<real>, lo: real, hi: real)
    requires multiset(sorted) == multiset(values) && |sorted| == |values| > 0 && Ascending(sorted)
    requires lo == sorted[(|sorted| - 1) / 2] && hi == sorted[|sorted| / 2]
    ensures lo in values && hi in values && forall v | v in values :: v <= lo || hi <= v
  {
    assert lo in multiset(sorted) && hi in multiset(sorted);
    assert lo in multiset(values) && hi in multiset(values);
    forall v | v in values ensures v <= lo || hi <= v {
      assert v in multiset(values);
      assert v in multiset(sorted);
      var i :| 0 <= i < |sorted| && sorted[i] == v;
    }
  }

  /**
   * The median lies half-way between two of the values that no value separates,
   * with at least half of all values on either side: for an odd number the two are one.
   */
  lemma MedianIsMidpoint(values: seq<real>) returns (lo: real, hi: real)
    requires values != []
    ensures lo in values && hi in values && lo <= hi && Median(values) == (lo + hi) / 2.0
    ensures |values| % 2 == 1 ==> lo == hi
    ensures forall v | v in values :: v <= lo || hi <= v
    ensures 2 * Count(values, v => v <= lo) >= |values| && 2 * Count(values, v => v >= hi) >= |values|
  {
    var sorted, n := Ordered(values), |values|;
    OrderedKeepsLength(values);
    OrderedIsAscending(values);
    lo, hi := sorted[(n - 1) / 2], sorted[n / 2];
    MidpointSplits(values, sorted, lo, hi);
    OrderedKeepsCount(values, v => v <= lo);
    OrderedKeepsCount(values, v => v >= hi);
    CountAtLeast(sorted, v => v <= lo, 0, (n - 1) / 2 + 1);
    CountAtLeast(sorted, v => v >= hi, n / 2, n);
  }
}
