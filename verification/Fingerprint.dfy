/** Workflow-mining similarity: edit distance, set overlap and their weighted sum. */
module Fingerprint {

  // ---------------------------------------------------------- edit distance

  function Min(a: nat, b: nat): nat { if a <= b then a else b }

  function Max(a: nat, b: nat): nat { if a >= b then a else b }

  function Cost<T(==)>(x: T, y: T): nat { if x == y then 0 else 1 }

  function Init<T>(s: seq<T>): seq<T>
    requires s != []
  {
    s[..|s| - 1]
  }

  function Last<T>(s: seq<T>): T
    requires s != []
  {
    s[|s| - 1]
  }

  /** Unit-cost edit distance, by the last item of each sequence. */
  function Distance<T(==)>(a: seq<T>, b: seq<T>): nat
    decreases |a| + |b|
  {
    if a == [] then |b|
    else if b == [] then |a|
    else Min(Min(Distance(Init(a), b) + 1, Distance(a, Init(b)) + 1),
             Distance(Init(a), Init(b)) + Cost(Last(a), Last(b)))
  }

  /** How a cell of the table depends on the cell above, the one to the left and the diagonal one. */
  predicate IsCell(cell: nat, up: nat, left: nat, diagonal: nat, cost: nat) {
    cell == Min(Min(up + 1, left + 1), diagonal + cost)
  }

  lemma CellRule<T>(a: seq<T>, b: seq<T>)
    requires a != [] && b != []
    ensures IsCell(Distance(a, b), Distance(Init(a), b), Distance(a, Init(b)), Distance(Init(a), Init(b)),
                   Cost(Last(a), Last(b)))
  {
  }

  lemma {:induction false} DistanceSymmetric<T>(a: seq<T>, b: seq<T>)
    ensures Distance(a, b) == Distance(b, a)
    decreases |a| + |b|
  {
    if a != [] && b != [] {
      DistanceSymmetric(Init(a), b);
      DistanceSymmetric(a, Init(b));
      DistanceSymmetric(Init(a), Init(b));
    }
  }

  lemma {:induction false} DistanceBounds<T>(a: seq<T>, b: seq<T>)
    ensures |a| <= |b| + Distance(a, b) && |b| <= |a| + Distance(a, b)
    ensures Distance(a, b) <= Max(|a|, |b|)
    decreases |a| + |b|
  {
    if a != [] && b != [] {
      DistanceBounds(Init(a), b);
      DistanceBounds(a, Init(b));
      DistanceBounds(Init(a), Init(b));
    }
  }

  lemma {:induction false} DistanceZeroIffEqual<T>(a: seq<T>, b: seq<T>)
    ensures Distance(a, b) == 0 <==> a == b
    decreases |a| + |b|
  {
    if a != [] && b != [] {
      DistanceZeroIffEqual(Init(a), Init(b));
      assert a == Init(a) + [Last(a)] && b == Init(b) + [Last(b)];
    }
  }

  lemma {:induction false} DistanceTriangle<T>(a: seq<T>, b: seq<T>, c: seq<T>)
    ensures Distance(a, c) <= Distance(a, b) + Distance(b, c)
    decreases |a| + |b| + |c|
  {
    DistanceBounds(a, b);
    DistanceBounds(b, c);
    DistanceBounds(a, c);
    if a != [] && b != [] && c != [] {
      DistanceTriangle(Init(a), b, c);
      DistanceTriangle(a, b, Init(c));
      DistanceTriangle(a, Init(b), c);
      DistanceTriangle(a, Init(b), Init(c));
      DistanceTriangle(Init(a), Init(b), c);
      DistanceTriangle(Init(a), Init(b), Init(c));
      CellRule(a, b);
      CellRule(b, c);
      CellRule(a, c);
    }
  }

  /**
   * A metric between the length difference and the longer length: zero exactly
   * for equal sequences, symmetric, and never longer than a detour.
   */
  lemma DistanceIsMetric<T>(a: seq<T>, b: seq<T>, c: seq<T>)
    ensures Distance(a, b) == 0 <==> a == b
    ensures Distance(a, b) == Distance(b, a)
    ensures Distance(a, c) <= Distance(a, b) + Distance(b, c)
    ensures |a| <= |b| + Distance(a, b) && |b| <= |a| + Distance(a, b) && Distance(a, b) <= Max(|a|, |b|)
  {
    DistanceZeroIffEqual(a, b);
    DistanceSymmetric(a, b);
    DistanceTriangle(a, b, c);
    DistanceBounds(a, b);
  }

  /** `row` holds the distances from `a` to every prefix of `b` up to length `n`. */
  predicate IsRow<T(==)>(row: seq<nat>, a: seq<T>, b: seq<T>, n: nat)
    requires n <= |b|
  {
    |row| == n + 1 && forall j | 0 <= j <= n :: row[j] == Distance(a, b[..j])
  }

  lemma RowCell<T>(row: seq<nat>, above: seq<nat>, a: seq<T>, b: seq<T>, n: nat)
    requires a != [] && 0 < n <= |b|
    requires IsRow(above, Init(a), b, |b|) && IsRow(row, a, b, n - 1)
    ensures IsCell(Distance(a, b[..n]), above[n], row[n - 1], above[n - 1], Cost(Last(a), b[n - 1]))
  {
    CellRule(a, b[..n]);
    assert Init(b[..n]) == b[..n - 1];
  }

  lemma RowGrows<T>(row: seq<nat>, cell: nat, a: seq<T>, b: seq<T>, n: nat)
    requires 0 < n <= |b| && IsRow(row, a, b, n - 1) && cell == Distance(a, b[..n])
    ensures IsRow(row + [cell], a, b, n)
  {
  }

  /** The two-row table. */
  method EditDistance<T(==)>(a: seq<T>, b: seq<T>) returns (d: nat)
    ensures d == Distance(a, b)
  {
    if |a| == 0 { return |b|; }
    if |b| == 0 { return |a|; }
    var prev: seq<nat> := seq(|b| + 1, j requires 0 <= j => j);
    for i := 1 to |a| + 1
      invariant IsRow(prev, a[..i - 1], b, |b|)
    {
      var curr: seq<nat> := [i];
      assert Init(a[..i]) == a[..i - 1];
      for j := 1 to |b| + 1
        invariant IsRow(curr, a[..i], b, j - 1)
      {
        RowCell(curr, prev, a[..i], b, j);
        var substitution := prev[j - 1] + if a[i - 1] == b[j - 1] then 0 else 1;
        var cell := Min(Min(prev[j] + 1, curr[j - 1] + 1), substitution);
        RowGrows(curr, cell, a[..i], b, j);
        curr := curr + [cell];
      }
      prev := curr;
    }
    assert a[..|a|] == a && b[..|b|] == b;
    d := prev[|b|];
  }

  // ------------------------------------------------------------- similarity

  const SEQ_WEIGHT := 0.60
  const APP_WEIGHT := 0.25
  const INTENT_WEIGHT := 0.15

  datatype Fingerprint = Fingerprint(signatures: seq<string>, apps: set<string>, intentKey: string)

  function SequenceScore(a: seq<string>, b: seq<string>): real {
    var longer := Max(|a|, |b|);
    if longer == 0 then 1.0 else 1.0 - Distance(a, b) as real / longer as real
  }

  function Overlap(a: set<string>, b: set<string>): real {
    if a + b == {} then 1.0 else |a * b| as real / |a + b| as real
  }

  function IntentBonus(a: string, b: string): real { if a != "" && a == b then 1.0 else 0.0 }

  function Similarity(a: Fingerprint, b: Fingerprint): real {
    SEQ_WEIGHT * SequenceScore(a.signatures, b.signatures) + APP_WEIGHT * Overlap(a.apps, b.apps)
      + INTENT_WEIGHT * IntentBonus(a.intentKey, b.intentKey)
  }

  lemma RatioBounds(part: nat, whole: nat)
    requires part <= whole && whole > 0
    ensures 0.0 <= part as real / whole as real <= 1.0
    ensures part as real / whole as real == 1.0 <==> part == whole
    ensures part as real / whole as real == 0.0 <==> part == 0
  {
    var ratio := part as real / whole as real;
    assert ratio * whole as real == part as real;
  }

  /** Between 0 and 1, 1 exactly for equal signature lists, and symmetric. */
  lemma SequenceScoreRange(a: seq<string>, b: seq<string>)
    ensures 0.0 <= SequenceScore(a, b) <= 1.0
    ensures SequenceScore(a, b) == 1.0 <==> a == b
    ensures SequenceScore(a, b) == SequenceScore(b, a)
  {
    DistanceIsMetric(a, b, a);
    if Max(|a|, |b|) > 0 { RatioBounds(Distance(a, b), Max(|a|, |b|)); }
  }

  lemma SubsetCardinality<T>(a: set<T>, b: set<T>)
    requires a <= b
    ensures |a| <= |b| && (|a| == |b| <==> a == b)
  {
    assert b == a + (b - a) && a !! (b - a);
    assert |b| == |a| + |b - a|;
  }

  /** Between 0 and 1, 1 exactly for equal sets, and symmetric. */
  lemma OverlapRange(a: set<string>, b: set<string>)
    ensures 0.0 <= Overlap(a, b) <= 1.0
    ensures Overlap(a, b) == 1.0 <==> a == b
    ensures Overlap(a, b) == Overlap(b, a)
  {
    assert a * b == b * a && a + b == b + a;
    if a + b != {} {
      var x :| x in a + b;
      assert |a + b| > 0;
      SubsetCardinality(a * b, a + b);
      RatioBounds(|a * b|, |a + b|);
      assert a * b == a + b <==> a == b by {
        if a * b == a + b {
          assert forall y :: y in a ==> y in a + b;
          assert forall y :: y in b ==> y in a + b;
        }
      }
    }
  }

  /**
   * Symmetric, in [0,1], and 1 exactly for episodes with the same signatures,
   * the same apps and the same non-empty intent.
   */
  lemma SimilarityRange(a: Fingerprint, b: Fingerprint)
    ensures 0.0 <= Similarity(a, b) <= 1.0
    ensures Similarity(a, b) == Similarity(b, a)
    ensures Similarity(a, b) == 1.0
       <==> a.signatures == b.signatures && a.apps == b.apps && a.intentKey == b.intentKey != ""
  {
    SequenceScoreRange(a.signatures, b.signatures);
    OverlapRange(a.apps, b.apps);
  }

  /** An episode scores itself 1 with an intent and 0.85 without. */
  lemma SelfSimilarity(a: Fingerprint)
    ensures Similarity(a, a) == if a.intentKey != "" then 1.0 else 0.85
  {
    SequenceScoreRange(a.signatures, a.signatures);
    OverlapRange(a.apps, a.apps);
  }

  lemma CommonGrows<T>(a: set<T>, item: T, b: set<T>)
    requires item !in a
    ensures |(a + {item}) * b| == |a * b| + if item in b then 1 else 0
  {
    assert (a + {item}) * b == if item in b then a * b + {item} else a * b;
  }

  lemma UnionCardinality<T>(a: set<T>, b: set<T>)
    ensures |a + b| == |a| + |b| - |a * b|
    ensures a + b == {} <==> |a| == 0 && |b| == 0
  {
    assert a + b == a + (b - a) && b == (b - a) + a * b;
    assert |b| == |b - a| + |a * b|;
    assert |a + b| == |a| + |b - a|;
    if a + b != {} { assert |a + b| > 0; }
  }

  /** Overlap counted the way the miner does: one pass, then inclusion-exclusion. */
  method Jaccard(a: set<string>, b: set<string>) returns (score: real)
    ensures score == Overlap(a, b)
  {
    if |a| == 0 && |b| == 0 { return 1.0; }
    var intersection := 0;
    var seen, todo := {}, a;
    while todo != {}
      invariant seen + todo == a && seen !! todo
      invariant intersection == |seen * b|
      decreases |todo|
    {
      var item :| item in todo;
      CommonGrows(seen, item, b);
      if item in b { intersection := intersection + 1; }
      seen, todo := seen + {item}, todo - {item};
    }
    UnionCardinality(a, b);
    score := intersection as real / (|a| + |b| - intersection) as real;
  }

  method EpisodeSimilarity(a: Fingerprint, b: Fingerprint) returns (score: real)
    ensures score == Similarity(a, b)
  {
    var longer := Max(|a.signatures|, |b.signatures|);
    var sequence := 1.0;
    if longer != 0 {
      var distance := EditDistance(a.signatures, b.signatures);
      sequence := 1.0 - distance as real / longer as real;
    }
    var overlap := Jaccard(a.apps, b.apps);
    score := SEQ_WEIGHT * sequence + APP_WEIGHT * overlap
           + INTENT_WEIGHT * if a.intentKey != "" && a.intentKey == b.intentKey then 1.0 else 0.0;
  }

  // ----------------------------------------------------------------- median

  function Insert(x: real, sorted: seq<real>): seq<real> {
    if sorted == [] || x <= sorted[0] then [x] + sorted else [sorted[0]] + Insert(x, sorted[1..])
  }

  /** The library sort, by value. */
  function Ordered(values: seq<real>): seq<real> {
    if values == [] then [] else Insert(values[0], Ordered(values[1..]))
  }

  lemma {:induction false} InsertKeeps(x: real, sorted: seq<real>)
    ensures multiset(Insert(x, sorted)) == multiset(sorted)[x := multiset(sorted)[x] + 1]
    ensures |Insert(x, sorted)| == |sorted| + 1
  {
    if sorted == [] || x <= sorted[0] {
    } else {
      InsertKeeps(x, sorted[1..]);
      assert sorted == [sorted[0]] + sorted[1..];
    }
  }

  lemma {:induction false} OrderedKeepsLength(values: seq<real>)
    ensures |Ordered(values)| == |values| && multiset(Ordered(values)) == multiset(values)
  {
    if values != [] {
      OrderedKeepsLength(values[1..]);
      InsertKeeps(values[0], Ordered(values[1..]));
      assert values == [values[0]] + values[1..];
    }
  }

  /** The middle value, or the mean of the middle two. */
  function Median(values: seq<real>): real {
    var sorted := Ordered(values);
    OrderedKeepsLength(values);
    if values == [] then 0.0
    else if |sorted| % 2 == 1 then sorted[|sorted| / 2]
    else (sorted[|sorted| / 2 - 1] + sorted[|sorted| / 2]) / 2.0
  }

  ghost predicate Ascending(values: seq<real>) { forall i, j | 0 <= i <= j < |values| :: values[i] <= values[j] }

  lemma {:induction false} InsertIsAscending(x: real, sorted: seq<real>)
    requires Ascending(sorted)
    ensures Ascending(Insert(x, sorted))
    ensures Insert(x, sorted)[0] == if sorted == [] || x <= sorted[0] then x else sorted[0]
  {
    if sorted != [] && x > sorted[0] { InsertIsAscending(x, sorted[1..]); }
  }

  lemma {:induction false} OrderedIsAscending(values: seq<real>)
    ensures Ascending(Ordered(values))
  {
    if values != [] {
      OrderedIsAscending(values[1..]);
      InsertIsAscending(values[0], Ordered(values[1..]));
    }
  }

  lemma LeastIsFirst(a: seq<real>, x: real)
    requires Ascending(a) && x in multiset(a)
    ensures a != [] && a[0] <= x
  {
    var i :| 0 <= i < |a| && a[i] == x;
  }

  lemma WithoutFirst(a: seq<real>)
    requires a != []
    ensures multiset(a[1..]) == multiset(a) - multiset{a[0]}
  {
    assert a == [a[0]] + a[1..];
  }

  lemma SameFirst(a: seq<real>, b: seq<real>)
    requires Ascending(a) && Ascending(b) && multiset(a) == multiset(b) && a != []
    ensures b != [] && a[0] == b[0] && multiset(a[1..]) == multiset(b[1..])
  {
    assert a[0] in multiset(b);
    LeastIsFirst(b, a[0]);
    assert b[0] in multiset(a);
    LeastIsFirst(a, b[0]);
    WithoutFirst(a);
    WithoutFirst(b);
  }

  lemma RestIsAscending(a: seq<real>)
    requires Ascending(a) && a != []
    ensures Ascending(a[1..])
  {
  }

  lemma SameFirstSameRest(a: seq<real>, b: seq<real>)
    requires a != [] && b != [] && a[0] == b[0] && a[1..] == b[1..]
    ensures a == b
  {
    assert a == [a[0]] + a[1..] && b == [b[0]] + b[1..];
  }

  lemma {:induction false} AscendingIsUnique(a: seq<real>, b: seq<real>)
    requires Ascending(a) && Ascending(b) && multiset(a) == multiset(b)
    ensures a == b
  {
    if a == [] {
      assert |b| == |multiset(b)| == 0;
    } else {
      SameFirst(a, b);
      RestIsAscending(a);
      RestIsAscending(b);
      AscendingIsUnique(a[1..], b[1..]);
      SameFirstSameRest(a, b);
    }
  }

  /** Equal values in any order have one median. */
  lemma MedianIgnoresOrder(a: seq<real>, b: seq<real>)
    requires multiset(a) == multiset(b)
    ensures Median(a) == Median(b)
  {
    OrderedKeepsLength(a);
    OrderedKeepsLength(b);
    OrderedIsAscending(a);
    OrderedIsAscending(b);
    AscendingIsUnique(Ordered(a), Ordered(b));
    assert |a| == |multiset(a)| && |b| == |multiset(b)|;
  }

  function Count(values: seq<real>, at: real -> bool): nat {
    if values == [] then 0 else (if at(values[0]) then 1 else 0) + Count(values[1..], at)
  }

  lemma {:induction false} InsertKeepsCount(x: real, sorted: seq<real>, at: real -> bool)
    ensures Count(Insert(x, sorted), at) == Count(sorted, at) + if at(x) then 1 else 0
  {
    if sorted == [] || x <= sorted[0] {
      assert ([x] + sorted)[1..] == sorted;
    } else {
      InsertKeepsCount(x, sorted[1..], at);
      assert ([sorted[0]] + Insert(x, sorted[1..]))[1..] == Insert(x, sorted[1..]);
    }
  }

  lemma {:induction false} OrderedKeepsCount(values: seq<real>, at: real -> bool)
    ensures Count(Ordered(values), at) == Count(values, at)
  {
    if values != [] {
      OrderedKeepsCount(values[1..], at);
      InsertKeepsCount(values[0], Ordered(values[1..]), at);
    }
  }

  lemma {:induction false} CountWithin(values: seq<real>, at: real -> bool, lo: nat, hi: nat)
    requires lo <= hi <= |values| && forall i | 0 <= i < |values| && at(values[i]) :: lo <= i < hi
    ensures Count(values, at) <= hi - lo
    decreases |values|
  {
    if values != [] {
      forall i | 0 <= i < |values[1..]| && at(values[1..][i])
        ensures (if lo > 0 then lo - 1 else 0) <= i < (if hi > 0 then hi - 1 else 0)
      {
        assert at(values[i + 1]);
      }
      CountWithin(values[1..], at, if lo > 0 then lo - 1 else 0, if hi > 0 then hi - 1 else 0);
    }
  }

  /** At most half of the values lie below the median, and at most half above it. */
  lemma MedianIsInTheMiddle(values: seq<real>)
    ensures 2 * Count(values, v => v < Median(values)) <= |values|
    ensures 2 * Count(values, v => v > Median(values)) <= |values|
  {
    var sorted, m := Ordered(values), Median(values);
    OrderedKeepsLength(values);
    OrderedIsAscending(values);
    OrderedKeepsCount(values, v => v < m);
    OrderedKeepsCount(values, v => v > m);
    CountWithin(sorted, v => v < m, 0, |sorted| / 2);
    CountWithin(sorted, v => v > m, (|sorted| + 1) / 2, |sorted|);
  }

  /** No lower than a bound all the values meet. */
  lemma MedianMeetsBound(values: seq<real>, bound: real)
    requires values != [] && forall v | v in values :: v >= bound
    ensures Median(values) >= bound
  {
    var sorted := Ordered(values);
    OrderedKeepsLength(values);
    forall v | v in sorted ensures v >= bound {
      assert v in multiset(sorted);
      assert v in multiset(values);
      assert v in values;
    }
    assert sorted[|sorted| / 2] in sorted;
    if |sorted| % 2 == 0 { assert sorted[|sorted| / 2 - 1] in sorted; }
  }
}
