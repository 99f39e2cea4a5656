/** The edit distance is what its name says: the least number of single edits from one list to the other. */
module EditScripts {
  import opened Fingerprint

  datatype Edit<T> = Replace(at: nat, item: T) | Remove(at: nat) | Put(at: nat, item: T)

  predicate Fits<T>(s: seq<T>, e: Edit<T>) { if e.Put? then e.at <= |s| else e.at < |s| }

  function Edited<T>(s: seq<T>, e: Edit<T>): seq<T>
    requires Fits(s, e)
  {
    match e
    case Replace(at, item) => s[..at] + [item] + s[at + 1..]
    case Remove(at) => s[..at] + s[at + 1..]
    case Put(at, item) => s[..at] + [item] + s[at..]
  }

  /** The edits, one after the other, make `b` of `a`. */
  ghost predicate Turns<T>(edits: seq<Edit<T>>, a: seq<T>, b: seq<T>)
    decreases |edits|
  {
    if edits == [] then a == b else Fits(a, edits[0]) && Turns(edits[1..], Edited(a, edits[0]), b)
  }

  // ----------------------------------------------- no script is shorter than it

  lemma SameLast<T>(a: seq<T>, b: seq<T>, last: T)
    ensures Distance(a + [last], b + [last]) <= Distance(a, b)
  {
    CellRule(a + [last], b + [last]);
    assert Init(a + [last]) == a && Init(b + [last]) == b;
  }

  lemma JoinsAtLast<T>(a: seq<T>, tail: seq<T>)
    requires tail != []
    ensures a + tail == a + Init(tail) + [Last(tail)]
  {
  }

  lemma {:induction false} SameTail<T>(a: seq<T>, b: seq<T>, tail: seq<T>)
    ensures Distance(a + tail, b + tail) <= Distance(a, b)
    decreases |tail|
  {
    if tail == [] {
      assert a + tail == a && b + tail == b;
    } else {
      JoinsAtLast(a, tail);
      JoinsAtLast(b, tail);
      SameTail(a, b, Init(tail));
      SameLast(a + Init(tail), b + Init(tail), Last(tail));
    }
  }

  lemma OneMoreItem<T>(a: seq<T>, x: T)
    ensures Distance(a, a + [x]) <= 1 && Distance(a + [x], a) <= 1
  {
    DistanceZeroIffEqual(a, a);
    DistanceSymmetric(a, a + [x]);
    assert Init(a + [x]) == a;
    if a != [] { CellRule(a, a + [x]); }
  }

  lemma OtherItem<T>(a: seq<T>, x: T, y: T)
    ensures Distance(a + [x], a + [y]) <= 1
  {
    DistanceZeroIffEqual(a, a);
    CellRule(a + [x], a + [y]);
    assert Init(a + [x]) == a && Init(a + [y]) == a;
  }

  lemma SplitAt<T>(s: seq<T>, at: nat)
    requires at < |s|
    ensures s == s[..at] + [s[at]] + s[at + 1..]
  {
  }

  lemma ReplaceCostsOne<T>(s: seq<T>, at: nat, item: T)
    requires at < |s|
    ensures Distance(s, s[..at] + [item] + s[at + 1..]) <= 1
  {
    OtherItem(s[..at], s[at], item);
    SameTail(s[..at] + [s[at]], s[..at] + [item], s[at + 1..]);
    SplitAt(s, at);
  }

  lemma RemoveCostsOne<T>(s: seq<T>, at: nat)
    requires at < |s|
    ensures Distance(s, s[..at] + s[at + 1..]) <= 1
  {
    OneMoreItem(s[..at], s[at]);
    SameTail(s[..at] + [s[at]], s[..at], s[at + 1..]);
    SplitAt(s, at);
  }

  lemma PutCostsOne<T>(s: seq<T>, at: nat, item: T)
    requires at <= |s|
    ensures Distance(s, s[..at] + [item] + s[at..]) <= 1
  {
    OneMoreItem(s[..at], item);
    SameTail(s[..at], s[..at] + [item], s[at..]);
    assert s == s[..at] + s[at..];
  }

  lemma EditCostsOne<T>(s: seq<T>, e: Edit<T>)
    requires Fits(s, e)
    ensures Distance(s, Edited(s, e)) <= 1
  {
    match e
    case Replace(at, item) => ReplaceCostsOne(s, at, item);
    case Remove(at) => RemoveCostsOne(s, at);
    case Put(at, item) => PutCostsOne(s, at, item);
  }

  lemma {:induction false} ScriptIsNoShorter<T>(edits: seq<Edit<T>>, a: seq<T>, b: seq<T>)
    requires Turns(edits, a, b)
    ensures Distance(a, b) <= |edits|
    decreases |edits|
  {
    if edits == [] {
      DistanceZeroIffEqual(a, b);
    } else {
      var next := Edited(a, edits[0]);
      EditCostsOne(a, edits[0]);
      ScriptIsNoShorter(edits[1..], next, b);
      DistanceTriangle(a, next, b);
    }
  }

  // ---------------------------------------------------- some script is that short

  lemma EditedLonger<T>(s: seq<T>, e: Edit<T>, last: T)
    requires Fits(s, e)
    ensures Edited(s + [last], e) == Edited(s, e) + [last]
  {
  }

  /** Positions count from the front, so the edits do with one more item at the end. */
  lemma {:induction false} TurnsLonger<T>(edits: seq<Edit<T>>, a: seq<T>, b: seq<T>, last: T)
    requires Turns(edits, a, b)
    ensures Turns(edits, a + [last], b + [last])
    decreases |edits|
  {
    if edits != [] {
      var e := edits[0];
      TurnsLonger(edits[1..], Edited(a, e), b, last);
      EditedLonger(a, e, last);
    }
  }

  lemma {:induction false} ThenEdit<T>(edits: seq<Edit<T>>, a: seq<T>, b: seq<T>, e: Edit<T>)
    requires Turns(edits, a, b) && Fits(b, e)
    ensures Turns(edits + [e], a, Edited(b, e))
    decreases |edits|
  {
    if edits == [] {
      assert [e][1..] == [];
    } else {
      ThenEdit(edits[1..], Edited(a, edits[0]), b, e);
      assert (edits + [e])[1..] == edits[1..] + [e];
    }
  }

  lemma RemoveLast<T>(rest: seq<Edit<T>>, a: seq<T>, x: T, b: seq<T>)
    requires Turns(rest, a, b)
    ensures Turns([Remove(|a|)] + rest, a + [x], b)
  {
    var edits := [Remove(|a|)] + rest;
    assert Edited(a + [x], edits[0]) == a && edits[1..] == rest;
  }

  lemma PutLast<T>(edits: seq<Edit<T>>, a: seq<T>, b: seq<T>, x: T)
    requires Turns(edits, a, b)
    ensures Turns(edits + [Put(|b|, x)], a, b + [x])
  {
    ThenEdit(edits, a, b, Put(|b|, x));
    assert Edited(b, Put(|b|, x)) == b + [x];
  }

  lemma ReplaceLast<T>(edits: seq<Edit<T>>, a: seq<T>, b: seq<T>, x: T, y: T)
    requires Turns(edits, a, b + [x])
    ensures Turns(edits + [Replace(|b|, y)], a, b + [y])
  {
    ThenEdit(edits, a, b + [x], Replace(|b|, y));
    assert Edited(b + [x], Replace(|b|, y)) == b + [y];
  }

  lemma InitAndLast<T>(s: seq<T>)
    requires s != []
    ensures s == Init(s) + [Last(s)] && |Init(s)| == |s| - 1
  {
  }

  lemma MatchLast<T>(a: seq<T>, b: seq<T>, matching: seq<Edit<T>>) returns (edits: seq<Edit<T>>)
    requires a != [] && b != [] && Turns(matching, Init(a), Init(b))
    ensures Turns(edits, a, b) && |edits| == |matching| + Cost(Last(a), Last(b))
  {
    InitAndLast(a);
    InitAndLast(b);
    TurnsLonger(matching, Init(a), Init(b), Last(a));
    edits := matching;
    if Last(a) != Last(b) {
      ReplaceLast(matching, a, Init(b), Last(a), Last(b));
      edits := matching + [Replace(|Init(b)|, Last(b))];
    }
  }

  /** Remove the last item, put the other's last item there, or match the two, whichever is the shortest. */
  lemma BestOfThree<T>(a: seq<T>, b: seq<T>, removing: seq<Edit<T>>, putting: seq<Edit<T>>, matching: seq<Edit<T>>)
      returns (edits: seq<Edit<T>>)
    requires a != [] && b != []
    requires Turns(removing, Init(a), b) && |removing| == Distance(Init(a), b)
    requires Turns(putting, a, Init(b)) && |putting| == Distance(a, Init(b))
    requires Turns(matching, Init(a), Init(b)) && |matching| == Distance(Init(a), Init(b))
    ensures Turns(edits, a, b) && |edits| == Distance(a, b)
  {
    var d := Distance(a, b);
    CellRule(a, b);
    InitAndLast(a);
    InitAndLast(b);
    if d == |removing| + 1 {
      RemoveLast(removing, Init(a), Last(a), b);
      edits := [Remove(|Init(a)|)] + removing;
    } else if d == |putting| + 1 {
      PutLast(putting, a, Init(b), Last(b));
      edits := putting + [Put(|Init(b)|, Last(b))];
    } else {
      edits := MatchLast(a, b, matching);
    }
  }

  lemma {:induction false} ShortestScript<T>(a: seq<T>, b: seq<T>) returns (edits: seq<Edit<T>>)
    ensures Turns(edits, a, b) && |edits| == Distance(a, b)
    decreases |a| + |b|
  {
    if a == [] && b == [] {
      edits := [];
    } else if a == [] {
      edits := ShortestScript(a, Init(b));
      InitAndLast(b);
      PutLast(edits, a, Init(b), Last(b));
      edits := edits + [Put(|Init(b)|, Last(b))];
    } else if b == [] {
      edits := ShortestScript(Init(a), b);
      InitAndLast(a);
      RemoveLast(edits, Init(a), Last(a), b);
      edits := [Remove(|Init(a)|)] + edits;
    } else {
      var removing := ShortestScript(Init(a), b);
      var putting := ShortestScript(a, Init(b));
      var matching := ShortestScript(Init(a), Init(b));
      edits := BestOfThree(a, b, removing, putting, matching);
    }
  }

  /** The distance is the length of a shortest script of replacements, removals and insertions. */
  lemma DistanceIsLeastEdits<T(!new)>(a: seq<T>, b: seq<T>)
    ensures forall edits | Turns(edits, a, b) :: Distance(a, b) <= |edits|
    ensures exists edits :: Turns(edits, a, b) && |edits| == Distance(a, b)
  {
    forall edits | Turns(edits, a, b) ensures Distance(a, b) <= |edits| {
      ScriptIsNoShorter(edits, a, b);
    }
    var edits := ShortestScript(a, b);
  }
}
