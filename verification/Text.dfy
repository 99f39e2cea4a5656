/** Repair of unpaired UTF-16 surrogates before text reaches the wire. */
module WellFormedText {

  type CodeUnit = u: nat | u < 0x1_0000

  const REPLACEMENT: CodeUnit := 0xFFFD

  predicate IsHigh(u: CodeUnit) { 0xD800 <= u <= 0xDBFF }

  predicate IsLow(u: CodeUnit) { 0xDC00 <= u <= 0xDFFF }

  predicate IsSurrogate(u: CodeUnit) { 0xD800 <= u <= 0xDFFF }

  /**
   * Well-formed UTF-16, as section 3.9 of the Unicode Standard defines it: a
   * concatenation of single non-surrogate units and high/low pairs.
   */
  predicate WellFormed(s: seq<CodeUnit>) {
    || s == []
    || (!IsSurrogate(s[0]) && WellFormed(s[1..]))
    || (IsHigh(s[0]) && |s| >= 2 && IsLow(s[1]) && WellFormed(s[2..]))
  }

  /** The surrogate at `i` has no partner on the side where it needs one. */
  predicate Unpaired(s: seq<CodeUnit>, i: nat)
    requires i < |s|
  {
    || (IsHigh(s[i]) && !(i + 1 < |s| && IsLow(s[i + 1])))
    || (IsLow(s[i]) && !(i > 0 && IsHigh(s[i - 1])))
  }

  /** What the repair must produce: unpaired surrogates replaced, all else kept. */
  function Repaired(s: seq<CodeUnit>): seq<CodeUnit> {
    seq(|s|, i requires 0 <= i < |s| => if Unpaired(s, i) then REPLACEMENT else s[i])
  }

  /** The grammar and the local reading of well-formedness agree. */
  lemma {:induction false} WellFormedIffNoneUnpaired(s: seq<CodeUnit>)
    ensures WellFormed(s) <==> forall i: nat | i < |s| :: !Unpaired(s, i)
  {
    if s == [] {
    } else {
      var skip := if IsHigh(s[0]) && |s| >= 2 && IsLow(s[1]) then 2 else 1;
      var rest := s[skip..];
      WellFormedIffNoneUnpaired(rest);
      assert forall i: nat | i < |rest| && (i > 0 || !IsLow(rest[i]) || skip == 2) ::
          Unpaired(rest, i) == Unpaired(s, i + skip);
      assert forall j: nat | skip <= j < |s| :: s[j] == rest[j - skip];
      if skip == 1 && IsSurrogate(s[0]) {
        assert Unpaired(s, 0);
      } else if !WellFormed(rest) {
        var i: nat :| i < |rest| && Unpaired(rest, i);
        assert Unpaired(s, i + skip);
      }
    }
  }

  /** The repair always yields well-formed text of the same length, which differs only in U+FFFD put in. */
  lemma RepairedIsWellFormed(s: seq<CodeUnit>)
    ensures WellFormed(Repaired(s)) && |Repaired(s)| == |s|
    ensures forall i: nat | i < |s| && Repaired(s)[i] != s[i] :: Repaired(s)[i] == 0xFFFD && IsSurrogate(s[i])
  {
    var r := Repaired(s);
    forall i: nat | i < |r| ensures !Unpaired(r, i) {
      assert !Unpaired(s, i) || r[i] == REPLACEMENT;
      if i + 1 < |r| && IsHigh(s[i]) && IsLow(s[i + 1]) { assert !Unpaired(s, i + 1); }
      if i > 0 && IsLow(s[i]) && IsHigh(s[i - 1]) { assert !Unpaired(s, i - 1); }
    }
    WellFormedIffNoneUnpaired(r);
  }

  /** Text is left alone exactly when it was well-formed already. */
  lemma RepairedIsIdentityIffWellFormed(s: seq<CodeUnit>)
    ensures Repaired(s) == s <==> WellFormed(s)
  {
    WellFormedIffNoneUnpaired(s);
    forall i: nat | i < |s| ensures Unpaired(s, i) <==> Repaired(s)[i] != s[i] {
      assert !IsSurrogate(REPLACEMENT);
    }
  }

  /** Repairing twice is repairing once. */
  lemma RepairedIsIdempotent(s: seq<CodeUnit>)
    ensures Repaired(Repaired(s)) == Repaired(s)
  {
    RepairedIsWellFormed(s);
    RepairedIsIdentityIffWellFormed(Repaired(s));
  }

  /** One scan for any surrogate, then one that copies pairs and replaces strays. */
  method ReplaceWellFormedTarget(s: seq<CodeUnit>) returns (out: seq<CodeUnit>)
    ensures out == Repaired(s)
    ensures WellFormed(out)
  {
    RepairedIsWellFormed(s);
    var hasSurrogate := false;
    var k := 0;
    while k < |s| && !hasSurrogate
      invariant k <= |s|
      invariant !hasSurrogate ==> forall j | 0 <= j < k :: !IsSurrogate(s[j])
    {
      hasSurrogate := IsSurrogate(s[k]);
      k := k + 1;
    }
    if !hasSurrogate {
      assert Repaired(s) == s;
      return s;
    }
    out := [];
    var i := 0;
    while i < |s|
      invariant i <= |s| && out == Repaired(s)[..i]
      invariant 0 < i < |s| && IsHigh(s[i - 1]) ==> !IsLow(s[i])
    {
      var code := s[i];
      if IsHigh(code) {
        var next := if i + 1 < |s| then s[i + 1] else 0;
        if IsLow(next) {
          out := out + s[i..i + 2];
          i := i + 1;
        } else {
          out := out + [REPLACEMENT];
        }
      } else if IsSurrogate(code) {
        out := out + [REPLACEMENT];
      } else {
        out := out + [s[i]];
      }
      i := i + 1;
    }
  }
}
