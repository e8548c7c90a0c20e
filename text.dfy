/**
 * The string operations the two handlers rely on: Python's `str.lower()`,
 * `str.upper()`, `str.strip()` and the substring test `p in s`, restricted to
 * ASCII case mapping and ASCII whitespace.
 */
module Text {

  function LowerChar(c: char): char
  {
    if 'A' <= c <= 'Z' then (c as int + 32) as char else c
  }

  function UpperChar(c: char): char
  {
    if 'a' <= c <= 'z' then (c as int - 32) as char else c
  }

  /** The characters Python's `str.isspace()` accepts in the ASCII range. */
  predicate IsSpace(c: char)
  {
    c == ' ' || 9 <= c as int <= 13 || 28 <= c as int <= 31
  }

  /** `s.lower()`: every character mapped on its own, length unchanged. */
  function Lower(s: string): string
  {
    seq(|s|, i requires 0 <= i < |s| => LowerChar(s[i]))
  }

  /** `s.upper()`: every character mapped on its own, length unchanged. */
  function Upper(s: string): string
  {
    seq(|s|, i requires 0 <= i < |s| => UpperChar(s[i]))
  }

  predicate StartsWith(s: string, p: string)
  {
    |p| <= |s| && s[..|p|] == p
  }

  predicate EndsWith(s: string, p: string)
  {
    |p| <= |s| && s[|s| - |p|..] == p
  }

  /** `p in s`: some suffix of `s` starts with `p` (the empty pattern is found everywhere). */
  predicate Contains(s: string, p: string)
    decreases |s|
  {
    StartsWith(s, p) || (|s| > 0 && Contains(s[1..], p))
  }

  /** The three parts of a concatenation are its slices. */
  lemma ConcatParts(a: string, b: string, c: string)
    ensures (a + b + c)[..|a|] == a
    ensures (a + b + c)[|a|..|a| + |b|] == b
    ensures (a + b + c)[|a| + |b|..] == c
  {
  }

  /** `p` occurs in `s` starting at position `i`. */
  predicate OccursAt(s: string, p: string, i: int)
  {
    0 <= i && i + |p| <= |s| && s[i..i + |p|] == p
  }

  lemma {:induction false} OccurrenceIsFound(s: string, p: string, i: int)
    requires OccursAt(s, p, i)
    ensures Contains(s, p)
    decreases i
  {
    if i == 0 {
      assert s[..|p|] == s[0..0 + |p|];
    } else {
      var t := s[1..];
      assert forall k {:trigger s[i + k]} :: 0 <= k < |p| ==> t[i - 1 + k] == s[i + k];
      assert t[i - 1..i - 1 + |p|] == s[i..i + |p|];
      OccurrenceIsFound(t, p, i - 1);
    }
  }

  lemma {:induction false} FoundHasOccurrence(s: string, p: string) returns (i: int)
    requires Contains(s, p)
    ensures OccursAt(s, p, i)
    decreases |s|
  {
    if StartsWith(s, p) {
      i := 0;
    } else {
      var j := FoundHasOccurrence(s[1..], p);
      assert s[j + 1..j + 1 + |p|] == s[1..][j..j + |p|];
      i := j + 1;
    }
  }

  /** The recursive search agrees with the textbook definition of an occurrence. */
  lemma ContainsIffOccurs(s: string, p: string)
    ensures Contains(s, p) <==> exists i :: OccursAt(s, p, i)
  {
    forall i | OccursAt(s, p, i)
      ensures Contains(s, p)
    {
      OccurrenceIsFound(s, p, i);
    }
    if Contains(s, p) {
      var i := FoundHasOccurrence(s, p);
    }
  }

  /** Lower-casing twice is lower-casing once. */
  lemma LowerIdempotent(s: string)
    ensures Lower(Lower(s)) == Lower(s)
  {
  }

  /** Lower-casing forgets the case a string was written in. */
  lemma LowerOfUpper(s: string)
    ensures Lower(Upper(s)) == Lower(s)
  {
  }

  function TrimStart(s: string): (r: string)
    ensures |r| <= |s| && r == s[|s| - |r|..]
    ensures r == [] || !IsSpace(r[0])
    ensures forall i :: 0 <= i < |s| - |r| ==> IsSpace(s[i])
  {
    if |s| > 0 && IsSpace(s[0]) then TrimStart(s[1..]) else s
  }

  function TrimEnd(s: string): (r: string)
    ensures |r| <= |s| && r == s[..|r|]
    ensures r == [] || !IsSpace(r[|r| - 1])
    ensures forall i :: |r| <= i < |s| ==> IsSpace(s[i])
  {
    if |s| > 0 && IsSpace(s[|s| - 1]) then TrimEnd(s[..|s| - 1]) else s
  }

  predicate AllSpace(s: string)
  {
    forall k :: 0 <= k < |s| ==> IsSpace(s[k])
  }

  /** `r` is the slice of `s` at offset `i`, with only whitespace before and after it. */
  predicate SpacedSlice(s: string, i: int, r: string)
  {
    0 <= i && i + |r| <= |s| && s[i..i + |r|] == r && AllSpace(s[..i]) && AllSpace(s[i + |r|..])
  }

  /**
   * `s.strip()`: what is left once the leading and trailing whitespace is
   * removed; it neither starts nor ends with whitespace.
   */
  function Strip(s: string): (r: string)
    ensures r == [] || (!IsSpace(r[0]) && !IsSpace(r[|r| - 1]))
    ensures exists i :: SpacedSlice(s, i, r)
  {
    var t := TrimStart(s);
    var r := TrimEnd(t);
    TrimsAreSpacedSlice(s, t, r);
    r
  }

  /** The trimmed middle of `s` sits at offset `|s| - |t|`, with only whitespace around it. */
  lemma TrimsAreSpacedSlice(s: string, t: string, r: string)
    requires |t| <= |s| && t == s[|s| - |t|..] && forall k :: 0 <= k < |s| - |t| ==> IsSpace(s[k])
    requires |r| <= |t| && r == t[..|r|] && forall k :: |r| <= k < |t| ==> IsSpace(t[k])
    ensures SpacedSlice(s, |s| - |t|, r)
  {
    var i := |s| - |t|;
    var before, after := s[..i], s[i + |r|..];
    assert AllSpace(before) by {
      forall k | 0 <= k < |before|
        ensures IsSpace(before[k])
      {
        assert before[k] == s[k];
      }
    }
    assert AllSpace(after) by {
      forall k | 0 <= k < |after|
        ensures IsSpace(after[k])
      {
        assert after[k] == t[|r| + k];
      }
    }
    assert t == s[i..] && r == t[..|r|];
    assert s[i..i + |r|] == r by {
      forall k | 0 <= k < |r|
        ensures s[i..i + |r|][k] == r[k]
      {
        assert r[k] == t[k] == s[i + k];
      }
    }
  }

  /** `strip()` trims the front and then the back. */
  lemma StripIsTrimmed(s: string)
    ensures Strip(s) == TrimEnd(TrimStart(s))
  {
  }

  /** Stripping leaves nothing exactly when the string is all whitespace. */
  lemma StripEmptyIffAllSpace(s: string)
    ensures Strip(s) == [] <==> AllSpace(s)
  {
    var r := Strip(s);
    var i :| SpacedSlice(s, i, r);
    if r == [] {
      forall k | 0 <= k < |s|
        ensures IsSpace(s[k])
      {
        if k < i {
          assert s[..i][k] == s[k];
        } else {
          assert s[i..][k - i] == s[k];
        }
      }
    } else {
      assert s[i] == r[0];
    }
  }

  /** A string that neither starts nor ends with whitespace is its own strip. */
  lemma StripOfTrimmed(s: string)
    requires s == [] || (!IsSpace(s[0]) && !IsSpace(s[|s| - 1]))
    ensures Strip(s) == s
  {
  }

  /** Every character of a pattern found in `s` is a character of `s`. */
  lemma FoundCharsOccur(s: string, p: string)
    ensures Contains(s, p) ==> forall c :: c in p ==> c in s
  {
    if Contains(s, p) {
      var i := FoundHasOccurrence(s, p);
      forall c | c in p
        ensures c in s
      {
        var k :| 0 <= k < |p| && p[k] == c;
        assert s[i + k] == c;
      }
    }
  }

  /** Upper-casing keeps whitespace where it was and does not create any. */
  lemma UpperKeepsSpace(s: string)
    ensures forall i :: 0 <= i < |s| ==> (IsSpace(Upper(s)[i]) <==> IsSpace(s[i]))
  {
  }

  lemma UpperIdempotent(s: string)
    ensures Upper(Upper(s)) == Upper(s)
  {
  }
}
