/** The two Python string operations the translator uses: the substring test
    `p in s` and `s.replace(p, r)`, with the facts the translator relies on. */
module PyStrings {

  /** Python's `p in s` on strings: `p` occurs in `s` as a contiguous substring. */
  function Contains(s: string, p: string): (r: bool)
    ensures r ==> |p| <= |s|
    ensures p == [] ==> r
    decreases |s|
  {
    |p| <= |s| && (s[..|p|] == p || Contains(s[1..], p))
  }

  /** Python's `s.replace(p, r)`: scanning from the left, every occurrence of `p`
      that does not overlap an earlier replaced one becomes `r`. An empty `p`
      matches before every character and at the end. */
  function Replace(s: string, p: string, r: string): (res: string)
    ensures p == r ==> res == s
    decreases |s|
  {
    if p == [] then
      if s == [] then r else
      assert p == r ==> r + [s[0]] + s[1..] == s;
      r + [s[0]] + Replace(s[1..], p, r)
    else if |s| < |p| then s
    else if s[..|p|] == p then r + Replace(s[|p|..], p, r)
    else [s[0]] + Replace(s[1..], p, r)
  }

  /** The number of occurrences of `p` that `Replace` replaces. */
  function Occurrences(s: string, p: string): nat
    decreases |s|
  {
    if p == [] then |s| + 1
    else if |s| < |p| then 0
    else if s[..|p|] == p then 1 + Occurrences(s[|p|..], p)
    else Occurrences(s[1..], p)
  }

  /** `p` occurs in `s` starting at position `i`. */
  predicate OccursAt(s: string, p: string, i: int)
  {
    0 <= i && i + |p| <= |s| && s[i..i + |p|] == p
  }

  /** `Contains` agrees with the declarative meaning of a substring test. */
  lemma {:induction false} ContainsIsSubstring(s: string, p: string)
    ensures Contains(s, p) <==> exists i :: OccursAt(s, p, i)
    decreases |s|
  {
    if |p| <= |s| && s[..|p|] != p {
      ContainsIsSubstring(s[1..], p);
      if exists i :: OccursAt(s, p, i) {
        var i :| OccursAt(s, p, i);
        assert i != 0;
        assert OccursAt(s[1..], p, i - 1) by {
          assert s[1..][i - 1..i - 1 + |p|] == s[i..i + |p|];
        }
      }
      if Contains(s[1..], p) {
        var i :| OccursAt(s[1..], p, i);
        assert OccursAt(s, p, i + 1) by {
          assert s[1..][i..i + |p|] == s[i + 1..i + 1 + |p|];
        }
      }
    } else if |p| <= |s| {
      assert OccursAt(s, p, 0);
    }
  }

  /** Every replaced occurrence changes the length by the difference between the
      replacement and the key. */
  lemma {:induction false} ReplaceLength(s: string, p: string, r: string)
    ensures |Replace(s, p, r)| == |s| + Occurrences(s, p) * (|r| - |p|)
    decreases |s|
  {
    if p == [] {
      if s != [] {
        ReplaceLength(s[1..], p, r);
        ReplaceLengthStep(|s|, |Replace(s[1..], p, r)|, Occurrences(s[1..], p), 1, |r| - |p|);
      }
    } else if |s| < |p| {
    } else if s[..|p|] == p {
      ReplaceLength(s[|p|..], p, r);
      ReplaceLengthStep(|s|, |Replace(s[|p|..], p, r)|, Occurrences(s[|p|..], p), |p|, |r| - |p|);
    } else {
      ReplaceLength(s[1..], p, r);
    }
  }

  /** The arithmetic of one replaced occurrence: `consumed` characters of the
      input become `consumed + d` characters of the output. */
  lemma ReplaceLengthStep(n: int, rest: int, o: int, consumed: int, d: int)
    requires rest == n - consumed + o * d
    ensures consumed + d + rest == n + (1 + o) * d
  {
    MulStep(o, d);
  }

  lemma MulStep(o: int, d: int)
    ensures (1 + o) * d == d + o * d
  {
  }

  /** A string that contains the key has at least one occurrence to replace. */
  lemma {:induction false} ContainsHasOccurrence(s: string, p: string)
    requires Contains(s, p)
    ensures Occurrences(s, p) >= 1
    decreases |s|
  {
    if p != [] && s[..|p|] != p {
      ContainsHasOccurrence(s[1..], p);
    }
  }

  /** A string without the key is returned unchanged. */
  lemma {:induction false} ReplaceWithoutKey(s: string, p: string, r: string)
    requires !Contains(s, p)
    ensures Replace(s, p, r) == s
    decreases |s|
  {
    if |s| >= |p| {
      ReplaceWithoutKey(s[1..], p, r);
      assert [s[0]] + s[1..] == s;
    }
  }

  lemma MulNonZero(a: int, b: int)
    requires a >= 1 && b != 0
    ensures a * b != 0
  {
  }

  /** Replacing a key that occurs by a string of another length changes the length. */
  lemma ReplaceChangesLength(s: string, p: string, r: string)
    requires Contains(s, p) && |p| != |r|
    ensures |Replace(s, p, r)| != |s|
  {
    ReplaceLength(s, p, r);
    ContainsHasOccurrence(s, p);
    MulNonZero(Occurrences(s, p), |r| - |p|);
  }

  /** Replacing a key that occurs by a different string always changes the string. */
  lemma {:induction false} ReplaceChanges(s: string, p: string, r: string)
    requires Contains(s, p) && p != r
    ensures Replace(s, p, r) != s
    decreases |s|
  {
    if |r| != |p| {
      ReplaceChangesLength(s, p, r);
    } else {
      assert p != [];
      var out := Replace(s, p, r);
      if s[..|p|] == p {
        assert out == r + Replace(s[|p|..], p, r);
        assert out[..|p|] == r;
      } else {
        assert out == [s[0]] + Replace(s[1..], p, r);
        ReplaceChanges(s[1..], p, r);
        assert out[1..] == Replace(s[1..], p, r);
      }
    }
  }
}
