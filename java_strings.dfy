/** The java.lang.String operations the node-name helpers use. */
module JavaStrings {

  /** String.indexOf(c) on a string that contains c. */
  function IndexOf(s: string, c: char): (i: nat)
    requires c in s
    ensures i < |s| && s[i] == c && c !in s[..i]
  {
    if s[0] == c then 0
    else
      var i := 1 + IndexOf(s[1..], c);
      assert s[..i] == [s[0]] + s[1..][..i - 1];
      i
  }

  predicate OccursAt(s: string, sub: string, i: int)
  {
    0 <= i <= |s| - |sub| && s[i..i + |sub|] == sub
  }

  /** String.contains(sub). */
  predicate Contains(s: string, sub: string)
  {
    exists i | 0 <= i <= |s| :: OccursAt(s, sub, i)
  }

  /**
   * String.replace(target, replacement) for a non-empty target: every occurrence, scanning
   * left to right without overlap, is replaced.
   */
  function ReplaceAll(s: string, target: string, replacement: string): string
    requires |target| > 0
    decreases |s|
  {
    if |s| < |target| then s
    else if s[..|target|] == target then replacement + ReplaceAll(s[|target|..], target, replacement)
    else [s[0]] + ReplaceAll(s[1..], target, replacement)
  }

  /** Replacing a substring by itself leaves the string unchanged. */
  lemma {:induction false} ReplaceAllBySelf(s: string, t: string)
    requires |t| > 0
    ensures ReplaceAll(s, t, t) == s
    decreases |s|
  {
    if |s| < |t| {
    } else if s[..|t|] == t {
      ReplaceAllBySelf(s[|t|..], t);
      assert s == s[..|t|] + s[|t|..];
    } else {
      ReplaceAllBySelf(s[1..], t);
      assert s == [s[0]] + s[1..];
    }
  }

  /** A string with no occurrence of the target is left unchanged. */
  lemma {:induction false} ReplaceAllAbsent(s: string, t: string, r: string)
    requires |t| > 0 && !Contains(s, t)
    ensures ReplaceAll(s, t, r) == s
    decreases |s|
  {
    if |s| >= |t| {
      assert !OccursAt(s, t, 0);
      assert s[0..|t|] == s[..|t|];
      forall i | OccursAt(s[1..], t, i)
        ensures OccursAt(s, t, i + 1)
      {
        assert s[1..][i..i + |t|] == s[i + 1..i + 1 + |t|];
      }
      ReplaceAllAbsent(s[1..], t, r);
      assert s == [s[0]] + s[1..];
    }
  }
  /** sub occurs in s at index i and nowhere else. */
  predicate OccursOnlyAt(s: string, sub: string, i: int)
  {
    OccursAt(s, sub, i) && forall j | 0 <= j <= |s| :: OccursAt(s, sub, j) ==> j == i
  }

  /** Text before the first occurrence of the target is copied unchanged. */
  lemma {:induction false} ReplaceAllKeepsPrefix(p: string, q: string, t: string, r: string)
    requires |t| > 0
    requires forall j :: 0 <= j < |p| ==> !OccursAt(p + q, t, j)
    ensures ReplaceAll(p + q, t, r) == p + ReplaceAll(q, t, r)
    decreases |p|
  {
    if |p| == 0 {
      assert p + q == q;
    } else if |p + q| >= |t| {
      ShiftOccurrences(p, q, t);
      ReplaceAllSkip(p + q, t, r);
      ReplaceAllKeepsPrefix(p[1..], q, t, r);
      assert [p[0]] + (p[1..] + ReplaceAll(q, t, r)) == p + ReplaceAll(q, t, r) by {
        assert [p[0]] + p[1..] == p;
      }
    }
  }

  /** One step of the scan where the target does not start at the first character. */
  lemma ReplaceAllSkip(s: string, t: string, r: string)
    requires 0 < |t| <= |s| && !OccursAt(s, t, 0)
    ensures ReplaceAll(s, t, r) == [s[0]] + ReplaceAll(s[1..], t, r)
  {
    assert s[..|t|] == s[0..|t|];
  }

  /** Dropping the first character of p moves each occurrence in p + q one place to the left. */
  lemma ShiftOccurrences(p: string, q: string, t: string)
    requires |p| > 0
    requires forall j :: 0 <= j < |p| ==> !OccursAt(p + q, t, j)
    ensures (p + q)[1..] == p[1..] + q && !OccursAt(p + q, t, 0)
    ensures forall j :: 0 <= j < |p| - 1 ==> !OccursAt(p[1..] + q, t, j)
  {
    var s := p + q;
    assert s[1..] == p[1..] + q;
    forall j | 0 <= j < |p| - 1
      ensures !OccursAt(p[1..] + q, t, j)
    {
      if j + 1 + |t| <= |s| {
        assert !OccursAt(s, t, j + 1);
        assert s[1..][j..j + |t|] == s[j + 1..j + 1 + |t|];
      }
    }
  }

  /** A target that occurs exactly once is replaced at that place and nowhere else. */
  lemma ReplaceAllOnce(s: string, t: string, r: string, i: nat)
    requires |t| > 0 && OccursOnlyAt(s, t, i)
    ensures ReplaceAll(s, t, r) == s[..i] + r + s[i + |t|..]
  {
    var rest := s[i + |t|..];
    assert s == s[..i] + s[i..];
    ReplaceAllKeepsPrefix(s[..i], s[i..], t, r);
    assert ReplaceAll(s[i..], t, r) == r + ReplaceAll(rest, t, r) by {
      assert s[i..][..|t|] == s[i..i + |t|];
      assert s[i..][|t|..] == rest;
    }
    forall k | 0 <= k <= |rest|
      ensures !OccursAt(rest, t, k)
    {
      if OccursAt(rest, t, k) {
        assert rest[k..k + |t|] == s[i + |t| + k..i + |t| + k + |t|];
        assert OccursAt(s, t, i + |t| + k);
      }
    }
    ReplaceAllAbsent(rest, t, r);
  }

  /** The same, with the string written around its one occurrence. */
  lemma ReplaceOnlyOccurrence(p: string, t: string, q: string, r: string)
    requires |t| > 0 && OccursOnlyAt(p + t + q, t, |p|)
    ensures ReplaceAll(p + t + q, t, r) == p + r + q
  {
    var s := p + t + q;
    ReplaceAllOnce(s, t, r, |p|);
    assert s[..|p|] == p;
    assert s[|p| + |t|..] == q;
  }
}
