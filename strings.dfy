/**
 * Text helpers with Python's meaning: prefix and suffix tests, substring
 * occurrence, and `str.replace` for a non-empty pattern.
 */
module Strings {

  predicate StartsWith(s: string, prefix: string) {
    |prefix| <= |s| && s[..|prefix|] == prefix
  }

  predicate EndsWith(s: string, suffix: string) {
    |suffix| <= |s| && s[|s| - |suffix|..] == suffix
  }

  /** `pat` occurs in `s` starting at index `i`. */
  predicate OccursAt(s: string, pat: string, i: nat) {
    i + |pat| <= |s| && s[i..i + |pat|] == pat
  }

  /** Python's `pat in s`. */
  predicate Occurs(s: string, pat: string) {
    exists i: nat | i <= |s| :: OccursAt(s, pat, i)
  }

  /**
   * Python's `s.replace(pat, rep)` for a non-empty `pat`: occurrences are
   * found left to right and do not overlap.
   */
  function ReplaceAll(s: string, pat: string, rep: string): (r: string)
    requires |pat| > 0
    ensures |pat| == |rep| ==> |r| == |s|
    decreases |s|
  {
    if |s| < |pat| then s
    else if s[..|pat|] == pat then rep + ReplaceAll(s[|pat|..], pat, rep)
    else [s[0]] + ReplaceAll(s[1..], pat, rep)
  }

  /** A string in which `pat` does not occur is left as it is. */
  lemma {:induction false} ReplaceAllAbsent(s: string, pat: string, rep: string)
    requires |pat| > 0
    requires !Occurs(s, pat)
    ensures ReplaceAll(s, pat, rep) == s
    decreases |s|
  {
    if |s| >= |pat| {
      assert !OccursAt(s, pat, 0);
      assert !Occurs(s[1..], pat) by {
        forall i: nat | OccursAt(s[1..], pat, i) ensures false {
          assert s[1..][i..i + |pat|] == s[i + 1..i + 1 + |pat|];
          assert OccursAt(s, pat, i + 1);
        }
      }
      ReplaceAllAbsent(s[1..], pat, rep);
    }
  }

  /**
   * Replacing one character by one character keeps the length and maps
   * every position on its own.
   */
  lemma {:induction false} ReplaceCharAt(s: string, pat: string, rep: string)
    requires |pat| == 1 && |rep| == 1
    ensures |ReplaceAll(s, pat, rep)| == |s|
    ensures forall i :: 0 <= i < |s| ==>
      ReplaceAll(s, pat, rep)[i] == (if s[i] == pat[0] then rep[0] else s[i])
    decreases |s|
  {
    if |s| >= 1 {
      ReplaceCharAt(s[1..], pat, rep);
      var r := ReplaceAll(s, pat, rep);
      assert r == (if s[0] == pat[0] then rep else [s[0]]) + ReplaceAll(s[1..], pat, rep);
    }
  }

  /** After a one-for-one character replacement the replaced character is gone. */
  lemma ReplaceCharRemoves(s: string, c: char, d: char)
    requires c != d
    ensures c !in ReplaceAll(s, [c], [d])
    ensures |ReplaceAll(s, [c], [d])| == |s|
  {
    ReplaceCharAt(s, [c], [d]);
  }

  /** The first character of a replacement result. */
  lemma ReplaceAllHead(s: string, pat: string, rep: string)
    requires |pat| > 0 && |rep| > 0 && |s| > 0
    ensures |ReplaceAll(s, pat, rep)| > 0
    ensures ReplaceAll(s, pat, rep)[0] == (if StartsWith(s, pat) then rep[0] else s[0])
  {
  }

  /** A character found neither in the text nor in the replacement is not in the result. */
  lemma {:induction false} ReplaceAllKeepsOut(s: string, pat: string, rep: string, c: char)
    requires |pat| > 0
    requires c !in s && c !in rep
    ensures c !in ReplaceAll(s, pat, rep)
    decreases |s|
  {
    if |s| >= |pat| {
      if s[..|pat|] == pat {
        assert forall d :: d in s[|pat|..] ==> d in s;
        ReplaceAllKeepsOut(s[|pat|..], pat, rep, c);
      } else {
        assert forall d :: d in s[1..] ==> d in s;
        ReplaceAllKeepsOut(s[1..], pat, rep, c);
      }
    }
  }

  /** No position of `r` holds `a` immediately followed by `b`. */
  predicate NoPair(r: string, a: char, b: char) {
    forall i :: 0 <= i < |r| - 1 ==> !(r[i] == a && r[i + 1] == b)
  }

  /**
   * Replacing a two-character pattern by a non-empty text holding neither
   * of its characters leaves no occurrence of the pattern behind.
   */
  lemma {:induction false} ReplacePairGone(s: string, pat: string, rep: string)
    requires |pat| == 2 && |rep| > 0
    requires pat[0] !in rep && pat[1] !in rep
    ensures NoPair(ReplaceAll(s, pat, rep), pat[0], pat[1])
    ensures !Occurs(ReplaceAll(s, pat, rep), pat)
    decreases |s|
  {
    var r := ReplaceAll(s, pat, rep);
    if |s| >= 2 {
      if s[..2] == pat {
        var rest := ReplaceAll(s[2..], pat, rep);
        ReplacePairGone(s[2..], pat, rep);
        assert r == rep + rest;
        forall i | 0 <= i < |r| - 1
          ensures !(r[i] == pat[0] && r[i + 1] == pat[1])
        {
          if i < |rep| {
            assert r[i] == rep[i];
          } else {
            assert r[i] == rest[i - |rep|] && r[i + 1] == rest[i + 1 - |rep|];
          }
        }
      } else {
        var rest := ReplaceAll(s[1..], pat, rep);
        ReplacePairGone(s[1..], pat, rep);
        assert r == [s[0]] + rest;
        if |rest| > 0 {
          ReplaceAllHead(s[1..], pat, rep);
        }
        forall i | 0 <= i < |r| - 1
          ensures !(r[i] == pat[0] && r[i + 1] == pat[1])
        {
          if i > 0 {
            assert r[i] == rest[i - 1] && r[i + 1] == rest[i];
          }
        }
      }
    }
    forall i: nat | i <= |r| && OccursAt(r, pat, i)
      ensures false
    {
    }
  }

  /**
   * What replacing a two-character pattern whose characters differ does at
   * position `i` of the text: the pattern's first character becomes the
   * replacement's first, its second becomes the replacement's second, and
   * every other character stays.
   */
  function PairReplacedAt(s: string, pat: string, rep: string, i: nat): char
    requires |pat| == 2 && |rep| == 2 && i < |s|
  {
    if i + 1 < |s| && s[i] == pat[0] && s[i + 1] == pat[1] then rep[0]
    else if 0 < i && s[i - 1] == pat[0] && s[i] == pat[1] then rep[1]
    else s[i]
  }

  /**
   * Replacing a two-character pattern by a two-character text keeps the
   * length and rewrites every occurrence in place.
   */
  lemma {:induction false} ReplacePairAt(s: string, pat: string, rep: string)
    requires |pat| == 2 && |rep| == 2 && pat[0] != pat[1]
    ensures |ReplaceAll(s, pat, rep)| == |s|
    ensures forall i :: 0 <= i < |s| ==> ReplaceAll(s, pat, rep)[i] == PairReplacedAt(s, pat, rep, i)
    decreases |s|
  {
    var r := ReplaceAll(s, pat, rep);
    if |s| >= 2 {
      if s[..2] == pat {
        var t := s[2..];
        ReplacePairAt(t, pat, rep);
        assert r == rep + ReplaceAll(t, pat, rep);
        forall i | 2 <= i < |s|
          ensures r[i] == PairReplacedAt(s, pat, rep, i)
        {
          assert r[i] == ReplaceAll(t, pat, rep)[i - 2];
          assert t[i - 2] == s[i];
          if i + 1 < |s| {
            assert t[i - 1] == s[i + 1];
          }
          if i > 2 {
            assert t[i - 3] == s[i - 1];
          }
        }
      } else {
        var t := s[1..];
        ReplacePairAt(t, pat, rep);
        assert r == [s[0]] + ReplaceAll(t, pat, rep);
        forall i | 1 <= i < |s|
          ensures r[i] == PairReplacedAt(s, pat, rep, i)
        {
          assert r[i] == ReplaceAll(t, pat, rep)[i - 1];
          assert t[i - 1] == s[i];
          if i + 1 < |s| {
            assert t[i] == s[i + 1];
          }
          if i > 1 {
            assert t[i - 2] == s[i - 1];
          }
        }
      }
    }
  }

  /** Characters that cannot start the pattern are copied through unchanged. */
  lemma {:induction false} ReplaceAllSkips(a: string, b: string, pat: string, rep: string)
    requires |pat| > 0
    requires forall i :: 0 <= i < |a| ==> a[i] != pat[0]
    ensures ReplaceAll(a + b, pat, rep) == a + ReplaceAll(b, pat, rep)
    decreases |a|
  {
    var s := a + b;
    if a == [] {
      assert s == b;
    } else if |s| < |pat| {
      assert ReplaceAll(b, pat, rep) == b;
    } else {
      assert s[..|pat|][0] == a[0];
      assert s[1..] == a[1..] + b;
      ReplaceAllSkips(a[1..], b, pat, rep);
    }
  }

  /** An occurrence at the front is replaced, and the scan resumes after it. */
  lemma ReplaceAllHit(pat: string, rest: string, rep: string)
    requires |pat| > 0
    ensures ReplaceAll(pat + rest, pat, rep) == rep + ReplaceAll(rest, pat, rep)
  {
    assert (pat + rest)[..|pat|] == pat;
    assert (pat + rest)[|pat|..] == rest;
  }
}
