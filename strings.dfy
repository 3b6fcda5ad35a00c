/**
 * The few JavaScript string built-ins the core relies on, as functions over
 * `seq<char>`: `String.prototype.indexOf`, `String.prototype.replace` with a
 * string pattern (first occurrence only) and a replacement without `$`
 * patterns (such as `/avatar/`), and `Array.prototype.join`.
 */
module Strings {
  import opened Wrappers

  /** `pat` occurs in `s` starting at index `i`. */
  predicate OccursAt(pat: string, s: string, i: nat)
  {
    i + |pat| <= |s| && s[i..i + |pat|] == pat
  }

  /**
   * The first index at or after `from` where `pat` occurs in `s`. With
   * `from == 0` this is `s.indexOf(pat)`; it does not clamp a start position
   * past the end as JavaScript's `indexOf` does.
   */
  function IndexOfFrom(s: string, pat: string, from: nat): (r: Option<nat>)
    ensures r.Some? ==> from <= r.value && OccursAt(pat, s, r.value)
    ensures r.Some? ==> forall j: nat :: from <= j < r.value ==> !OccursAt(pat, s, j)
    ensures r.None? ==> forall j: nat :: from <= j ==> !OccursAt(pat, s, j)
    decreases |s| + 1 - from
  {
    if from + |pat| > |s| then None
    else if s[from..from + |pat|] == pat then Some(from)
    else IndexOfFrom(s, pat, from + 1)
  }

  /** `s.indexOf(pat)`, with `None` for JavaScript's -1. */
  function IndexOf(s: string, pat: string): Option<nat>
  {
    IndexOfFrom(s, pat, 0)
  }

  /** `s.includes(pat)`. */
  predicate Contains(s: string, pat: string)
  {
    IndexOf(s, pat).Some?
  }

  /** An occurrence anywhere makes `Contains` true. */
  lemma OccursContains(pat: string, s: string, i: nat)
    requires OccursAt(pat, s, i)
    ensures Contains(s, pat)
  {
  }

  /** Every character of an occurrence of `pat` is a character of `s`. */
  lemma OccurrenceChars(pat: string, s: string, i: nat)
    ensures OccursAt(pat, s, i) ==> forall ch :: ch in pat ==> ch in s
  {
    if OccursAt(pat, s, i) {
      forall ch | ch in pat ensures ch in s {
        var k :| 0 <= k < |pat| && pat[k] == ch;
        assert s[i..i + |pat|][k] == s[i + k];
      }
    }
  }

  /** A character of `pat` that `s` lacks rules out every occurrence. */
  lemma MissingCharNotContained(s: string, pat: string, ch: char)
    requires ch in pat && ch !in s
    ensures !Contains(s, pat)
  {
    forall i: nat ensures !OccursAt(pat, s, i) {
      OccurrenceChars(pat, s, i);
    }
  }

  /**
   * `s.replace(pat, rep)` for a replacement without `$` patterns: only the
   * first occurrence of `pat` is replaced, and `rep` is inserted literally.
   */
  function ReplaceFirst(s: string, pat: string, rep: string): string
  {
    match IndexOf(s, pat)
    case None => s
    case Some(i) => s[..i] + rep + s[i + |pat|..]
  }

  /** Without an occurrence of the pattern the string is returned unchanged. */
  lemma ReplaceFirstAbsent(s: string, pat: string, rep: string)
    requires !Contains(s, pat)
    ensures ReplaceFirst(s, pat, rep) == s
  {
  }

  /** With its first occurrence at `i`, exactly that occurrence is replaced. */
  lemma ReplaceFirstAt(s: string, pat: string, rep: string, i: nat)
    requires OccursAt(pat, s, i)
    requires forall j: nat :: j < i ==> !OccursAt(pat, s, j)
    ensures ReplaceFirst(s, pat, rep) == s[..i] + rep + s[i + |pat|..]
  {
    assert IndexOf(s, pat) == Some(i);
  }

  /** A string that starts with the pattern has that leading pattern replaced. */
  lemma ReplaceFirstPrefix(pat: string, rest: string, rep: string)
    ensures ReplaceFirst(pat + rest, pat, rep) == rep + rest
  {
    var s := pat + rest;
    assert s[0..|pat|] == pat;
    ReplaceFirstAt(s, pat, rep, 0);
    assert s[|pat|..] == rest;
  }

  /** A string occurs where it is appended. */
  lemma OccursAtEnd(front: string, pat: string)
    ensures OccursAt(pat, front + pat, |front|)
  {
    assert (front + pat)[|front|..|front| + |pat|] == pat;
  }

  /** Appending to a string keeps every occurrence in it. */
  lemma OccursExtend(pat: string, s: string, i: nat, t: string)
    requires OccursAt(pat, s, i)
    ensures OccursAt(pat, s + t, i)
  {
    assert (s + t)[i..i + |pat|] == s[i..i + |pat|];
  }

  /**
   * In `p0 + f1 + p1 + f2 + p2 + f3 + p3 + f4 + p4` the string begins with
   * `p0`, each `fi` sits right after everything before it, and `p4` ends it.
   */
  lemma FourFieldsAt(p0: string, f1: string, p1: string, f2: string, p2: string,
                     f3: string, p3: string, f4: string, p4: string)
    ensures var s := p0 + f1 + p1 + f2 + p2 + f3 + p3 + f4 + p4;
      && OccursAt(p0, s, 0)
      && OccursAt(f1, s, |p0|)
      && OccursAt(f2, s, |p0 + f1 + p1|)
      && OccursAt(f3, s, |p0 + f1 + p1 + f2 + p2|)
      && OccursAt(f4, s, |p0 + f1 + p1 + f2 + p2 + f3 + p3|)
      && OccursAt(p4, s, |s| - |p4|)
  {
    var s1 := p0 + f1;
    var s2 := s1 + p1;
    var s3 := s2 + f2;
    var s4 := s3 + p2;
    var s5 := s4 + f3;
    var s6 := s5 + p3;
    var s7 := s6 + f4;
    assert s7 + p4 == p0 + f1 + p1 + f2 + p2 + f3 + p3 + f4 + p4;
    OccursAtEnd([], p0);
    assert [] + p0 == p0;
    OccursExtend(p0, p0, 0, f1);
    OccursExtend(p0, s1, 0, p1);
    OccursExtend(p0, s2, 0, f2);
    OccursExtend(p0, s3, 0, p2);
    OccursExtend(p0, s4, 0, f3);
    OccursExtend(p0, s5, 0, p3);
    OccursExtend(p0, s6, 0, f4);
    OccursExtend(p0, s7, 0, p4);
    OccursAtEnd(p0, f1);
    OccursExtend(f1, s1, |p0|, p1);
    OccursExtend(f1, s2, |p0|, f2);
    OccursExtend(f1, s3, |p0|, p2);
    OccursExtend(f1, s4, |p0|, f3);
    OccursExtend(f1, s5, |p0|, p3);
    OccursExtend(f1, s6, |p0|, f4);
    OccursExtend(f1, s7, |p0|, p4);
    OccursAtEnd(s2, f2);
    OccursExtend(f2, s3, |s2|, p2);
    OccursExtend(f2, s4, |s2|, f3);
    OccursExtend(f2, s5, |s2|, p3);
    OccursExtend(f2, s6, |s2|, f4);
    OccursExtend(f2, s7, |s2|, p4);
    OccursAtEnd(s4, f3);
    OccursExtend(f3, s5, |s4|, p3);
    OccursExtend(f3, s6, |s4|, f4);
    OccursExtend(f3, s7, |s4|, p4);
    OccursAtEnd(s6, f4);
    OccursExtend(f4, s7, |s6|, p4);
    OccursAtEnd(s7, p4);
  }

  /** A string holding `p0 + f1 + p1 + f2 + p2 + f3 + p3 + f4 + p4` contains each `fi`. */
  lemma FourFieldsContained(p0: string, f1: string, p1: string, f2: string, p2: string,
                            f3: string, p3: string, f4: string, p4: string, content: string, off: nat)
    requires OccursAt(p0 + f1 + p1 + f2 + p2 + f3 + p3 + f4 + p4, content, off)
    ensures Contains(content, f1) && Contains(content, f2)
    ensures Contains(content, f3) && Contains(content, f4)
  {
    var s := p0 + f1 + p1 + f2 + p2 + f3 + p3 + f4 + p4;
    FourFieldsAt(p0, f1, p1, f2, p2, f3, p3, f4, p4);
    ContainsWithin(f1, s, content, |p0|, off);
    ContainsWithin(f2, s, content, |p0 + f1 + p1|, off);
    ContainsWithin(f3, s, content, |p0 + f1 + p1 + f2 + p2|, off);
    ContainsWithin(f4, s, content, |p0 + f1 + p1 + f2 + p2 + f3 + p3|, off);
  }

  /** `xs.join(sep)`. */
  function Join(xs: seq<string>, sep: string): string
  {
    if |xs| == 0 then ""
    else if |xs| == 1 then xs[0]
    else xs[0] + sep + Join(xs[1..], sep)
  }

  /** Where the `k`-th part starts in `Join(xs, sep)`. */
  function JoinOffset(xs: seq<string>, sep: string, k: nat): nat
    requires k <= |xs|
  {
    if k == 0 then 0 else |xs[0]| + |sep| + JoinOffset(xs[1..], sep, k - 1)
  }

  /** An occurrence inside `t` is an occurrence, shifted by `|a|`, inside `a + t`. */
  lemma OccursShift(pat: string, a: string, t: string, i: nat)
    requires OccursAt(pat, t, i)
    ensures OccursAt(pat, a + t, |a| + i)
  {
    assert (a + t)[|a| + i..|a| + i + |pat|] == t[i..i + |pat|];
  }

  /** An occurrence inside an occurrence is an occurrence in the outer string. */
  lemma OccursWithin(inner: string, outer: string, s: string, i: nat, j: nat)
    requires OccursAt(inner, outer, i) && OccursAt(outer, s, j)
    ensures OccursAt(inner, s, j + i)
  {
    forall t | 0 <= t < |inner| ensures s[j + i..j + i + |inner|][t] == inner[t] {
      assert s[j..j + |outer|][i + t] == outer[i + t];
      assert outer[i..i + |inner|][t] == inner[t];
    }
  }

  /** What occurs inside an occurrence is contained in the outer string. */
  lemma ContainsWithin(inner: string, outer: string, s: string, i: nat, j: nat)
    requires OccursAt(inner, outer, i) && OccursAt(outer, s, j)
    ensures Contains(s, inner)
  {
    OccursWithin(inner, outer, s, i, j);
    OccursContains(inner, s, j + i);
  }

  /** The middle part of a concatenation occurs right after the first part. */
  lemma OccursMiddle(a: string, b: string, c: string)
    ensures OccursAt(b, a + b + c, |a|)
  {
    assert (a + b + c)[|a|..|a| + |b|] == b;
  }

  /** Consecutive parts are one separator apart. */
  lemma {:induction false} JoinOffsetStep(xs: seq<string>, sep: string, k: nat)
    requires k < |xs|
    ensures JoinOffset(xs, sep, k + 1) == JoinOffset(xs, sep, k) + |xs[k]| + |sep|
  {
    if k > 0 {
      JoinOffsetStep(xs[1..], sep, k - 1);
      assert xs[1..][k - 1] == xs[k];
    }
  }

  /** The join ends where its last part ends. */
  lemma {:induction false} JoinLength(xs: seq<string>, sep: string)
    requires |xs| > 0
    ensures |Join(xs, sep)| == JoinOffset(xs, sep, |xs| - 1) + |xs[|xs| - 1]|
  {
    if |xs| > 1 {
      JoinLength(xs[1..], sep);
      assert xs[1..][|xs| - 2] == xs[|xs| - 1];
    }
  }

  /** `JoinPartAt`, `JoinSeparatorAt`, `JoinOffsetStep` and `JoinLength` for a join placed after a prefix. */
  lemma JoinPartAfter(prefix: string, xs: seq<string>, sep: string, k: nat)
    requires k < |xs|
    ensures OccursAt(xs[k], prefix + Join(xs, sep), |prefix| + JoinOffset(xs, sep, k))
    ensures k + 1 < |xs| ==>
      && OccursAt(sep, prefix + Join(xs, sep), |prefix| + JoinOffset(xs, sep, k) + |xs[k]|)
      && JoinOffset(xs, sep, k + 1) == JoinOffset(xs, sep, k) + |xs[k]| + |sep|
    ensures k + 1 == |xs| ==> |prefix + Join(xs, sep)| == |prefix| + JoinOffset(xs, sep, k) + |xs[k]|
  {
    var off := JoinOffset(xs, sep, k);
    JoinPartAt(xs, sep, k);
    OccursShift(xs[k], prefix, Join(xs, sep), off);
    if k + 1 < |xs| {
      JoinSeparatorAt(xs, sep, k);
      JoinOffsetStep(xs, sep, k);
      OccursShift(sep, prefix, Join(xs, sep), off + |xs[k]|);
    } else {
      JoinLength(xs, sep);
    }
  }

  /** Part `k` of a join sits at `JoinOffset(xs, sep, k)`. */
  lemma {:induction false} JoinPartAt(xs: seq<string>, sep: string, k: nat)
    requires k < |xs|
    ensures OccursAt(xs[k], Join(xs, sep), JoinOffset(xs, sep, k))
  {
    if |xs| == 1 {
      OccursMiddle([], xs[0], []);
      assert [] + xs[0] + [] == Join(xs, sep);
    } else if k == 0 {
      OccursMiddle([], xs[0], sep + Join(xs[1..], sep));
      assert [] + xs[0] + (sep + Join(xs[1..], sep)) == Join(xs, sep);
    } else {
      JoinPartAt(xs[1..], sep, k - 1);
      assert xs[1..][k - 1] == xs[k];
      OccursShift(xs[k], xs[0] + sep, Join(xs[1..], sep), JoinOffset(xs[1..], sep, k - 1));
    }
  }

  /** A part of a join that is not the last one is followed by one separator. */
  lemma {:induction false} JoinSeparatorAt(xs: seq<string>, sep: string, k: nat)
    requires k + 1 < |xs|
    ensures OccursAt(sep, Join(xs, sep), JoinOffset(xs, sep, k) + |xs[k]|)
  {
    if k == 0 {
      OccursMiddle(xs[0], sep, Join(xs[1..], sep));
    } else {
      JoinSeparatorAt(xs[1..], sep, k - 1);
      assert xs[1..][k - 1] == xs[k];
      OccursShift(sep, xs[0] + sep, Join(xs[1..], sep), JoinOffset(xs[1..], sep, k - 1) + |xs[k]|);
    }
  }
}
