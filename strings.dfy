/**
 * The few Python `str` operations the bot uses, with Python's meaning:
 * `strip()`, `split()`, `lower()`/`upper()` (ASCII letters only), `in`,
 * `find`, `split(sep)[0]`, `split(sep)[-1]`, `rstrip(c)` and `replace`.
 */
module Strings {
  import opened Wrappers

  /** Python's `str.isspace()`: the characters that `strip()`, `split()` and the
      regular-expression class `\s` treat as white space. */
  predicate IsSpace(c: char) {
    || ('\U{0009}' <= c <= '\U{000D}')
    || ('\U{001C}' <= c <= '\U{001F}')
    || c == ' ' || c == '\U{0085}' || c == '\U{00A0}' || c == '\U{1680}'
    || ('\U{2000}' <= c <= '\U{200A}')
    || c == '\U{2028}' || c == '\U{2029}' || c == '\U{202F}' || c == '\U{205F}' || c == '\U{3000}'
  }

  /** `s.lstrip()`: drops the longest all-white-space prefix. */
  function StripLeft(s: string): (r: string)
    ensures |r| <= |s| && r == s[|s| - |r|..]
    ensures r == [] || !IsSpace(r[0])
    ensures forall i :: 0 <= i < |s| - |r| ==> IsSpace(s[i])
  {
    if |s| > 0 && IsSpace(s[0]) then StripLeft(s[1..]) else s
  }

  /** `s.rstrip()`: drops the longest all-white-space suffix. */
  function StripRight(s: string): (r: string)
    ensures |r| <= |s| && r == s[..|r|]
    ensures r == [] || !IsSpace(r[|r| - 1])
    ensures forall i :: |r| <= i < |s| ==> IsSpace(s[i])
  {
    if |s| > 0 && IsSpace(s[|s| - 1]) then StripRight(s[..|s| - 1]) else s
  }

  /** `s.strip()` */
  function Strip(s: string): string {
    StripRight(StripLeft(s))
  }

  function LowerChar(c: char): char {
    if 'A' <= c <= 'Z' then (c as int + 32) as char else c
  }

  function UpperChar(c: char): char {
    if 'a' <= c <= 'z' then (c as int - 32) as char else c
  }

  /** `s.lower()` on ASCII letters; every other character is kept. */
  function Lower(s: string): string {
    seq(|s|, i requires 0 <= i < |s| => LowerChar(s[i]))
  }

  /** `s.upper()` on ASCII letters; every other character is kept. */
  function Upper(s: string): string {
    seq(|s|, i requires 0 <= i < |s| => UpperChar(s[i]))
  }

  predicate IsPrefix(p: string, s: string) {
    |p| <= |s| && s[..|p|] == p
  }

  /** `s.startswith(p)` */
  predicate StartsWith(s: string, p: string) {
    IsPrefix(p, s)
  }

  /** `t` occurs in `s` starting at index `i`. */
  predicate OccursAt(s: string, t: string, i: nat) {
    i + |t| <= |s| && s[i..i + |t|] == t
  }

  /** Python's `t in s` on strings: `t` occurs in `s` as a contiguous substring. */
  predicate Contains(s: string, t: string)
    decreases |s|
  {
    IsPrefix(t, s) || (|s| > 0 && Contains(s[1..], t))
  }

  /** `s.find(t)` as an option: the first index where `t` occurs, if it does
      (that it is the first is lemma FindFirst). */
  function Find(s: string, t: string): (r: Option<nat>)
    ensures r.Some? <==> Contains(s, t)
    ensures r.Some? ==> OccursAt(s, t, r.value)
    decreases |s|
  {
    if IsPrefix(t, s) then Some(0)
    else if |s| == 0 then None
    else match Find(s[1..], t)
      case None => None
      case Some(k) => Some(k + 1)
  }

  /** `s.split(sep)[0]`: the part of `s` before the first `sep`, or all of `s`. */
  function SplitFirst(s: string, sep: string): (r: string)
    ensures |r| <= |s| && r == s[..|r|]
    ensures !Contains(s, sep) ==> r == s
    ensures Contains(s, sep) ==> |r| + |sep| <= |s| && s[|r|..|r| + |sep|] == sep
  {
    match Find(s, sep)
    case None => s
    case Some(i) => s[..i]
  }

  /** `s.split(sep)[-1]`: what follows the last separator met when `s` is split
      from left to right, or all of `s` when `sep` does not occur. */
  function SplitLast(s: string, sep: string): string
    requires |sep| > 0
    decreases |s|
  {
    match Find(s, sep)
    case None => s
    case Some(i) => SplitLast(s[i + |sep|..], sep)
  }

  /** `s.replace(pat, rep)`: every occurrence, found from left to right without overlap. */
  function ReplaceAll(s: string, pat: string, rep: string): (r: string)
    requires |pat| > 0
    ensures !Contains(s, pat) ==> r == s
    decreases |s|
  {
    match Find(s, pat)
    case None => s
    case Some(i) => s[..i] + rep + ReplaceAll(s[i + |pat|..], pat, rep)
  }

  /** `s.rstrip(c)` for a single character `c`. */
  function RStripChar(s: string, c: char): (r: string)
    ensures |r| <= |s| && r == s[..|r|]
    ensures r == [] || r[|r| - 1] != c
    ensures forall i :: |r| <= i < |s| ==> s[i] == c
  {
    if |s| > 0 && s[|s| - 1] == c then RStripChar(s[..|s| - 1], c) else s
  }

  /** The longest prefix of `s` without white space. */
  function TakeWord(s: string): (w: string)
    ensures |w| <= |s| && w == s[..|w|]
    ensures forall i :: 0 <= i < |w| ==> !IsSpace(w[i])
    ensures |w| == |s| || IsSpace(s[|w|])
  {
    if |s| > 0 && !IsSpace(s[0]) then [s[0]] + TakeWord(s[1..]) else []
  }

  /** `s.split()`: the maximal runs of non-white-space characters, in order. */
  function Split(s: string): (ws: seq<string>)
    decreases |s|
  {
    var t := StripLeft(s);
    if t == [] then [] else
      var w := TakeWord(t);
      [w] + Split(t[|w|..])
  }

  // ---------------------------------------------------------------------------
  // Facts about these operations.

  /** Python's `in` agrees with "occurs at some index". */
  lemma {:induction false} ContainsIff(s: string, t: string)
    ensures Contains(s, t) <==> exists i: nat :: OccursAt(s, t, i)
    decreases |s|
  {
    if IsPrefix(t, s) {
      assert OccursAt(s, t, 0);
    } else if |s| > 0 {
      ContainsIff(s[1..], t);
      if Contains(s, t) {
        var i: nat :| OccursAt(s[1..], t, i);
        assert s[1..][i..i + |t|] == s[i + 1..i + 1 + |t|];
        assert OccursAt(s, t, i + 1);
      }
      if exists i: nat :: OccursAt(s, t, i) {
        var i: nat :| OccursAt(s, t, i);
        assert i != 0;
        assert s[1..][i - 1..i - 1 + |t|] == s[i..i + |t|];
        assert OccursAt(s[1..], t, i - 1);
      }
    }
  }

  /** An occurrence at a known index is found by `in`. */
  lemma ContainsAtIndex(s: string, t: string, i: nat)
    requires OccursAt(s, t, i)
    ensures Contains(s, t)
  {
    ContainsIff(s, t);
  }

  /** A witness index for `t in s`. */
  lemma ContainsOccurrence(s: string, t: string) returns (i: nat)
    requires Contains(s, t)
    ensures OccursAt(s, t, i)
  {
    ContainsIff(s, t);
    i :| OccursAt(s, t, i);
  }

  /** `find` returns the first occurrence. */
  lemma {:induction false} FindFirst(s: string, t: string, j: nat)
    requires Find(s, t).Some? && j < Find(s, t).value
    ensures !OccursAt(s, t, j)
    decreases |s|
  {
    if j == 0 {
      assert s[0..|t|] == s[..|t|];
    } else {
      FindFirst(s[1..], t, j - 1);
      if j + |t| <= |s| {
        assert s[1..][j - 1..j - 1 + |t|] == s[j..j + |t|];
      }
    }
  }

  /** An occurrence with none before it is what `find` returns. */
  lemma FindIs(s: string, t: string, i: nat)
    requires OccursAt(s, t, i)
    requires forall j: nat :: j < i ==> !OccursAt(s, t, j)
    ensures Find(s, t) == Some(i)
  {
    ContainsAtIndex(s, t, i);
    var v := Find(s, t).value;
    if v > i {
      FindFirst(s, t, i);
    }
  }

  /** A string containing `w` still contains it after anything is appended or prepended. */
  lemma ContainsInConcat(p: string, s: string, q: string, w: string)
    requires Contains(s, w)
    ensures Contains(p + s + q, w)
  {
    var i := ContainsOccurrence(s, w);
    assert (p + s + q)[|p| + i..|p| + i + |w|] == s[i..i + |w|];
    ContainsAtIndex(p + s + q, w, |p| + i);
  }

  /** A one-character pattern occurs only where that character is. */
  lemma {:induction false} NotContainsChar(s: string, c: char)
    requires c !in s
    ensures !Contains(s, [c])
    decreases |s|
  {
    if |s| > 0 {
      assert s[..1] == [s[0]];
      NotContainsChar(s[1..], c);
    }
  }

  lemma LowerConcat(a: string, b: string)
    ensures Lower(a + b) == Lower(a) + Lower(b)
  {
  }

  lemma UpperConcat(a: string, b: string)
    ensures Upper(a + b) == Upper(a) + Upper(b)
  {
  }

  /** `rstrip()` of a concatenation stops at the last non-space character of the left part. */
  lemma {:induction false} StripRightConcat(p: string, t: string)
    requires |p| > 0 && !IsSpace(p[|p| - 1])
    ensures StripRight(p + t) == p + StripRight(t)
    decreases |t|
  {
    if |t| > 0 && IsSpace(t[|t| - 1]) {
      assert (p + t)[..|p + t| - 1] == p + t[..|t| - 1];
      StripRightConcat(p, t[..|t| - 1]);
    } else if |t| == 0 {
      assert p + t == p;
    }
  }

  /** `rstrip(c)` of a concatenation stops at the last non-`c` character of the left part. */
  lemma {:induction false} RStripCharConcat(p: string, t: string, c: char)
    requires |p| > 0 && p[|p| - 1] != c
    ensures RStripChar(p + t, c) == p + RStripChar(t, c)
    decreases |t|
  {
    if |t| > 0 && t[|t| - 1] == c {
      assert (p + t)[..|p + t| - 1] == p + t[..|t| - 1];
      RStripCharConcat(p, t[..|t| - 1], c);
    } else if |t| == 0 {
      assert p + t == p;
    }
  }

  /** The first `c` of `p + [c] + t` is the one after `p` when `p` has none. */
  lemma SplitFirstAt(p: string, c: char, t: string)
    requires c !in p
    ensures SplitFirst(p + [c] + t, [c]) == p
  {
    var s := p + [c] + t;
    assert s[|p|..|p| + 1] == [c];
    forall j: nat | j < |p| ensures !OccursAt(s, [c], j) {
      assert s[j] == p[j];
    }
    FindIs(s, [c], |p|);
  }

  /** A string without `c` is its own `split(c)[0]`. */
  lemma SplitFirstAbsent(s: string, c: char)
    requires c !in s
    ensures SplitFirst(s, [c]) == s
  {
    NotContainsChar(s, c);
  }

  /** `split(c)[-1]` of `p + [c] + t` is `t` when `t` has no `c`. */
  lemma {:induction false} SplitLastAfter(p: string, c: char, t: string)
    requires c !in t
    ensures SplitLast(p + [c] + t, [c]) == t
    decreases |p|
  {
    var s := p + [c] + t;
    var i := FirstCharBefore(p, c, t);
    SplitLastStep(s, [c], i);
    if i < |p| {
      assert s[i + 1..] == p[i + 1..] + [c] + t;
      SplitLastAfter(p[i + 1..], c, t);
    } else {
      assert s[i + 1..] == t;
      NotContainsChar(t, c);
    }
  }

  /** The first `c` of `p + [c] + t` lies within `p + [c]` when `t` has no `c`. */
  lemma FirstCharBefore(p: string, c: char, t: string) returns (i: nat)
    requires c !in t
    ensures i <= |p| && Find(p + [c] + t, [c]) == Some(i)
  {
    var s := p + [c] + t;
    assert s[|p|..|p| + 1] == [c];
    ContainsAtIndex(s, [c], |p|);
    i := Find(s, [c]).value;
    assert s[i..i + 1] == [c];
  }

  /** `split(sep)[-1]` continues after the first separator. */
  lemma SplitLastStep(s: string, sep: string, i: nat)
    requires |sep| > 0 && Find(s, sep) == Some(i)
    ensures SplitLast(s, sep) == SplitLast(s[i + |sep|..], sep)
  {
  }

  /** `lstrip()` removes an all-blank prefix and stops at the first non-blank character. */
  lemma {:induction false} StripLeftSpaces(pre: string, x: string)
    requires forall i :: 0 <= i < |pre| ==> IsSpace(pre[i])
    requires |x| == 0 || !IsSpace(x[0])
    ensures StripLeft(pre + x) == x
    decreases |pre|
  {
    if |pre| > 0 {
      assert (pre + x)[0] == pre[0];
      assert (pre + x)[1..] == pre[1..] + x;
      StripLeftSpaces(pre[1..], x);
    } else {
      assert pre + x == x;
    }
  }

  /** Blanks around a word whose ends are not blank are stripped away. */
  lemma StripSurrounded(pre: string, w: string, post: string)
    requires |w| > 0 && !IsSpace(w[0]) && !IsSpace(w[|w| - 1])
    requires forall i :: 0 <= i < |pre| ==> IsSpace(pre[i])
    requires forall i :: 0 <= i < |post| ==> IsSpace(post[i])
    ensures Strip(pre + w + post) == w
  {
    assert pre + w + post == pre + (w + post);
    StripLeftSpaces(pre, w + post);
    StripRightConcat(w, post);
    var r := StripRight(post);
    assert r == [] by {
      if |r| > 0 {
        assert r[|r| - 1] == post[|r| - 1];
      }
    }
    assert w + [] == w;
  }
}
