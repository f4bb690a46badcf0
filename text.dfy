/** The string primitives the router is built from: Python's `str.strip`,
    `str.lower`, the `in` substring test, and the character classes behind
    the regular-expression escapes `\d`, `\w` and `\b`. Characters are
    modelled over ASCII and the Latin-1 Supplement (U+0000 to U+00FF). */
module Text {

  /** `str.isspace` on U+0000..U+00FF: tab, line feed, vertical tab, form
      feed, carriage return, the separators U+001C..U+001F, space, U+0085
      and the no-break space U+00A0. */
  predicate IsSpace(c: char)
  {
    '\t' <= c <= '\r' || '\U{1C}' <= c <= ' ' || c == '\U{85}' || c == '\U{A0}'
  }

  /** `str.lower` on U+0000..U+00FF: A..Z and the Latin-1 capitals
      U+00C0..U+00DE (except the multiplication sign) move down by 0x20. */
  function LowerChar(c: char): (r: char)
    ensures IsSpace(r) <==> IsSpace(c)
    ensures 'a' <= r <= 'z' <==> ('a' <= c <= 'z' || 'A' <= c <= 'Z')
  {
    if 'A' <= c <= 'Z' || ('\U{C0}' <= c <= '\U{DE}' && c != '\U{D7}') then
      (c as int + 32) as char
    else
      c
  }

  /** On ASCII letters `str.lower` maps each capital to its own small
      letter and leaves small letters alone. */
  lemma LowerCharAscii(c: char)
    ensures 'A' <= c <= 'Z' ==> LowerChar(c) as int == c as int + 32
    ensures 'a' <= c <= 'z' ==> LowerChar(c) == c
  {
  }

  function Lower(s: string): (r: string)
    ensures |r| == |s|
  {
    if s == [] then [] else [LowerChar(s[0])] + Lower(s[1..])
  }

  /** `Lower` works character by character. */
  lemma {:induction false} LowerAt(s: string, k: int)
    requires 0 <= k < |s|
    ensures Lower(s)[k] == LowerChar(s[k])
  {
    if k > 0 {
      LowerAt(s[1..], k - 1);
    }
  }

  /** The first index at or after `i` that does not hold whitespace. */
  function SkipSpaces(s: string, i: nat): (j: nat)
    requires i <= |s|
    ensures i <= j <= |s|
    ensures forall k :: i <= k < j ==> IsSpace(s[k])
    ensures j < |s| ==> !IsSpace(s[j])
    decreases |s| - i
  {
    if i < |s| && IsSpace(s[i]) then SkipSpaces(s, i + 1) else i
  }

  /** The least `e` in `lo..j` such that `s[e..j]` is all whitespace. */
  function SkipSpacesBack(s: string, lo: nat, j: nat): (e: nat)
    requires lo <= j <= |s|
    ensures lo <= e <= j
    ensures forall k :: e <= k < j ==> IsSpace(s[k])
    ensures e > lo ==> !IsSpace(s[e - 1])
    decreases j
  {
    if j > lo && IsSpace(s[j - 1]) then SkipSpacesBack(s, lo, j - 1) else j
  }

  /** `str.strip()` with no argument: the infix of `s` left after removing
      leading and trailing whitespace. */
  function Strip(s: string): (r: string)
    ensures r == [] || (!IsSpace(r[0]) && !IsSpace(r[|r| - 1]))
    ensures exists i, j :: 0 <= i <= j <= |s| && r == s[i..j]
                           && (forall k :: 0 <= k < i ==> IsSpace(s[k]))
                           && (forall k :: j <= k < |s| ==> IsSpace(s[k]))
  {
    var i := SkipSpaces(s, 0);
    var j := SkipSpacesBack(s, i, |s|);
    s[i..j]
  }

  /** The router's normalisation: strip, then lower-case. Internal runs of
      whitespace are kept as they are. */
  function Norm(s: string): string
  {
    Lower(Strip(s))
  }

  /** `s.startswith(t)`, compared character by character. */
  predicate StartsWith(s: string, t: string)
  {
    |t| == 0 || (|s| > 0 && s[0] == t[0] && StartsWith(s[1..], t[1..]))
  }

  /** Python's `t in s` for strings: `t` occurs in `s` as a contiguous
      substring (the empty string occurs in every string). */
  predicate Contains(s: string, t: string)
    decreases |s|
  {
    StartsWith(s, t) || (|s| > 0 && Contains(s[1..], t))
  }

  /** `w1 in s or w2 in s or ...` over the words in `words`, in order. */
  predicate ContainsAny(s: string, words: seq<string>)
  {
    |words| > 0 && (Contains(s, words[0]) || ContainsAny(s, words[1..]))
  }

  predicate OccursAt(s: string, t: string, i: int)
  {
    0 <= i && i + |t| <= |s| && s[i..i + |t|] == t
  }

  lemma {:induction false} StartsWithIff(s: string, t: string)
    ensures StartsWith(s, t) <==> OccursAt(s, t, 0)
    decreases |t|
  {
    if |t| > 0 && |s| > 0 {
      StartsWithIff(s[1..], t[1..]);
      if s[0] == t[0] && OccursAt(s[1..], t[1..], 0) {
        assert s[..|t|] == [s[0]] + s[1..][..|t| - 1];
      }
      if OccursAt(s, t, 0) {
        assert s[1..][..|t| - 1] == s[..|t|][1..];
      }
    }
  }

  /** An occurrence in the tail is an occurrence one position later. */
  lemma OccursAtTail(s: string, t: string, i: int)
    requires |s| > 0 && 0 <= i
    ensures OccursAt(s[1..], t, i) <==> OccursAt(s, t, i + 1)
  {
    if i + 1 + |t| <= |s| {
      assert s[1..][i..i + |t|] == s[i + 1..i + 1 + |t|];
    }
  }

  /** The recursive substring test is the textbook one: some position of
      `s` starts an occurrence of `t`. */
  lemma {:induction false} ContainsIff(s: string, t: string)
    ensures Contains(s, t) <==> exists i :: OccursAt(s, t, i)
    decreases |s|
  {
    StartsWithIff(s, t);
    if |s| > 0 {
      ContainsIff(s[1..], t);
      if exists i :: OccursAt(s[1..], t, i) {
        var i :| OccursAt(s[1..], t, i);
        OccursAtTail(s, t, i);
      }
      if exists i :: OccursAt(s, t, i) {
        var i :| OccursAt(s, t, i);
        if i > 0 {
          OccursAtTail(s, t, i - 1);
        }
      }
    } else {
      if exists i :: OccursAt(s, t, i) {
        var i :| OccursAt(s, t, i);
        assert i == 0;
      }
    }
  }

  lemma {:induction false} ContainsAnyIff(s: string, words: seq<string>)
    ensures ContainsAny(s, words) <==> exists k :: 0 <= k < |words| && Contains(s, words[k])
    decreases |words|
  {
    if |words| > 0 {
      ContainsAnyIff(s, words[1..]);
      if exists k :: 0 <= k < |words| && Contains(s, words[k]) {
        var k :| 0 <= k < |words| && Contains(s, words[k]);
        if k > 0 {
          assert words[1..][k - 1] == words[k];
        }
      }
    }
  }

  /** The regular-expression `\w` class on U+0000..U+00FF: the characters
      for which `str.isalnum()` holds, and the underscore. */
  predicate IsWordChar(c: char)
  {
    '0' <= c <= '9' || 'A' <= c <= 'Z' || 'a' <= c <= 'z' || c == '_'
    || c == '\U{AA}' || c == '\U{B2}' || c == '\U{B3}' || c == '\U{B5}'
    || c == '\U{B9}' || c == '\U{BA}' || '\U{BC}' <= c <= '\U{BE}'
    || ('\U{C0}' <= c <= '\U{FF}' && c != '\U{D7}' && c != '\U{F7}')
  }

  /** The regular-expression `\d` class on U+0000..U+00FF. */
  predicate IsDigit(c: char)
  {
    '0' <= c <= '9'
  }

  predicate WordCharAt(s: string, k: int)
  {
    0 <= k < |s| && IsWordChar(s[k])
  }

  /** The regular-expression assertion `\b` at position `p` (between
      `s[p - 1]` and `s[p]`): exactly one side is a word character. */
  predicate Boundary(s: string, p: int)
  {
    WordCharAt(s, p - 1) != WordCharAt(s, p)
  }

  /** Ten to the power `k`, the bound on a `k`-digit value. */
  function Pow10(k: nat): (p: nat)
    ensures p >= 1
  {
    if k == 0 then 1 else 10 * Pow10(k - 1)
  }

  /** The value of a run of decimal digits, as `int(...)` parses it. */
  function DigitsValue(s: string): (v: nat)
    requires forall k :: 0 <= k < |s| ==> IsDigit(s[k])
    ensures v < Pow10(|s|)
  {
    if s == [] then 0
    else
      var last := s[|s| - 1];
      assert IsDigit(last);
      DigitsValue(s[..|s| - 1]) * 10 + (last as int - '0' as int)
  }

  /** `max(lo, min(x, hi))`. */
  function Clamp(x: int, lo: int, hi: int): (r: int)
    requires lo <= hi
    ensures lo <= r <= hi
    ensures lo <= x <= hi ==> r == x
    ensures x < lo ==> r == lo
    ensures hi < x ==> r == hi
  {
    if x < lo then lo else if hi < x then hi else x
  }

  /** Lower-casing keeps whitespace as whitespace, so the leading scan of
      `strip` stops at the same index on `s` and on its lower-case form. */
  lemma {:induction false} SkipSpacesLower(s: string, i: nat)
    requires i <= |s|
    ensures SkipSpaces(Lower(s), i) == SkipSpaces(s, i)
    decreases |s| - i
  {
    if i < |s| {
      LowerAt(s, i);
      if IsSpace(s[i]) {
        SkipSpacesLower(s, i + 1);
      }
    }
  }

  /** Likewise for the trailing scan of `strip`. */
  lemma {:induction false} SkipSpacesBackLower(s: string, lo: nat, j: nat)
    requires lo <= j <= |s|
    ensures SkipSpacesBack(Lower(s), lo, j) == SkipSpacesBack(s, lo, j)
    decreases j
  {
    if j > lo {
      LowerAt(s, j - 1);
      if IsSpace(s[j - 1]) {
        SkipSpacesBackLower(s, lo, j - 1);
      }
    }
  }

  /** Lower-casing never creates or removes whitespace, so stripping and
      lower-casing commute: `s.lower().strip() == s.strip().lower()`. */
  lemma LowerStripCommute(s: string)
    ensures Strip(Lower(s)) == Lower(Strip(s))
    ensures Strip(Lower(s)) == Norm(s)
  {
    var ls := Lower(s);
    var i := SkipSpaces(s, 0);
    SkipSpacesLower(s, 0);
    assert SkipSpaces(ls, 0) == i;
    var j := SkipSpacesBack(s, i, |s|);
    SkipSpacesBackLower(s, i, |s|);
    assert SkipSpacesBack(ls, i, |ls|) == j;
    assert Strip(ls) == ls[i..j];
    assert Strip(s) == s[i..j];
    LowerSlice(s, i, j);
  }

  /** Lower-casing commutes with taking a slice. */
  lemma LowerSlice(s: string, i: int, j: int)
    requires 0 <= i <= j <= |s|
    ensures Lower(s)[i..j] == Lower(s[i..j])
  {
    var t := s[i..j];
    assert |Lower(s)[i..j]| == |Lower(t)|;
    forall k | 0 <= k < |t|
      ensures Lower(s)[i..j][k] == Lower(t)[k]
    {
      LowerAt(s, i + k);
      LowerAt(t, k);
      assert t[k] == s[i + k];
    }
  }

  /** A string with no upper-case letter is its own lower-case form. */
  lemma LowerFixed(s: string)
    requires forall k :: 0 <= k < |s| ==> LowerChar(s[k]) == s[k]
    ensures Lower(s) == s
  {
    forall k | 0 <= k < |s| ensures Lower(s)[k] == s[k] {
      LowerAt(s, k);
    }
  }

  /** A string that neither starts nor ends with whitespace is unchanged by
      `strip`. */
  lemma StripFixed(s: string)
    requires s == [] || (!IsSpace(s[0]) && !IsSpace(s[|s| - 1]))
    ensures Strip(s) == s
  {
    assert SkipSpaces(s, 0) == 0;
    assert SkipSpacesBack(s, 0, |s|) == |s|;
  }
}
