/** The few Python `str` operations the core relies on: the whitespace class shared by
    `str.strip()` and the regex class `\s`, stripping, lower-casing, prefix and substring tests,
    and single-character removal or replacement. */
module PyText {

  /** Python's whitespace set (`str.isspace`, `\s` on `str` patterns, `str.strip()`). */
  predicate IsSpace(c: char) {
    || ('\t' <= c <= '\r')
    || ('\U{1C}' <= c <= '\U{1F}')
    || c == ' ' || c == '\U{85}' || c == '\U{A0}' || c == '\U{1680}'
    || ('\U{2000}' <= c <= '\U{200A}')
    || c == '\U{2028}' || c == '\U{2029}' || c == '\U{202F}' || c == '\U{205F}' || c == '\U{3000}'
  }

  predicate AllSpace(s: string) {
    forall i :: 0 <= i < |s| ==> IsSpace(s[i])
  }

  /** `str.lstrip()`: the longest suffix that does not start with whitespace. */
  function StripLeft(s: string): string {
    if s != [] && IsSpace(s[0]) then StripLeft(s[1..]) else s
  }

  /** What `lstrip()` keeps is a suffix that does not start with whitespace; what it removes is
      whitespace. */
  lemma {:induction false} StripLeftShape(s: string)
    ensures var r := StripLeft(s);
      && |r| <= |s| && r == s[|s| - |r|..]
      && (r == [] || !IsSpace(r[0]))
      && AllSpace(s[..|s| - |r|])
  {
    if s != [] && IsSpace(s[0]) {
      var t := s[1..];
      var r := StripLeft(t);
      StripLeftShape(t);
      assert StripLeft(s) == r;
      assert t[|t| - |r|..] == s[|s| - |r|..];
      forall i | 0 <= i < |s| - |r|
        ensures IsSpace(s[i])
      {
        if i > 0 {
          assert s[i] == t[..|t| - |r|][i - 1];
        }
      }
    }
  }

  /** `str.rstrip()`: the longest prefix that does not end with whitespace. */
  function StripRight(s: string): string {
    if s != [] && IsSpace(s[|s| - 1]) then StripRight(s[..|s| - 1]) else s
  }

  /** What `rstrip()` keeps is a prefix that does not end with whitespace; what it removes is
      whitespace. */
  lemma {:induction false} StripRightShape(s: string)
    ensures var r := StripRight(s);
      && |r| <= |s| && r == s[..|r|]
      && (r == [] || !IsSpace(r[|r| - 1]))
      && AllSpace(s[|r|..])
  {
    if s != [] && IsSpace(s[|s| - 1]) {
      var t := s[..|s| - 1];
      StripRightShape(t);
      assert s[|StripRight(s)|..] == t[|StripRight(t)|..] + [s[|s| - 1]];
    }
  }

  /** `str.strip()`. */
  function Strip(s: string): string {
    StripRight(StripLeft(s))
  }

  /** Stripping yields a contiguous piece of the input, bordered by whitespace only, that neither
      starts nor ends with whitespace. */
  lemma {:induction false} StripShape(s: string)
    ensures var r := Strip(s);
      && (r == [] || (!IsSpace(r[0]) && !IsSpace(r[|r| - 1])))
      && exists i :: 0 <= i <= |s| - |r| && r == s[i..i + |r|]
           && AllSpace(s[..i]) && AllSpace(s[i + |r|..])
  {
    var l := StripLeft(s);
    var r := StripRight(l);
    var i := |s| - |l|;
    StripLeftShape(s);
    StripRightShape(l);
    assert r == s[i..i + |r|];
    assert s[i + |r|..] == l[|r|..];
  }

  /** Where the stripped string sits in the input: right after what `lstrip()` removes. */
  lemma {:induction false} StripSlice(s: string)
    ensures |StripLeft(s)| <= |s|
    ensures var i := |s| - |StripLeft(s)|;
      i + |Strip(s)| <= |s| && Strip(s) == s[i..i + |Strip(s)|]
  {
    StripLeftShape(s);
    StripRightShape(StripLeft(s));
  }

  /** A string that neither starts nor ends with whitespace is its own strip. */
  lemma {:induction false} StripNoop(s: string)
    requires s == [] || (!IsSpace(s[0]) && !IsSpace(s[|s| - 1]))
    ensures Strip(s) == s
  {
  }

  /** `strip()` yields the empty string exactly for a blank input. */
  lemma {:induction false} StripBlank(s: string)
    ensures Strip(s) == [] <==> AllSpace(s)
  {
    StripShape(s);
    var r := Strip(s);
    var i :| 0 <= i <= |s| - |r| && r == s[i..i + |r|] && AllSpace(s[..i]) && AllSpace(s[i + |r|..]);
    if r == [] {
      forall k | 0 <= k < |s| ensures IsSpace(s[k]) {
        if k < i { assert s[k] == s[..i][k]; } else { assert s[k] == s[i..][k - i]; }
      }
    } else {
      assert s[i] == r[0];
    }
  }

  /** `strip()` is idempotent. */
  lemma {:induction false} StripIdempotent(s: string)
    ensures Strip(Strip(s)) == Strip(s)
  {
    StripShape(s);
    StripNoop(Strip(s));
  }

  /** Lower-casing of one character, for ASCII and the Latin-1 capitals only; every other
      character, Greek and Cyrillic capitals included, is left as it is. */
  function LowerChar(c: char): char {
    if 'A' <= c <= 'Z' || ('\U{C0}' <= c <= '\U{DE}' && c != '\U{D7}')
    then (c as int + 32) as char
    else c
  }

  /** Python's `str.lower()` and Cypher's `toLower`, for texts whose capitals `LowerChar` covers.
      Both also lower-case the rest of Unicode, some characters into two (U+0130 becomes `i`
      with a combining dot), which this one-for-one map does not. */
  function Lower(s: string): (r: string)
    ensures |r| == |s|
    ensures forall i :: 0 <= i < |s| ==> r[i] == LowerChar(s[i])
  {
    if s == [] then [] else [LowerChar(s[0])] + Lower(s[1..])
  }

  lemma {:induction false} LowerCharIdempotent(c: char)
    ensures LowerChar(LowerChar(c)) == LowerChar(c)
  {
  }

  /** Lower-casing twice is lower-casing once. */
  lemma {:induction false} LowerIdempotent(s: string)
    ensures Lower(Lower(s)) == Lower(s)
  {
    var l := Lower(s);
    forall i | 0 <= i < |s| ensures Lower(l)[i] == l[i] {
      LowerCharIdempotent(s[i]);
    }
  }

  /** Lower-casing never turns a whitespace character into something else or the reverse. */
  lemma {:induction false} LowerCharKeepsSpace(c: char)
    ensures IsSpace(LowerChar(c)) <==> IsSpace(c)
  {
  }

  predicate StartsWith(s: string, prefix: string) {
    |prefix| <= |s| && s[..|prefix|] == prefix
  }

  /** `sub` occurs in `s` starting at index `i`. */
  predicate OccursAt(s: string, sub: string, i: nat) {
    i + |sub| <= |s| && s[i..i + |sub|] == sub
  }

  /** Python `sub in s`. */
  predicate Contains(s: string, sub: string) {
    exists i: nat :: i <= |s| && OccursAt(s, sub, i)
  }

  /** `s.replace(c, "")`. */
  function RemoveChar(s: string, c: char): (r: string)
    ensures c !in r
    ensures |r| <= |s|
    ensures forall d :: d != c ==> (d in r <==> d in s)
  {
    if s == [] then []
    else if s[0] == c then RemoveChar(s[1..], c)
    else [s[0]] + RemoveChar(s[1..], c)
  }

  /** The text with every whitespace character dropped: what a sequence of words reads as once
      spacing is ignored. */
  function NonSpace(s: string): string {
    if s == [] then [] else if IsSpace(s[0]) then NonSpace(s[1..]) else [s[0]] + NonSpace(s[1..])
  }

  lemma {:induction false} NonSpaceAppend(s: string, t: string)
    ensures NonSpace(s + t) == NonSpace(s) + NonSpace(t)
  {
    if s == [] {
      assert s + t == t;
    } else {
      assert (s + t)[0] == s[0] && (s + t)[1..] == s[1..] + t;
      NonSpaceAppend(s[1..], t);
    }
  }

  lemma {:induction false} NonSpaceAllSpace(s: string)
    requires AllSpace(s)
    ensures NonSpace(s) == []
  {
    if s != [] {
      NonSpaceAllSpace(s[1..]);
    }
  }

  /** Stripping only removes whitespace, so the words are those of the input. */
  lemma {:induction false} NonSpaceStrip(s: string)
    ensures NonSpace(Strip(s)) == NonSpace(s)
  {
    var l := StripLeft(s);
    var r := StripRight(l);
    StripLeftShape(s);
    StripRightShape(l);
    var i := |s| - |l|;
    assert s == s[..i] + l;
    assert l == r + l[|r|..];
    NonSpaceAppend(s[..i], l);
    NonSpaceAppend(r, l[|r|..]);
    NonSpaceAllSpace(s[..i]);
    NonSpaceAllSpace(l[|r|..]);
  }

  /** Dropping the newlines first changes nothing once all whitespace is dropped. */
  lemma {:induction false} NonSpaceRemoveNewline(s: string)
    ensures NonSpace(RemoveChar(s, '\n')) == NonSpace(s)
  {
    if s != [] {
      NonSpaceRemoveNewline(s[1..]);
      if s[0] != '\n' {
        assert RemoveChar(s, '\n') == [s[0]] + RemoveChar(s[1..], '\n');
        assert ([s[0]] + RemoveChar(s[1..], '\n'))[1..] == RemoveChar(s[1..], '\n');
      }
    }
  }

  /** `s.replace(a, b)` for single characters. */
  function ReplaceChar(s: string, a: char, b: char): (r: string)
    ensures |r| == |s|
    ensures forall i :: 0 <= i < |s| ==> r[i] == (if s[i] == a then b else s[i])
  {
    if s == [] then [] else [if s[0] == a then b else s[0]] + ReplaceChar(s[1..], a, b)
  }

  /** The first index at or after `k` that does not hold whitespace (or `|s|`). */
  function SkipSpace(s: string, k: nat): (j: nat)
    requires k <= |s|
    ensures k <= j <= |s|
    ensures AllSpace(s[k..j])
    ensures j == |s| || !IsSpace(s[j])
    decreases |s| - k
  {
    if k < |s| && IsSpace(s[k]) then SkipSpace(s, k + 1) else k
  }

  /** `SkipSpace` is determined by its two properties: skipping from `k` over a blank run that
      ends at a non-blank `j` lands exactly on `j`. */
  lemma {:induction false} SkipSpaceExact(s: string, k: nat, j: nat)
    requires k <= j < |s| && AllSpace(s[k..j]) && !IsSpace(s[j])
    ensures SkipSpace(s, k) == j
    decreases j - k
  {
    if k < j {
      assert IsSpace(s[k..j][0]);
      assert s[k + 1..j] == s[k..j][1..];
      SkipSpaceExact(s, k + 1, j);
    }
  }

  /** Skipping never passes a non-blank character. */
  lemma {:induction false} SkipSpaceStopsAt(s: string, k: nat, m: nat)
    requires k <= m < |s| && !IsSpace(s[m])
    ensures SkipSpace(s, k) <= m
    decreases m - k
  {
    if k < m && IsSpace(s[k]) {
      SkipSpaceStopsAt(s, k + 1, m);
    }
  }
}
