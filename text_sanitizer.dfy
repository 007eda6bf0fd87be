/** `clean_text_chunk` of the retriever after its `unicode_escape` decoding: four regex passes that
    drop disallowed characters, squeeze newline runs, collapse whitespace runs and strip. */
module TextSanitizer {
  import opened PyText

  /** The regex class `\w` on `str` patterns (`str.isalnum()` or `_`) for the characters up to
      U+00FF. */
  predicate IsWordChar(c: char) {
    || ('a' <= c <= 'z') || ('A' <= c <= 'Z') || ('0' <= c <= '9') || c == '_'
    || c == 'ª' || c == '²' || c == '³' || c == 'µ' || c == '¹' || c == 'º'
    || ('¼' <= c <= '¾') || ('À' <= c <= 'Ö') || ('Ø' <= c <= 'ö')
    || ('ø' <= c <= 'ÿ')
  }

  /** The characters the first pass keeps: the complement of `[^\w\s.,:;()\-\'\"%]`. */
  predicate Allowed(c: char) {
    IsWordChar(c) || IsSpace(c) || c in ".,:;()-'\"%"
  }

  predicate AllAllowed(s: string) {
    forall i :: 0 <= i < |s| ==> Allowed(s[i])
  }

  /** No two neighbouring characters are both whitespace. */
  predicate NoDoubleSpace(s: string) {
    forall i :: 0 <= i < |s| - 1 ==> !(IsSpace(s[i]) && IsSpace(s[i + 1]))
  }

  /** No two neighbouring characters are both newlines. */
  predicate NoDoubleNewline(s: string) {
    forall i :: 0 <= i < |s| - 1 ==> !(s[i] == '\n' && s[i + 1] == '\n')
  }

  /** What the sanitiser promises of its output. */
  predicate Clean(s: string) {
    AllAllowed(s) && NoDoubleSpace(s) && (s == [] || (!IsSpace(s[0]) && !IsSpace(s[|s| - 1])))
  }

  /** The first pass, `[^\w\s.,:;()\-\'\"%]` replaced by nothing: every character that is not
      allowed is dropped, and the allowed ones stay, each as often as it occurred. */
  function KeepAllowed(s: string): (r: string)
    ensures AllAllowed(r)
    ensures forall c :: multiset(r)[c] == if Allowed(c) then multiset(s)[c] else 0
  {
    if s == [] then []
    else
      assert s == [s[0]] + s[1..];
      if Allowed(s[0]) then [s[0]] + KeepAllowed(s[1..]) else KeepAllowed(s[1..])
  }

  /** The first pass works character by character, so it keeps the allowed characters in their
      order: together with the multiset clause this pins `KeepAllowed` down as a filter. */
  lemma {:induction false} KeepAllowedAppend(s: string, t: string)
    ensures KeepAllowed(s + t) == KeepAllowed(s) + KeepAllowed(t)
  {
    if s == [] {
      assert s + t == t;
    } else {
      assert (s + t)[0] == s[0] && (s + t)[1..] == s[1..] + t;
      KeepAllowedAppend(s[1..], t);
    }
  }

  /** The second pass, `\n+` replaced by one newline: of two neighbouring newlines the first goes.
      No newline pair remains, the first character stays, and only newlines are dropped. */
  function SqueezeNewlines(s: string): (r: string)
    ensures NoDoubleNewline(r)
    ensures forall c :: c in r ==> c in s
    ensures s != [] ==> r != [] && r[0] == s[0]
    ensures RemoveChar(r, '\n') == RemoveChar(s, '\n')
    ensures |r| <= |s|
  {
    if s == [] then []
    else if |s| >= 2 && s[0] == '\n' && s[1] == '\n' then SqueezeNewlines(s[1..])
    else
      var t := SqueezeNewlines(s[1..]);
      assert ([s[0]] + t)[1..] == t;
      [s[0]] + t
  }

  /** The third pass, `\s{2,}` replaced by one space: a maximal run of two or more whitespace
      characters becomes one space, and a lone whitespace character stays as it is. Every
      non-whitespace character is kept, in order. */
  function CollapseSpaces(s: string): (r: string)
    ensures NoDoubleSpace(r)
    ensures forall c :: c in r ==> c in s || c == ' '
    ensures NonSpace(r) == NonSpace(s)
    ensures s == [] <==> r == []
    ensures s != [] ==> (IsSpace(r[0]) <==> IsSpace(s[0]))
    decreases |s|
  {
    if s == [] then []
    else if |s| >= 2 && IsSpace(s[0]) && IsSpace(s[1]) then
      var j := SkipSpace(s, 0);
      NonSpaceSkip(s, j);
      [' '] + CollapseSpaces(s[j..])
    else
      var t := CollapseSpaces(s[1..]);
      assert ([s[0]] + t)[1..] == t;
      [s[0]] + t
  }

  /** Dropping a leading whitespace run does not change the words. */
  lemma {:induction false} NonSpaceSkip(s: string, j: nat)
    requires j <= |s| && AllSpace(s[..j])
    ensures NonSpace(s) == NonSpace(s[j..])
  {
    assert s == s[..j] + s[j..];
    NonSpaceAppend(s[..j], s[j..]);
    NonSpaceAllSpace(s[..j]);
  }

  /** `clean_text_chunk` on already decoded text. */
  function CleanTextChunk(s: string): string {
    Strip(CollapseSpaces(SqueezeNewlines(KeepAllowed(s))))
  }

  lemma {:induction false} KeepAllowedNoop(s: string)
    requires AllAllowed(s)
    ensures KeepAllowed(s) == s
  {
    if s != [] {
      KeepAllowedNoop(s[1..]);
    }
  }

  lemma {:induction false} SqueezeNewlinesNoop(s: string)
    requires NoDoubleNewline(s)
    ensures SqueezeNewlines(s) == s
  {
    if s != [] {
      SqueezeNewlinesNoop(s[1..]);
    }
  }

  lemma {:induction false} CollapseSpacesNoop(s: string)
    requires NoDoubleSpace(s)
    ensures CollapseSpaces(s) == s
  {
    if s != [] {
      CollapseSpacesNoop(s[1..]);
    }
  }

  /** Squeezing and collapsing only drop characters or write a space, so nothing disallowed
      comes back. */
  lemma {:induction false} PassesKeepAllowed(s: string)
    requires AllAllowed(s)
    ensures AllAllowed(CollapseSpaces(SqueezeNewlines(s)))
  {
    var q := SqueezeNewlines(s);
    forall i | 0 <= i < |q| ensures Allowed(q[i]) {
      assert q[i] in q;
      var k :| 0 <= k < |s| && s[k] == q[i];
    }
    var c := CollapseSpaces(q);
    forall i | 0 <= i < |c| ensures Allowed(c[i]) {
      assert c[i] in c;
      if c[i] != ' ' {
        var k :| 0 <= k < |q| && q[k] == c[i];
      }
    }
  }

  /** A slice keeps both properties of the text it is cut from. */
  lemma {:induction false} SliceKeeps(c: string, k: nat, n: nat)
    requires k + n <= |c| && AllAllowed(c) && NoDoubleSpace(c)
    ensures AllAllowed(c[k..k + n]) && NoDoubleSpace(c[k..k + n])
  {
    var r := c[k..k + n];
    forall i | 0 <= i < n ensures Allowed(r[i]) {
      assert r[i] == c[k + i];
    }
    forall i | 0 <= i < n - 1 ensures !(IsSpace(r[i]) && IsSpace(r[i + 1])) {
      assert r[i] == c[k + i] && r[i + 1] == c[k + i + 1];
    }
  }

  /** Stripping a text that is allowed and has no whitespace pair makes it clean. */
  lemma {:induction false} StripMakesClean(c: string)
    requires AllAllowed(c) && NoDoubleSpace(c)
    ensures Clean(Strip(c))
  {
    StripShape(c);
    StripSlice(c);
    SliceKeeps(c, |c| - |StripLeft(c)|, |Strip(c)|);
  }

  /** Whatever it is given, the sanitiser returns only allowed characters, never two whitespace
      characters in a row, and nothing blank at either end. */
  lemma {:induction false} CleanTextChunkIsClean(s: string)
    ensures Clean(CleanTextChunk(s))
  {
    PassesKeepAllowed(KeepAllowed(s));
    StripMakesClean(CollapseSpaces(SqueezeNewlines(KeepAllowed(s))));
  }

  /** A clean text passes the sanitiser unchanged. */
  lemma {:induction false} CleanTextChunkNoop(s: string)
    requires Clean(s)
    ensures CleanTextChunk(s) == s
  {
    KeepAllowedNoop(s);
    assert NoDoubleNewline(s) by {
      forall i | 0 <= i < |s| - 1 ensures !(s[i] == '\n' && s[i + 1] == '\n') {
        assert !(IsSpace(s[i]) && IsSpace(s[i + 1]));
      }
    }
    SqueezeNewlinesNoop(s);
    CollapseSpacesNoop(s);
    StripNoop(s);
  }

  /** Apart from spacing, the sanitiser keeps exactly the allowed characters of its input, in
      order: once whitespace is ignored, its output is the first pass's output. */
  lemma {:induction false} CleanTextChunkKeepsWords(s: string)
    ensures NonSpace(CleanTextChunk(s)) == NonSpace(KeepAllowed(s))
  {
    var a := KeepAllowed(s);
    var q := SqueezeNewlines(a);
    NonSpaceStrip(CollapseSpaces(q));
    NonSpaceRemoveNewline(q);
    NonSpaceRemoveNewline(a);
  }

  /** Sanitising twice is sanitising once. */
  lemma {:induction false} CleanTextChunkIdempotent(s: string)
    ensures CleanTextChunk(CleanTextChunk(s)) == CleanTextChunk(s)
  {
    CleanTextChunkIsClean(s);
    CleanTextChunkNoop(CleanTextChunk(s));
  }
}
