/** Python's `str.strip()` with no argument, on text as sequences of Unicode scalar values. */
module TextRules {

  /** `str.isspace()` of one character: the whitespace `str.strip()` removes. */
  predicate IsSpace(c: char) {
    || c == ' '
    || '\t' <= c <= '\r'
    || '\U{1C}' <= c <= '\U{1F}'
    || c == '\U{85}' || c == '\U{A0}' || c == '\U{1680}'
    || '\U{2000}' <= c <= '\U{200A}'
    || c == '\U{2028}' || c == '\U{2029}' || c == '\U{202F}' || c == '\U{205F}' || c == '\U{3000}'
  }

  ghost predicate AllSpace(s: string) {
    forall k | 0 <= k < |s| :: IsSpace(s[k])
  }

  /** How many characters of whitespace `s` starts with. */
  function LeadingSpaces(s: string): (n: nat)
    ensures n <= |s|
    ensures forall k | 0 <= k < n :: IsSpace(s[k])
    ensures n < |s| ==> !IsSpace(s[n])
  {
    if s == [] || !IsSpace(s[0]) then 0 else 1 + LeadingSpaces(s[1..])
  }

  /** How many characters of whitespace `s` ends with. */
  function TrailingSpaces(s: string): (n: nat)
    ensures n <= |s|
    ensures forall k | |s| - n <= k < |s| :: IsSpace(s[k])
    ensures n < |s| ==> !IsSpace(s[|s| - 1 - n])
  {
    if s == [] || !IsSpace(s[|s| - 1]) then 0 else 1 + TrailingSpaces(s[..|s| - 1])
  }

  /**
   * `s.strip()`: `s` without its leading and trailing whitespace. It is empty exactly when `s` is
   * all whitespace, and otherwise starts and ends with a character that is not whitespace.
   */
  function Strip(s: string): (r: string)
    ensures |r| <= |s|
    ensures r == "" <==> AllSpace(s)
    ensures r != "" ==> !IsSpace(r[0]) && !IsSpace(r[|r| - 1])
  {
    var i := LeadingSpaces(s);
    if i == |s| then "" else s[i..|s| - TrailingSpaces(s)]
  }

  /** Whether `x` could be the result of a strip: empty, or without whitespace at either end. */
  predicate Trimmed(x: string) {
    x == "" || (!IsSpace(x[0]) && !IsSpace(x[|x| - 1]))
  }

  /**
   * `strip` removes exactly the whitespace around the text: whatever whitespace surrounds a
   * trimmed text, stripping gives that text back.
   */
  lemma StripExact(pre: string, x: string, post: string)
    requires AllSpace(pre) && AllSpace(post) && Trimmed(x)
    ensures Strip(pre + x + post) == x
  {
    var s := pre + x + post;
    SpacesAround(pre, x, post);
    if x != "" {
      LeadingExact(s, |pre|);
      TrailingExact(s, |post|);
      assert s[|pre|..|s| - |post|] == x;
    }
  }

  /** Where the characters of `pre`, `x` and `post` sit in their concatenation. */
  lemma SpacesAround(pre: string, x: string, post: string)
    requires AllSpace(pre) && AllSpace(post)
    ensures var s := pre + x + post;
      && (forall k | 0 <= k < |pre| :: IsSpace(s[k]))
      && (forall k | |s| - |post| <= k < |s| :: IsSpace(s[k]))
      && (x == "" ==> AllSpace(s))
      && (x != "" ==> s[|pre|] == x[0] && s[|s| - 1 - |post|] == x[|x| - 1])
  {
    var s := pre + x + post;
    forall k | 0 <= k < |pre| ensures IsSpace(s[k]) {
      assert s[k] == pre[k];
    }
    forall k | |s| - |post| <= k < |s| ensures IsSpace(s[k]) {
      assert s[k] == post[k - (|s| - |post|)];
    }
  }

  /** LeadingSpaces is the only count its contract allows. */
  lemma LeadingExact(s: string, n: nat)
    requires n < |s| && !IsSpace(s[n])
    requires forall k | 0 <= k < n :: IsSpace(s[k])
    ensures LeadingSpaces(s) == n
  {
  }

  /** TrailingSpaces is the only count its contract allows. */
  lemma TrailingExact(s: string, n: nat)
    requires n < |s| && !IsSpace(s[|s| - 1 - n])
    requires forall k | |s| - n <= k < |s| :: IsSpace(s[k])
    ensures TrailingSpaces(s) == n
  {
  }

  /** Stripping twice changes nothing more. */
  lemma StripIdempotent(s: string)
    ensures Strip(Strip(s)) == Strip(s)
  {
    var r := Strip(s);
    assert "" + r + "" == r;
    StripExact("", r, "");
  }

  /** The stripped text is the part of `s` between its leading and its trailing whitespace. */
  lemma StripIsInfix(s: string)
    ensures var r := Strip(s); var i := LeadingSpaces(s);
      && i + |r| <= |s| && s[i..i + |r|] == r
      && AllSpace(s[..i]) && AllSpace(s[i + |r|..])
  {
    var r := Strip(s);
    var i := LeadingSpaces(s);
    var head := s[..i];
    forall k | 0 <= k < |head| ensures IsSpace(head[k]) {
      assert head[k] == s[k];
    }
    var t := if i == |s| then 0 else TrailingSpaces(s);
    assert i + |r| == |s| - t;
    var tail := s[|s| - t..];
    forall k | 0 <= k < |tail| ensures IsSpace(tail[k]) {
      assert tail[k] == s[|s| - t + k];
    }
  }

  /** Whitespace-only text strips to nothing; text around a word strips to the word. */
  lemma StripExamples()
    ensures Strip(" \t\n") == ""
    ensures Strip("  hello world \r\n") == "hello world"
  {
    assert AllSpace(" \t\n");
    assert "  " + "hello world" + " \r\n" == "  hello world \r\n";
    StripExact("  ", "hello world", " \r\n");
  }
}
