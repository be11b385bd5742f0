/** Normalisation of the font name: surrounding whitespace is trimmed, then
    every character outside `[A-Za-z0-9_]` becomes one hyphen. */
module FontName {

  /** The characters Ruby's `strip` removes: space, tab, line feed, vertical
      tab, form feed and carriage return. */
  predicate IsWhitespace(c: char) {
    c == ' ' || c == '\t' || c == '\n' || c == '\r' || c as int == 11 || c as int == 12
  }

  /** A character of the regular-expression class `\w`. */
  predicate IsWordChar(c: char) {
    ('a' <= c <= 'z') || ('A' <= c <= 'Z') || ('0' <= c <= '9') || c == '_'
  }

  /** A character that may appear in a normalised font name. */
  predicate IsSafeChar(c: char) {
    IsWordChar(c) || c == '-'
  }

  predicate IsSafeName(s: string) {
    forall i :: 0 <= i < |s| ==> IsSafeChar(s[i])
  }

  /** `s[i..j]` is `s` with its surrounding whitespace removed: everything
      before `i` and from `j` on is whitespace, and the kept part neither
      starts nor ends with whitespace. */
  predicate TrimmedAt(s: string, i: int, j: int) {
    && 0 <= i <= j <= |s|
    && (forall k :: 0 <= k < i ==> IsWhitespace(s[k]))
    && (forall k :: j <= k < |s| ==> IsWhitespace(s[k]))
    && (i < j ==> !IsWhitespace(s[i]) && !IsWhitespace(s[j - 1]))
  }

  /** Number of whitespace characters at the start of `s`. */
  function LeadingSpace(s: string): (n: nat)
    ensures n <= |s|
    ensures forall k :: 0 <= k < n ==> IsWhitespace(s[k])
    ensures n < |s| ==> !IsWhitespace(s[n])
  {
    if |s| == 0 || !IsWhitespace(s[0]) then 0 else 1 + LeadingSpace(s[1..])
  }

  /** Number of whitespace characters at the end of `s`. */
  function TrailingSpace(s: string): (n: nat)
    ensures n <= |s|
    ensures forall k :: |s| - n <= k < |s| ==> IsWhitespace(s[k])
    ensures n < |s| ==> !IsWhitespace(s[|s| - n - 1])
  {
    if |s| == 0 || !IsWhitespace(s[|s| - 1]) then 0 else 1 + TrailingSpace(s[..|s| - 1])
  }

  /** Ruby's `strip`. */
  function Strip(s: string): (r: string)
    ensures exists i, j :: TrimmedAt(s, i, j) && r == s[i..j]
  {
    var a := LeadingSpace(s);
    var rest := s[a..];
    var b := TrailingSpace(rest);
    assert TrimmedAt(s, a, |s| - b) by {
      forall k | |s| - b <= k < |s|
        ensures IsWhitespace(s[k])
      {
        assert s[k] == rest[k - a];
      }
      if a < |s| - b {
        assert s[|s| - b - 1] == rest[|rest| - b - 1];
      }
    }
    assert rest[..|rest| - b] == s[a..|s| - b];
    rest[..|rest| - b]
  }

  /** Ruby's `gsub(/\W/, "-")`: every non-word character becomes one hyphen. */
  function Hyphenate(t: string): (r: string)
    ensures |r| == |t|
    ensures forall i :: 0 <= i < |t| && IsWordChar(t[i]) ==> r[i] == t[i]
    ensures forall i :: 0 <= i < |t| && !IsWordChar(t[i]) ==> r[i] == '-'
  {
    if |t| == 0 then []
    else [if IsWordChar(t[0]) then t[0] else '-'] + Hyphenate(t[1..])
  }

  /** The normalised font name. Its characters are all word characters or
      hyphens; it is exactly as long as the trimmed input (a run of
      disallowed characters is not collapsed); word characters stay where
      they were and each other character becomes one hyphen. */
  function Normalize(s: string): (r: string)
    ensures IsSafeName(r)
    ensures |r| == |Strip(s)|
    ensures forall i :: 0 <= i < |r| && IsWordChar(Strip(s)[i]) ==> r[i] == Strip(s)[i]
    ensures forall i :: 0 <= i < |r| && !IsWordChar(Strip(s)[i]) ==> r[i] == '-'
  {
    Hyphenate(Strip(s))
  }

  /** Trimming is determined by the input: whenever `s[i..j]` is a
      non-empty trimming of `s`, it is what `strip` returns. */
  lemma {:induction false} StripExact(s: string, i: int, j: int)
    requires TrimmedAt(s, i, j) && i < j
    ensures Strip(s) == s[i..j]
  {
    var t := Strip(s);
    var i', j' :| TrimmedAt(s, i', j') && t == s[i'..j'];
    assert !IsWhitespace(s[i]) && !IsWhitespace(s[j - 1]);
    assert i' < j';
    assert !IsWhitespace(s[i']) && !IsWhitespace(s[j' - 1]);
    assert i' == i && j' == j;
  }

  /** A name without surrounding whitespace is left alone by `strip`. */
  lemma StripUntrimmed(s: string)
    requires |s| == 0 || (!IsWhitespace(s[0]) && !IsWhitespace(s[|s| - 1]))
    ensures Strip(s) == s
  {
    if |s| > 0 {
      StripExact(s, 0, |s|);
    } else {
      var t := Strip(s);
    }
  }

  /** Normalising is idempotent: a normalised name is its own normal form. */
  lemma {:induction false} NormalizeIdempotent(s: string)
    ensures Normalize(Normalize(s)) == Normalize(s)
  {
    var r := Normalize(s);
    assert forall c :: IsSafeChar(c) ==> !IsWhitespace(c);
    StripUntrimmed(r);
    var r' := Normalize(r);
    assert |r'| == |r|;
    forall i | 0 <= i < |r|
      ensures r'[i] == r[i]
    {
      assert IsSafeChar(r[i]);
    }
  }

  /** A normalised name never starts with `/`, so joining it to a directory
      and expanding it against that directory agree. */
  lemma NormalizedIsRelative(s: string)
    ensures |Normalize(s)| == 0 || Normalize(s)[0] != '/'
  {
    var r := Normalize(s);
    if |r| > 0 {
      assert IsSafeChar(r[0]);
    }
  }

  /** The example the test suite uses: whitespace at both ends is dropped and
      each of the two inner spaces, the space before `Ø`, `Ø` and `&` turns
      into its own hyphen. */
  lemma NormalizeExample()
    ensures Normalize(" A_stR4nG3  nAm3 Ø&  ") == "A_stR4nG3--nAm3---"
  {
    var s := " A_stR4nG3  nAm3 Ø&  ";
    var t := "A_stR4nG3  nAm3 Ø&";
    assert TrimmedAt(s, 1, 19);
    StripExact(s, 1, 19);
    assert s[1..19] == t;
    HyphenateExample(t);
  }

  lemma HyphenateExample(t: string)
    requires t == "A_stR4nG3  nAm3 Ø&"
    ensures Hyphenate(t) == "A_stR4nG3--nAm3---"
  {
    var r := Hyphenate(t);
    var expected := "A_stR4nG3--nAm3---";
    forall k | 0 <= k < |r|
      ensures r[k] == expected[k]
    {
    }
  }
}
