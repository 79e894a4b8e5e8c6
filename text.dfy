/** Character classes and the few `java.lang.String` operations the domain layer uses.
    One whitespace class serves `isBlank`, `trim` and the regex class `\s`. */
module Text {

  /** The regex class `\s`: space, tab, line feed, vertical tab, form feed, carriage return. */
  predicate IsWhitespace(c: char) {
    c == ' ' || c == '\t' || c == '\n' || c == '\U{B}' || c == '\U{C}' || c == '\r'
  }

  /** `\d` with its default ASCII meaning. */
  predicate IsDigit(c: char) { '0' <= c <= '9' }

  predicate IsUpper(c: char) { 'A' <= c <= 'Z' }

  predicate IsLower(c: char) { 'a' <= c <= 'z' }

  predicate IsLetter(c: char) { IsUpper(c) || IsLower(c) }

  /** `\w` with its default ASCII meaning. */
  predicate IsWordChar(c: char) { IsLetter(c) || IsDigit(c) || c == '_' }

  predicate AllDigits(s: string) {
    forall i :: 0 <= i < |s| ==> IsDigit(s[i])
  }

  /** `String.isBlank`: empty or only whitespace. */
  predicate IsBlank(s: string) {
    forall i :: 0 <= i < |s| ==> IsWhitespace(s[i])
  }

  /** Leading whitespace removed: the result is a suffix of `s` and what was dropped is blank. */
  function TrimStart(s: string): (r: string)
    ensures |r| <= |s| && r == s[|s| - |r|..]
    ensures IsBlank(s[..|s| - |r|])
    ensures r != [] ==> !IsWhitespace(r[0])
  {
    if s != [] && IsWhitespace(s[0]) then TrimStart(s[1..]) else s
  }

  /** Trailing whitespace removed: the result is a prefix of `s` and what was dropped is blank. */
  function TrimEnd(s: string): (r: string)
    ensures |r| <= |s| && r == s[..|r|]
    ensures IsBlank(s[|r|..])
    ensures r != [] ==> !IsWhitespace(r[|r| - 1])
  {
    if s != [] && IsWhitespace(s[|s| - 1]) then TrimEnd(s[..|s| - 1]) else s
  }

  /** Neither end of `s` is whitespace. */
  predicate IsTrimmed(s: string) {
    s == [] || (!IsWhitespace(s[0]) && !IsWhitespace(s[|s| - 1]))
  }

  /** `String.trim`. */
  function Trim(s: string): (r: string)
    ensures |r| <= |s|
    ensures IsTrimmed(r)
  {
    TrimStart(TrimEnd(s))
  }

  /** `trim` keeps the part of `s` between a blank prefix and a blank suffix. */
  lemma TrimIsInnerSlice(s: string)
    ensures exists i, j :: 0 <= i <= j <= |s| && Trim(s) == s[i..j] && IsBlank(s[..i]) && IsBlank(s[j..])
  {
    var e := TrimEnd(s);
    var t := TrimStart(e);
    var i, j := |e| - |t|, |e|;
    assert e == s[..j];
    assert t == s[i..j] && s[..i] == e[..i];
  }

  /** Trimming removes everything exactly when the string is blank. */
  lemma TrimEmptyIffBlank(s: string)
    ensures Trim(s) == [] <==> IsBlank(s)
  {
    var e := TrimEnd(s);
    if e == [] {
      assert s[|e|..] == s;
    } else {
      assert s[|e| - 1] == e[|e| - 1];
    }
  }

  lemma TrimStartFixed(s: string)
    requires s == [] || !IsWhitespace(s[0])
    ensures TrimStart(s) == s
  {
  }

  lemma TrimEndFixed(s: string)
    requires s == [] || !IsWhitespace(s[|s| - 1])
    ensures TrimEnd(s) == s
  {
  }

  /** A string is left as it is by trimming exactly when its ends are not whitespace. */
  lemma TrimFixedIffTrimmed(s: string)
    ensures Trim(s) == s <==> IsTrimmed(s)
  {
    if IsTrimmed(s) {
      TrimEndFixed(s);
      TrimStartFixed(s);
    }
  }

  /** Trimming twice is trimming once. */
  lemma TrimIdempotent(s: string)
    ensures Trim(Trim(s)) == Trim(s)
  {
    TrimFixedIffTrimmed(Trim(s));
  }

  /** A trimmed non-blank string stays non-blank. */
  lemma TrimKeepsNonBlank(s: string)
    ensures !IsBlank(s) ==> !IsBlank(Trim(s))
  {
    TrimEmptyIffBlank(s);
    var t := Trim(s);
    if t != [] {
      assert !IsWhitespace(t[0]);
    }
  }

  /** `Character.toUpperCase` restricted to ASCII. */
  function ToUpperChar(c: char): char {
    if IsLower(c) then (c as int - 32) as char else c
  }

  /** `String.toUpperCase` restricted to ASCII: same length, each character upper-cased. */
  function ToUpper(s: string): (r: string)
    ensures |r| == |s|
    ensures forall i :: 0 <= i < |s| ==> r[i] == ToUpperChar(s[i])
  {
    seq(|s|, i requires 0 <= i < |s| => ToUpperChar(s[i]))
  }

  /** Upper-casing is idempotent and keeps the whitespace positions. */
  lemma ToUpperIdempotent(s: string)
    ensures ToUpper(ToUpper(s)) == ToUpper(s)
    ensures IsBlank(ToUpper(s)) <==> IsBlank(s)
  {
  }
}
