/**
 * The few JavaScript string primitives the forms rely on: the character set
 * that `\s` matches and that `String.prototype.trim` strips, `trim` itself,
 * and `length`, which counts UTF-16 code units rather than characters.
 */
module JsString {

  /** ECMAScript WhiteSpace and LineTerminator code points (the `\s` class). */
  predicate IsWhitespace(c: char) {
    || ('\U{0009}' <= c <= '\U{000D}')   // tab, line feed, vertical tab, form feed, carriage return
    || c == ' '
    || c == '\U{00A0}'
    || c == '\U{1680}'
    || ('\U{2000}' <= c <= '\U{200A}')
    || c == '\U{2028}' || c == '\U{2029}'
    || c == '\U{202F}' || c == '\U{205F}'
    || c == '\U{3000}' || c == '\U{FEFF}'
  }

  predicate AllWhitespace(s: string) {
    forall i :: 0 <= i < |s| ==> IsWhitespace(s[i])
  }

  /** `\d` without the `u` flag: an ASCII decimal digit. */
  predicate IsAsciiDigit(c: char) {
    '0' <= c <= '9'
  }

  /** Length of the longest whitespace run at the start of `s`. */
  function LeadingWhitespace(s: string): (n: nat)
    ensures n <= |s|
    ensures forall i :: 0 <= i < n ==> IsWhitespace(s[i])
    ensures n < |s| ==> !IsWhitespace(s[n])
  {
    if s == [] || !IsWhitespace(s[0]) then 0
    else 1 + LeadingWhitespace(s[1..])
  }

  /** Length of the longest whitespace run at the end of `s`. */
  function TrailingWhitespace(s: string): (n: nat)
    ensures n <= |s|
    ensures forall i :: |s| - n <= i < |s| ==> IsWhitespace(s[i])
    ensures n < |s| ==> !IsWhitespace(s[|s| - 1 - n])
  {
    if s == [] || !IsWhitespace(s[|s| - 1]) then 0
    else 1 + TrailingWhitespace(s[..|s| - 1])
  }

  /** `r` sits at offset `i` of `s`, and everything of `s` around it is whitespace. */
  predicate FramedByWhitespace(s: string, i: int, r: string) {
    && 0 <= i <= |s| - |r|
    && r == s[i..i + |r|]
    && (forall k :: 0 <= k < i ==> IsWhitespace(s[k]))
    && (forall k :: i + |r| <= k < |s| ==> IsWhitespace(s[k]))
  }

  /**
   * `String.prototype.trim`: `s` with its leading and trailing whitespace
   * removed. The result is a slice of `s` framed by whitespace only, and
   * neither of its ends is whitespace.
   */
  function Trim(s: string): (r: string)
    ensures exists i :: FramedByWhitespace(s, i, r)
    ensures IsTrimmed(r)
  {
    var i := LeadingWhitespace(s);
    var t := s[i..];
    var r := t[..|t| - TrailingWhitespace(t)];
    assert FramedByWhitespace(s, i, r);
    r
  }

  /** JavaScript's `length`: characters outside the Basic Multilingual Plane take two code units. */
  function Utf16Length(s: string): (n: nat)
    ensures |s| <= n <= 2 * |s|
    ensures n == |s| <== forall i :: 0 <= i < |s| ==> s[i] < '\U{10000}'
  {
    if s == [] then 0
    else (if s[0] < '\U{10000}' then 1 else 2) + Utf16Length(s[1..])
  }

  /** Neither end of `s` is whitespace. */
  predicate IsTrimmed(s: string) {
    s != [] ==> !IsWhitespace(s[0]) && !IsWhitespace(s[|s| - 1])
  }

  /** Trimming a string that is already trimmed leaves it as it is. */
  lemma TrimOfTrimmed(s: string)
    requires IsTrimmed(s)
    ensures Trim(s) == s
  {
    var r := Trim(s);
    var i :| FramedByWhitespace(s, i, r);
    if s != [] {
      assert i == 0;
      assert i + |r| == |s|;
    }
  }

  /** Trailing whitespace after a non-empty trimmed string is all that `trim` removes. */
  lemma TrimDropsTrailingWhitespace(s: string, w: string)
    requires s != [] && IsTrimmed(s) && AllWhitespace(w)
    ensures Trim(s + w) == s
  {
    var t := s + w;
    var r := Trim(t);
    var i :| FramedByWhitespace(t, i, r);
    assert t[0] == s[0] && t[|s| - 1] == s[|s| - 1];
    assert i == 0;
    assert forall k :: |s| <= k < |t| ==> t[k] == w[k - |s|];
    assert r != [];
    assert t[|r| - 1] == r[|r| - 1];
    assert |r| <= |s|;
    assert |r| >= |s|;
    assert r == t[..|s|] == s;
  }
}
