/**
 * String helpers of the JavaScript runtime that the form validation relies on:
 * `String.prototype.trim` and the "blank after trimming" test `!s.trim()`.
 */
module Text {

  /** The characters `trim` removes: the Unicode space separators (category Zs),
      the ASCII control spaces, the line terminators and the byte-order mark. */
  predicate IsJsWhitespace(c: char) {
    c in {' ', '\t', '\n', '\r', '\U{0B}', '\U{0C}', '\U{A0}', '\U{1680}',
          '\U{2000}', '\U{2001}', '\U{2002}', '\U{2003}', '\U{2004}', '\U{2005}',
          '\U{2006}', '\U{2007}', '\U{2008}', '\U{2009}', '\U{200A}',
          '\U{2028}', '\U{2029}', '\U{202F}', '\U{205F}', '\U{3000}', '\U{FEFF}'}
  }

  predicate AllWhitespace(s: string) {
    forall i :: 0 <= i < |s| ==> IsJsWhitespace(s[i])
  }

  /** Drops leading whitespace: empty exactly when `s` is all whitespace, and otherwise
      starting with a character that is not whitespace. */
  function TrimStart(s: string): (r: string)
    ensures r != [] ==> !IsJsWhitespace(r[0])
    ensures r == [] <==> AllWhitespace(s)
  {
    if s != [] && IsJsWhitespace(s[0]) then
      var r := TrimStart(s[1..]);
      assert forall i :: 0 <= i < |s| - 1 ==> s[1..][i] == s[i + 1];
      r
    else s
  }

  /** Drops trailing whitespace: empty exactly when `s` is all whitespace. */
  function TrimEnd(s: string): (r: string)
    ensures r == [] <==> AllWhitespace(s)
  {
    if s != [] && IsJsWhitespace(s[|s| - 1]) then
      TrimEnd(s[..|s| - 1])
    else s
  }

  /** `s.trim()`: empty exactly when every character of `s` is whitespace. */
  function Trim(s: string): (r: string)
    ensures r == [] <==> AllWhitespace(s)
  {
    TrimEnd(TrimStart(s))
  }

  /** `!s.trim()`: the trimmed string is the empty string, which JavaScript treats as false. */
  predicate IsBlank(s: string) {
    Trim(s) == ""
  }

}
