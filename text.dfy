/** The string operations the components use: `charAt(0).toUpperCase() + slice(1)` and
    "empty after `trim()`". */
module Text {

  /** `toUpperCase` on one character, for the ASCII letters. */
  function UpperCase(c: char): (u: char)
  {
    if 'a' <= c <= 'z' then (c as int - 'a' as int + 'A' as int) as char else c
  }

  /** `s.charAt(0).toUpperCase() + s.slice(1)`; the empty string stays empty. */
  function Capitalize(s: string): (r: string)
  {
    if s == "" then "" else [UpperCase(s[0])] + s[1..]
  }

  /** Capitalizing keeps the length and every character after the first, maps a lower-case
      ASCII head to its upper-case letter and leaves any other head as it is. */
  lemma CapitalizeTouchesOnlyTheHead(s: string)
    ensures |Capitalize(s)| == |s|
    ensures s != "" ==> Capitalize(s)[1..] == s[1..]
    ensures s != "" && 'a' <= s[0] <= 'z' ==> 'A' <= Capitalize(s)[0] <= 'Z'
    ensures s != "" && 'a' <= s[0] <= 'z' ==> Capitalize(s)[0] as int == s[0] as int - 32
    ensures s != "" && !('a' <= s[0] <= 'z') ==> Capitalize(s)[0] == s[0]
    ensures Capitalize(Capitalize(s)) == Capitalize(s)
  {
  }

  /** The characters `String.prototype.trim` removes: ECMAScript WhiteSpace and LineTerminator. */
  predicate IsWhiteSpace(c: char)
  {
    c == '\t' || c == '\n' || c == '\U{000B}' || c == '\U{000C}' || c == '\r' || c == ' '
    || c == '\U{00A0}' || c == '\U{1680}' || ('\U{2000}' <= c <= '\U{200A}')
    || c == '\U{2028}' || c == '\U{2029}' || c == '\U{202F}' || c == '\U{205F}'
    || c == '\U{3000}' || c == '\U{FEFF}'
  }

  /** `!s.trim()`: nothing is left once the surrounding white space is removed. */
  predicate IsBlank(s: string)
  {
    forall i :: 0 <= i < |s| ==> IsWhiteSpace(s[i])
  }
}
