/** The blank test both handlers start with: `s.trim()` in JavaScript,
    which strips the code units that ECMA-262 (2022 edition, section 22.1.3.30)
    calls WhiteSpace or LineTerminator from both ends of a string. */
module Whitespace {

  /** WhiteSpace (section 12.2 of ECMA-262: TAB, VT, FF, ZWNBSP and every
      Unicode "Space_Separator" code point) or LineTerminator (section 12.3:
      LF, CR, LS, PS). */
  predicate IsWhite(c: char) {
    c == '\t' || c == '\U{000B}' || c == '\U{000C}' || c == ' ' || c == '\U{00A0}' || c == '\U{FEFF}'
    || c == '\U{1680}' || ('\U{2000}' <= c <= '\U{200A}') || c == '\U{202F}' || c == '\U{205F}' || c == '\U{3000}'
    || c == '\n' || c == '\r' || c == '\U{2028}' || c == '\U{2029}'
  }

  /** Every character of `s` is white space; the empty string is blank. */
  predicate IsBlank(s: string) {
    forall i :: 0 <= i < |s| ==> IsWhite(s[i])
  }

  /** The length of the white run `s` starts with: everything before it is
      white space, and the character after it (if any) is not. */
  function LeadingWhite(s: string): (n: nat)
    ensures n <= |s|
    ensures forall i :: 0 <= i < n ==> IsWhite(s[i])
    ensures n < |s| ==> !IsWhite(s[n])
    decreases |s|
  {
    if s != [] && IsWhite(s[0]) then
      var m := LeadingWhite(s[1..]);
      assert forall i :: 1 <= i < 1 + m ==> s[i] == s[1..][i - 1];
      1 + m
    else 0
  }
  /** The length of the white run `s` ends with, mirrored. */
  function TrailingWhite(s: string): (n: nat)
    ensures n <= |s|
    ensures forall i :: |s| - n <= i < |s| ==> IsWhite(s[i])
    ensures n < |s| ==> !IsWhite(s[|s| - 1 - n])
    decreases |s|
  {
    if s != [] && IsWhite(s[|s| - 1]) then
      var m := TrailingWhite(s[..|s| - 1]);
      assert forall i :: |s| - 1 - m <= i < |s| - 1 ==> s[i] == s[..|s| - 1][i];
      1 + m
    else 0
  }
  /** Neither starts nor ends with white space: trimming leaves it as it is. */
  predicate IsTrimmed(s: string) {
    s == [] || (!IsWhite(s[0]) && !IsWhite(s[|s| - 1]))
  }

  /** `String.prototype.trim`: the result has nothing left to trim, and it is
      empty exactly when `s` is blank. */
  function Trim(s: string): (r: string)
    ensures r == [] <==> IsBlank(s)
    ensures IsTrimmed(r)
  {
    var a := LeadingWhite(s);
    if a == |s| then [] else s[a..|s| - TrailingWhite(s)]
  }

  /** What trim keeps is the slice of `s` starting at its first non-white
      character, and every character it drops is white space. */
  lemma TrimKeepsMiddle(s: string)
    ensures var a := LeadingWhite(s); var r := Trim(s);
      && a + |r| <= |s| && r == s[a..a + |r|]
      && forall i :: 0 <= i < |s| && !(a <= i < a + |r|) ==> IsWhite(s[i])
  {
  }

  /** A string with nothing left to trim is its own trim; in particular
      trimming is idempotent. */
  lemma TrimFixesTrimmed(s: string)
    requires IsTrimmed(s)
    ensures Trim(s) == s
  {
  }
}
