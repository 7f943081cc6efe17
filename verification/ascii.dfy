/** ASCII case mapping and the letter test of the keyboard.
    The keyboard's layout holds only ASCII characters, so `toUpperCase` and
    `toLowerCase` are modelled on the ASCII letters alone. */
module Ascii {

  predicate IsUpperChar(c: char) { 'A' <= c <= 'Z' }

  predicate IsLowerChar(c: char) { 'a' <= c <= 'z' }

  /** `toUpperCase` on one character: a-z move to A-Z, everything else stays. */
  function UpperChar(c: char): (r: char) {
    if IsLowerChar(c) then (c as int - 32) as char else c
  }

  /** `toLowerCase` on one character: A-Z move to a-z, everything else stays. */
  function LowerChar(c: char): (r: char) {
    if IsUpperChar(c) then (c as int + 32) as char else c
  }

  /** `toUpperCase` on a string maps every character. */
  function ToUpper(s: string): (r: string) {
    seq(|s|, i requires 0 <= i < |s| => UpperChar(s[i]))
  }

  /** `toLowerCase` on a string maps every character. */
  function ToLower(s: string): (r: string) {
    seq(|s|, i requires 0 <= i < |s| => LowerChar(s[i]))
  }

  /** A key's text is a letter when it is one character whose lower- and
      upper-case forms differ. */
  predicate IsLetter(s: string) {
    |s| == 1 && ToLower(s) != ToUpper(s)
  }

  /** The letter test accepts exactly the single ASCII letters. */
  lemma IsLetterIff(s: string)
    ensures IsLetter(s) <==> |s| == 1 && (IsLowerChar(s[0]) || IsUpperChar(s[0]))
  {
    if |s| == 1 {
      assert ToLower(s) == [LowerChar(s[0])];
      assert ToUpper(s) == [UpperChar(s[0])];
    }
  }

  /** Upper- and lower-casing a letter gives the upper- and lower-case form of
      the same letter, and each undoes the other. */
  lemma LetterCases(c: char)
    requires IsLowerChar(c) || IsUpperChar(c)
    ensures IsUpperChar(UpperChar(c)) && IsLowerChar(LowerChar(c))
    ensures LowerChar(UpperChar(c)) == LowerChar(c)
    ensures UpperChar(LowerChar(c)) == UpperChar(c)
  {
  }
}
