/** Python's `str.lower` and `str.upper`, restricted to the ASCII letters. */
module CaseMap {

  predicate IsUpperAscii(c: char) { 'A' <= c <= 'Z' }

  predicate IsLowerAscii(c: char) { 'a' <= c <= 'z' }

  function LowerChar(c: char): char
  {
    if IsUpperAscii(c) then (c as int + 32) as char else c
  }

  function UpperChar(c: char): char
  {
    if IsLowerAscii(c) then (c as int - 32) as char else c
  }

  function Lower(s: string): string
  {
    seq(|s|, i requires 0 <= i < |s| => LowerChar(s[i]))
  }

  function Upper(s: string): string
  {
    seq(|s|, i requires 0 <= i < |s| => UpperChar(s[i]))
  }

  /** Lowering never leaves an upper-case letter behind, and it changes nothing else. */
  lemma LowerCharSpec(c: char)
    ensures !IsUpperAscii(LowerChar(c))
    ensures !IsUpperAscii(c) ==> LowerChar(c) == c
    ensures IsUpperAscii(c) ==> IsLowerAscii(LowerChar(c)) && UpperChar(LowerChar(c)) == c
  {
  }

  /** Upper-casing forgets whatever lowering did. */
  lemma UpperOfLower(s: string)
    ensures Upper(Lower(s)) == Upper(s)
  {
  }
}
