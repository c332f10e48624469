/**
 * The two string operations the search tool relies on: Python's `str.upper()`
 * (modelled on ASCII letters) and `str.count` of a single character.
 */
module Text {

  /** Upper-cases one ASCII letter; every other character is left alone. */
  function UpperChar(c: char): char {
    if 'a' <= c <= 'z' then (c as int - 32) as char else c
  }

  /** Lower-cases one ASCII letter; every other character is left alone. */
  function LowerChar(c: char): char {
    if 'A' <= c <= 'Z' then (c as int + 32) as char else c
  }

  /** `s.upper()`: the same string with every letter upper-cased. */
  function Upper(s: string): string {
    seq(|s|, i requires 0 <= i < |s| => UpperChar(s[i]))
  }

  /** `s.lower()`: the same string with every letter lower-cased. */
  function Lower(s: string): string {
    seq(|s|, i requires 0 <= i < |s| => LowerChar(s[i]))
  }

  /** A string without lower-case letters, such as every enumeration member name. */
  predicate IsUpperCase(s: string) {
    forall i :: 0 <= i < |s| ==> !('a' <= s[i] <= 'z')
  }

  /** Upper-casing an upper-case string changes nothing. */
  lemma UpperOfUpperCase(s: string)
    requires IsUpperCase(s)
    ensures Upper(s) == s
  {
    assert forall i :: 0 <= i < |s| ==> Upper(s)[i] == s[i];
  }

  /** Upper-casing forgets the case of the input: `s.lower().upper() == s.upper()`. */
  lemma UpperIgnoresCase(s: string)
    ensures Upper(Lower(s)) == Upper(s)
  {
    assert forall i :: 0 <= i < |s| ==> Upper(Lower(s))[i] == Upper(s)[i];
  }

  /** `s.count(c)` for a single character `c`. */
  function Count(s: string, c: char): (n: nat)
    ensures n <= |s|
    ensures n == 0 <==> c !in s
  {
    if s == [] then 0
    else (if s[0] == c then 1 else 0) + Count(s[1..], c)
  }

  /** `Count` is the number of occurrences of `c` in `s`, which is what `str.count` returns. */
  lemma {:induction false} CountIsOccurrences(s: string, c: char)
    ensures Count(s, c) == multiset(s)[c]
  {
    if s != [] {
      assert s == [s[0]] + s[1..];
      CountIsOccurrences(s[1..], c);
    }
  }
}
