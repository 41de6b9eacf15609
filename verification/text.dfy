/** The string operations the product search uses: `toLowerCase` and
    `includes`. Lower-casing covers the ASCII letters only. */
module Text {

  function LowerChar(c: char): char
  {
    if 'A' <= c <= 'Z' then (c as int + 32) as char else c
  }

  /** `String.prototype.toLowerCase`, restricted to ASCII. */
  function Lower(s: string): string
  {
    seq(|s|, i requires 0 <= i < |s| => LowerChar(s[i]))
  }

  /** `haystack.includes(needle)`: `needle` occurs as a contiguous block. */
  predicate Includes(haystack: string, needle: string)
  {
    exists i | 0 <= i <= |haystack| - |needle| :: OccursAt(haystack, needle, i)
  }

  /** `needle` occurs in `haystack` starting at position `i`. */
  predicate OccursAt(haystack: string, needle: string, i: int)
  {
    0 <= i <= |haystack| - |needle| && haystack[i..i + |needle|] == needle
  }

  /** Lower-casing keeps the length and never changes a character twice,
      so applying it again gives the same string. */
  lemma LowerIdempotent(s: string)
    ensures |Lower(s)| == |s|
    ensures Lower(Lower(s)) == Lower(s)
  {
    assert forall i :: 0 <= i < |s| ==> LowerChar(LowerChar(s[i])) == LowerChar(s[i]);
  }

  /** Only the empty string lower-cases to the empty string. */
  lemma LowerEmpty(s: string)
    ensures Lower(s) == "" <==> s == ""
  {
    assert |Lower(s)| == |s|;
  }

  /** Every string includes the empty string, so a search for "" matches
      everything. */
  lemma IncludesEmpty(haystack: string)
    ensures Includes(haystack, "")
  {
    assert OccursAt(haystack, "", 0);
  }
}
