/**
 * The two Python string methods the core relies on: `str.lower()` (to compare
 * configuration values case-insensitively) and `str.strip()` (to clean the
 * version text a tool prints).
 */
module Strings {

  /** One character through `str.lower()`, for the ASCII letters. */
  function LowerChar(c: char): char
  {
    if 'A' <= c <= 'Z' then (c as int + 32) as char else c
  }

  /** `s.lower()`: every upper-case ASCII letter replaced by its lower-case form, in place. */
  function Lower(s: string): (r: string)
    ensures |r| == |s|
    ensures forall i :: 0 <= i < |s| ==> r[i] == LowerChar(s[i])
  {
    if s == [] then [] else [LowerChar(s[0])] + Lower(s[1..])
  }

  /** The words the core compares against, and the text Python gives the booleans. */
  lemma LowerOfKnownWords()
    ensures Lower("DEBUG") == "debug"
    ensures Lower("debug") == "debug"
    ensures Lower("True") == "true"
    ensures Lower("true") == "true"
    ensures Lower("False") == "false"
  {
    assert Lower("DEBUG") == ['d', 'e', 'b', 'u', 'g'];
    assert Lower("debug") == ['d', 'e', 'b', 'u', 'g'];
    assert Lower("True") == ['t', 'r', 'u', 'e'];
    assert Lower("true") == ['t', 'r', 'u', 'e'];
    assert Lower("False") == ['f', 'a', 'l', 's', 'e'];
  }

  /** The characters Python's `str.isspace()` accepts, which `str.strip()` removes. */
  predicate IsSpace(c: char)
  {
    var n := c as int;
    || 0x09 <= n <= 0x0D || 0x1C <= n <= 0x20 || n == 0x85 || n == 0xA0 || n == 0x1680
    || 0x2000 <= n <= 0x200A || n == 0x2028 || n == 0x2029 || n == 0x202F || n == 0x205F
    || n == 0x3000
  }

  /** Every character of `s[lo..hi]` is white space. */
  predicate AllSpace(s: string, lo: int, hi: int)
  {
    forall i :: lo <= i < hi && 0 <= i < |s| ==> IsSpace(s[i])
  }

  /** Where the run of white space that starts at `i` ends. */
  function SpaceFrom(s: string, i: nat): (j: nat)
    requires i <= |s|
    ensures i <= j <= |s|
    ensures AllSpace(s, i, j)
    ensures j == |s| || !IsSpace(s[j])
    decreases |s| - i
  {
    if i == |s| || !IsSpace(s[i]) then i else SpaceFrom(s, i + 1)
  }

  /** Where the run of white space that ends at `j` starts, looking no further back than `lo`. */
  function SpaceBefore(s: string, lo: nat, j: nat): (i: nat)
    requires lo <= j <= |s|
    ensures lo <= i <= j
    ensures AllSpace(s, i, j)
    ensures i == lo || !IsSpace(s[i - 1])
    decreases j
  {
    if j == lo || !IsSpace(s[j - 1]) then j else SpaceBefore(s, lo, j - 1)
  }

  /**
   * `s.strip()`: the result is the slice of `s` that starts after the leading
   * white space, with only white space after it, and it neither starts nor
   * ends with white space.
   */
  function Strip(s: string): (r: string)
    ensures var k := SpaceFrom(s, 0);
            && k + |r| <= |s| && s[k..k + |r|] == r
            && AllSpace(s, 0, k) && AllSpace(s, k + |r|, |s|)
    ensures r == [] || (!IsSpace(r[0]) && !IsSpace(r[|r| - 1]))
  {
    var lo := SpaceFrom(s, 0);
    s[lo..SpaceBefore(s, lo, |s|)]
  }
}
