/**
 * The slice of `std::string` that the panel's scanners rely on: `find`,
 * `find_first_of` and `substr`, with positions and counts of type
 * `std::size_t` and `npos` as its largest value. Additions and subtractions
 * on positions wrap around exactly as unsigned arithmetic does. The width is
 * fixed at 64 bits here; every result about a blob shorter than `npos` is
 * the same for a 32-bit `size_t`.
 */
module CppString {

  /** The number of values of `std::size_t`, taken as 2^64. */
  const SIZE_MODULUS: int := 0x1_0000_0000_0000_0000

  type Size = n: int | 0 <= n < SIZE_MODULUS

  /** `std::string::npos`, the largest `std::size_t`. */
  const NPOS: Size := SIZE_MODULUS - 1

  /** Unsigned `a + b`. */
  function AddSize(a: Size, b: Size): (r: Size)
    ensures a + b < SIZE_MODULUS ==> r == a + b
    ensures a + b >= SIZE_MODULUS ==> r == a + b - SIZE_MODULUS
  {
    (a + b) % SIZE_MODULUS
  }

  /** Unsigned `a - b`. */
  function SubSize(a: Size, b: Size): (r: Size)
    ensures b <= a ==> r == a - b
    ensures a < b ==> r == a - b + SIZE_MODULUS
  {
    (a - b) % SIZE_MODULUS
  }

  /** A `std::string` is always shorter than `npos`. */
  predicate Fits(s: string) {
    |s| < NPOS
  }

  /** `pat` occurs in `s` starting at index `i`. */
  predicate MatchAt(s: string, pat: string, i: int) {
    0 <= i && i + |pat| <= |s| && s[i..i + |pat|] == pat
  }

  /** `pat` occurs in `s` at `i`, and nowhere in `s` between `from` and `i`. */
  ghost predicate FirstMatch(s: string, pat: string, from: int, i: int) {
    from <= i && MatchAt(s, pat, i) &&
    forall j :: from <= j < i ==> !MatchAt(s, pat, j)
  }

  /** `pat` does not occur in `s` at or after `from`. */
  ghost predicate NoMatch(s: string, pat: string, from: int) {
    forall j :: from <= j ==> !MatchAt(s, pat, j)
  }

  /** `s[i]` is in `chars`, and no character of `s` between `from` and `i` is. */
  ghost predicate FirstOf(s: string, chars: set<char>, from: int, i: int) {
    0 <= from <= i < |s| && s[i] in chars &&
    forall j :: from <= j < i ==> s[j] !in chars
  }

  /** No character of `s` at or after `from` is in `chars`. */
  ghost predicate NoneOf(s: string, chars: set<char>, from: int) {
    forall j :: 0 <= from <= j < |s| ==> s[j] !in chars
  }

  /**
   * `s.find(pat, pos)`: the first index at or after `pos` where `pat`
   * occurs, or `npos`. A start beyond the end finds nothing.
   */
  function Find(s: string, pat: string, pos: Size): (r: Size)
    requires Fits(s)
    ensures r == NPOS || (pos <= r && MatchAt(s, pat, r))
    ensures forall j :: pos <= j && (r == NPOS || j < r) ==> !MatchAt(s, pat, j)
    decreases |s| - pos
  {
    if pos + |pat| > |s| then NPOS
    else if s[pos..pos + |pat|] == pat then pos
    else Find(s, pat, pos + 1)
  }

  /** `s.find_first_of(chars, pos)`: the first index at or after `pos` holding one of `chars`, or `npos`. */
  function FindFirstOf(s: string, chars: set<char>, pos: Size): (r: Size)
    requires Fits(s)
    ensures r == NPOS || (pos <= r < |s| && s[r] in chars)
    ensures forall j :: pos <= j < |s| && (r == NPOS || j < r) ==> s[j] !in chars
    decreases |s| - pos
  {
    if pos >= |s| then NPOS
    else if s[pos] in chars then pos
    else FindFirstOf(s, chars, pos + 1)
  }

  /**
   * `s.substr(pos, count)` for a valid start: at most `count` characters,
   * cut short at the end of `s`.
   */
  function Substr(s: string, pos: Size, count: Size): (r: string)
    requires pos <= |s|
    ensures |r| == if count < |s| - pos then count else |s| - pos
    ensures r == s[pos..pos + |r|]
  {
    if count < |s| - pos then s[pos..pos + count] else s[pos..]
  }

  lemma FindIsFirst(s: string, pat: string, pos: Size, i: int)
    requires Fits(s) && FirstMatch(s, pat, pos, i)
    ensures Find(s, pat, pos) == i
  {
  }

  lemma FindIsNpos(s: string, pat: string, pos: Size)
    requires Fits(s) && NoMatch(s, pat, pos)
    ensures Find(s, pat, pos) == NPOS
  {
  }

  lemma FindFirstOfIsFirst(s: string, chars: set<char>, pos: Size, i: int)
    requires Fits(s) && FirstOf(s, chars, pos, i)
    ensures FindFirstOf(s, chars, pos) == i
  {
  }

  lemma FindFirstOfIsNpos(s: string, chars: set<char>, pos: Size)
    requires Fits(s) && NoneOf(s, chars, pos)
    ensures FindFirstOf(s, chars, pos) == NPOS
  {
  }

  /**
   * No occurrence of `pat` starts in `[from, to)` when its `k`-th character
   * is missing from the stretch of `s` those occurrences would put it in.
   */
  lemma NoMatchInRange(s: string, pat: string, from: int, to: int, k: int)
    requires 0 <= k < |pat| && 0 <= from <= to && to + k <= |s|
    requires pat[k] !in s[from + k..to + k]
    ensures forall j :: from <= j < to ==> !MatchAt(s, pat, j)
  {
    forall j | from <= j < to
      ensures !MatchAt(s, pat, j)
    {
      assert s[from + k..to + k][j - from] == s[j + k] != pat[k];
      assert j + |pat| <= |s| ==> s[j..j + |pat|][k] == s[j + k];
    }
  }

  /** No occurrence of `pat` starts at or after `from` when its `k`-th character is missing from the rest of `s`. */
  lemma NoMatchAfter(s: string, pat: string, from: int, k: int)
    requires 0 <= k < |pat| && 0 <= from && from + k <= |s|
    requires pat[k] !in s[from + k..]
    ensures NoMatch(s, pat, from)
  {
    forall j | from <= j
      ensures !MatchAt(s, pat, j)
    {
      if j + |pat| <= |s| {
        assert s[from + k..][j - from] == s[j + k] != pat[k];
        assert s[j..j + |pat|][k] == s[j + k];
      }
    }
  }
}
