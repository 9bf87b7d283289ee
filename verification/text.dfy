/** The two string operations the engine relies on: `String.prototype.includes`
    (a case-sensitive substring test) and the decimal rendering of a
    non-negative integer inside a template literal. */
module Text {

  /** `needle` occurs in `hay` starting at position `i`. */
  predicate OccursAt(hay: string, needle: string, i: int)
  {
    0 <= i && i + |needle| <= |hay| && hay[i..i + |needle|] == needle
  }

  /** `needle[j..]` occurs in `hay` at position `i + j`, compared one
      character at a time. */
  function MatchesFrom(hay: string, needle: string, i: nat, j: nat): (r: bool)
    requires i + |needle| <= |hay| && j <= |needle|
    ensures r <==> hay[i + j..i + |needle|] == needle[j..]
    decreases |needle| - j
  {
    if j == |needle| then true
    else if hay[i + j] != needle[j] then false
    else MatchesFrom(hay, needle, i, j + 1)
  }

  /** `needle` occurs in `hay` at some position from `i` on. */
  function SearchFrom(hay: string, needle: string, i: nat): (r: bool)
    ensures r <==> exists p :: i <= p && OccursAt(hay, needle, p)
    decreases |hay| - i
  {
    if i + |needle| > |hay| then false
    else if MatchesFrom(hay, needle, i, 0) then
      assert OccursAt(hay, needle, i);
      true
    else SearchFrom(hay, needle, i + 1)
  }

  /** `hay.includes(needle)`: true exactly when `needle` occurs somewhere in
      `hay`. The empty string occurs everywhere. */
  function Includes(hay: string, needle: string): (r: bool)
    ensures r <==> exists i :: OccursAt(hay, needle, i)
  {
    SearchFrom(hay, needle, 0)
  }

  /** Every character of a string that occurs in `hay` is a character of `hay`. */
  lemma {:induction false} IncludedCharsOccur(hay: string, needle: string, k: int)
    requires Includes(hay, needle)
    requires 0 <= k < |needle|
    ensures needle[k] in hay
  {
    var i :| OccursAt(hay, needle, i);
  }

  /** A string with a character `hay` lacks does not occur in `hay`. */
  lemma {:induction false} MissingCharExcludes(hay: string, needle: string, c: char)
    requires c in needle && c !in hay
    ensures !Includes(hay, needle)
  {
    if Includes(hay, needle) {
      var k :| 0 <= k < |needle| && needle[k] == c;
      IncludedCharsOccur(hay, needle, k);
    }
  }

  /** When the first character of `needle` appears in `hay` only at the
      start, a mismatch at one position rules every occurrence out. */
  lemma {:induction false} MismatchAtOnlyStart(hay: string, needle: string, k: int)
    requires 0 <= k < |needle| <= |hay|
    requires needle[0] !in hay[1..]
    requires hay[k] != needle[k]
    ensures !Includes(hay, needle)
  {
    forall i | 0 <= i && i + |needle| <= |hay|
      ensures !OccursAt(hay, needle, i)
    {
      if i == 0 {
        assert hay[k] != needle[k];
      } else {
        assert hay[i] == hay[1..][i - 1];
      }
    }
  }

  predicate IsDigit(c: char)
  {
    '0' <= c <= '9'
  }

  predicate AllDigits(s: string)
  {
    forall i :: 0 <= i < |s| ==> IsDigit(s[i])
  }

  function DigitChar(d: int): (c: char)
    requires 0 <= d < 10
    ensures IsDigit(c) && c as int - '0' as int == d
  {
    ('0' as int + d) as char
  }

  /** The number a string of decimal digits denotes. */
  function DecimalValue(s: string): nat
    requires AllDigits(s)
  {
    if |s| == 0 then 0
    else DecimalValue(s[..|s| - 1]) * 10 + (s[|s| - 1] as int - '0' as int)
  }

  /** The decimal rendering of `n` that JavaScript produces for an integer in
      a template literal: digits only, no leading zero, denoting `n`. */
  function DecimalText(n: nat): (r: string)
    ensures 1 <= |r| && AllDigits(r)
    ensures r[0] != '0' || n == 0
    ensures DecimalValue(r) == n
  {
    if n < 10 then [DigitChar(n)]
    else DecimalText(n / 10) + [DigitChar(n % 10)]
  }

  /** Different numbers are rendered differently. */
  lemma {:induction false} DecimalTextInjective(m: nat, n: nat)
    requires DecimalText(m) == DecimalText(n)
    ensures m == n
  {
  }
}
