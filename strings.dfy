/**
 * String routines used by both halves of the system: trimming with a language's notion of
 * whitespace (JavaScript `String.prototype.trim`, Python `str.strip`) and the decimal
 * rendering of a number inside a template string.
 */
module Strings {

  /** The first position at or after `i` that is not whitespace, or `|s|` if there is none. */
  function SkipSpace(s: string, isSpace: char -> bool, i: nat): (j: nat)
    requires i <= |s|
    ensures i <= j <= |s|
    ensures forall k :: i <= k < j ==> isSpace(s[k])
    ensures j < |s| ==> !isSpace(s[j])
    decreases |s| - i
  {
    if i < |s| && isSpace(s[i]) then SkipSpace(s, isSpace, i + 1) else i
  }

  /**
   * Walking back from `j` to no earlier than `lo`, the position right after the last
   * character that is not whitespace.
   */
  function SkipSpaceBack(s: string, isSpace: char -> bool, lo: nat, j: nat): (k: nat)
    requires lo <= j <= |s|
    ensures lo <= k <= j
    ensures forall m :: k <= m < j ==> isSpace(s[m])
    ensures k > lo ==> !isSpace(s[k - 1])
    decreases j
  {
    if j > lo && isSpace(s[j - 1]) then SkipSpaceBack(s, isSpace, lo, j - 1) else j
  }

  /** Where the trimmed text starts: after the leading whitespace. */
  function TrimLo(s: string, isSpace: char -> bool): nat
  {
    SkipSpace(s, isSpace, 0)
  }

  /** Where the trimmed text ends: before the trailing whitespace. */
  function TrimHi(s: string, isSpace: char -> bool): nat
  {
    SkipSpaceBack(s, isSpace, SkipSpace(s, isSpace, 0), |s|)
  }

  /**
   * Drops whitespace at both ends: what is kept is exactly the text from the first
   * character that is not whitespace to the last one, everything cut off is whitespace,
   * and neither end of what is kept is.
   */
  function Trim(s: string, isSpace: char -> bool): (r: string)
    ensures |r| <= |s|
    ensures TrimLo(s, isSpace) + |r| == TrimHi(s, isSpace) <= |s|
    ensures r == s[TrimLo(s, isSpace)..TrimHi(s, isSpace)]
    ensures forall i :: 0 <= i < TrimLo(s, isSpace) ==> isSpace(s[i])
    ensures forall i :: TrimHi(s, isSpace) <= i < |s| ==> isSpace(s[i])
    ensures r != [] ==> !isSpace(r[0]) && !isSpace(r[|r| - 1])
  {
    s[TrimLo(s, isSpace)..TrimHi(s, isSpace)]
  }

  /** Trimming keeps a slice of the string, starting at `lo`, the end of the leading whitespace. */
  lemma TrimIsSlice(s: string, isSpace: char -> bool) returns (lo: nat)
    ensures lo == TrimLo(s, isSpace) && lo + |Trim(s, isSpace)| == TrimHi(s, isSpace)
    ensures lo + |Trim(s, isSpace)| <= |s| && Trim(s, isSpace) == s[lo..lo + |Trim(s, isSpace)|]
  {
    lo := TrimLo(s, isSpace);
  }

  /** Whatever holds of every character of a string holds of every character of its trim. */
  lemma TrimKeeps(s: string, isSpace: char -> bool, p: char -> bool)
    requires forall i :: 0 <= i < |s| ==> p(s[i])
    ensures forall i :: 0 <= i < |Trim(s, isSpace)| ==> p(Trim(s, isSpace)[i])
  {
    var lo := TrimIsSlice(s, isSpace);
    var r := Trim(s, isSpace);
    forall i | 0 <= i < |r| ensures p(r[i]) {
      assert r[i] == s[lo + i];
    }
  }

  /** A string trims to nothing exactly when every character of it is whitespace. */
  lemma TrimEmptyIffAllSpace(s: string, isSpace: char -> bool)
    ensures Trim(s, isSpace) == [] <==> forall i :: 0 <= i < |s| ==> isSpace(s[i])
  {
  }

  /** A string with no whitespace at either end is its own trim. */
  lemma TrimFixed(s: string, isSpace: char -> bool)
    requires s != [] ==> !isSpace(s[0]) && !isSpace(s[|s| - 1])
    ensures Trim(s, isSpace) == s
  {
    assert TrimLo(s, isSpace) == 0;
    assert TrimHi(s, isSpace) == |s|;
  }

  /** Trimming a second time changes nothing. */
  lemma TrimIdempotent(s: string, isSpace: char -> bool)
    ensures Trim(Trim(s, isSpace), isSpace) == Trim(s, isSpace)
  {
    TrimFixed(Trim(s, isSpace), isSpace);
  }

  predicate IsDigit(c: char) { '0' <= c <= '9' }

  function DigitValue(c: char): nat
    requires IsDigit(c)
  {
    c as int - '0' as int
  }

  function DigitChar(d: nat): (c: char)
    requires d < 10
    ensures IsDigit(c) && DigitValue(c) == d
  {
    (('0' as int) + d) as char
  }

  /** The decimal rendering of `n`, as `${n}` gives it for a non-negative integer. */
  function Decimal(n: nat): (r: string)
    ensures |r| >= 1
    ensures forall i :: 0 <= i < |r| ==> IsDigit(r[i])
    ensures r[0] == '0' ==> n == 0 && r == "0"
    decreases n
  {
    if n < 10 then [DigitChar(n)] else Decimal(n / 10) + [DigitChar(n % 10)]
  }

  /** The value of a string of decimal digits (the reading direction of `Decimal`). */
  function DecimalValue(s: string): nat
    requires forall i :: 0 <= i < |s| ==> IsDigit(s[i])
  {
    if s == [] then 0
    else DecimalValue(s[..|s| - 1]) * 10 + DigitValue(s[|s| - 1])
  }

  /** Reading back the decimal rendering of a number gives the number. */
  lemma {:induction false} DecimalRoundTrip(n: nat)
    ensures DecimalValue(Decimal(n)) == n
    decreases n
  {
    if n >= 10 {
      DecimalRoundTrip(n / 10);
      var r := Decimal(n);
      assert r[..|r| - 1] == Decimal(n / 10);
    }
  }

  /** Different numbers render differently. */
  lemma DecimalInjective(m: nat, n: nat)
    requires Decimal(m) == Decimal(n)
    ensures m == n
  {
    DecimalRoundTrip(m);
    DecimalRoundTrip(n);
  }
}
