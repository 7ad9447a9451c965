/**
 * The cache prefix that names every on-disk page cache of one data matrix: the given
 * prefix, or "DMatrix" when none is given, followed in a distributed run by "-r" and the
 * process's rank in decimal, so that the ranks of one job never share a cache file.
 */
module CachePrefix {
  import opened Wrappers

  const DefaultPrefix: string := "DMatrix"

  predicate IsDigit(c: char) {
    '0' <= c <= '9'
  }

  predicate AllDigits(s: string) {
    forall i :: 0 <= i < |s| ==> IsDigit(s[i])
  }

  function Digit(d: nat): (c: char)
    requires d < 10
    ensures IsDigit(c) && c as int - '0' as int == d
  {
    ('0' as int + d) as char
  }

  /** The decimal rendering of a non-negative integer, as std::to_string gives it. */
  function DecimalString(n: nat): (s: string)
    ensures |s| > 0 && AllDigits(s)
    ensures |s| > 1 ==> s[0] != '0'
    decreases n
  {
    if n < 10 then [Digit(n)] else DecimalString(n / 10) + [Digit(n % 10)]
  }

  /** The value of a non-empty string of decimal digits. */
  function ParseDecimal(s: string): nat
    requires |s| > 0 && AllDigits(s)
  {
    if |s| == 1 then s[0] as int - '0' as int
    else 10 * ParseDecimal(s[..|s| - 1]) + (s[|s| - 1] as int - '0' as int)
  }

  /** Reading the decimal rendering back gives the number that was rendered. */
  lemma {:induction false} DecimalRoundTrip(n: nat)
    ensures ParseDecimal(DecimalString(n)) == n
    decreases n
  {
    if n >= 10 {
      var s := DecimalString(n);
      assert s[..|s| - 1] == DecimalString(n / 10);
      DecimalRoundTrip(n / 10);
    }
  }

  /** The rank encoded in a cache-prefix suffix of the form "-r<digits>", if it has that form. */
  function RankSuffix(t: string): Option<nat> {
    if |t| >= 3 && t[..2] == "-r" && AllDigits(t[2..]) then Some(ParseDecimal(t[2..])) else None
  }

  /** The prefix before any rank suffix: the caller's, or "DMatrix" when the caller gave none. */
  function BasePrefix(given: string): (b: string)
    ensures |b| > 0
    ensures given != [] ==> b == given
    ensures given == [] ==> b == DefaultPrefix
  {
    if given == [] then DefaultPrefix else given
  }

  /**
   * The prefix normalisation of the data matrix constructor: the base prefix, and in a
   * distributed run exactly one rank suffix after it from which the rank can be read back.
   */
  function NormalisePrefix(given: string, distributed: bool, rank: nat): (r: string)
    ensures BasePrefix(given) <= r
    ensures !distributed ==> r == BasePrefix(given)
    ensures distributed ==> RankSuffix(r[|BasePrefix(given)|..]) == Some(rank)
    ensures distributed ==> |r| > |BasePrefix(given)| + 2 && r[|BasePrefix(given)| + 2..] == DecimalString(rank)
  {
    var base := BasePrefix(given);
    if distributed then
      var r := base + ("-r" + DecimalString(rank));
      assert r[|base|..] == "-r" + DecimalString(rank);
      assert r[|base|..][2..] == DecimalString(rank);
      DecimalRoundTrip(rank);
      r
    else
      base
  }

  /** Two ranks of one distributed job never share a cache prefix. */
  lemma DistinctRanksDistinctPrefixes(given: string, rank1: nat, rank2: nat)
    requires rank1 != rank2
    ensures NormalisePrefix(given, true, rank1) != NormalisePrefix(given, true, rank2)
  {
    var base := BasePrefix(given);
    var p1, p2 := NormalisePrefix(given, true, rank1), NormalisePrefix(given, true, rank2);
    assert RankSuffix(p1[|base|..]) == Some(rank1);
    assert RankSuffix(p2[|base|..]) == Some(rank2);
  }
}
