/**
 * The text `operator<<` writes for a filesystem object: its name, ": ",
 * a count in decimal (as an ostream prints an unsigned size) and a fixed
 * unit suffix. The parser recovers name and count from such a line.
 */
module TextFormat {
  import opened Wrappers

  predicate IsDigit(c: char) {
    '0' <= c <= '9'
  }

  predicate AllDigits(s: string) {
    forall i :: 0 <= i < |s| ==> IsDigit(s[i])
  }

  function DigitValue(c: char): (d: nat)
    requires IsDigit(c)
    ensures d < 10
  {
    c as int - '0' as int
  }

  function DigitChar(d: nat): (c: char)
    requires d < 10
    ensures IsDigit(c) && DigitValue(c) == d
  {
    (d + '0' as int) as char
  }

  /**
   * The decimal digits of n, most significant first: never empty, only
   * digits, and a leading '0' only for zero itself.
   */
  function Decimal(n: nat): (s: string)
    ensures |s| >= 1 && AllDigits(s)
    ensures s[0] == '0' <==> n == 0
  {
    if n < 10 then [DigitChar(n)] else Decimal(n / 10) + [DigitChar(n % 10)]
  }

  /** The number a string of decimal digits denotes. */
  function DigitsValue(s: string): nat
    requires AllDigits(s)
  {
    if s == [] then 0 else DigitsValue(s[..|s| - 1]) * 10 + DigitValue(s[|s| - 1])
  }

  /** Reading back the decimal text of n gives n. */
  lemma {:induction false} DecimalRoundTrip(n: nat)
    ensures DigitsValue(Decimal(n)) == n
  {
    if n >= 10 {
      var s := Decimal(n);
      assert s[..|s| - 1] == Decimal(n / 10);
      DecimalRoundTrip(n / 10);
    }
  }

  /** Different counts are written as different texts. */
  lemma DecimalInjective(m: nat, n: nat)
    requires Decimal(m) == Decimal(n)
    ensures m == n
  {
    DecimalRoundTrip(m);
    DecimalRoundTrip(n);
  }

  /** The number of decimal digits that end s. */
  function TrailingDigits(s: string): (k: nat)
    ensures k <= |s|
    ensures AllDigits(s[|s| - k..])
  {
    if s == [] || !IsDigit(s[|s| - 1]) then 0 else TrailingDigits(s[..|s| - 1]) + 1
  }

  /** A run of digits after a non-digit is exactly the trailing run. */
  lemma {:induction false} TrailingDigitsAfter(p: string, d: string)
    requires |p| > 0 && !IsDigit(p[|p| - 1]) && AllDigits(d)
    ensures TrailingDigits(p + d) == |d|
  {
    if d == [] {
      assert p + d == p;
    } else {
      assert (p + d)[..|p + d| - 1] == p + d[..|d| - 1];
      TrailingDigitsAfter(p, d[..|d| - 1]);
    }
  }

  /** The name, a colon and a space, the count in decimal, then the suffix. */
  function Summary(name: string, count: nat, suffix: string): string {
    name + ": " + Decimal(count) + suffix
  }

  /**
   * Splits a summary line ending in suffix back into its name and count:
   * the count is the run of digits before the suffix, preceded by ": ".
   */
  function ParseSummary(s: string, suffix: string): Option<(string, nat)> {
    if |s| < |suffix| || s[|s| - |suffix|..] != suffix then None
    else
      var body := s[..|s| - |suffix|];
      var k := TrailingDigits(body);
      if k == 0 || |body| < k + 2 || body[|body| - k - 2..|body| - k] != ": " then None
      else Some((body[..|body| - k - 2], DigitsValue(body[|body| - k..])))
  }

  /** A summary line names the object and states its count, and both can be read back. */
  lemma SummaryRoundTrip(name: string, count: nat, suffix: string)
    ensures ParseSummary(Summary(name, count, suffix), suffix) == Some((name, count))
  {
    var s := Summary(name, count, suffix);
    var body := name + ": " + Decimal(count);
    assert s == body + suffix;
    assert s[..|s| - |suffix|] == body;
    assert s[|s| - |suffix|..] == suffix;
    TrailingDigitsAfter(name + ": ", Decimal(count));
    var k := |Decimal(count)|;
    assert body[|body| - k - 2..|body| - k] == ": ";
    assert body[..|body| - k - 2] == name;
    assert body[|body| - k..] == Decimal(count);
    DecimalRoundTrip(count);
  }
}
