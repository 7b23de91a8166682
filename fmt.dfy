/**
 * Decimal rendering of integers, as the `%d` verb of Go's `fmt` writes them,
 * and the parse that reads such a rendering back.
 */
module Fmt {
  import opened Wrappers

  predicate IsDigit(c: char)
  {
    '0' <= c <= '9'
  }

  function DigitChar(d: nat): (c: char)
    requires d < 10
    ensures IsDigit(c) && c as int - '0' as int == d
  {
    ('0' as int + d) as char
  }

  /** The digits of `n`, most significant first, without leading zeros. */
  function Digits(n: nat): (s: string)
    ensures |s| >= 1
    ensures forall i :: 0 <= i < |s| ==> IsDigit(s[i])
    ensures |s| > 1 ==> s[0] != '0'
    decreases n
  {
    if n < 10 then [DigitChar(n)] else Digits(n / 10) + [DigitChar(n % 10)]
  }

  /** `%d`: a minus sign for negative numbers, then the digits. */
  function Itoa(n: int): (s: string)
    ensures |s| >= 1
    ensures (s[0] == '-') <==> n < 0
    ensures forall i :: 0 < i < |s| ==> IsDigit(s[i])
    ensures '/' !in s
  {
    if n < 0 then "-" + Digits(-n) else Digits(n)
  }

  /** The value of a run of digits. */
  function DigitsValue(s: string): nat
    requires forall i :: 0 <= i < |s| ==> IsDigit(s[i])
  {
    if s == [] then 0
    else
      assert IsDigit(s[|s| - 1]);
      DigitsValue(s[..|s| - 1]) * 10 + (s[|s| - 1] as int - '0' as int)
  }

  /** Reads an optional minus sign followed by at least one digit. */
  function ParseInt(s: string): (r: Option<int>)
    ensures r.Some? ==> |s| >= 1
  {
    if |s| >= 2 && s[0] == '-' && forall i :: 1 <= i < |s| ==> IsDigit(s[i]) then Some(0 - DigitsValue(s[1..]) as int)
    else if |s| >= 1 && forall i :: 0 <= i < |s| ==> IsDigit(s[i]) then Some(DigitsValue(s))
    else None
  }

  lemma {:induction false} DigitsRoundTrip(n: nat)
    ensures DigitsValue(Digits(n)) == n
    decreases n
  {
    if n >= 10 {
      var s := Digits(n);
      assert s[..|s| - 1] == Digits(n / 10);
      DigitsRoundTrip(n / 10);
    }
  }

  /** Reading back what `%d` wrote gives the number. */
  lemma ItoaRoundTrip(n: int)
    ensures ParseInt(Itoa(n)) == Some(n)
  {
    if n < 0 {
      assert Itoa(n)[1..] == Digits(-n);
      DigitsRoundTrip(-n);
    } else {
      DigitsRoundTrip(n);
    }
  }

  lemma ItoaInjective(a: int, b: int)
    requires Itoa(a) == Itoa(b)
    ensures a == b
  {
    ItoaRoundTrip(a);
    ItoaRoundTrip(b);
  }

  /**
   * A number followed by a slash and a suffix can be split back: the number
   * and the suffix are determined by the text. This covers the "ready/total"
   * and "port/protocol" columns of the resource listings.
   */
  lemma SlashSplit(a: int, x: string, b: int, y: string)
    requires Itoa(a) + "/" + x == Itoa(b) + "/" + y
    ensures a == b && x == y
  {
    var s := Itoa(a) + "/" + x;
    var t := Itoa(b) + "/" + y;
    var i, j := |Itoa(a)|, |Itoa(b)|;
    assert s[i] == '/' && t[j] == '/';
    assert Itoa(a) == s[..i] == t[..j] == Itoa(b);
    ItoaInjective(a, b);
    assert x == s[i + 1..] == t[j + 1..] == y;
  }

  /** The "n/m" text of two counts. */
  function Ratio(a: int, b: int): string
  {
    Itoa(a) + "/" + Itoa(b)
  }

  /** Distinct pairs of counts never render alike: the text gives back both counts. */
  lemma RatioInjective(a: int, b: int, c: int, d: int)
    requires Ratio(a, b) == Ratio(c, d)
    ensures a == c && b == d
  {
    SlashSplit(a, Itoa(b), c, Itoa(d));
    ItoaInjective(b, d);
  }
}
