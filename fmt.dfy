/** The decimal rendering of an integer done by Go's `fmt.Sprintf("%d", n)`,
    and a parser that undoes it. */
module Fmt {
  import opened Base

  predicate IsDigit(c: char) {
    '0' <= c <= '9'
  }

  function DigitChar(d: nat): (c: char)
    requires d < 10
    ensures IsDigit(c) && c as int - '0' as int == d
  {
    ('0' as int + d) as char
  }

  /** The digits of `n`, most significant first, without leading zeros. */
  function NatDigits(n: nat): (s: string)
    ensures |s| >= 1
    ensures forall i :: 0 <= i < |s| ==> IsDigit(s[i])
    ensures |s| > 1 ==> s[0] != '0'
    decreases n
  {
    if n < 10 then [DigitChar(n)] else NatDigits(n / 10) + [DigitChar(n % 10)]
  }

  /** `fmt.Sprintf("%d", i)`: a minus sign for negative values, then the digits. */
  function FormatInt(i: int): (s: string)
    ensures |s| >= 1
    ensures s[0] == '-' <==> i < 0
  {
    if i < 0 then "-" + NatDigits(-i) else NatDigits(i)
  }

  /** The value of a non-empty string of decimal digits; None for anything else. */
  function ParseNat(s: string): Option<nat>
    decreases |s|
  {
    if |s| == 0 || !IsDigit(s[|s| - 1]) then None
    else
      var d := s[|s| - 1] as int - '0' as int;
      if |s| == 1 then Some(d)
      else match ParseNat(s[..|s| - 1])
        case None => None
        case Some(high) => Some(high * 10 + d)
  }

  /** An optional minus sign followed by decimal digits. */
  function ParseInt(s: string): Option<int> {
    if |s| > 0 && s[0] == '-' then
      match ParseNat(s[1..])
      case None => None
      case Some(n) => var v: int := 0 - (n as int); Some(v)
    else
      match ParseNat(s)
      case None => None
      case Some(n) => var v: int := n; Some(v)
  }

  lemma {:induction false} ParseNatDigits(n: nat)
    ensures ParseNat(NatDigits(n)) == Some(n)
    decreases n
  {
    var s := NatDigits(n);
    if n >= 10 {
      ParseNatDigits(n / 10);
      assert s[..|s| - 1] == NatDigits(n / 10);
    }
  }

  /** Parsing undoes `FormatInt` for every integer. */
  lemma FormatIntRoundTrip(i: int)
    ensures ParseInt(FormatInt(i)) == Some(i)
  {
    if i < 0 {
      ParseNatDigits(-i);
      assert FormatInt(i)[1..] == NatDigits(-i);
    } else {
      ParseNatDigits(i);
    }
  }

  /** Distinct integers have distinct renderings. */
  lemma FormatIntInjective(i: int, j: int)
    ensures FormatInt(i) == FormatInt(j) ==> i == j
  {
    FormatIntRoundTrip(i);
    FormatIntRoundTrip(j);
  }
}
