/** Decimal numerals, printed and read back. */
module Decimals {
  import opened Options
  import opened Sequences

  function Digit(d: nat): (c: char)
    requires d < 10
  {
    "0123456789"[d]
  }

  function Decimal(n: nat): (s: string)
    ensures s != ""
  {
    if n < 10 then [Digit(n)] else Decimal(n / 10) + [Digit(n % 10)]
  }

  function DigitValue(c: char): (d: Option<nat>) {
    if '0' <= c <= '9' then Some((c as int) - ('0' as int)) else None
  }

  function ReadDecimal(s: string): (n: Option<nat>)
    decreases |s|
  {
    if s == "" then None
    else match DigitValue(Last(s))
      case None => None
      case Some(d) =>
        if |s| == 1 then Some(d)
        else match ReadDecimal(Init(s))
          case None => None
          case Some(n) => Some(10 * n + d)
  }

  lemma {:induction false} DecimalRoundTrip(n: nat)
    ensures ReadDecimal(Decimal(n)) == Some(n)
    ensures ',' !in Decimal(n) && ' ' !in Decimal(n)
  {
    if n >= 10 {
      DecimalRoundTrip(n / 10);
      assert Init(Decimal(n)) == Decimal(n / 10);
    }
  }
}
