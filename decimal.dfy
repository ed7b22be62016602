/**
 * Integer text as Go's fmt package writes it (`%d`, `%02d`), and Go's 64-bit `int`
 * arithmetic, which wraps around.
 */
module Decimal {
  import opened Results

  const TWO_63: int := 0x8000_0000_0000_0000
  const TWO_64: int := 0x1_0000_0000_0000_0000

  /** Go's `int` on a 64-bit platform. */
  newtype int64 = x: int | -0x8000_0000_0000_0000 <= x < 0x8000_0000_0000_0000

  /** The two's-complement wrap-around of a Go `int` multiplication or subtraction. */
  function Wrap64(x: int): int64
  {
    var m := x % TWO_64;
    if m >= TWO_63 then (m - TWO_64) as int64 else m as int64
  }

  /** `Wrap64` agrees with `x` modulo 2^64 and leaves every value an `int64` can hold as it is. */
  lemma Wrap64Congruent(x: int)
    ensures (Wrap64(x) as int - x) % TWO_64 == 0
    ensures -TWO_63 <= x < TWO_63 ==> Wrap64(x) as int == x
  {
  }

  predicate IsDigit(c: char) {
    '0' <= c <= '9'
  }

  predicate AllDigits(s: string) {
    forall k :: 0 <= k < |s| ==> IsDigit(s[k])
  }

  function DigitChar(d: nat): (c: char)
    requires d < 10
    ensures IsDigit(c) && c as int - '0' as int == d
  {
    ('0' as int + d) as char
  }

  /** The value of a run of decimal digits, most significant first. */
  function DigitsValue(s: string): nat
    requires AllDigits(s)
  {
    if s == [] then 0
    else DigitsValue(s[..|s| - 1]) * 10 + (s[|s| - 1] as int - '0' as int)
  }

  /** `%d` of a natural number: the shortest digit string, no leading zero. */
  function NatToDecimal(n: nat): string
    decreases n
  {
    if n < 10 then [DigitChar(n)] else NatToDecimal(n / 10) + [DigitChar(n % 10)]
  }

  /**
   * What `NatToDecimal` writes is a non-empty run of digits with no leading zero,
   * one digit long exactly below ten, and it reads back as `n`.
   */
  lemma {:induction false} NatToDecimalValue(n: nat)
    ensures var s := NatToDecimal(n);
      |s| >= 1 && AllDigits(s) && DigitsValue(s) == n &&
      (s[0] == '0' ==> n == 0) && (n < 10 <==> |s| == 1)
    decreases n
  {
    if n >= 10 {
      NatToDecimalValue(n / 10);
      var s := NatToDecimal(n);
      assert s[..|s| - 1] == NatToDecimal(n / 10);
    }
  }

  /** `%d` of a Go integer: a minus sign for negative values, then the digits. */
  function IntToDecimal(x: int): string
  {
    if x < 0 then "-" + NatToDecimal(-x) else NatToDecimal(x)
  }

  /** Reads back what `%d` writes: an optional minus sign followed by digits. */
  function ParseInt(s: string): Option<int>
  {
    if |s| >= 2 && s[0] == '-' && AllDigits(s[1..]) then Some(0 - DigitsValue(s[1..]) as int)
    else if |s| >= 1 && AllDigits(s) then Some(DigitsValue(s))
    else None
  }

  /** `%d` loses nothing: the text it writes reads back as the same integer. */
  lemma ParseIntToDecimal(x: int)
    ensures ParseInt(IntToDecimal(x)) == Some(x)
  {
    var s := IntToDecimal(x);
    if x < 0 {
      NatToDecimalValue(-x);
      assert s[0] == '-' && s[1..] == NatToDecimal(-x);
    } else {
      NatToDecimalValue(x);
      assert s == NatToDecimal(x) && IsDigit(s[0]);
    }
  }

  /** Distinct integers are written as distinct text. */
  lemma IntToDecimalInjective(x: int, y: int)
    requires IntToDecimal(x) == IntToDecimal(y)
    ensures x == y
  {
    ParseIntToDecimal(x);
    ParseIntToDecimal(y);
  }

  /** `%02d` of a natural number: zero-padded to at least two digits. */
  function TwoDigits(n: nat): string
  {
    if n < 10 then "0" + NatToDecimal(n) else NatToDecimal(n)
  }

  /** What `TwoDigits` writes is at least two digits long, reads back as `n`, and has a leading zero exactly below ten. */
  lemma TwoDigitsValue(n: nat)
    ensures var s := TwoDigits(n);
      |s| >= 2 && AllDigits(s) && DigitsValue(s) == n && (s[0] == '0' <==> n < 10)
  {
    NatToDecimalValue(n);
    var s := TwoDigits(n);
    if n < 10 {
      assert s[..|s| - 1] == "0";
    }
  }
}
