/** Java's 64-bit `long`: two's-complement subtraction and the decimal
    rendering `Long.toString` that string concatenation uses, with its
    inverse `Long.parseLong`. */
module JavaLong {
  const TwoTo63: int := 0x8000_0000_0000_0000
  const TwoTo64: int := 0x1_0000_0000_0000_0000

  /** The values a Java `long` can hold. */
  type Long = x: int | -0x8000_0000_0000_0000 <= x < 0x8000_0000_0000_0000

  predicate InLongRange(x: int) {
    -TwoTo63 <= x < TwoTo63
  }

  /** `a - b` on `long`: the mathematical difference, wrapped into range. */
  function Sub(a: Long, b: Long): (r: Long)
    ensures (a - b - r) % TwoTo64 == 0
    ensures InLongRange(a - b) ==> r == a - b
  {
    var d := a - b;
    if d >= TwoTo63 then d - TwoTo64
    else if d < -TwoTo63 then d + TwoTo64
    else d
  }

  predicate IsDigit(c: char) {
    '0' <= c <= '9'
  }

  predicate AllDigits(s: string) {
    forall i :: 0 <= i < |s| ==> IsDigit(s[i])
  }

  function DigitChar(d: nat): (c: char)
    requires d < 10
    ensures IsDigit(c) && c as int - '0' as int == d
  {
    (d + '0' as int) as char
  }

  /** The decimal digits of `n`, most significant first, without leading zeros. */
  function DecimalDigits(n: nat): (s: string)
    ensures |s| >= 1 && AllDigits(s)
    ensures s[0] == '0' ==> n == 0 && s == "0"
  {
    if n < 10 then [DigitChar(n)] else DecimalDigits(n / 10) + [DigitChar(n % 10)]
  }

  /** `Long.toString`: an optional minus sign followed by the digits. */
  function ToString(n: int): string {
    if n < 0 then "-" + DecimalDigits(-n) else DecimalDigits(n)
  }

  /** The value of a string of decimal digits. */
  function DigitsValue(s: string): nat
    requires AllDigits(s)
  {
    if s == [] then 0
    else 10 * DigitsValue(s[..|s| - 1]) + (s[|s| - 1] as int - '0' as int)
  }

  /** Decimal digits with an optional minus sign; no range check. */
  predicate IsDecimal(s: string) {
    (|s| >= 1 && AllDigits(s)) || (|s| >= 2 && s[0] == '-' && AllDigits(s[1..]))
  }

  /** The value of a decimal string, as `Long.parseLong` reads it when it is in range. */
  function Parse(s: string): int
    requires IsDecimal(s)
  {
    if s[0] == '-' then -(DigitsValue(s[1..]) as int) else DigitsValue(s)
  }

  lemma {:induction false} DecimalDigitsValue(n: nat)
    ensures DigitsValue(DecimalDigits(n)) == n
  {
    var s := DecimalDigits(n);
    if n >= 10 {
      DecimalDigitsValue(n / 10);
      assert s[..|s| - 1] == DecimalDigits(n / 10);
    }
  }

  /** Reading back what `Long.toString` printed gives the value printed. */
  lemma ToStringRoundTrip(n: int)
    ensures IsDecimal(ToString(n)) && Parse(ToString(n)) == n
  {
    if n < 0 {
      var s := ToString(n);
      assert s[1..] == DecimalDigits(-n);
      DecimalDigitsValue(-n);
    } else {
      DecimalDigitsValue(n);
    }
  }

  /** Distinct values print differently. */
  lemma ToStringInjective(a: int, b: int)
    requires ToString(a) == ToString(b)
    ensures a == b
  {
    ToStringRoundTrip(a);
    ToStringRoundTrip(b);
  }
}
