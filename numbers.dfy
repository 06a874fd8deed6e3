/** Java's integer conversions that the renderers rely on: the `(int)` cast of a
    double, 32-bit wrap-around of `int` addition, and `String.valueOf(int)`. */
module Numbers {

  function Min(a: int, b: int): int { if a <= b then a else b }

  /** Java's `(int)` cast of a double: rounds toward zero. */
  function Trunc(r: real): (t: int)
    ensures r >= 0.0 ==> 0 <= t && t as real <= r < t as real + 1.0
    ensures r < 0.0 ==> t <= 0 && t as real - 1.0 < r <= t as real
  {
    if r >= 0.0 then r.Floor else -((-r).Floor)
  }

  const INT_MIN: int := -0x8000_0000
  const INT_MAX: int := 0x7FFF_FFFF

  /** Java's `int`. */
  newtype int32 = x: int | -0x8000_0000 <= x < 0x8000_0000

  /** The value of a Java `int` expression whose mathematical value is `x`. */
  function Wrap32(x: int): (r: int32)
    ensures INT_MIN <= x <= INT_MAX ==> r as int == x
    ensures (r as int - x) % 0x1_0000_0000 == 0
  {
    ((x - INT_MIN) % 0x1_0000_0000 + INT_MIN) as int32
  }

  function DigitChar(d: nat): (c: char)
    requires d < 10
    ensures '0' <= c <= '9'
  {
    ('0' as int + d) as char
  }

  predicate AllDigits(s: string) {
    forall k :: 0 <= k < |s| ==> '0' <= s[k] <= '9'
  }

  /** The decimal digits of `n`, most significant first, without leading zeros. */
  function Digits(n: nat): (s: string)
    ensures 1 <= |s| && AllDigits(s)
    ensures |s| > 1 ==> s[0] != '0'
    decreases n
  {
    if n < 10 then [DigitChar(n)] else Digits(n / 10) + [DigitChar(n % 10)]
  }

  function ParseDigits(s: string): nat
    requires AllDigits(s)
    decreases |s|
  {
    if s == [] then 0 else 10 * ParseDigits(s[..|s| - 1]) + (s[|s| - 1] as int - '0' as int)
  }

  /** `String.valueOf(i)`: an optional minus sign followed by the digits. */
  function DecimalString(i: int): (s: string)
    ensures 1 <= |s|
  {
    if i < 0 then "-" + Digits(-i) else Digits(i)
  }

  predicate IsDecimal(s: string) {
    if |s| > 0 && s[0] == '-' then AllDigits(s[1..]) else AllDigits(s)
  }

  /** `Integer.parseInt` on a well-formed decimal string. */
  function ParseDecimal(s: string): int
    requires IsDecimal(s)
  {
    if |s| > 0 && s[0] == '-' then -(ParseDigits(s[1..]) as int) else ParseDigits(s)
  }

  lemma {:induction false} DigitsRoundTrip(n: nat)
    ensures ParseDigits(Digits(n)) == n
    decreases n
  {
    if n >= 10 {
      var prefix := Digits(n / 10);
      var s := prefix + [DigitChar(n % 10)];
      assert s[..|s| - 1] == prefix;
      DigitsRoundTrip(n / 10);
    }
  }

  /** Reading back the text `String.valueOf` wrote gives the number again, so two
      different numbers never get the same label. */
  lemma DecimalRoundTrip(i: int)
    ensures IsDecimal(DecimalString(i))
    ensures ParseDecimal(DecimalString(i)) == i
  {
    var s := DecimalString(i);
    if i < 0 {
      var d := Digits(-i);
      assert s == "-" + d && s[0] == '-';
      assert s[1..] == d;
      DigitsRoundTrip(-i);
    } else {
      assert s == Digits(i) && s[0] != '-';
      DigitsRoundTrip(i);
    }
  }

  lemma DecimalStringInjective(i: int, j: int)
    requires DecimalString(i) == DecimalString(j)
    ensures i == j
  {
    DecimalRoundTrip(i);
    DecimalRoundTrip(j);
  }
}
