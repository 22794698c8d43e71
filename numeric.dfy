/**
 * The machine integers the source uses (`i32` record ids, the `u32` tournament id) and
 * the two conversions between `u32` and text that the feed locator relies on: Rust's
 * `str::parse::<u32>` and the `{}` formatting of a `u32`.
 */
module Numeric {
  import opened Wrappers

  const U32_LIMIT: int := 0x1_0000_0000

  type i32 = x: int | -0x8000_0000 <= x < 0x8000_0000
  type u32 = x: int | 0 <= x < 0x1_0000_0000

  predicate IsDigit(c: char) {
    '0' <= c <= '9'
  }

  predicate AllDigits(s: string) {
    forall i :: 0 <= i < |s| ==> IsDigit(s[i])
  }

  function DigitValue(c: char): nat
    requires IsDigit(c)
  {
    c as int - '0' as int
  }

  function DigitChar(d: nat): (c: char)
    requires d < 10
    ensures IsDigit(c) && DigitValue(c) == d
  {
    ('0' as int + d) as char
  }

  /** The value of a run of decimal digits, most significant digit first. */
  function DigitsValue(s: string): nat
    requires AllDigits(s)
  {
    if s == [] then 0 else DigitsValue(s[..|s| - 1]) * 10 + DigitValue(s[|s| - 1])
  }

  /** The digits `u32::from_str` reads: the text after at most one leading `+`. */
  function UnsignedDigits(s: string): string {
    if |s| > 0 && s[0] == '+' then s[1..] else s
  }

  /**
   * Rust's `u32::from_str`: an optional `+` followed by one or more ASCII digits whose
   * value fits in 32 bits. Leading zeros are accepted; a `-`, any other character, an
   * empty string, a lone `+` and an overflowing value are all rejected.
   */
  function ParseU32(s: string): (r: Option<u32>)
    ensures s == [] || s == "+" ==> r.None?
    ensures (exists i :: 0 < i < |s| && !IsDigit(s[i])) ==> r.None?
    ensures |s| > 0 && s[0] != '+' && !IsDigit(s[0]) ==> r.None?
    ensures r.Some? <==> UnsignedDigits(s) != [] && AllDigits(UnsignedDigits(s))
                         && DigitsValue(UnsignedDigits(s)) < U32_LIMIT
    ensures r.Some? ==> r.value == DigitsValue(UnsignedDigits(s))
  {
    var digits := UnsignedDigits(s);
    if digits == [] || !AllDigits(digits) then None
    else if DigitsValue(digits) < U32_LIMIT then Some(DigitsValue(digits))
    else None
  }

  /** Rust's `Display` for an unsigned integer: decimal digits without leading zeros. */
  function Decimal(n: nat): (s: string)
    ensures s != [] && AllDigits(s)
    ensures |s| > 1 ==> s[0] != '0'
    decreases n
  {
    if n < 10 then [DigitChar(n)] else Decimal(n / 10) + [DigitChar(n % 10)]
  }

  /** Reading back the digits `Decimal` writes gives the number written. */
  lemma {:induction false} DecimalValue(n: nat)
    ensures DigitsValue(Decimal(n)) == n
    decreases n
  {
    if n >= 10 {
      var s := Decimal(n);
      assert s[..|s| - 1] == Decimal(n / 10);
      DecimalValue(n / 10);
    }
  }

  /** Round trip: parsing the `{}` rendering of a `u32` yields that `u32`. */
  lemma ParseDecimal(n: u32)
    ensures ParseU32(Decimal(n)) == Some(n)
  {
    DecimalValue(n);
    assert UnsignedDigits(Decimal(n)) == Decimal(n);
  }

  /** Distinct `u32`s render as distinct text. */
  lemma DecimalInjective(m: u32, n: u32)
    ensures Decimal(m) == Decimal(n) ==> m == n
  {
    ParseDecimal(m);
    ParseDecimal(n);
  }
}
