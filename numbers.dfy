/** Fixed-width integer ranges and decimal digit strings shared by the lexer
    (integer and float literals) and the SVG header (formatted sizes). */
module Numbers {

  const I64_MIN: int := -0x8000_0000_0000_0000
  const I64_MAX: int := 0x7FFF_FFFF_FFFF_FFFF
  const U32_MODULUS: int := 0x1_0000_0000

  /** Rust's i64. */
  type i64 = x: int | I64_MIN <= x <= I64_MAX

  /** Rust's u32. */
  type u32 = x: int | 0 <= x < U32_MODULUS

  predicate IsDigit(c: char) {
    '0' <= c <= '9'
  }

  predicate AllDigits(s: string) {
    forall i :: 0 <= i < |s| ==> IsDigit(s[i])
  }

  function DigitValue(c: char): (d: nat)
    requires IsDigit(c)
    ensures d < 10
  {
    c as int - '0' as int
  }

  function DigitChar(d: nat): (c: char)
    requires d < 10
    ensures IsDigit(c) && DigitValue(c) == d
  {
    ('0' as int + d) as char
  }

  /** The number a string of decimal digits denotes (most significant digit first). */
  function DigitsValue(s: string): nat
    requires AllDigits(s)
  {
    if s == [] then 0 else 10 * DigitsValue(s[..|s| - 1]) + DigitValue(s[|s| - 1])
  }

  function Pow10(k: nat): (p: nat)
    ensures p >= 1
  {
    if k == 0 then 1 else 10 * Pow10(k - 1)
  }

  /** Decimal formatting of a natural number, as Rust's `{}` prints a u64. */
  function Show(n: nat): (s: string)
    ensures s != [] && AllDigits(s)
    ensures DigitsValue(s) == n
    ensures n > 0 ==> s[0] != '0'
    decreases n
  {
    if n < 10 then [DigitChar(n)] else Show(n / 10) + [DigitChar(n % 10)]
  }

  /** A digit string without leading zeros is the formatting of its value. */
  lemma {:induction false} ShowDigitsValue(s: string)
    requires s != [] && AllDigits(s)
    requires s[0] != '0' || |s| == 1
    ensures Show(DigitsValue(s)) == s
    decreases |s|
  {
    if |s| == 1 {
      assert DigitsValue(s) == DigitValue(s[0]) by {
        assert s[..0] == [];
      }
      assert DigitChar(DigitValue(s[0])) == s[0];
    } else {
      var init := s[..|s| - 1];
      assert init[0] == s[0];
      assert AllDigits(init);
      ShowDigitsValue(init);
      var v := DigitsValue(init);
      assert v > 0 by {
        LeadingDigitPositive(init);
      }
      assert DigitsValue(s) / 10 == v && DigitsValue(s) % 10 == DigitValue(s[|s| - 1]);
      assert DigitChar(DigitValue(s[|s| - 1])) == s[|s| - 1];
      assert s == init + [s[|s| - 1]];
    }
  }

  lemma {:induction false} LeadingDigitPositive(s: string)
    requires s != [] && AllDigits(s) && s[0] != '0'
    ensures DigitsValue(s) > 0
    decreases |s|
  {
    if |s| > 1 {
      var init := s[..|s| - 1];
      assert init[0] == s[0];
      LeadingDigitPositive(init);
    }
  }
}
