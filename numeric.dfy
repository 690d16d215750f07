/** The Rust primitive-number behaviour the chat normaliser depends on:
    the ranges of `i64`, `u32` and `u64`, `str::parse::<i64>`, `/` on `i64`
    (which truncates toward zero), and `as u32` (which keeps the low 32 bits).
    Also decimal rendering, used by the date formatter and as the inverse of
    the parser. */
module Numeric {
  import opened Wrappers

  const I64Min: int := -0x8000_0000_0000_0000
  const I64Max: int := 0x7FFF_FFFF_FFFF_FFFF
  const U32Bound: int := 0x1_0000_0000
  const U64Bound: int := 0x1_0000_0000_0000_0000

  type Int64 = x: int | I64Min <= x <= I64Max
  type UInt32 = x: int | 0 <= x < U32Bound
  type UInt64 = x: int | 0 <= x < U64Bound

  predicate IsDigit(c: char)
  {
    '0' <= c <= '9'
  }

  predicate AllDigits(s: string)
  {
    forall i :: 0 <= i < |s| ==> IsDigit(s[i])
  }

  function DigitValue(c: char): (d: nat)
    requires IsDigit(c)
    ensures d < 10
  {
    (c as int) - ('0' as int)
  }

  function DigitChar(d: nat): (c: char)
    requires d < 10
    ensures IsDigit(c) && DigitValue(c) == d
  {
    ('0' as int + d) as char
  }

  /** The number a string of decimal digits denotes, most significant first. */
  function DecimalValue(s: string): nat
    requires AllDigits(s)
  {
    if |s| == 0 then 0 else DecimalValue(s[..|s| - 1]) * 10 + DigitValue(s[|s| - 1])
  }

  lemma DecimalValueAppend(s: string, c: char)
    requires AllDigits(s) && IsDigit(c)
    ensures AllDigits(s + [c]) && DecimalValue(s + [c]) == DecimalValue(s) * 10 + DigitValue(c)
  {
    assert (s + [c])[..|s|] == s;
  }

  /** `s.parse::<i64>().ok()`: an optional sign, then one or more ASCII digits,
      and a value within the `i64` range; anything else is rejected. */
  function ParseI64(s: string): (r: Option<Int64>)
    ensures |s| == 0 ==> r.None?
    ensures r.Some? ==>
      var digits := if s[0] == '+' || s[0] == '-' then s[1..] else s;
      && |digits| > 0 && AllDigits(digits)
      && r.value == (if s[0] == '-' then -(DecimalValue(digits) as int) else DecimalValue(digits))
  {
    if |s| == 0 then None
    else if (s[0] == '+' || s[0] == '-') && |s| == 1 then None
    else
      var digits := if s[0] == '+' || s[0] == '-' then s[1..] else s;
      if !AllDigits(digits) then None
      else
        var magnitude: int := DecimalValue(digits);
        var value: int := if s[0] == '-' then -magnitude else magnitude;
        if I64Min <= value <= I64Max then Some(value) else None
  }

  /** The converse: every optional sign followed by one or more digits whose
      value fits in `i64` is accepted, leading zeros included. */
  lemma ParseI64Accepts(sign: string, digits: string)
    requires sign == "" || sign == "+" || sign == "-"
    requires |digits| > 0 && AllDigits(digits)
    requires I64Min <= (if sign == "-" then -(DecimalValue(digits) as int) else DecimalValue(digits)) <= I64Max
    ensures ParseI64(sign + digits) == Some(if sign == "-" then -(DecimalValue(digits) as int) else DecimalValue(digits))
  {
    var s := sign + digits;
    if sign == "" {
      assert s == digits;
    } else {
      assert s[0] == sign[0] && s[1..] == digits;
    }
  }

  /** Decimal rendering of a natural number, without leading zeros. */
  function NatToString(n: nat): (s: string)
    ensures |s| >= 1 && AllDigits(s)
    ensures n >= 10 ==> s[0] != '0'
  {
    if n < 10 then [DigitChar(n)] else NatToString(n / 10) + [DigitChar(n % 10)]
  }

  /** One more decimal digit for every factor of ten. */
  lemma NatToStringLength(n: nat)
    requires n >= 10
    ensures |NatToString(n)| == |NatToString(n / 10)| + 1
  {
  }

  /** Decimal rendering of an integer, with a leading `-` when negative. */
  function IntToString(n: int): string
  {
    if n < 0 then "-" + NatToString(-n) else NatToString(n)
  }

  lemma {:induction false} DecimalValueOfNatToString(n: nat)
    ensures DecimalValue(NatToString(n)) == n
  {
    if n >= 10 {
      var s := NatToString(n);
      assert s[..|s| - 1] == NatToString(n / 10);
      DecimalValueOfNatToString(n / 10);
    }
  }

  /** Parsing inverts rendering on the whole `i64` range. */
  lemma ParseI64OfIntToString(n: Int64)
    ensures ParseI64(IntToString(n)) == Some(n)
  {
    var m: int := n;
    DecimalValueOfNatToString(if m < 0 then -m else m);
    if n < 0 {
      assert IntToString(n)[1..] == NatToString(-m);
    }
  }

  /** Rust's `a / 1000` on `i64`: the quotient rounded toward zero (Dafny's
      own `/` rounds toward negative infinity for a negative dividend). */
  function DivTrunc1000(a: int): (q: int)
    ensures 0 <= a ==> 0 <= q && q * 1000 <= a < q * 1000 + 1000
    ensures a < 0 ==> q <= 0 && q * 1000 - 1000 < a <= q * 1000
  {
    if a >= 0 then a / 1000 else -((-a) / 1000)
  }

  lemma DivTrunc1000InRange(a: Int64)
    ensures I64Min <= DivTrunc1000(a) <= I64Max
  {
  }

  /** `v as u32` on a `u64`: the low 32 bits. */
  function LowU32(v: UInt64): (r: UInt32)
    ensures v < U32Bound ==> r == v
    ensures (v - r) % U32Bound == 0
  {
    v % U32Bound
  }
}
