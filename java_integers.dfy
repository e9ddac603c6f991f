/**
 * Java's fixed-width integers and the decimal conversions the call-graph codec relies on:
 * Integer.toString / Long.toString / String.valueOf for printing, and
 * Integer.parseInt / Integer.valueOf / Long.parseLong for reading back.
 */
module JavaIntegers {
  import opened Common

  /** Java `int`. */
  type Int32 = x: int | -0x8000_0000 <= x < 0x8000_0000
  /** Java `long`. */
  type Int64 = x: int | -0x8000_0000_0000_0000 <= x < 0x8000_0000_0000_0000

  /** Number.intValue() of an integral number: its low 32 bits read as two's complement. */
  function Wrap32(n: int): (r: Int32)
    ensures (n - r) % 0x1_0000_0000 == 0
    ensures -0x8000_0000 <= n < 0x8000_0000 ==> r == n
  {
    (n + 0x8000_0000) % 0x1_0000_0000 - 0x8000_0000
  }

  /** Number.longValue() of an integral number: its low 64 bits read as two's complement. */
  function Wrap64(n: int): (r: Int64)
    ensures (n - r) % 0x1_0000_0000_0000_0000 == 0
    ensures -0x8000_0000_0000_0000 <= n < 0x8000_0000_0000_0000 ==> r == n
  {
    (n + 0x8000_0000_0000_0000) % 0x1_0000_0000_0000_0000 - 0x8000_0000_0000_0000
  }

  predicate IsDigit(c: char) { '0' <= c <= '9' }

  predicate AllDigits(s: string) { forall i :: 0 <= i < |s| ==> IsDigit(s[i]) }

  /** The value of a string of decimal digits, most significant first. */
  function DigitsValue(s: string): nat
    requires AllDigits(s)
  {
    if |s| == 0 then 0 else DigitsValue(s[..|s| - 1]) * 10 + (s[|s| - 1] as int - '0' as int)
  }

  function DigitChar(d: nat): char
    requires d < 10
  {
    ('0' as int + d) as char
  }

  /** Decimal digits of n without leading zeros ("0" for zero). */
  function NatToDigits(n: nat): string
  {
    if n < 10 then [DigitChar(n)] else NatToDigits(n / 10) + [DigitChar(n % 10)]
  }

  /** Integer.toString, Long.toString and String.valueOf on an integer. */
  function IntToString(n: int): string
  {
    if n < 0 then "-" + NatToDigits(-n) else NatToDigits(n)
  }

  /**
   * The syntax both Integer.parseInt and Long.parseLong accept: an optional '-' or '+' followed
   * by at least one decimal digit. The value is not yet range-checked.
   */
  function ParseInteger(s: string): (r: Option<int>)
    ensures r.Some? <==> (if |s| > 0 && (s[0] == '-' || s[0] == '+') then |s| > 1 && AllDigits(s[1..])
                          else |s| > 0 && AllDigits(s))
  {
    if |s| == 0 then None
    else if s[0] == '-' || s[0] == '+' then
      if |s| > 1 && AllDigits(s[1..]) then
        var magnitude: int := DigitsValue(s[1..]);
        Some(if s[0] == '-' then -magnitude else magnitude)
      else None
    else if AllDigits(s) then Some(DigitsValue(s))
    else None
  }

  /** Integer.parseInt / Integer.valueOf: NumberFormatException on bad syntax or overflow. */
  function ParseInt(s: string): (r: Result<Int32>)
    ensures r.Ok? <==> ParseInteger(s).Some? && -0x8000_0000 <= ParseInteger(s).value < 0x8000_0000
    ensures r.Ok? ==> r.value == ParseInteger(s).value
  {
    match ParseInteger(s)
    case Some(n) => if -0x8000_0000 <= n < 0x8000_0000 then Ok(n) else Err(NumberFormat(s))
    case None => Err(NumberFormat(s))
  }

  /** Long.parseLong: NumberFormatException on bad syntax or overflow. */
  function ParseLong(s: string): (r: Result<Int64>)
    ensures r.Ok? <==> ParseInteger(s).Some? && -0x8000_0000_0000_0000 <= ParseInteger(s).value < 0x8000_0000_0000_0000
    ensures r.Ok? ==> r.value == ParseInteger(s).value
  {
    match ParseInteger(s)
    case Some(n) =>
      if -0x8000_0000_0000_0000 <= n < 0x8000_0000_0000_0000 then Ok(n) else Err(NumberFormat(s))
    case None => Err(NumberFormat(s))
  }

  lemma {:induction false} NatToDigitsValue(n: nat)
    ensures |NatToDigits(n)| > 0 && AllDigits(NatToDigits(n)) && DigitsValue(NatToDigits(n)) == n
  {
    if n >= 10 {
      NatToDigitsValue(n / 10);
      var s := NatToDigits(n);
      assert s[..|s| - 1] == NatToDigits(n / 10);
    }
  }

  /** Parsing reads back what printing wrote, for every integer. */
  lemma ParseIntegerOfToString(n: int)
    ensures ParseInteger(IntToString(n)) == Some(n)
  {
    var s := IntToString(n);
    if n < 0 {
      NatToDigitsValue(-n);
      assert s[0] == '-' && s[1..] == NatToDigits(-n);
    } else {
      NatToDigitsValue(n);
      assert IsDigit(s[0]);
    }
  }

  /** Integer.parseInt(Integer.toString(n)) == n. */
  lemma ParseIntOfToString(n: Int32)
    ensures ParseInt(IntToString(n)) == Ok(n)
  {
    ParseIntegerOfToString(n);
  }
}
