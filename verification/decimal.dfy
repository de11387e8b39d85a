/**
 * Decimal text for Java's integral types: `String.valueOf(int/long)` on the
 * writing side and `Integer.valueOf` / `Long.valueOf` on the reading side.
 * A Java number is an unbounded `int` here; the width of the Java type is the
 * range `[lo, hi]` that the parser enforces.
 */
module Decimal {
  import opened Wrappers

  const Int32Min: int := -0x8000_0000
  const Int32Max: int := 0x7fff_ffff
  const Int64Min: int := -0x8000_0000_0000_0000
  const Int64Max: int := 0x7fff_ffff_ffff_ffff

  /** Java `int` and `long` values. */
  type Int32 = x: int | Int32Min <= x <= Int32Max
  type Int64 = x: int | Int64Min <= x <= Int64Max

  predicate IsDigit(c: char) {
    '0' <= c <= '9'
  }

  predicate AllDigits(s: string) {
    forall i :: 0 <= i < |s| ==> IsDigit(s[i])
  }

  function DigitValue(c: char): (d: nat)
    requires IsDigit(c)
    ensures d < 10
  {
    c as int - '0' as int
  }

  function DigitChar(d: nat): (c: char)
    requires d < 10
    ensures IsDigit(c) && DigitValue(c) == d
  {
    ('0' as int + d) as char
  }

  /** The value of a string of decimal digits, most significant first. */
  function ValueOf(s: string): nat
    requires AllDigits(s)
  {
    if |s| == 0 then 0 else ValueOf(s[..|s| - 1]) * 10 + DigitValue(s[|s| - 1])
  }

  /** The shortest digit string of `n`: "0" for zero, no leading zeros otherwise. */
  function DigitsOf(n: nat): (s: string)
    ensures |s| >= 1 && AllDigits(s)
    ensures |s| > 1 ==> s[0] != '0'
  {
    if n < 10 then [DigitChar(n)] else DigitsOf(n / 10) + [DigitChar(n % 10)]
  }

  /** `String.valueOf` of an integral value. */
  function Format(n: int): string {
    if n < 0 then "-" + DigitsOf(-n) else DigitsOf(n)
  }

  /** The text after an optional leading '+' or '-'. */
  function Unsigned(s: string): string {
    if |s| > 0 && (s[0] == '-' || s[0] == '+') then s[1..] else s
  }

  /** The shape `Integer.parseInt` accepts: an optional sign and at least one digit. */
  predicate IsDecimal(s: string) {
    |Unsigned(s)| > 0 && AllDigits(Unsigned(s))
  }

  function SignedValue(s: string): int
    requires IsDecimal(s)
  {
    var magnitude: int := ValueOf(Unsigned(s));
    if s[0] == '-' then -magnitude else magnitude
  }

  /**
   * `Integer.valueOf` (lo, hi = the int range) or `Long.valueOf` (the long
   * range): None stands for the NumberFormatException thrown on a malformed
   * or out-of-range string.
   */
  function Parse(s: string, lo: int, hi: int): (r: Option<int>)
    ensures r.Some? ==> lo <= r.value <= hi
    ensures !IsDecimal(s) ==> r.None?
    ensures r.Some? && AllDigits(s) ==> r.value == ValueOf(s)
    ensures r.Some? && s[0] == '-' ==> r.value + ValueOf(s[1..]) == 0
    ensures r.Some? && s[0] == '+' ==> r.value == ValueOf(s[1..])
    ensures IsDecimal(s) && lo <= SignedValue(s) <= hi ==> r == Some(SignedValue(s))
  {
    if IsDecimal(s) && lo <= SignedValue(s) <= hi then Some(SignedValue(s)) else None
  }

  lemma {:induction false} ValueOfDigitsOf(n: nat)
    ensures ValueOf(DigitsOf(n)) == n
  {
    if n >= 10 {
      var front := DigitsOf(n / 10);
      var s := front + [DigitChar(n % 10)];
      assert s[..|s| - 1] == front;
      ValueOfDigitsOf(n / 10);
    }
  }

  /** Parsing what `String.valueOf` wrote gives the number back, for every value in range. */
  lemma ParseFormat(n: int, lo: int, hi: int)
    requires lo <= n <= hi
    ensures Parse(Format(n), lo, hi) == Some(n)
  {
    var s := Format(n);
    if n < 0 {
      var d := DigitsOf(-n);
      assert s == "-" + d;
      assert s[0] == '-';
      assert Unsigned(s) == d;
      ValueOfDigitsOf(-n);
      assert SignedValue(s) == n;
    } else {
      var d := DigitsOf(n);
      assert s == d;
      assert IsDigit(d[0]);
      assert Unsigned(s) == d;
      ValueOfDigitsOf(n);
      assert SignedValue(s) == n;
    }
  }

  /** Leading zeros are accepted: "007" parses to 7. */
  lemma ParseAcceptsLeadingZeros()
    ensures Parse("007", Int32Min, Int32Max) == Some(7)
  {
    assert Unsigned("007") == "007";
    assert "007"[..2] == "00";
    assert "00"[..1] == "0";
    assert "0"[..0] == "";
    assert ValueOf("0") == 0;
    assert ValueOf("00") == 0;
  }
}
