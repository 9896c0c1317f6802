/**
 * Python's integer formatting (`str(n)`, `f"{n:02d}"`), integer parsing
 * (`int(s)` on a string) and the truncating conversion `int(x * f)` that the
 * source uses to scale word counts by a fractional factor.
 */
module Numerals {
  import opened Common
  import opened Strings

  // ---------------------------------------------------------------------
  // Formatting
  // ---------------------------------------------------------------------

  predicate IsDigit(c: char) {
    '0' <= c <= '9'
  }

  function DigitChar(d: nat): (c: char)
    requires d < 10
    ensures IsDigit(c)
  {
    ('0' as int + d) as char
  }

  function DigitValue(c: char): (d: nat)
    requires IsDigit(c)
    ensures d < 10
  {
    c as int - '0' as int
  }

  predicate AllDigits(s: string) {
    forall i :: 0 <= i < |s| ==> IsDigit(s[i])
  }

  /** `str(n)` for a non-negative integer: decimal digits, no leading zero. */
  function NatToString(n: nat): (s: string)
    ensures s != [] && AllDigits(s)
    ensures |s| > 1 ==> s[0] != '0'
  {
    if n < 10 then [DigitChar(n)] else NatToString(n / 10) + [DigitChar(n % 10)]
  }

  /** `str(i)` for any integer. */
  function IntToString(i: int): string {
    if i < 0 then "-" + NatToString(-i) else NatToString(i)
  }

  /** `f"{n:02d}"` for a non-negative integer. */
  function Pad2(n: nat): (s: string)
    ensures |s| >= 2 && AllDigits(s)
  {
    if n < 10 then "0" + NatToString(n) else NatToString(n)
  }

  // ---------------------------------------------------------------------
  // Parsing
  // ---------------------------------------------------------------------

  /** The value of a string of decimal digits, most significant first. */
  function DigitsValue(s: string): nat
    requires AllDigits(s)
  {
    if s == [] then 0 else DigitsValue(s[..|s| - 1]) * 10 + DigitValue(s[|s| - 1])
  }

  /** The digits of an optionally signed literal, and its sign. */
  function SignedDigits(t: string): (string, bool) {
    if t != [] && (t[0] == '+' || t[0] == '-') then (t[1..], t[0] == '-') else (t, false)
  }

  /**
   * The digits of a decimal `int()` literal: ASCII digits, with single
   * underscores allowed between two digits (`1_000`).
   */
  predicate IsDigitGroups(s: string) {
    && s != [] && IsDigit(s[0]) && IsDigit(s[|s| - 1])
    && (forall i :: 0 <= i < |s| ==> IsDigit(s[i]) || s[i] == '_')
    && (forall i :: 0 <= i < |s| - 1 && s[i] == '_' ==> s[i + 1] != '_')
  }

  /** The literal with its grouping underscores removed. */
  function DropUnderscores(s: string): (r: string)
    ensures (forall i :: 0 <= i < |s| ==> IsDigit(s[i]) || s[i] == '_') ==> AllDigits(r)
    ensures AllDigits(s) ==> r == s
  {
    if s == [] then []
    else (if s[0] == '_' then [] else [s[0]]) + DropUnderscores(s[1..])
  }

  /**
   * `int(s)` on a string: surrounding whitespace, an optional sign and
   * digit groups; anything else is Python's `ValueError` (`None`).
   */
  function ParseInt(s: string): (r: Option<int>)
    ensures r.Some? ==> Strip(s) != []
    ensures r.Some? <==> IsDigitGroups(SignedDigits(Strip(s)).0)
  {
    var (digits, negative) := SignedDigits(Strip(s));
    if !IsDigitGroups(digits) then None
    else
      var value := DigitsValue(DropUnderscores(digits));
      if negative then Some(-(value as int)) else Some(value)
  }

  /** Grouping underscores are ignored: `int("1_000") == 1000`. */
  lemma ParseIntGrouped()
    ensures ParseInt("1_000") == Some(1000)
  {
    StripOfStripped("1_000");
    assert SignedDigits("1_000") == ("1_000", false);
    assert IsDigitGroups("1_000");
    assert DropUnderscores("1_000") == "1000";
    assert "1000"[..3] == "100" && "100"[..2] == "10" && "10"[..1] == "1";
    assert DigitsValue("1000") == 1000;
  }

  /** A doubled, leading or trailing underscore is refused. */
  lemma ParseIntBadGroups()
    ensures ParseInt("1__0") == None
    ensures ParseInt("_1") == None
    ensures ParseInt("1_") == None
  {
    StripOfStripped("1__0");
    StripOfStripped("_1");
    StripOfStripped("1_");
    assert "1__0"[1] == '_' && "1__0"[2] == '_';
  }

  lemma {:induction false} DigitsOfNat(n: nat)
    ensures DigitsValue(NatToString(n)) == n
  {
    if n >= 10 {
      var s := NatToString(n);
      assert s[..|s| - 1] == NatToString(n / 10);
      DigitsOfNat(n / 10);
    }
  }

  lemma IntStringStripped(i: int)
    ensures IsStripped(IntToString(i))
  {
    var s := IntToString(i);
    var digits := NatToString(if i < 0 then -i else i);
    assert IsDigit(digits[|digits| - 1]);
    assert s[|s| - 1] == digits[|digits| - 1];
  }

  lemma SignedDigitsOfInt(i: int)
    ensures SignedDigits(IntToString(i)) == (NatToString(if i < 0 then -i else i), i < 0)
  {
    var digits := NatToString(if i < 0 then -i else i);
    if i < 0 {
      assert ("-" + digits)[1..] == digits;
    } else {
      assert IsDigit(digits[0]);
    }
  }

  /** `int(str(i)) == i`: formatting and parsing are inverse. */
  lemma IntRoundTrip(i: int)
    ensures ParseInt(IntToString(i)) == Some(i)
  {
    IntStringStripped(i);
    StripOfStripped(IntToString(i));
    SignedDigitsOfInt(i);
    var digits := NatToString(if i < 0 then -i else i);
    assert IsDigitGroups(digits);
    DigitsOfNat(if i < 0 then -i else i);
  }

  // ---------------------------------------------------------------------
  // Scaling by a fraction
  // ---------------------------------------------------------------------

  /** Division rounding toward zero, as Python's `int()` truncates a float. */
  function Trunc(a: int, d: nat): (q: int)
    requires d > 0
    ensures a >= 0 ==> q == a / d
    ensures a >= 0 ==> q * d <= a < q * d + d
    ensures a < 0 ==> q * d >= a && q * d - d < a
  {
    if a >= 0 then a / d else -((-a) / d)
  }

  /** `int(x * (num / den))` with the factor written as an exact fraction. */
  function Scale(x: int, num: nat, den: nat): int
    requires den > 0
  {
    Trunc(x * num, den)
  }

  function Max(a: int, b: int): int {
    if a >= b then a else b
  }

  function Min(a: int, b: int): int {
    if a <= b then a else b
  }
}
