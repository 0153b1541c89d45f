/**
 * Decimal text for integers: `Number.prototype.toString()` on integers and
 * `parseInt(s)` (radix 10), plus JavaScript's truncating remainder `%`.
 */
module Numerals {
  import opened Wrappers
  import opened Strings

  predicate IsDigit(c: char) {
    '0' <= c <= '9'
  }

  predicate AllDigits(s: string) {
    forall i :: 0 <= i < |s| ==> IsDigit(s[i])
  }

  function DigitChar(d: nat): (c: char)
    requires d < 10
    ensures IsDigit(c)
  {
    ('0' as int + d) as char
  }

  function DigitValue(c: char): (d: nat)
    requires IsDigit(c)
    ensures d < 10 && DigitChar(d) == c
  {
    c as int - '0' as int
  }

  /** The value of a string of decimal digits, most significant first. */
  function DigitsValue(ds: string): nat
    requires AllDigits(ds)
  {
    if ds == [] then 0
    else DigitsValue(ds[..|ds| - 1]) * 10 + DigitValue(ds[|ds| - 1])
  }

  /** The value of a two-digit string. */
  lemma DigitsValueTwo(s: string)
    requires |s| == 2 && AllDigits(s)
    ensures DigitsValue(s) == DigitValue(s[0]) * 10 + DigitValue(s[1])
  {
    assert s[..1][..0] == [];
    assert DigitsValue(s[..1]) == DigitValue(s[0]);
  }

  /** `n.toString()` for a non-negative integer: digits only, no leading zero. */
  function NatToString(n: nat): (r: string)
    ensures |r| >= 1 && AllDigits(r)
    ensures |r| > 1 ==> r[0] != '0'
    ensures n > 0 ==> r[0] != '0'
  {
    if n < 10 then [DigitChar(n)]
    else NatToString(n / 10) + [DigitChar(n % 10)]
  }

  /** `i.toString()` for any integer. */
  function IntToString(i: int): (r: string)
    ensures |r| >= 1
    ensures r[0] == '-' <==> i < 0
  {
    if i < 0 then "-" + NatToString(-i) else NatToString(i)
  }

  /** Reading back the digits `NatToString` writes gives the number again. */
  lemma {:induction false} NatToStringValue(n: nat)
    ensures DigitsValue(NatToString(n)) == n
  {
    var s := NatToString(n);
    if n >= 10 {
      NatToStringValue(n / 10);
      assert s[..|s| - 1] == NatToString(n / 10);
    }
  }

  /** The longest prefix of `s` made of digits. */
  function LeadingDigits(s: string): (r: string)
    ensures IsPrefix(r, s) && AllDigits(r)
    ensures |r| == |s| || !IsDigit(s[|r|])
    decreases |s|
  {
    if s == [] || !IsDigit(s[0]) then []
    else [s[0]] + LeadingDigits(s[1..])
  }

  /** On a string of digits, the leading digits are the whole string. */
  lemma LeadingDigitsAll(s: string)
    requires AllDigits(s)
    ensures LeadingDigits(s) == s
  {
    var r := LeadingDigits(s);
    assert s[..|r|] == r;
    assert |r| == |s|;
  }

  /**
   * `parseInt(s)`: an optional sign followed by the longest run of digits;
   * `None` stands for `NaN`, the value when no digit follows the sign.
   */
  function ParseIntPrefix(s: string): (r: Option<int>)
    ensures r.None? <==> LeadingDigits(if |s| > 0 && (s[0] == '-' || s[0] == '+') then s[1..] else s) == []
  {
    var negative := |s| > 0 && s[0] == '-';
    var body := if |s| > 0 && (s[0] == '-' || s[0] == '+') then s[1..] else s;
    var ds := LeadingDigits(body);
    if ds == [] then None
    else if negative then Some(-(DigitsValue(ds) as int))
    else Some(DigitsValue(ds))
  }

  /** `parseInt(i.toString()) === i`: the rain cooldown's timestamp reads back exactly. */
  lemma ParseIntRoundTrip(i: int)
    ensures ParseIntPrefix(IntToString(i)) == Some(i)
  {
    var s := IntToString(i);
    if i < 0 {
      assert s[1..] == NatToString(-i);
      LeadingDigitsAll(NatToString(-i));
      NatToStringValue(-i);
    } else {
      LeadingDigitsAll(NatToString(i));
      NatToStringValue(i);
    }
  }

  /** JavaScript's `a % 12`: the remainder takes the sign of `a`. */
  function JsRem12(a: int): (r: int)
    ensures a >= 0 ==> 0 <= r < 12
    ensures a < 0 ==> -12 < r <= 0
    ensures r == 0 <==> a % 12 == 0
    ensures (a - r) % 12 == 0
  {
    if a >= 0 then a % 12 else -((-a) % 12)
  }
}
