/**
 * `strconv.ParseInt(s, 10, 64)` and `strconv.FormatInt(n, 10)`: the decimal
 * conversions the workflow service uses for every ID it reads from or writes
 * into a canvas.
 */
module Decimal {
  import opened Wrappers

  const Int64Min: int := -0x8000_0000_0000_0000
  const Int64Max: int := 0x7fff_ffff_ffff_ffff

  predicate InInt64(n: int) { Int64Min <= n <= Int64Max }

  predicate IsDigit(c: char) { '0' <= c <= '9' }

  predicate AllDigits(s: string) { forall i :: 0 <= i < |s| ==> IsDigit(s[i]) }

  function DigitValue(c: char): nat
    requires IsDigit(c)
  {
    c as int - '0' as int
  }

  function DigitChar(d: nat): (c: char)
    requires d < 10
    ensures IsDigit(c) && DigitValue(c) == d
  {
    ('0' as int + d) as char
  }

  /** The value of a string of decimal digits, most significant first. */
  function DigitsValue(s: string): nat
    requires AllDigits(s)
    decreases |s|
  {
    if |s| == 0 then 0 else DigitsValue(s[..|s| - 1]) * 10 + DigitValue(s[|s| - 1])
  }

  /**
   * `strconv.ParseInt(s, 10, 64)`: an optional `+` or `-` followed by at least
   * one decimal digit, whose value must fit in 64 bits; anything else fails.
   */
  function ParseInt64(s: string): (r: Option<int>)
    ensures r.Some? ==> InInt64(r.value)
    ensures r.Some? ==> |s| > 0
  {
    var neg := |s| > 0 && s[0] == '-';
    var body := if |s| > 0 && (s[0] == '-' || s[0] == '+') then s[1..] else s;
    if |body| == 0 || !AllDigits(body) then None
    else
      var m: int := DigitsValue(body);
      var v := if neg then 0 - m else m;
      if InInt64(v) then Some(v) else None
  }

  /** Decimal digits of a natural number, without leading zeros. */
  function FormatNat(n: nat): (s: string)
    ensures |s| > 0 && AllDigits(s)
    ensures s[0] != '-' && s[0] != '+'
    decreases n
  {
    if n < 10 then [DigitChar(n)] else FormatNat(n / 10) + [DigitChar(n % 10)]
  }

  /** `strconv.FormatInt(n, 10)`. */
  function FormatInt(n: int): (s: string)
    ensures |s| > 0
  {
    if n < 0 then "-" + FormatNat(-n) else FormatNat(n)
  }

  lemma {:induction false} FormatNatValue(n: nat)
    ensures DigitsValue(FormatNat(n)) == n
    decreases n
  {
    if n >= 10 {
      FormatNatValue(n / 10);
      var s := FormatNat(n);
      assert s[..|s| - 1] == FormatNat(n / 10);
    }
  }

  /** A minus sign before digits parses to the negated value, when it fits. */
  lemma ParseNegative(body: string)
    requires |body| > 0 && AllDigits(body) && body[0] != '-' && body[0] != '+'
    ensures ParseInt64("-" + body) == if InInt64(0 - DigitsValue(body)) then Some(0 - DigitsValue(body)) else None
  {
    assert ("-" + body)[0] == '-';
    assert ("-" + body)[1..] == body;
  }

  /** Digits without a sign parse to their value, when it fits. */
  lemma ParseUnsigned(body: string)
    requires |body| > 0 && AllDigits(body) && body[0] != '-' && body[0] != '+'
    ensures ParseInt64(body) == if InInt64(DigitsValue(body)) then Some(DigitsValue(body)) else None
  {
  }

  /** Every ID written back with `FormatInt` parses to the same number. */
  lemma ParseFormat(n: int)
    requires InInt64(n)
    ensures ParseInt64(FormatInt(n)) == Some(n)
  {
    if n < 0 {
      FormatNatValue(-n);
      ParseNegative(FormatNat(-n));
    } else {
      FormatNatValue(n);
      ParseUnsigned(FormatNat(n));
    }
  }
}
