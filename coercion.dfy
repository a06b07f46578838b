/**
 * The three-tier numeric coercion the reader applies to oven temperatures,
 * yields and ingredient amounts: `int(v)`, and when that raises ValueError
 * `float(v)`, and when that raises too the value itself.  Which of the three
 * applies is all the callers branch on; floating-point values themselves are
 * kept as their text.
 */
module Coercion {
  import opened RawTree

  datatype Amount =
    | IntAmt(n: int)          // int(v) succeeded
    | FloatAmt(text: string)  // float(v) succeeded on this text
    | TextAmt(text: string)   // neither did: the text is kept as it is

  predicate IsDigit(c: char) {
    '0' <= c <= '9'
  }

  predicate AllDigits(s: string) {
    forall i :: 0 <= i < |s| ==> IsDigit(s[i])
  }

  /** The text after an optional leading sign. */
  function Unsigned(s: string): string {
    if |s| > 0 && (s[0] == '+' || s[0] == '-') then s[1..] else s
  }

  /** The strings `int()` accepts here: an optional sign and decimal digits. */
  predicate IsIntText(s: string) {
    |Unsigned(s)| > 0 && AllDigits(Unsigned(s))
  }

  function DigitsValue(s: string): nat
    requires AllDigits(s)
  {
    if s == [] then 0
    else DigitsValue(s[..|s| - 1]) * 10 + (s[|s| - 1] as int - '0' as int)
  }

  function IntTextValue(s: string): int
    requires IsIntText(s)
  {
    if s[0] == '-' then -(DigitsValue(Unsigned(s)) as int) else DigitsValue(Unsigned(s))
  }

  function IndexOf(s: string, c: char): (i: nat)
    requires c in s
    ensures i < |s| && s[i] == c && c !in s[..i]
  {
    if s[0] == c then 0 else 1 + IndexOf(s[1..], c)
  }

  /** Digits with at most one decimal point, and at least one digit. */
  predicate IsMantissa(m: string) {
    if '.' in m then
      var i := IndexOf(m, '.');
      AllDigits(m[..i]) && AllDigits(m[i + 1..]) && |m| > 1
    else
      |m| > 0 && AllDigits(m)
  }

  /** A mantissa, optionally followed by `e` or `E` and a signed exponent. */
  predicate IsDecimal(b: string) {
    var lb := Lower(b);
    if 'e' in lb then
      var k := IndexOf(lb, 'e');
      IsMantissa(b[..k]) && IsIntText(b[k + 1..])
    else
      IsMantissa(b)
  }

  /** The strings `float()` accepts here: an optional sign, then `inf`,
      `infinity` or `nan` in any case, or a decimal number. */
  predicate IsFloatText(s: string) {
    var b := Unsigned(s);
    Lower(b) == "inf" || Lower(b) == "infinity" || Lower(b) == "nan" || IsDecimal(b)
  }

  /** `int(v)`, else `float(v)`, else `v`.  Only integers and strings reach
      it: Python raises TypeError on anything else. */
  function Coerce(v: Raw): Amount
    requires v.Int? || v.Str?
  {
    if v.Int? then IntAmt(v.n)
    else if IsIntText(v.s) then IntAmt(IntTextValue(v.s))
    else if IsFloatText(v.s) then FloatAmt(v.s)
    else TextAmt(v.s)
  }

  /** `str(n)` for a natural number. */
  function NatText(n: nat): (s: string)
    ensures |s| > 0 && AllDigits(s)
  {
    var d := ['0' + ((n % 10) as char)];
    if n < 10 then d else NatText(n / 10) + d
  }

  /** `str(n)`: how Python renders an integer into text. */
  function IntText(n: int): string {
    if n < 0 then "-" + NatText(-n) else NatText(n)
  }

  lemma {:induction false} NatTextValue(n: nat)
    ensures DigitsValue(NatText(n)) == n
  {
    var d := ['0' + ((n % 10) as char)];
    if n >= 10 {
      NatTextValue(n / 10);
      var s := NatText(n / 10) + d;
      assert s[..|s| - 1] == NatText(n / 10);
    }
  }

  /** Coercing the decimal text of an integer gives that integer back in the
      integer tier, for negative integers too. */
  lemma IntTextRoundTrip(n: int)
    ensures IsIntText(IntText(n))
    ensures Coerce(Str(IntText(n))) == IntAmt(n)
  {
    var s := IntText(n);
    if n < 0 {
      assert Unsigned(s) == NatText(-n);
      NatTextValue(-n);
    } else {
      assert IsDigit(s[0]);
      assert Unsigned(s) == s;
      NatTextValue(n);
    }
  }

  /** An integer is never degraded, and coercion never alters text it cannot
      read as an integer: it is kept in the float tier or as it is. */
  lemma CoerceKeeps(v: Raw)
    requires v.Int? || v.Str?
    ensures v.Int? ==> Coerce(v) == IntAmt(v.n)
    ensures v.Str? && !IsIntText(v.s) ==> Coerce(v).text == v.s
    ensures Coerce(v).TextAmt? ==> v.Str? && !IsFloatText(v.s)
  {
  }

  /** One amount per tier: "12" is an integer, "12.5" a float, and a compound
      fraction such as "1 1/2" neither, so it is kept as text. */
  lemma IntegerTier()
    ensures Coerce(Str("12")) == IntAmt(12)
  {
    assert "12"[..1] == "1";
    assert DigitsValue("12") == 12;
  }

  lemma FloatTier()
    ensures Coerce(Str("12.5")) == FloatAmt("12.5")
  {
    assert !IsDigit("12.5"[2]);
    assert Lower("12.5") == "12.5";
    assert IndexOf("12.5", '.') == 2;
    assert "12.5"[..2] == "12" && "12.5"[3..] == "5";
  }

  lemma TextTier()
    ensures Coerce(Str("1 1/2")) == TextAmt("1 1/2")
  {
    assert !IsDigit("1 1/2"[1]);
    assert Lower("1 1/2") == "1 1/2";
    assert '.' !in "1 1/2";
  }
}
