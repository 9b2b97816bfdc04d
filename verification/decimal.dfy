/**
 * Decimal text as the C and C++ libraries produce and read it: `"%d"`/`"%u"`
 * and `std::to_string` on one side, `atoi` on the other.
 */
module Decimal {

  predicate IsDigit(c: char) { '0' <= c <= '9' }

  predicate AllDigits(s: string) { forall i :: 0 <= i < |s| ==> IsDigit(s[i]) }

  function DigitChar(d: nat): (c: char)
    requires d < 10
    ensures IsDigit(c) && c as int - '0' as int == d
  {
    ('0' as int + d) as char
  }

  /** The characters `"%u"` (or `"%d"` on a non-negative value) prints for `n`. */
  function DecimalString(n: nat): (s: string)
    ensures |s| >= 1 && AllDigits(s)
    ensures s[0] == '0' ==> n == 0 && |s| == 1
    decreases n
  {
    if n < 10 then [DigitChar(n)] else DecimalString(n / 10) + [DigitChar(n % 10)]
  }

  /** `std::to_string` of a signed integer. */
  function IntToString(i: int): (s: string)
    ensures |s| >= 1
    ensures s[0] == '-' <==> i < 0
  {
    if i < 0 then "-" + DecimalString(-i) else DecimalString(i)
  }

  /** The value of a string of decimal digits, most significant first. */
  function DigitsValue(s: string): nat
    requires AllDigits(s)
  {
    if s == [] then 0 else DigitsValue(s[..|s| - 1]) * 10 + (s[|s| - 1] as int - '0' as int)
  }

  /** The longest prefix of `s` made of decimal digits. */
  function LeadingDigits(s: string): (p: string)
    ensures p <= s && AllDigits(p)
    ensures |p| < |s| ==> !IsDigit(s[|p|])
  {
    if s == [] || !IsDigit(s[0]) then [] else [s[0]] + LeadingDigits(s[1..])
  }

  /** The characters C's `isspace` accepts in the "C" locale. */
  predicate IsSpace(c: char)
  {
    c == ' ' || c == '\t' || c == '\n' || c == '\r' || c == '\U{B}' || c == '\U{C}'
  }

  function SkipSpace(s: string): (t: string)
    ensures |t| <= |s| && t == s[|s| - |t|..]
    ensures t == [] || !IsSpace(t[0])
  {
    if s != [] && IsSpace(s[0]) then SkipSpace(s[1..]) else s
  }

  /**
   * C's `atoi`: leading white space, an optional sign, then as many decimal
   * digits as follow; a string with no digits there reads as 0. (Overflow of
   * `int`, undefined in C, is not modelled.)
   */
  function Atoi(s: string): int
  {
    var t := SkipSpace(s);
    if t != [] && t[0] == '-' then 0 - DigitsValue(LeadingDigits(t[1..])) as int
    else if t != [] && t[0] == '+' then DigitsValue(LeadingDigits(t[1..]))
    else DigitsValue(LeadingDigits(t))
  }

  lemma {:induction false} DigitsValueOfDecimal(n: nat)
    ensures DigitsValue(DecimalString(n)) == n
    decreases n
  {
    if n >= 10 {
      var s := DecimalString(n);
      assert s[..|s| - 1] == DecimalString(n / 10);
      DigitsValueOfDecimal(n / 10);
    }
  }

  lemma {:induction false} LeadingDigitsOfDigits(s: string)
    requires AllDigits(s)
    ensures LeadingDigits(s) == s
  {
    if s != [] {
      LeadingDigitsOfDigits(s[1..]);
    }
  }

  /** On a string that starts with a digit, `atoi` reads the leading digits. */
  lemma AtoiOfDigitStart(s: string)
    requires s != [] && IsDigit(s[0])
    ensures Atoi(s) == DigitsValue(LeadingDigits(s))
  {
    assert SkipSpace(s) == s;
  }

  /** After a minus sign, `atoi` reads the leading digits and negates them. */
  lemma AtoiOfMinus(d: string)
    ensures Atoi("-" + d) == 0 - DigitsValue(LeadingDigits(d)) as int
  {
    var s := "-" + d;
    assert s[0] == '-' && !IsSpace(s[0]);
    assert SkipSpace(s) == s;
    assert s[1..] == d;
  }

  /** `atoi` reads back exactly the number `"%d"` printed. */
  lemma AtoiOfDecimal(n: nat)
    ensures Atoi(DecimalString(n)) == n
  {
    var s := DecimalString(n);
    AtoiOfDigitStart(s);
    LeadingDigitsOfDigits(s);
    DigitsValueOfDecimal(n);
  }

  /** `atoi` reads back a negative number printed as a minus sign and its magnitude. */
  lemma AtoiOfNegative(m: nat)
    ensures Atoi("-" + DecimalString(m)) == -(m as int)
  {
    var d := DecimalString(m);
    AtoiOfMinus(d);
    LeadingDigitsOfDigits(d);
    DigitsValueOfDecimal(m);
  }

  /** `atoi` is a left inverse of `std::to_string` on every `int`. */
  lemma AtoiOfIntToString(i: int)
    ensures Atoi(IntToString(i)) == i
  {
    if i < 0 {
      AtoiOfNegative(-i);
    } else {
      AtoiOfDecimal(i);
    }
  }

  /** `atoi` stops at the first character that is not a digit. */
  lemma {:induction false} LeadingDigitsThenText(d: string, rest: string)
    requires AllDigits(d) && rest != [] && !IsDigit(rest[0])
    ensures LeadingDigits(d + rest) == d
  {
    if d != [] {
      assert (d + rest)[1..] == d[1..] + rest;
      LeadingDigitsThenText(d[1..], rest);
    }
  }

  lemma AtoiOfDigitsThenText(d: string, rest: string)
    requires AllDigits(d) && d != [] && rest != [] && !IsDigit(rest[0])
    ensures Atoi(d + rest) == DigitsValue(d)
  {
    var s := d + rest;
    assert s[0] == d[0];
    AtoiOfDigitStart(s);
    LeadingDigitsThenText(d, rest);
  }

  /** Different numbers print differently. */
  lemma DecimalStringInjective(m: nat, n: nat)
    requires DecimalString(m) == DecimalString(n)
    ensures m == n
  {
    AtoiOfDecimal(m);
    AtoiOfDecimal(n);
  }

  lemma IntToStringInjective(i: int, j: int)
    requires IntToString(i) == IntToString(j)
    ensures i == j
  {
    AtoiOfIntToString(i);
    AtoiOfIntToString(j);
  }
}
