/**
  Decimal text of integers and cent amounts: what `toString()` and `toFixed(2)` produce
  for the amounts the payment gateway receives, and what `parseFloat` reads back from the
  amounts it returns.
*/
module Decimal {
  import opened Common

  predicate IsDigit(c: char) {
    '0' <= c <= '9'
  }

  predicate AllDigits(s: string) {
    forall i :: 0 <= i < |s| ==> IsDigit(s[i])
  }

  function DigitChar(d: nat): (c: char)
    requires d < 10
    ensures IsDigit(c) && DigitValue(c) == d
  {
    ('0' as int + d) as char
  }

  function DigitValue(c: char): nat
    requires IsDigit(c)
  {
    c as int - '0' as int
  }

  /** Decimal digits of `n`, most significant first, without leading zeros. */
  function NatDigits(n: nat): (s: string)
    ensures |s| > 0 && AllDigits(s)
    ensures |s| > 1 ==> s[0] != '0'
    decreases n
  {
    if n < 10 then [DigitChar(n)] else NatDigits(n / 10) + [DigitChar(n % 10)]
  }

  /** The number a string of decimal digits denotes. */
  function DigitsValue(s: string): nat
    requires AllDigits(s)
  {
    if s == [] then 0 else DigitsValue(s[..|s| - 1]) * 10 + DigitValue(s[|s| - 1])
  }

  lemma {:induction false} DigitsRoundTrip(n: nat)
    ensures DigitsValue(NatDigits(n)) == n
    decreases n
  {
    if n >= 10 {
      var s := NatDigits(n);
      assert s[..|s| - 1] == NatDigits(n / 10);
      DigitsRoundTrip(n / 10);
    }
  }

  /** `Number.prototype.toString()` of an integer. */
  function IntToString(i: int): string {
    if i < 0 then "-" + NatDigits(-i) else NatDigits(i)
  }

  lemma IntToStringInjective(i: int, j: int)
    requires IntToString(i) == IntToString(j)
    ensures i == j
  {
    var si, sj := IntToString(i), IntToString(j);
    if i < 0 {
      assert sj[0] == '-';
      assert j < 0;
      assert si[1..] == NatDigits(-i) && sj[1..] == NatDigits(-j);
      DigitsRoundTrip(-i);
      DigitsRoundTrip(-j);
    } else {
      assert IsDigit(si[0]);
      assert j >= 0;
      DigitsRoundTrip(i);
      DigitsRoundTrip(j);
    }
  }

  /** `toFixed(2)` of an amount of `c` cents: an optional minus, the units, a point, two digits. */
  function FormatCents(c: int): string {
    (if c < 0 then "-" else "") + UnsignedCents(Abs(c))
  }

  /** The units, a point and exactly two digits of an amount of `m` cents. */
  function UnsignedCents(m: nat): string {
    NatDigits(m / 100) + "." + [DigitChar(m % 100 / 10), DigitChar(m % 100 % 10)]
  }

  /** The longest prefix of `s` made of decimal digits. */
  function LeadingDigits(s: string): (p: string)
    ensures |p| <= |s| && p == s[..|p|] && AllDigits(p)
    ensures |p| < |s| ==> !IsDigit(s[|p|])
  {
    if s != [] && IsDigit(s[0]) then [s[0]] + LeadingDigits(s[1..]) else []
  }

  /** Cents denoted by the digits after the decimal point; digits past the second are dropped. */
  function FractionCents(f: string): (c: nat)
    requires AllDigits(f)
    ensures c < 100
  {
    (if |f| > 0 then DigitValue(f[0]) * 10 else 0) + (if |f| > 1 then DigitValue(f[1]) else 0)
  }

  /** `s` without a leading sign character. */
  function Unsigned(s: string): string {
    if |s| > 0 && (s[0] == '-' || s[0] == '+') then s[1..] else s
  }

  /**
    `parseFloat` of a decimal amount, in cents: it reads the longest prefix of the form
    sign, digits, point, digits and ignores the rest; `None` stands for NaN, which is what
    `parseFloat` returns when no digit starts the text.
  */
  function ParseCents(s: string): (r: Option<int>)
    ensures r.None? <==> StartsWithNoNumber(s)
  {
    var body := Unsigned(s);
    var units := LeadingDigits(body);
    var rest := body[|units|..];
    var fraction := if |rest| > 0 && rest[0] == '.' then LeadingDigits(rest[1..]) else "";
    if units == "" && fraction == "" then None
    else
      var magnitude := DigitsValue(units) * 100 + FractionCents(fraction);
      Some(if |s| > 0 && s[0] == '-' then -magnitude else magnitude)
  }

  /** No digit starts `s` after an optional sign, nor after an optional sign and a point. */
  predicate StartsWithNoNumber(s: string) {
    var b := Unsigned(s);
    !(|b| > 0 && IsDigit(b[0])) && !(|b| > 1 && b[0] == '.' && IsDigit(b[1]))
  }

  lemma LeadingDigitsOfConcat(a: string, b: string)
    requires AllDigits(a)
    requires b == [] || !IsDigit(b[0])
    ensures LeadingDigits(a + b) == a
    decreases |a|
  {
    if a != [] {
      assert (a + b)[1..] == a[1..] + b;
      LeadingDigitsOfConcat(a[1..], b);
    } else {
      assert a + b == b;
    }
  }

  /** Reading back the text `toFixed(2)` produced gives the same amount. */
  lemma ParseFormatRoundTrip(c: int)
    ensures ParseCents(FormatCents(c)) == Some(c)
  {
    var m := Abs(c);
    var body := UnsignedCents(m);
    var s := FormatCents(c);
    if c < 0 {
      assert s == "-" + body;
      assert Unsigned(s) == body;
    } else {
      assert s == body;
      assert IsDigit(s[0]);
      assert Unsigned(s) == body;
    }
    UnsignedBodyReadsBack(m);
  }

  /** The unsigned text reads back, digit groups first, as the amount. */
  lemma UnsignedBodyReadsBack(m: nat)
    ensures var units := NatDigits(m / 100);
      var body := UnsignedCents(m);
      var fraction := LeadingDigits(body[|units|..][1..]);
      && LeadingDigits(body) == units && units != ""
      && body[|units|..][0] == '.'
      && DigitsValue(units) * 100 + FractionCents(fraction) == m
  {
    var units := NatDigits(m / 100);
    var digits := [DigitChar(m % 100 / 10), DigitChar(m % 100 % 10)];
    var tail := "." + digits;
    var body := units + tail;
    assert UnsignedCents(m) == body;
    LeadingDigitsOfConcat(units, tail);
    assert body[|units|..] == tail;
    assert tail[1..] == digits;
    LeadingDigitsOfConcat(digits, "");
    assert digits + "" == digits;
    DigitsRoundTrip(m / 100);
    CentsSplit(m);
  }

  lemma CentsSplit(m: nat)
    ensures (m / 100) * 100 + (m % 100 / 10) * 10 + m % 100 % 10 == m
  {
    var c := m % 100;
    assert m == (m / 100) * 100 + c;
    assert c == (c / 10) * 10 + c % 10;
  }
}
