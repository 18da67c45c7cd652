/**
 * The JavaScript values that reach the formatter, and the handful of JavaScript
 * conversions it relies on: truthiness, `String(x)`, `Number(text)` and
 * `toFixed`.
 *
 * Every number is an exact multiple of 0.01 and is held as a count of
 * hundredths: 1337.42 is `Num(133742)`, the integer 50 is `Num(5000)`.
 * This makes money ("to cents") and integer rendering exact.
 */
module Values {
  import opened Results

  /** A field value: a missing key (or `undefined`), a string, or a number. */
  datatype Value = Missing | Str(s: string) | Num(hundredths: int)

  /** A record: the plain object the formatter reads fields from by name. */
  type Record = map<string, Value>

  /** `record[name]`; a missing key reads as `undefined`. */
  function Get(rec: Record, name: string): Value {
    if name in rec then rec[name] else Missing
  }

  /** JavaScript falsiness for the values modelled: `undefined`, `""` and `0`. */
  predicate Falsy(v: Value) {
    v.Missing? || v == Str("") || v == Num(0)
  }

  predicate IsDigit(c: char) {
    '0' <= c <= '9'
  }

  predicate AllDigits(s: string) {
    forall i :: 0 <= i < |s| ==> IsDigit(s[i])
  }

  function DigitChar(d: nat): (c: char)
    requires d < 10
    ensures IsDigit(c)
  {
    ('0' as int + d) as char
  }

  function DigitValue(c: char): (d: nat)
    requires IsDigit(c)
    ensures d < 10 && DigitChar(d) == c
  {
    c as int - '0' as int
  }

  /** The decimal digits of `n`, most significant first, without leading zeros. */
  function Digits(n: nat): (r: string)
    ensures 1 <= |r| && AllDigits(r)
    ensures r[0] == '0' ==> n == 0
  {
    if n < 10 then [DigitChar(n)] else Digits(n / 10) + [DigitChar(n % 10)]
  }

  /** The number a string of decimal digits denotes. */
  function DigitsValue(s: string): nat
    requires AllDigits(s)
  {
    if s == [] then 0 else DigitsValue(s[..|s| - 1]) * 10 + DigitValue(s[|s| - 1])
  }

  /** Reading back the digits of `n` gives `n`. */
  lemma {:induction false} DigitsRoundTrip(n: nat)
    ensures DigitsValue(Digits(n)) == n
  {
    if n >= 10 {
      var d := Digits(n);
      assert d[..|d| - 1] == Digits(n / 10);
      DigitsRoundTrip(n / 10);
    }
  }

  /** `x.toFixed(0)` and `String(x)` for an integer `x`. */
  function DecimalString(n: int): (r: string)
    ensures n >= 0 ==> r == Digits(n)
    ensures n < 0 ==> r == "-" + Digits(-n)
  {
    if n < 0 then "-" + Digits(-n) else Digits(n)
  }

  function Abs(n: int): nat {
    if n < 0 then -n else n
  }

  /** `String(x)` for the number x = h / 100: no trailing fraction zeros, no point for integers. */
  function NumberText(h: int): (r: string)
    ensures h % 100 == 0 ==> r == DecimalString(h / 100)
  {
    var a := Abs(h);
    var frac := a % 100;
    var fraction :=
      if frac == 0 then ""
      else if frac % 10 == 0 then "." + [DigitChar(frac / 10)]
      else "." + [DigitChar(frac / 10), DigitChar(frac % 10)];
    (if h < 0 then "-" else "") + Digits(a / 100) + fraction
  }

  /** `String(v)`. */
  function JsString(v: Value): string {
    match v
    case Missing => "undefined"
    case Str(s) => s
    case Num(h) => NumberText(h)
  }

  /** `x.toFixed(2)` for the number x = c / 100. */
  function FixedTwo(c: int): (r: string)
    ensures |r| >= 4 && r[|r| - 3] == '.'
  {
    (if c < 0 then "-" else "") + UnsignedFixedTwo(Abs(c))
  }

  /** `toFixed(2)` of a non-negative amount: whole part, a point, exactly two fraction digits. */
  function UnsignedFixedTwo(a: nat): (r: string)
    ensures |r| >= 4 && r[|r| - 3] == '.'
    ensures IsDigit(r[0])
  {
    var frac := a % 100;
    Digits(a / 100) + "." + [DigitChar(frac / 10), DigitChar(frac % 10)]
  }

  /** Index of the first '.' in `s`, or `|s|` if there is none. */
  function DotIndex(s: string): (i: nat)
    ensures i <= |s|
    ensures i < |s| ==> s[i] == '.'
    ensures forall j :: 0 <= j < i ==> s[j] != '.'
  {
    if s == [] then 0 else if s[0] == '.' then 0 else 1 + DotIndex(s[1..])
  }

  /** Hundredths denoted by up to two fraction digits ("5" is 50, "05" is 5). */
  function FractionValue(f: string): (h: nat)
    requires AllDigits(f) && |f| <= 2
    ensures h < 100
  {
    if |f| == 0 then 0
    else if |f| == 1 then DigitValue(f[0]) * 10
    else DigitValue(f[0]) * 10 + DigitValue(f[1])
  }

  /** `Number(s)` in hundredths for an unsigned decimal: digits, then optionally '.' and at most two digits. */
  function ParseUnsigned(s: string): Option<nat> {
    var i := DotIndex(s);
    var whole := s[..i];
    var frac := if i < |s| then s[i + 1..] else "";
    if AllDigits(whole) && AllDigits(frac) && |frac| <= 2 && |whole| + |frac| > 0
    then Some(DigitsValue(whole) * 100 + FractionValue(frac))
    else None
  }

  /** `Number(s)` in hundredths; `None` stands for NaN. The empty string is 0. */
  function ParseNumber(s: string): Option<int> {
    if s == "" then Some(0)
    else if s[0] == '-' then
      match ParseUnsigned(s[1..])
      case Some(u) => Some(-(u as int))
      case None => None
    else ParseUnsigned(s)
  }

  lemma DotIndexAfterDigits(d: string, rest: string)
    requires AllDigits(d)
    ensures DotIndex(d + "." + rest) == |d|
  {
    if d != [] {
      assert (d + "." + rest)[1..] == d[1..] + "." + rest;
      DotIndexAfterDigits(d[1..], rest);
    }
  }

  lemma DotIndexOfDigits(d: string)
    requires AllDigits(d)
    ensures DotIndex(d) == |d|
  {
    if d != [] {
      DotIndexOfDigits(d[1..]);
    }
  }

  /** Two digits read back as the whole number they spell, in hundredths. */
  lemma TwoDigitsParse(a: nat, b: nat)
    requires a < 10 && b < 10
    ensures AllDigits([DigitChar(a), DigitChar(b)])
    ensures ParseNumber([DigitChar(a), DigitChar(b)]) == Some((a * 10 + b) * 100)
  {
    var s := [DigitChar(a), DigitChar(b)];
    DotIndexOfDigits(s);
    assert s[..2] == s && s[..1] == [DigitChar(a)] && s[..1][..0] == [];
    assert DigitsValue(s[..1]) == a;
    assert DigitsValue(s) == a * 10 + b;
  }

  /** A digit string, a point and at most two digits read back as whole part and fraction. */
  lemma ParseDecimal(d: string, f: string)
    requires AllDigits(d) && AllDigits(f) && |f| <= 2 && |d| > 0
    ensures ParseUnsigned(d + "." + f) == Some(DigitsValue(d) * 100 + FractionValue(f))
  {
    var u := d + "." + f;
    DotIndexAfterDigits(d, f);
    assert u[..|d|] == d;
    assert u[|d| + 1..] == f;
  }

  /** Unsigned `toFixed(2)` text reads back as the same number of hundredths. */
  lemma UnsignedFixedTwoRoundTrip(a: nat)
    ensures ParseUnsigned(UnsignedFixedTwo(a)) == Some(a)
  {
    var frac := a % 100;
    var f := [DigitChar(frac / 10), DigitChar(frac % 10)];
    ParseDecimal(Digits(a / 100), f);
    DigitsRoundTrip(a / 100);
    assert FractionValue(f) == frac;
  }

  /** `toFixed(2)` text reads back as the same number: `Number(x.toFixed(2)) == x` on hundredths. */
  lemma FixedTwoRoundTrip(c: int)
    ensures ParseNumber(FixedTwo(c)) == Some(c)
  {
    var u := UnsignedFixedTwo(Abs(c));
    UnsignedFixedTwoRoundTrip(Abs(c));
    if c < 0 {
      assert FixedTwo(c) == "-" + u;
      assert ("-" + u)[1..] == u;
    } else {
      assert FixedTwo(c) == u;
    }
  }

  /** An integer's decimal text reads back as that integer: `Number(String(n)) == n`. */
  lemma {:induction false} DecimalStringRoundTrip(n: int)
    ensures ParseNumber(DecimalString(n)) == Some(n * 100)
  {
    var d := Digits(Abs(n));
    DotIndexOfDigits(d);
    assert d[..|d|] == d;
    DigitsRoundTrip(Abs(n));
    assert ParseUnsigned(d) == Some(Abs(n) * 100);
    if n < 0 {
      assert ("-" + d)[1..] == d;
    }
  }
}
