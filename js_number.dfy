/**
 * JavaScript number behaviour the core relies on, over exact reals:
 * `Math.round`, `Number(text)` for plain decimal text, and the text of a number
 * as `String(x)`, a template literal or `Array.prototype.join` produce it.
 */
module JsNumber {
  import opened Wrappers
  import opened Text

  /**
   * `Math.round(x)`: the integer nearest to `x`, halves going up (towards +infinity),
   * which is `Floor(x + 1/2)`.
   */
  function Round(x: real): (r: int)
    ensures r as real - 0.5 <= x < r as real + 0.5
  {
    (x + 0.5).Floor
  }

  /** The two inequalities of Round's contract determine its value. */
  lemma RoundUnique(x: real, n: int)
    requires n as real - 0.5 <= x < n as real + 0.5
    ensures Round(x) == n
  {
  }

  lemma RoundMonotone(x: real, y: real)
    requires x <= y
    ensures Round(x) <= Round(y)
  {
  }

  lemma RoundOfInteger(n: int)
    ensures Round(n as real) == n
  {
    RoundUnique(n as real, n);
  }

  /** `Math.max(a, b)` */
  function Max(a: real, b: real): (r: real)
    ensures r >= a && r >= b && (r == a || r == b)
  {
    if a >= b then a else b
  }

  predicate AllDigits(s: string)
  {
    forall i :: 0 <= i < |s| ==> '0' <= s[i] <= '9'
  }

  function DigitValue(ch: char): (d: nat)
    requires '0' <= ch <= '9'
    ensures d < 10
  {
    (ch as int - '0' as int) as nat
  }

  /** The value of a string of decimal digits, read most significant first. */
  function DigitsValue(s: string): (n: nat)
    requires AllDigits(s)
  {
    if s == [] then 0 else 10 * DigitsValue(s[..|s| - 1]) + DigitValue(s[|s| - 1])
  }

  /**
   * `Number(text)` restricted to plain decimal text: surrounding whitespace is ignored,
   * empty text is 0, an optional sign, digits with an optional fractional part.
   * `None` stands for NaN.
   */
  function ParseNumber(s: string): (r: Option<real>)
    ensures Trim(s) == [] ==> r == Some(0.0)
  {
    var t := Trim(s);
    if t == [] then Some(0.0)
    else if t[0] == '-' then
      match ParseUnsigned(t[1..])
      case Some(v) => Some(-v)
      case None => None
    else if t[0] == '+' then ParseUnsigned(t[1..])
    else ParseUnsigned(t)
  }

  /** Digits, optionally followed by `.` and more digits; at least one digit in all. */
  function ParseUnsigned(u: string): (r: Option<real>)
    ensures r.Some? ==> r.value >= 0.0
  {
    var parts := Split(u, '.');
    var ip := parts[0];
    var fp := if |parts| == 2 then parts[1] else [];
    if |parts| > 2 || (ip == [] && fp == []) || !AllDigits(ip) || !AllDigits(fp) then None
    else Some(DigitsValue(ip) as real + FractionValue(fp))
  }

  /** The value of the digits after a decimal point: `0.d1d2...` is `(d1 + 0.d2...) / 10`. */
  function FractionValue(s: string): (v: real)
    requires AllDigits(s)
    ensures 0.0 <= v <= 1.0
  {
    if s == [] then 0.0 else (DigitValue(s[0]) as real + FractionValue(s[1..])) / 10.0
  }

  /** The text JavaScript gives a number: integers exactly, other values by their decimal expansion. */
  function ShowNumber(x: real): (s: string)
    ensures |s| >= 1
  {
    if x == x.Floor as real then IntToString(x.Floor)
    else SignText(x) + ShowFraction(Abs(x))
  }

  /** A minus sign for a negative number, nothing otherwise. */
  function SignText(x: real): string
  {
    if x < 0.0 then "-" else ""
  }

  function Abs(x: real): (r: real)
    ensures r >= 0.0 && (r == x || r == -x)
  {
    if x < 0.0 then -x else x
  }

  /** A non-negative number: its integral digits, then a point and the fraction's digits if it has one. */
  function ShowFraction(x: real): (s: string)
    requires x >= 0.0
    ensures |s| >= 1
  {
    NatToString(x.Floor) + FractionText(x - x.Floor as real)
  }

  /** Nothing for a zero fraction, otherwise a point and its digits. */
  function FractionText(f: real): string
    requires 0.0 <= f < 1.0
  {
    if f == 0.0 then [] else "." + FractionDigits(f, 20)
  }

  /** Up to `fuel + 1` digits of a fraction in (0, 1), stopping early when the expansion ends. */
  function FractionDigits(f: real, fuel: nat): (s: string)
    requires 0.0 < f < 1.0
    decreases fuel
  {
    [DigitChar(LeadingDigit(f))] + (if Shifted(f) == 0.0 || fuel == 0 then [] else FractionDigits(Shifted(f), fuel - 1))
  }

  /** The first digit after the point of a fraction in (0, 1). */
  function LeadingDigit(f: real): (d: nat)
    requires 0.0 < f < 1.0
    ensures d < 10
  {
    (f * 10.0).Floor
  }

  /** What remains of a fraction once its first digit is shifted out. */
  function Shifted(f: real): (g: real)
    requires 0.0 < f < 1.0
    ensures 0.0 <= g < 1.0
    ensures f == (LeadingDigit(f) as real + g) / 10.0
  {
    f * 10.0 - LeadingDigit(f) as real
  }

  /** The characters of a number's text: digits, a minus sign and a decimal point. */
  predicate NumberChar(ch: char)
  {
    ('0' <= ch <= '9') || ch == '-' || ch == '.'
  }

  /** Text made of number characters only, read from the front. */
  predicate NumberText(s: string)
  {
    s == [] || (NumberChar(s[0]) && NumberText(s[1..]))
  }

  lemma {:induction false} NumberTextAppend(a: string, b: string)
    requires NumberText(a) && NumberText(b)
    ensures NumberText(a + b)
  {
    if a == [] {
      assert a + b == b;
    } else {
      NumberTextAppend(a[1..], b);
      assert (a + b)[0] == a[0] && (a + b)[1..] == a[1..] + b;
    }
  }

  /** A character that no number text uses does not occur in one. */
  lemma {:induction false} NumberTextAvoids(s: string, c: char)
    requires NumberText(s) && !NumberChar(c)
    ensures c !in s
  {
    if s != [] {
      NumberTextAvoids(s[1..], c);
      assert s == [s[0]] + s[1..];
    }
  }

  lemma OneCharText(ch: char)
    requires NumberChar(ch)
    ensures NumberText([ch])
  {
    assert [ch][1..] == [];
  }

  lemma {:induction false} NatTextPlain(n: nat)
    ensures NumberText(NatToString(n))
  {
    OneCharText(DigitChar(n % 10));
    if n >= 10 {
      NatTextPlain(n / 10);
      NumberTextAppend(NatToString(n / 10), [DigitChar(n % 10)]);
    }
  }

  lemma {:induction false} FractionDigitsPlain(f: real, fuel: nat)
    requires 0.0 < f < 1.0
    ensures NumberText(FractionDigits(f, fuel))
    decreases fuel
  {
    var head := [DigitChar(LeadingDigit(f))];
    OneCharText(DigitChar(LeadingDigit(f)));
    if !(Shifted(f) == 0.0 || fuel == 0) {
      FractionDigitsPlain(Shifted(f), fuel - 1);
      NumberTextAppend(head, FractionDigits(Shifted(f), fuel - 1));
    }
  }

  lemma FractionTextPlain(f: real)
    requires 0.0 <= f < 1.0
    ensures NumberText(FractionText(f))
  {
    if f != 0.0 {
      FractionDigitsPlain(f, 20);
      OneCharText('.');
      NumberTextAppend(".", FractionDigits(f, 20));
    }
  }

  lemma FractionPiecesPlain(y: real)
    requires y >= 0.0
    ensures NumberText(NatToString(y.Floor) + FractionText(y - y.Floor as real))
  {
    NatTextPlain(y.Floor);
    FractionTextPlain(y - y.Floor as real);
    NumberTextAppend(NatToString(y.Floor), FractionText(y - y.Floor as real));
  }

  lemma ShowFractionPlain(y: real)
    requires y >= 0.0
    ensures NumberText(ShowFraction(y))
  {
    FractionPiecesPlain(y);
  }

  lemma NegatedPlain(s: string)
    requires NumberText(s)
    ensures NumberText("-" + s)
  {
    OneCharText('-');
    NumberTextAppend("-", s);
  }

  lemma FractionalPlain(x: real)
    requires x != x.Floor as real
    ensures NumberText(ShowNumber(x))
  {
    ShowFractionPlain(Abs(x));
    OneCharText('-');
    NumberTextAppend(SignText(x), ShowFraction(Abs(x)));
  }

  /** A number's text holds no character but digits, `-` and `.`; in particular no comma and no line break. */
  lemma ShowNumberPlain(x: real)
    ensures NumberText(ShowNumber(x))
  {
    if x == x.Floor as real {
      if x.Floor < 0 {
        NatTextPlain(-x.Floor);
        NegatedPlain(NatToString(-x.Floor));
      } else {
        NatTextPlain(x.Floor);
      }
    } else {
      FractionalPlain(x);
    }
  }

  /** Integers are shown as their decimal digits. */
  lemma {:induction false} ShowInteger(n: int)
    ensures ShowNumber(n as real) == IntToString(n)
  {
    assert (n as real).Floor == n;
  }

  lemma DigitOfChar(d: nat)
    requires d < 10
    ensures DigitValue(DigitChar(d)) == d
  {
  }

  lemma {:induction false} DigitsOfNat(n: nat)
    ensures AllDigits(NatToString(n)) && DigitsValue(NatToString(n)) == n
  {
    var s := NatToString(n);
    if n < 10 {
      DigitOfChar(n);
    } else {
      DigitsOfNat(n / 10);
      DigitOfChar(n % 10);
      assert s[..|s| - 1] == NatToString(n / 10) && s[|s| - 1] == DigitChar(n % 10);
    }
  }

  lemma {:induction false} ParseUnsignedDigits(m: nat)
    ensures ParseUnsigned(NatToString(m)) == Some(m as real)
  {
    var digits := NatToString(m);
    DigitsOfNat(m);
    SplitFree(digits, '.');
    assert AllDigits([]);
    assert DigitsValue([]) == 0;
  }

  /** Digits parse as their unsigned reading: they carry no whitespace and no sign. */
  lemma ParseOfDigits(digits: string, v: real)
    requires digits != [] && AllDigits(digits) && ParseUnsigned(digits) == Some(v)
    ensures ParseNumber(digits) == Some(v)
  {
    assert '0' <= digits[0] <= '9' && '0' <= digits[|digits| - 1] <= '9';
    TrimUnchanged(digits);
  }

  /** A minus sign before digits negates their unsigned reading. */
  lemma ParseOfNegatedDigits(s: string, digits: string, v: real)
    requires s == "-" + digits
    requires digits != [] && AllDigits(digits) && ParseUnsigned(digits) == Some(-v)
    ensures ParseNumber(s) == Some(v)
  {
    assert s[|s| - 1] == digits[|digits| - 1];
    assert '0' <= digits[|digits| - 1] <= '9';
    TrimUnchanged(s);
    assert s[1..] == digits;
  }

  /** The text of a negative integer is a minus sign before the digits of its magnitude. */
  lemma NegativeText(n: int)
    requires n < 0
    ensures IntToString(n) == "-" + NatToString(-n)
    ensures NatToString(-n) != [] && AllDigits(NatToString(-n))
  {
  }

  /** The text of a negative integer, a minus sign and its digits, parses back to it. */
  lemma {:induction false} ParseNegativeText(n: int)
    requires n < 0
    ensures ParseNumber(IntToString(n)) == Some(n as real)
  {
    var m: nat := -n;
    var digits := NatToString(m);
    NegativeText(n);
    ParseUnsignedDigits(m);
    assert m as real == -(n as real);
    ParseOfNegatedDigits(IntToString(n), digits, n as real);
  }

  /** The text of a non-negative integer parses back to it. */
  lemma {:induction false} ParseNonNegativeText(n: int)
    requires n >= 0
    ensures ParseNumber(IntToString(n)) == Some(n as real)
  {
    var digits := NatToString(n);
    assert IntToString(n) == digits;
    assert ParseNumber(digits) == Some(n as real) by {
      DigitsOfNat(n);
      ParseUnsignedDigits(n);
      ParseOfDigits(digits, n as real);
    }
  }

  /** Round trip: `Number(String(n)) === n` for every integer. */
  lemma {:induction false} ParseShowInteger(n: int)
    ensures ParseNumber(ShowNumber(n as real)) == Some(n as real)
  {
    ShowInteger(n);
    if n < 0 {
      ParseNegativeText(n);
    } else {
      ParseNonNegativeText(n);
    }
  }
}
