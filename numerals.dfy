/**
 * Python's number builtins as the parsers use them: `int(s)`, `float(s)` on decimal literals,
 * and `round(x, 1)`, all over exact integers and rationals.
 */
module Numerals {
  import opened Wrappers
  import opened Text

  function Pow10(k: nat): (r: nat)
    ensures r >= 1
  {
    if k == 0 then 1 else 10 * Pow10(k - 1)
  }

  /** `'-'` or `'+'` at the head of a literal, and what follows it. */
  function SignOf(t: string): (bool, string) {
    if |t| >= 1 && (t[0] == '+' || t[0] == '-') then (t[0] == '-', t[1..]) else (false, t)
  }

  /**
   * Python's `int(s)`: surrounding whitespace, an optional sign, then one or more ASCII digits;
   * anything else is a `ValueError`, here `None`.
   */
  function ParseInt(s: string): (r: Option<int>)
    ensures r.Some? ==> var t := Strip(s); |t| >= 1 && IsDigit(t[|t| - 1])
  {
    IntLiteral(Strip(s))
  }

  /** `int` on an already stripped literal. */
  function IntLiteral(t: string): (r: Option<int>)
    ensures r.Some? ==> |t| >= 1 && IsDigit(t[|t| - 1])
  {
    var (negative, ds) := SignOf(t);
    if |ds| >= 1 && AllDigits(ds) then
      assert ds[|ds| - 1] == t[|t| - 1];
      Some(if negative then -(DigitsValue(ds) as int) else DigitsValue(ds))
    else None
  }

  /** The value of the digits after a decimal point. */
  function Fraction(fs: string): real
    requires AllDigits(fs)
  {
    DigitsValue(fs) as real / Pow10(|fs|) as real
  }

  /** An unsigned decimal literal: digits, optionally a point and more digits, at least one digit in all. */
  function ParseMantissa(m: string): Option<real> {
    var parts := Split(m, '.');
    if |parts| == 1 then
      if |m| >= 1 && AllDigits(m) then Some(DigitsValue(m) as real) else None
    else if |parts| == 2 && AllDigits(parts[0]) && AllDigits(parts[1]) && |parts[0]| + |parts[1]| >= 1 then
      Some(DigitsValue(parts[0]) as real + Fraction(parts[1]))
    else None
  }

  /**
   * Python's `float(s)` on plain decimal literals (`"12"`, `"-0.5"`, `"3."`, `".25"`, with
   * surrounding whitespace); anything else is a `ValueError`, here `None`.
   */
  function ParseFloat(s: string): Option<real> {
    FloatLiteral(Strip(s))
  }

  /** `float` on an already stripped literal. */
  function FloatLiteral(t: string): Option<real> {
    var (negative, m) := SignOf(t);
    match ParseMantissa(m)
    case None => None
    case Some(v) => Some(if negative then -v else v)
  }

  /** A literal `float` accepts always ends in a digit or a decimal point, so never in `'%'`. */
  lemma FloatLiteralEnd(s: string)
    requires ParseFloat(s).Some?
    ensures var t := Strip(s); |t| >= 1 && (IsDigit(t[|t| - 1]) || t[|t| - 1] == '.')
  {
    LiteralEnd(Strip(s));
  }

  /** So a literal ending in `'%'` is no `float`. */
  lemma PercentNotLiteral(t: string)
    requires |t| >= 1 && t[|t| - 1] == '%'
    ensures FloatLiteral(t) == None
  {
    if FloatLiteral(t).Some? {
      LiteralEnd(t);
      assert false;
    }
  }

  lemma LiteralEnd(t: string)
    requires FloatLiteral(t).Some?
    ensures |t| >= 1 && (IsDigit(t[|t| - 1]) || t[|t| - 1] == '.')
  {
    var (negative, m) := SignOf(t);
    assert m == t[|t| - |m|..];
    var parts := Split(m, '.');
    if |parts| == 2 {
      JoinSplit(m, '.');
      assert m == parts[0] + ['.'] + parts[1];
    }
  }

  /** Whatever `int` accepts, `float` accepts with the same value. */
  lemma {:induction false} FloatOfInt(s: string)
    requires ParseInt(s).Some?
    ensures ParseFloat(s) == Some(ParseInt(s).value as real)
  {
    FloatOfIntLiteral(Strip(s));
  }

  lemma FloatOfIntLiteral(t: string)
    requires IntLiteral(t).Some?
    ensures FloatLiteral(t) == Some(IntLiteral(t).value as real)
  {
    var (negative, ds) := SignOf(t);
    MantissaOfDigits(ds);
  }

  /** A run of digits with no point is read as that whole number. */
  lemma MantissaOfDigits(ds: string)
    requires |ds| >= 1 && AllDigits(ds)
    ensures ParseMantissa(ds) == Some(DigitsValue(ds) as real)
  {
    NoPoint(ds);
    SplitFree(ds, '.');
  }

  /** `float(str(n)) == n`. */
  lemma FloatOfNat(n: nat)
    ensures ParseFloat(NatToString(n)) == Some(n as real)
  {
    var s := NatToString(n);
    assert Trimmed(s) by { assert IsDigit(s[0]) && IsDigit(s[|s| - 1]); }
    StripTrimmed(s);
    NatToStringValue(n);
    FloatOfInt(s);
  }

  /** The literal `ip.fp`. */
  function Decimal(ip: string, fp: string): string {
    ip + "." + fp
  }

  /** The value of the literal `ip.fp` for digit strings `ip` and `fp`. */
  function DecimalValue(ip: string, fp: string): real
    requires AllDigits(ip) && AllDigits(fp)
  {
    DigitsValue(ip) as real + Fraction(fp)
  }

  /** `float` reads the literal `ip.fp` made of digit strings as the decimal value `ip.fp`. */
  lemma DecimalLiteral(ip: string, fp: string)
    requires |ip| >= 1 && AllDigits(ip) && AllDigits(fp)
    ensures ParseFloat(Decimal(ip, fp)) == Some(DecimalValue(ip, fp))
  {
    var s := Decimal(ip, fp);
    StripDecimal(ip, fp);
    assert SignOf(s) == (false, s) by { DigitNotSpace(ip[0]); assert s[0] == ip[0]; }
    MantissaSplit(ip, fp);
    PlainFloat(s);
  }

  lemma PlainFloat(s: string)
    requires Strip(s) == s && SignOf(s) == (false, s)
    ensures ParseFloat(s) == ParseMantissa(s)
  {
  }

  lemma DigitNotSpace(c: char)
    requires IsDigit(c)
    ensures !IsSpace(c) && !IsSep(c) && c != '+' && c != '-'
  {
  }

  lemma StripDecimal(ip: string, fp: string)
    requires |ip| >= 1 && AllDigits(ip) && AllDigits(fp)
    ensures Strip(ip + "." + fp) == ip + "." + fp
  {
    var s := ip + "." + fp;
    assert s[0] == ip[0];
    DigitNotSpace(ip[0]);
    if |fp| > 0 {
      assert s[|s| - 1] == fp[|fp| - 1];
      DigitNotSpace(fp[|fp| - 1]);
    } else {
      assert s[|s| - 1] == '.';
    }
    StripTrimmed(s);
  }

  lemma MantissaSplit(ip: string, fp: string)
    requires AllDigits(ip) && AllDigits(fp)
    ensures Split(ip + "." + fp, '.') == [ip, fp]
  {
    NoPoint(ip);
    NoPoint(fp);
    assert Join([fp], '.') == fp;
    assert Join([ip, fp], '.') == ip + ['.'] + fp;
    SplitJoin([ip, fp], '.');
  }

  lemma NoPoint(ds: string)
    requires AllDigits(ds)
    ensures '.' !in ds
  {
    forall i | 0 <= i < |ds| ensures ds[i] != '.' {
      assert IsDigit(ds[i]);
    }
  }

  // ---------------------------------------------------------------------------------------
  // round(x, 1)

  function Abs(x: real): real {
    if x < 0.0 then -x else x
  }

  /** The integer a tenth-rounding picks for `10 * q`: nearest, ties to even. */
  function RoundedTenths(q: real): int {
    var t := q * 10.0;
    var f := t.Floor;
    var d := t - f as real;
    if d < 0.5 then f else if d > 0.5 then f + 1 else if f % 2 == 0 then f else f + 1
  }

  /**
   * Python's `round(q, 1)` on the exact rational `q`: the nearest multiple of 0.1, halves going
   * to the even neighbour.
   */
  function RoundTenth(q: real): (r: real)
    ensures r * 10.0 == RoundedTenths(q) as real
    ensures Abs(r - q) <= 0.05
  {
    RoundedTenths(q) as real / 10.0
  }

  /** No multiple of 0.1 is nearer to `q` than `round(q, 1)`. */
  lemma RoundTenthNearest(q: real, m: int)
    ensures Abs(RoundTenth(q) - q) <= Abs(m as real / 10.0 - q)
  {
    var t := q * 10.0;
    NearestInteger(t, RoundedTenths(q), m);
    Scale(RoundedTenths(q), q);
    Scale(m, q);
  }

  /** `RoundedTenths` picks an integer nearest to `10 * q`. */
  lemma NearestInteger(t: real, n: int, m: int)
    requires n == RoundedTenths(t / 10.0)
    ensures Abs(n as real - t) <= Abs(m as real - t)
  {
    assert t / 10.0 * 10.0 == t;
    var f := t.Floor;
    assert f as real <= t < f as real + 1.0;
    if m <= f {
      assert m as real <= f as real;
    } else {
      assert m as real >= f as real + 1.0;
    }
  }

  lemma Scale(n: int, q: real)
    ensures Abs(n as real / 10.0 - q) * 10.0 == Abs(n as real - q * 10.0)
  {
    assert (n as real / 10.0 - q) * 10.0 == n as real - q * 10.0;
  }

  /** A value that already is a multiple of 0.1 is left alone. */
  lemma RoundTenthExact(n: int)
    ensures RoundTenth(n as real / 10.0) == n as real / 10.0
  {
    var q := n as real / 10.0;
    assert q * 10.0 == n as real;
    assert (q * 10.0).Floor == n;
  }

  /** Rounding keeps a value inside `[lo, hi]` when both ends are multiples of 0.1. */
  lemma RoundTenthWithin(q: real, lo: int, hi: int)
    requires lo as real / 10.0 <= q <= hi as real / 10.0
    ensures lo as real / 10.0 <= RoundTenth(q) <= hi as real / 10.0
  {
    var t := q * 10.0;
    var f := t.Floor;
    assert lo as real <= t <= hi as real;
    assert lo <= f <= hi;
    assert f == hi ==> t == hi as real;
    var n := RoundedTenths(q);
    assert lo <= n <= hi;
    assert RoundTenth(q) * 10.0 == n as real;
  }
}
