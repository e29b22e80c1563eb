/** Python's `%d` and `%.<precision>d` conversions of an integer, and a
    reader that inverts them. */
module PercentFormat {
  import opened Results

  predicate IsDigit(c: char) {
    '0' <= c <= '9'
  }

  predicate AllDigits(s: string) {
    forall i :: 0 <= i < |s| ==> IsDigit(s[i])
  }

  function DigitChar(d: nat): (c: char)
    requires d < 10
    ensures IsDigit(c) && DigitValue(c) == d
  {
    (48 + d) as char
  }

  function DigitValue(c: char): nat
    requires IsDigit(c)
  {
    c as int - 48
  }

  function Pow10(k: nat): (p: nat)
    ensures p >= 1
  {
    if k == 0 then 1 else 10 * Pow10(k - 1)
  }

  lemma {:induction false} Pow10Monotone(a: nat, b: nat)
    requires a <= b
    ensures Pow10(a) <= Pow10(b)
  {
    if a < b {
      Pow10Monotone(a, b - 1);
    }
  }

  /** The decimal digits of `n`, most significant first, without leading
      zeros: what Python's `str` gives for a non-negative int. */
  function Decimal(n: nat): (s: string)
    ensures 1 <= |s| && AllDigits(s)
    ensures s[0] == '0' ==> n == 0 && s == "0"
    ensures n < Pow10(|s|)
    ensures n > 0 ==> Pow10(|s| - 1) <= n
    decreases n
  {
    if n < 10 then
      [DigitChar(n)]
    else
      var q := n / 10;
      var front := Decimal(q);
      assert q < Pow10(|front|) && Pow10(|front| - 1) <= q;
      assert Pow10(|front| + 1) == 10 * Pow10(|front|);
      front + [DigitChar(n % 10)]
  }

  /** The number a digit string denotes; leading zeros add nothing. */
  function DigitsValue(s: string): nat
    requires AllDigits(s)
  {
    if s == [] then 0 else 10 * DigitsValue(s[..|s| - 1]) + DigitValue(s[|s| - 1])
  }

  function Zeros(k: nat): (z: string)
    ensures |z| == k && AllDigits(z)
    ensures forall i :: 0 <= i < k ==> z[i] == '0'
  {
    seq(k, _ => '0')
  }

  /** `digits` with zeros in front, so that it has at least `width` characters. */
  function ZeroPad(digits: string, width: nat): string {
    if |digits| >= width then digits else Zeros(width - |digits|) + digits
  }

  /** `"%.<precision>d" % x`: a minus sign when `x` is negative, then the
      magnitude in decimal, zero-padded to at least `precision` digits.
      Plain `"%d" % x` is precision 0; padding never truncates. */
  function FormatInt(x: int, precision: nat): (s: string)
    ensures |s| >= 1 && (s[0] == '-' <==> x < 0)
  {
    var mag := ZeroPad(Decimal(if x < 0 then -x else x), precision);
    if x < 0 then "-" + mag else mag
  }

  /** A formatted integer is a minus sign exactly when the integer is
      negative, followed by at least `precision` (and at least one) digits. */
  lemma FormatIntShape(x: int, precision: nat)
    ensures var s := FormatInt(x, precision);
      && |s| >= 1
      && (s[0] == '-') == (x < 0)
      && (forall i :: 0 <= i < |s| ==> s[i] == '-' || IsDigit(s[i]))
      && AllDigits(if x < 0 then s[1..] else s)
      && |if x < 0 then s[1..] else s| >= precision
  {
    var mag := ZeroPad(Decimal(if x < 0 then -x else x), precision);
    assert AllDigits(mag);
    if x < 0 {
      assert FormatInt(x, precision)[1..] == mag;
    }
  }

  /** After the sign come exactly the decimal digits of the magnitude when
      they already number `precision` or more, and otherwise those digits
      behind just enough zeros to make `precision`: padding adds no
      surplus zero. */
  lemma FormatIntDigits(x: int, precision: nat)
    ensures var s := FormatInt(x, precision);
      var d := Decimal(if x < 0 then -x else x);
      var mag := if x < 0 then s[1..] else s;
      && (precision <= |d| ==> mag == d)
      && (precision > |d| ==> mag == Zeros(precision - |d|) + d)
  {
    if x < 0 {
      assert FormatInt(x, precision)[1..] == ZeroPad(Decimal(-x), precision);
    }
  }

  /** Reads an optional minus sign followed by one or more decimal digits. */
  function ParseInt(s: string): Option<int> {
    if |s| >= 2 && s[0] == '-' && AllDigits(s[1..]) then Some(0 - DigitsValue(s[1..]) as int)
    else if |s| >= 1 && AllDigits(s) then Some(DigitsValue(s))
    else None
  }

  lemma {:induction false} DecimalValue(n: nat)
    ensures DigitsValue(Decimal(n)) == n
    decreases n
  {
    var s := Decimal(n);
    if n >= 10 {
      DecimalValue(n / 10);
      assert s[..|s| - 1] == Decimal(n / 10);
    }
  }

  lemma {:induction false} LeadingZerosValue(k: nat, s: string)
    requires AllDigits(s)
    ensures AllDigits(Zeros(k) + s)
    ensures DigitsValue(Zeros(k) + s) == DigitsValue(s)
    decreases |s|
  {
    var t := Zeros(k) + s;
    if s == [] {
      assert t == Zeros(k);
      ZerosValue(k);
    } else {
      assert t[..|t| - 1] == Zeros(k) + s[..|s| - 1];
      LeadingZerosValue(k, s[..|s| - 1]);
    }
  }

  lemma {:induction false} ZerosValue(k: nat)
    ensures DigitsValue(Zeros(k)) == 0
  {
    if k > 0 {
      assert Zeros(k)[..k - 1] == Zeros(k - 1);
      ZerosValue(k - 1);
    }
  }

  lemma ZeroPadValue(n: nat, width: nat)
    ensures AllDigits(ZeroPad(Decimal(n), width))
    ensures DigitsValue(ZeroPad(Decimal(n), width)) == n
  {
    DecimalValue(n);
    if |Decimal(n)| < width {
      LeadingZerosValue(width - |Decimal(n)|, Decimal(n));
    }
  }

  /** Reading back a formatted integer gives the integer: the conversion
      loses nothing, whatever the precision. */
  lemma FormatIntRoundTrip(x: int, precision: nat)
    ensures ParseInt(FormatInt(x, precision)) == Some(x)
  {
    var s := FormatInt(x, precision);
    var mag := ZeroPad(Decimal(if x < 0 then -x else x), precision);
    ZeroPadValue(if x < 0 then -x else x, precision);
    if x < 0 {
      assert s[1..] == mag;
    } else {
      assert s == mag;
    }
  }

  lemma FormatIntInjective(x: int, y: int, precision: nat)
    requires FormatInt(x, precision) == FormatInt(y, precision)
    ensures x == y
  {
    FormatIntRoundTrip(x, precision);
    FormatIntRoundTrip(y, precision);
  }

  /** A non-negative number takes exactly `precision` characters when it is
      below 10^precision, and more characters otherwise. */
  lemma FormatIntWidth(x: nat, precision: nat)
    requires precision >= 1
    ensures |FormatInt(x, precision)| >= precision
    ensures |FormatInt(x, precision)| == precision <==> x < Pow10(precision)
  {
    var d := Decimal(x);
    if |d| <= precision {
      Pow10Monotone(|d|, precision);
    } else {
      Pow10Monotone(precision, |d| - 1);
    }
  }
}
