/**
 * The `float(...)` conversion of the stored duration in process_node, for plain decimal
 * text: an optional sign, digits and at most one decimal point, with at least one digit.
 * Any other text raises ValueError in the model.
 */
module Duration {
  import opened Wrappers

  /** The number (-1)^negative * digits / 10^scale. */
  datatype Decimal = Decimal(negative: bool, digits: nat, scale: nat)

  function Pow10(k: nat): (r: nat)
    ensures r >= 1
  {
    if k == 0 then 1 else 10 * Pow10(k - 1)
  }

  predicate IsDigit(c: char)
  {
    '0' <= c <= '9'
  }

  predicate AllDigits(s: string)
  {
    forall i :: 0 <= i < |s| ==> IsDigit(s[i])
  }

  /** The number a string of decimal digits denotes. */
  function DigitsValue(s: string): nat
    requires AllDigits(s)
  {
    if s == [] then 0 else 10 * DigitsValue(s[..|s| - 1]) + (s[|s| - 1] as int - '0' as int)
  }

  /** Position of the first '.', or |s| when there is none. */
  function PointAt(s: string): (r: nat)
    ensures r <= |s| && (r < |s| ==> s[r] == '.')
    ensures forall i :: 0 <= i < r ==> s[i] != '.'
  {
    if s == [] then 0
    else if s[0] == '.' then 0
    else 1 + PointAt(s[1..])
  }

  /** float(text), restricted to plain decimal text; None stands for ValueError. */
  function ParseFloat(text: string): Option<Decimal>
  {
    if |text| > 0 && (text[0] == '-' || text[0] == '+') then ParseUnsigned(text[0] == '-', text[1..])
    else ParseUnsigned(false, text)
  }

  /** Digits with at most one '.', at least one digit in all. */
  function ParseUnsigned(negative: bool, body: string): Option<Decimal>
  {
    var p := PointAt(body);
    var whole := body[..p];
    var fraction := if p < |body| then body[p + 1..] else [];
    if AllDigits(whole) && AllDigits(fraction) && |whole| + |fraction| > 0 then
      Some(Decimal(negative, DigitsValue(whole + fraction), |fraction|))
    else
      None
  }

  /** 2^53. The doubles next to 1.0 are 1 - 2^-53 and 1 + 2^-52. */
  const TwoTo53: nat := 0x20_0000_0000_0000

  /**
   * `duration > 1` on the double that float() rounds the decimal to. Rounding to nearest,
   * ties to even, takes every value up to 1 + 2^-53 (the tie included) to 1.0 or below, and
   * every larger value to 1 + 2^-52 or above (to inf when it is too large), so the test is
   * value > 1 + 1 / TwoTo53.
   */
  predicate GreaterThanOne(d: Decimal)
  {
    !d.negative && d.digits * TwoTo53 > Pow10(d.scale) * (TwoTo53 + 1)
  }

  ghost function Value(d: Decimal): real
  {
    (if d.negative then -1.0 else 1.0) * (d.digits as real) / (Pow10(d.scale) as real)
  }

  /** Comparing two quotients of positive denominators is comparing the cross products. */
  lemma CrossMultiply(n: real, p: real, a: real, b: real)
    requires p > 0.0 && b > 0.0
    ensures n / p > a / b <==> n * b > a * p
  {
    var x, y := n / p, a / b;
    assert x * p == n && y * b == a;
    assert n * b - a * p == (x - y) * (p * b);
    if x > y {
      assert (x - y) * (p * b) > 0.0;
    } else {
      assert (y - x) * (p * b) >= 0.0;
    }
  }

  lemma QuotientNonNegative(n: real, p: real)
    requires n >= 0.0 && p > 0.0
    ensures n / p >= 0.0
  {
    var x := n / p;
    assert x * p == n;
    assert x < 0.0 ==> x * p < 0.0;
  }

  /** The integer test is the comparison of the decimal's value with 1 + 2^-53. */
  lemma GreaterThanOneMeansValue(d: Decimal)
    ensures GreaterThanOne(d) <==> Value(d) > 1.0 + 1.0 / (TwoTo53 as real)
  {
    var n, p, q := d.digits as real, Pow10(d.scale) as real, TwoTo53 as real;
    assert 1.0 + 1.0 / q == (q + 1.0) / q;
    CrossMultiply(n, p, q + 1.0, q);
    assert (d.digits * TwoTo53) as real == n * q;
    assert (Pow10(d.scale) * (TwoTo53 + 1)) as real == (q + 1.0) * p;
    if d.negative {
      assert Value(d) == -1.0 * (n / p);
      QuotientNonNegative(n, p);
    } else {
      assert Value(d) == n / p;
    }
  }

  /** The canonical text of `n`, padded with leading zeros to at least `width` digits. */
  function Show(n: nat, width: nat): (s: string)
    ensures AllDigits(s) && |s| >= width && |s| >= 1
    decreases if n > 0 then n + width + 1 else width
  {
    if n < 10 && width <= 1 then [('0' as int + n) as char]
    else Show(n / 10, if width > 0 then width - 1 else 0) + [('0' as int + n % 10) as char]
  }

  lemma {:induction false} ShowValue(n: nat, width: nat)
    ensures DigitsValue(Show(n, width)) == n
    decreases if n > 0 then n + width + 1 else width
  {
    var s := Show(n, width);
    if n < 10 && width <= 1 {
    } else {
      ShowValue(n / 10, if width > 0 then width - 1 else 0);
      assert s[..|s| - 1] == Show(n / 10, if width > 0 then width - 1 else 0);
    }
  }

  /** A decimal written out: sign, at least one whole digit, and `scale` fraction digits. */
  function Format(d: Decimal): string
  {
    (if d.negative then "-" else "") + Unsigned(d)
  }

  function Unsigned(d: Decimal): (s: string)
    ensures |s| > 0 && IsDigit(s[0])
  {
    var s := Show(d.digits, d.scale + 1);
    s[..|s| - d.scale] + (if d.scale > 0 then "." + s[|s| - d.scale..] else "")
  }

  lemma {:induction false} PointAfterDigits(w: string, f: string)
    requires AllDigits(w)
    ensures PointAt(w + "." + f) == |w|
    decreases |w|
  {
    if w != [] {
      assert (w + "." + f)[1..] == w[1..] + "." + f;
      PointAfterDigits(w[1..], f);
    }
  }

  /** Digits, a point and digits parse to the digits run together, scaled by the fraction's length. */
  lemma ParseWithPoint(negative: bool, w: string, f: string)
    requires AllDigits(w) && AllDigits(f) && |w| > 0
    ensures ParseUnsigned(negative, w + "." + f) == Some(Decimal(negative, DigitsValue(w + f), |f|))
  {
    var body := w + "." + f;
    PointAfterDigits(w, f);
    assert body[..|w|] == w;
    assert body[|w| + 1..] == f;
  }

  /** Digits alone parse to their value, unscaled. */
  lemma ParseWithoutPoint(negative: bool, w: string)
    requires AllDigits(w) && |w| > 0
    ensures ParseUnsigned(negative, w) == Some(Decimal(negative, DigitsValue(w), 0))
  {
    AllButPoint(w);
    assert w[..|w|] == w;
    assert w + [] == w;
  }

  lemma {:induction false} ParseUnsignedFormat(d: Decimal)
    ensures ParseUnsigned(d.negative, Unsigned(d)) == Some(d)
  {
    var s := Show(d.digits, d.scale + 1);
    ShowValue(d.digits, d.scale + 1);
    var w, f := s[..|s| - d.scale], s[|s| - d.scale..];
    assert w + f == s;
    if d.scale > 0 {
      assert Unsigned(d) == w + "." + f;
      ParseWithPoint(d.negative, w, f);
    } else {
      assert Unsigned(d) == w && w == s;
      ParseWithoutPoint(d.negative, w);
    }
  }

  /** Converting the written-out decimal gives back the same decimal. */
  lemma ParseFormat(d: Decimal)
    ensures ParseFloat(Format(d)) == Some(d)
  {
    ParseUnsignedFormat(d);
    var body := Unsigned(d);
    var t := Format(d);
    if d.negative {
      assert t == "-" + body;
      assert t[0] == '-' && t[1..] == body;
      assert ParseFloat(t) == ParseUnsigned(true, body);
    } else {
      assert t == body;
      assert IsDigit(t[0]);
      assert ParseFloat(t) == ParseUnsigned(false, body);
    }
  }

  /** "1.5" hours is above the threshold. */
  lemma SampleAbove()
    ensures ParseFloat("1.5") == Some(Decimal(false, 15, 1)) && GreaterThanOne(Decimal(false, 15, 1))
  {
    var t := "1.5";
    assert t[0] == '1';
    assert PointAt(t) == 1 by { assert t[1..] == "." + "5"; }
    assert t[..1] == "1" && t[2..] == "5";
    assert t[..1] + t[2..] == "15";
    assert DigitsValue("15") == 15 by { assert "15"[..1] == "1"; assert "1"[..0] == ""; }
  }

  /** "0.5" hours is not above the threshold. */
  lemma SampleBelow()
    ensures ParseFloat("0.5") == Some(Decimal(false, 5, 1)) && !GreaterThanOne(Decimal(false, 5, 1))
  {
    var t := "0.5";
    assert t[0] == '0';
    assert PointAt(t) == 1 by { assert t[1..] == "." + "5"; }
    assert t[..1] == "0" && t[2..] == "5";
    assert t[..1] + t[2..] == "05";
    assert DigitsValue("05") == 5 by { assert "05"[..1] == "0"; assert "0"[..0] == ""; }
  }

  /** Exactly one hour is not above the threshold: the comparison is strict. */
  lemma SampleBoundary()
    ensures ParseFloat("1") == Some(Decimal(false, 1, 0)) && !GreaterThanOne(Decimal(false, 1, 0))
  {
    var t := "1";
    assert PointAt(t) == 1 by { assert t[1..] == ""; }
    assert t[..1] == t;
    assert DigitsValue(t) == 1 by { assert t[..0] == ""; }
  }

  /** Text that is not a plain decimal raises ValueError. */
  lemma SampleNotANumber()
    ensures ParseFloat("soon") == None
    ensures ParseFloat("") == None && ParseFloat(".") == None && ParseFloat("-") == None
  {
    assert "soon"[0] == 's';
    assert PointAt("soon") == 4 by { AllButPoint("soon"); }
    assert !AllDigits("soon");
    assert PointAt(".") == 0;
    assert "-"[1..] == "";
  }

  /** The value of digits written after other digits: the first ones shift left by |b| places. */
  lemma {:induction false} DigitsAppend(a: string, b: string)
    requires AllDigits(a) && AllDigits(b)
    ensures AllDigits(a + b) && DigitsValue(a + b) == DigitsValue(a) * Pow10(|b|) + DigitsValue(b)
    decreases |b|
  {
    if b == [] {
      assert a + b == a;
    } else {
      var c, b' := a + b, b[..|b| - 1];
      assert c[..|c| - 1] == a + b' && c[|c| - 1] == b[|b| - 1];
      DigitsAppend(a, b');
      var digit := b[|b| - 1] as int - '0' as int;
      assert DigitsValue(c) == 10 * DigitsValue(a + b') + digit;
      assert DigitsValue(b) == 10 * DigitsValue(b') + digit;
      ShiftLeft(DigitsValue(a), Pow10(|b'|), DigitsValue(b'), digit);
    }
  }

  lemma ShiftLeft(x: int, y: int, v: int, digit: int)
    ensures 10 * (x * y + v) + digit == x * (10 * y) + (10 * v + digit)
  {
  }

  /** Zeros followed by one digit have that digit's value. */
  lemma {:induction false} ZerosThenDigit(s: string, c: char)
    requires (forall i :: 0 <= i < |s| ==> s[i] == '0') && IsDigit(c)
    ensures AllDigits(s + [c]) && DigitsValue(s + [c]) == c as int - '0' as int
    decreases |s|
  {
    var t := s + [c];
    assert t[..|t| - 1] == s;
    if s != [] {
      ZerosThenDigit(s[..|s| - 1], '0');
      assert s[..|s| - 1] + ['0'] == s;
    }
  }

  lemma Pow10Sixteen()
    ensures Pow10(16) == 10000000000000000
  {
    assert Pow10(4) == 10000;
    assert Pow10(8) == 100000000 by {
      assert Pow10(5) == 100000; assert Pow10(6) == 1000000; assert Pow10(7) == 10000000;
    }
    assert Pow10(12) == 1000000000000 by {
      assert Pow10(9) == 1000000000; assert Pow10(10) == 10000000000; assert Pow10(11) == 100000000000;
    }
    assert Pow10(15) == 1000000000000000 by {
      assert Pow10(13) == 10000000000000; assert Pow10(14) == 100000000000000;
    }
  }

  /** "1.", fifteen zeros and a digit: the decimal 1 + digit * 10^-16. */
  lemma OneThenDigitValue(c: char)
    requires IsDigit(c)
    ensures AllDigits("1" + ("000000000000000" + [c]))
    ensures DigitsValue("1" + ("000000000000000" + [c])) == 10000000000000000 + (c as int - '0' as int)
  {
    var fraction := "000000000000000" + [c];
    ZerosThenDigit("000000000000000", c);
    DigitsAppend("1", fraction);
    assert DigitsValue("1") == 1 by { assert "1"[..0] == ""; }
    assert |fraction| == 16;
    Pow10Sixteen();
  }

  lemma OneThenDigit(c: char)
    requires IsDigit(c)
    ensures ParseFloat("1.000000000000000" + [c]) == Some(Decimal(false, 10000000000000000 + (c as int - '0' as int), 16))
  {
    var fraction := "000000000000000" + [c];
    ZerosThenDigit("000000000000000", c);
    OneThenDigitValue(c);
    var t := "1.000000000000000" + [c];
    assert t == "1" + "." + fraction && t[0] == '1';
    assert ParseFloat(t) == ParseUnsigned(false, t);
    ParseWithPoint(false, "1", fraction);
  }

  /**
   * "1.0000000000000001" is not above one hour: float() rounds it to 1.0, as 10^-16 is less than
   * half the gap 2^-52 between 1.0 and the next double.
   */
  lemma SampleRoundsToOne()
    ensures ParseFloat("1.0000000000000001") == Some(Decimal(false, 10000000000000001, 16))
    ensures !GreaterThanOne(Decimal(false, 10000000000000001, 16))
  {
    OneThenDigit('1');
    Pow10Sixteen();
    assert "1.000000000000000" + ['1'] == "1.0000000000000001";
  }

  /** "1.0000000000000002" is above one hour: it rounds to the double 1 + 2^-52. */
  lemma SampleNextDouble()
    ensures ParseFloat("1.0000000000000002") == Some(Decimal(false, 10000000000000002, 16))
    ensures GreaterThanOne(Decimal(false, 10000000000000002, 16))
  {
    OneThenDigit('2');
    Pow10Sixteen();
    assert "1.000000000000000" + ['2'] == "1.0000000000000002";
  }

  lemma AllButPoint(s: string)
    requires forall i :: 0 <= i < |s| ==> s[i] != '.'
    ensures PointAt(s) == |s|
  {
    if s != [] {
      AllButPoint(s[1..]);
    }
  }
}
