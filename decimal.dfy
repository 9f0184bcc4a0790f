/**
 * Decimal text for numbers: `str(n)` of a natural number, fixed-point
 * formatting (`f"{x:.3f}"`), parsing of plain decimal notation (Python
 * `float()`, Rust `parse::<f64>()`) and of 32-bit integers (Rust
 * `parse::<i32>()`). Numbers are exact reals; the model's rounding is
 * half-up on the exact value.
 */
module Decimal {
  import opened Wrappers
  import opened Text

  function Pow10(p: nat): (r: nat)
    ensures r >= 1
  {
    if p == 0 then 1 else 10 * Pow10(p - 1)
  }

  predicate IsDigit(c: char) {
    '0' <= c <= '9'
  }

  predicate AllDigits(s: string) {
    forall i :: 0 <= i < |s| ==> IsDigit(s[i])
  }

  function DigitChar(d: nat): (c: char)
    requires d < 10
    ensures IsDigit(c)
  {
    ('0' as int + d) as char
  }

  function DigitVal(c: char): nat
    requires IsDigit(c)
  {
    c as int - '0' as int
  }

  /** The value of a string of decimal digits, most significant digit first. */
  function DigitsValue(s: string): nat
    requires AllDigits(s)
  {
    if s == [] then 0 else 10 * DigitsValue(s[..|s| - 1]) + DigitVal(s[|s| - 1])
  }

  /** Python `str(n)`: the decimal digits of `n`, without leading zeros. */
  function NatToString(n: nat): (s: string)
    ensures s != [] && AllDigits(s)
    ensures DigitsValue(s) == n
    ensures |s| > 1 ==> s[0] != '0'
  {
    if n < 10 then [DigitChar(n)]
    else
      var s := NatToString(n / 10) + [DigitChar(n % 10)];
      assert s[..|s| - 1] == NatToString(n / 10);
      s
  }

  /** A number below 10^p has at most p digits (p >= 1). */
  lemma {:induction false} NatToStringLength(n: nat, p: nat)
    requires p >= 1 && n < Pow10(p)
    ensures |NatToString(n)| <= p
    decreases p
  {
    if n >= 10 {
      assert Pow10(1) == 10;
      assert Pow10(p) == 10 * Pow10(p - 1);
      NatToStringLength(n / 10, p - 1);
    }
  }

  /** `s` left-padded with '0' to width `w`. */
  function PadZeros(s: string, w: nat): string
  {
    if |s| < w then seq(w - |s|, _ => '0') + s else s
  }

  /** Leading zeros do not change the value of a digit string. */
  lemma {:induction false} LeadingZerosValue(z: nat, s: string)
    requires AllDigits(s)
    ensures AllDigits(seq(z, _ => '0') + s)
    ensures DigitsValue(seq(z, _ => '0') + s) == DigitsValue(s)
    decreases |s|, z
  {
    var zs: string := seq(z, _ => '0');
    if s == [] {
      assert zs + s == zs;
      if z > 0 {
        assert zs[..z - 1] == seq(z - 1, _ => '0');
        LeadingZerosValue(z - 1, []);
        assert seq(z - 1, _ => '0') + [] == seq(z - 1, _ => '0');
      }
    } else {
      var t := zs + s;
      assert t[..|t| - 1] == zs + s[..|s| - 1];
      LeadingZerosValue(z, s[..|s| - 1]);
    }
  }

  function Abs(x: real): real {
    if x < 0.0 then -x else x
  }

  /** `a` scaled by 10^p and rounded half up to a whole number. */
  function Scaled(a: real, p: nat): nat
    requires a >= 0.0
  {
    (a * Pow10(p) as real + 0.5).Floor
  }

  /** Euclidean quotient and remainder of naturals. */
  function DivMod(n: nat, d: nat): (qr: (nat, nat))
    requires d >= 1
    ensures qr.0 * d + qr.1 == n && qr.1 < d
  {
    (n / d, n % d)
  }

  /** The digits of n / 10^p written with exactly p decimals. */
  function FixedDigits(n: nat, p: nat): string
  {
    if p == 0 then NatToString(n)
    else
      var qr := DivMod(n, Pow10(p));
      NatToString(qr.0) + "." + PadZeros(NatToString(qr.1), p)
  }

  /** Python `f"{x:.{p}f}"`: a minus sign for negative x, then |x| rounded to p decimals. */
  function FormatFixed(x: real, p: nat): (r: string)
    ensures r != [] && (r[0] == '-' <==> x < 0.0)
    ensures p >= 1 ==> |r| > p && r[|r| - p - 1] == '.' && AllDigits(r[|r| - p..])
  {
    var body := FixedDigits(Scaled(Abs(x), p), p);
    FixedDigitsLead(Scaled(Abs(x), p), p);
    if p >= 1 then
      FixedDigitsTail(Scaled(Abs(x), p), p);
      SignedTail(x < 0.0, body, p);
      Signed(x < 0.0, body)
    else Signed(x < 0.0, body)
  }

  /** Digits alone carry no sign and read as their value. */
  lemma WholeNotSigned(s: string)
    requires s != [] && AllDigits(s)
    ensures s[0] != '-' && s[0] != '+'
    ensures ParseUnsigned(s) == Some(DigitsValue(s) as real)
  {
    assert IsDigit(s[0]);
    ParseWhole(s);
  }

  /** With p >= 1 decimals, the text ends with a '.' and exactly p digits. */
  lemma FixedDigitsTail(n: nat, p: nat)
    requires p >= 1
    ensures |FixedDigits(n, p)| > p && FixedDigits(n, p)[|FixedDigits(n, p)| - p - 1] == '.'
    ensures AllDigits(FixedDigits(n, p)[|FixedDigits(n, p)| - p..])
  {
    var qr := DivMod(n, Pow10(p));
    var a := NatToString(qr.0);
    var b := PadZeros(NatToString(qr.1), p);
    PaddedRemainder(qr.1, p);
    var s := a + "." + b;
    assert s[|s| - p - 1] == '.';
    assert s[|s| - p..] == b;
  }

  /** The value that `FormatFixed(x, p)` writes. */
  function Rounded(x: real, p: nat): real
  {
    Negated(x < 0.0, Scaled(Abs(x), p) as real / Pow10(p) as real)
  }

  /** A sign in front leaves the text's last p + 1 characters as they were. */
  lemma SignedTail(neg: bool, text: string, p: nat)
    requires |text| > p
    ensures |Signed(neg, text)| > p
    ensures Signed(neg, text)[|Signed(neg, text)| - p - 1] == text[|text| - p - 1]
    ensures Signed(neg, text)[|Signed(neg, text)| - p..] == text[|text| - p..]
  {
  }

  /** `text` with a leading minus sign when `neg`. */
  function Signed(neg: bool, text: string): string {
    if neg then "-" + text else text
  }

  function Negated(neg: bool, v: real): real {
    if neg then -v else v
  }

  /** Digits, an optional '.', more digits; at least one digit in all. */
  function ParseUnsigned(s: string): (r: Option<real>)
    ensures r.Some? ==> r.value >= 0.0
  {
    var i := IndexOf(s, '.');
    var ip := s[..i];
    var fp := if i < |s| then s[i + 1..] else [];
    if AllDigits(ip) && AllDigits(fp) && (ip != [] || fp != []) then
      FractionNonNegative(DigitsValue(fp), Pow10(|fp|));
      Some(DigitsValue(ip) as real + DigitsValue(fp) as real / Pow10(|fp|) as real)
    else None
  }

  lemma FractionNonNegative(n: nat, d: nat)
    requires d >= 1
    ensures n as real / d as real >= 0.0
  {
  }

  /**
   * Python `float(s)` after stripping, Rust `s.parse::<f64>()`: an optional
   * sign and plain decimal notation.
   */
  function ParseDecimal(s: string): (r: Option<real>)
    ensures r.Some? ==> s != [] && (s[0] != '-' ==> r.value >= 0.0) && (s[0] == '-' ==> r.value <= 0.0)
    ensures s != [] && AllDigits(s) ==> r == Some(DigitsValue(s) as real)
  {
    if s != [] && AllDigits(s) then
      WholeNotSigned(s);
      ParseUnsigned(s)
    else
    if s != [] && (s[0] == '-' || s[0] == '+') then
      match ParseUnsigned(s[1..])
      case Some(v) => Some(if s[0] == '-' then -v else v)
      case None => None
    else ParseUnsigned(s)
  }

  lemma QuotientRemainder(n: nat, q: nat, r: nat, d: nat)
    requires d >= 1 && n == q * d + r
    ensures q as real + r as real / d as real == n as real / d as real
  {
    assert n as real == q as real * d as real + r as real;
  }

  /** A digit string without a point reads as its value. */
  lemma {:induction false} ParseWhole(a: string)
    requires a != [] && AllDigits(a)
    ensures ParseUnsigned(a) == Some(DigitsValue(a) as real)
  {
    assert forall j :: 0 <= j < |a| ==> a[j] != '.';
    IndexOfAt(a, '.', |a|);
    assert a[..|a|] == a;
    var fp: string := [];
    assert DigitsValue(fp) == 0 && Pow10(|fp|) == 1;
    assert ParseUnsigned(a) == Some(DigitsValue(a) as real + 0.0 / 1.0);
  }

  /** Digits, a point, digits: whole part plus the fraction over 10^(fraction length). */
  lemma {:induction false} ParseDotted(a: string, b: string, q: nat, r: nat, d: nat)
    requires a != [] && AllDigits(a) && AllDigits(b)
    requires DigitsValue(a) == q && DigitsValue(b) == r && Pow10(|b|) == d
    ensures ParseUnsigned(a + "." + b) == Some(q as real + r as real / d as real)
  {
    var s := a + "." + b;
    assert forall j :: 0 <= j < |a| ==> s[j] == a[j] && s[j] != '.';
    assert s[|a|] == '.';
    IndexOfAt(s, '.', |a|);
    assert s[..|a|] == a;
    assert s[|a| + 1..] == b;
  }

  /** The fraction digits of FixedDigits: exactly p digits worth the remainder. */
  lemma {:induction false} PaddedRemainder(r: nat, p: nat)
    requires p >= 1 && r < Pow10(p)
    ensures AllDigits(PadZeros(NatToString(r), p))
    ensures |PadZeros(NatToString(r), p)| == p
    ensures DigitsValue(PadZeros(NatToString(r), p)) == r
  {
    var s := NatToString(r);
    NatToStringLength(r, p);
    LeadingZerosValue(p - |s|, s);
  }

  lemma {:induction false} ParseFixedDigits(n: nat, p: nat)
    ensures ParseUnsigned(FixedDigits(n, p)) == Some(n as real / Pow10(p) as real)
  {
    if p == 0 {
      ParseWhole(NatToString(n));
      assert FixedDigits(n, p) == NatToString(n);
      assert Pow10(0) == 1;
    } else {
      ParseFixedDotted(n, p);
    }
  }

  lemma {:induction false} ParseFixedDotted(n: nat, p: nat)
    requires p >= 1
    ensures ParseUnsigned(FixedDigits(n, p)) == Some(n as real / Pow10(p) as real)
  {
    var P := Pow10(p);
    var qr := DivMod(n, P);
    var a := NatToString(qr.0);
    var b := PadZeros(NatToString(qr.1), p);
    PaddedRemainder(qr.1, p);
    assert FixedDigits(n, p) == a + "." + b;
    ParseDotted(a, b, qr.0, qr.1, P);
    QuotientRemainder(n, qr.0, qr.1, P);
  }

  lemma FixedDigitsLead(n: nat, p: nat)
    ensures FixedDigits(n, p) != [] && IsDigit(FixedDigits(n, p)[0])
  {
    if p > 0 {
      var a := NatToString(DivMod(n, Pow10(p)).0);
      assert FixedDigits(n, p)[0] == a[0];
    }
  }

  lemma FixedDigitsLast(n: nat, p: nat)
    ensures FixedDigits(n, p) != [] && IsDigit(FixedDigits(n, p)[|FixedDigits(n, p)| - 1])
  {
    if p > 0 {
      var qr := DivMod(n, Pow10(p));
      var b := PadZeros(NatToString(qr.1), p);
      PaddedRemainder(qr.1, p);
      var s := NatToString(qr.0) + "." + b;
      assert s[|s| - 1] == b[p - 1];
    }
  }

  /** Fixed-point text has no surrounding white space: it starts with '-' or a digit and ends with a digit. */
  lemma FormatFixedEdges(x: real, p: nat)
    ensures FormatFixed(x, p) != []
    ensures FormatFixed(x, p)[0] == '-' || IsDigit(FormatFixed(x, p)[0])
    ensures IsDigit(FormatFixed(x, p)[|FormatFixed(x, p)| - 1])
  {
    var body := FixedDigits(Scaled(Abs(x), p), p);
    FixedDigitsLead(Scaled(Abs(x), p), p);
    FixedDigitsLast(Scaled(Abs(x), p), p);
    if x < 0.0 {
      var s := "-" + body;
      assert s[|s| - 1] == body[|body| - 1];
    }
  }

  /** A leading minus negates an unsigned number that starts with a digit. */
  lemma {:induction false} SignedParse(body: string, v: real, neg: bool)
    requires body != [] && IsDigit(body[0]) && ParseUnsigned(body) == Some(v)
    ensures ParseDecimal(Signed(neg, body)) == Some(Negated(neg, v))
  {
    if neg {
      var s := "-" + body;
      assert s[1..] == body;
      assert ParseDecimal(s) == Some(-v);
    } else {
      assert body[0] != '-' && body[0] != '+';
    }
  }

  /** Fixed-point text reads back, through the decimal parser, as the rounded value. */
  lemma {:induction false} ParseFormatFixed(x: real, p: nat)
    ensures ParseDecimal(FormatFixed(x, p)) == Some(Rounded(x, p))
  {
    ParseSignedFixed(Scaled(Abs(x), p), p, x < 0.0);
  }

  lemma {:induction false} ParseSignedFixed(n: nat, p: nat, neg: bool)
    ensures ParseDecimal(Signed(neg, FixedDigits(n, p))) == Some(Negated(neg, n as real / Pow10(p) as real))
  {
    var body := FixedDigits(n, p);
    var v := n as real / Pow10(p) as real;
    ParseFixedDigits(n, p);
    FixedDigitsLead(n, p);
    SignedParse(body, v, neg);
  }

  /** Rounding half up lands within half a unit of the scaled value. */
  lemma FloorHalf(y: real)
    ensures y - 0.5 < (y + 0.5).Floor as real <= y + 0.5
  {
  }

  /** A whole number within half a unit of a * d, divided by d, lies within 0.5 / d of a. */
  lemma UnscaleBounds(n: real, a: real, d: real)
    requires d > 0.0 && a * d - 0.5 < n <= a * d + 0.5
    ensures -0.5 / d <= n / d - a <= 0.5 / d
  {
    var u := n - a * d;
    assert -0.5 <= u <= 0.5;
    assert u / d == n / d - a;
    assert -0.5 / d <= u / d <= 0.5 / d;
  }

  /** Rounding to p decimals moves a value by at most half a unit in the last place. */
  lemma RoundedNear(x: real, p: nat)
    ensures -0.5 / Pow10(p) as real <= Rounded(x, p) - x <= 0.5 / Pow10(p) as real
  {
    var d := Pow10(p) as real;
    var a := Abs(x);
    var q := Scaled(a, p) as real / d;
    ScaledNear(a, p);
    NegHalf(d);
    NegatedNear(x < 0.0, q, a, 0.5 / d);
    assert Rounded(x, p) == Negated(x < 0.0, q);
    assert Negated(x < 0.0, a) == x;
  }

  /** A value that already has at most p decimals is unchanged by rounding to p decimals. */
  lemma RoundedExact(n: nat, p: nat)
    ensures Rounded(n as real / Pow10(p) as real, p) == n as real / Pow10(p) as real
  {
    var d := Pow10(p) as real;
    var x := n as real / d;
    assert x >= 0.0 && Abs(x) == x;
    assert x * d == n as real;
    assert (n as real + 0.5).Floor == n;
    assert Scaled(Abs(x), p) == n;
    assert !(x < 0.0);
  }

  lemma NegHalf(d: real)
    requires d > 0.0
    ensures -0.5 / d == -(0.5 / d)
  {
  }

  /** Scaling, rounding half up and scaling back moves a non-negative value by at most half a unit. */
  lemma ScaledNear(a: real, p: nat)
    requires a >= 0.0
    ensures -0.5 / Pow10(p) as real <= Scaled(a, p) as real / Pow10(p) as real - a <= 0.5 / Pow10(p) as real
  {
    FloorHalf(a * Pow10(p) as real);
    UnscaleBounds(Scaled(a, p) as real, a, Pow10(p) as real);
  }

  /** Negating both of two values keeps the distance between them. */
  lemma NegatedNear(neg: bool, v: real, a: real, e: real)
    requires -e <= v - a <= e
    ensures -e <= Negated(neg, v) - Negated(neg, a) <= e
  {
  }

  const I32Min: int := -0x8000_0000
  const I32Max: int := 0x7FFF_FFFF

  /** Rust `s.parse::<i32>()`: an optional sign, one or more digits, and a value in range. */
  function ParseI32(s: string): (r: Option<int>)
    ensures r.Some? ==> I32Min <= r.value <= I32Max && s != []
    ensures s != [] && AllDigits(s) && DigitsValue(s) <= I32Max ==> r == Some(DigitsValue(s))
  {
    assert s != [] && AllDigits(s) ==> IsDigit(s[0]);
    var digits := if s != [] && (s[0] == '-' || s[0] == '+') then s[1..] else s;
    if digits == [] || !AllDigits(digits) then None
    else
      var v := if s[0] == '-' then -(DigitsValue(digits) as int) else DigitsValue(digits) as int;
      if I32Min <= v <= I32Max then Some(v) else None
  }

  /** A parsed integer is always a 32-bit value, and the decimal text of one parses back to it. */
  lemma ParseI32Range(s: string, k: nat)
    ensures ParseI32(s).Some? ==> I32Min <= ParseI32(s).value <= I32Max
    ensures k <= I32Max ==> ParseI32(NatToString(k)) == Some(k)
  {
    var t := NatToString(k);
    assert IsDigit(t[0]);
  }
}
