/** java.math.BigDecimal as far as the library uses it: an unscaled integer
    and a scale, exact addition, numeric comparison (compareTo), rounding to a
    scale with HALF_UP, and parsing from a string. */
module Decimals {
  import opened Text
  import opened Base

  /** The number unscaled / 10^scale. */
  datatype Decimal = Decimal(unscaled: int, scale: nat)

  const Zero := Decimal(0, 0)

  function Pow10(n: nat): (p: nat)
    ensures p >= 1
  {
    if n == 0 then 1 else 10 * Pow10(n - 1)
  }

  lemma {:induction false} Pow10Add(a: nat, b: nat)
    ensures Pow10(a + b) == Pow10(a) * Pow10(b)
    decreases a
  {
    if a > 0 {
      Pow10Add(a - 1, b);
      assert Pow10(a + b) == 10 * Pow10(a - 1 + b);
    }
  }

  /** The exact value of a decimal. */
  function ToReal(d: Decimal): real
  {
    d.unscaled as real / Pow10(d.scale) as real
  }

  function Max(a: nat, b: nat): nat
  {
    if a < b then b else a
  }

  /** The unscaled value of d written at the larger scale s. */
  function Rescale(d: Decimal, s: nat): int
    requires d.scale <= s
  {
    d.unscaled * Pow10(s - d.scale)
  }

  lemma RealCancel(x: real, p: real, q: real)
    requires p > 0.0 && q > 0.0
    ensures (x * p) / (p * q) == x / q
  {
    var y := x / q;
    assert x == y * q;
    assert x * p == y * (p * q);
  }

  lemma RescaleExact(d: Decimal, s: nat)
    requires d.scale <= s
    ensures ToReal(Decimal(Rescale(d, s), s)) == ToReal(d)
  {
    var k := s - d.scale;
    Pow10Add(k, d.scale);
    var x, p, q := d.unscaled as real, Pow10(k) as real, Pow10(d.scale) as real;
    ProductAsReal(Pow10(k), Pow10(d.scale));
    ProductAsReal(d.unscaled, Pow10(k));
    RealCancel(x, p, q);
  }

  lemma ProductAsReal(a: int, b: int)
    ensures (a * b) as real == a as real * b as real
  {
  }

  /** BigDecimal.add: exact, at the larger of the two scales. */
  function Add(a: Decimal, b: Decimal): (r: Decimal)
    ensures r.scale == Max(a.scale, b.scale)
    ensures ToReal(r) == ToReal(a) + ToReal(b)
  {
    var s := Max(a.scale, b.scale);
    var r := Decimal(Rescale(a, s) + Rescale(b, s), s);
    RescaleExact(a, s);
    RescaleExact(b, s);
    assert ToReal(r) == Rescale(a, s) as real / Pow10(s) as real + Rescale(b, s) as real / Pow10(s) as real;
    r
  }

  /** BigDecimal.compareTo: the sign of a - b, ignoring scale. */
  function Compare(a: Decimal, b: Decimal): (c: int)
    ensures c == 0 <==> ToReal(a) == ToReal(b)
    ensures c < 0 <==> ToReal(a) < ToReal(b)
    ensures c > 0 <==> ToReal(a) > ToReal(b)
  {
    if ToReal(a) < ToReal(b) then -1 else if ToReal(a) == ToReal(b) then 0 else 1
  }

  function Abs(x: int): nat
  {
    if x < 0 then -x else x
  }

  /** BigDecimal.setScale(n, RoundingMode.HALF_UP) for n >= 0: exact when the
      scale grows; otherwise the nearest multiple of 10^-n, ties away from zero. */
  function SetScaleHalfUp(d: Decimal, n: nat): (r: Decimal)
    ensures r.scale == n
    ensures n >= d.scale ==> r.unscaled == d.unscaled * Pow10(n - d.scale)
    ensures n < d.scale ==> 2 * Abs(r.unscaled * Pow10(d.scale - n) - d.unscaled) <= Pow10(d.scale - n)
    ensures n < d.scale && 2 * Abs(r.unscaled * Pow10(d.scale - n) - d.unscaled) == Pow10(d.scale - n) ==>
              Abs(r.unscaled) * Pow10(d.scale - n) > Abs(d.unscaled)
    ensures (d.unscaled >= 0 ==> r.unscaled >= 0) && (d.unscaled <= 0 ==> r.unscaled <= 0)
  {
    if n >= d.scale then Decimal(d.unscaled * Pow10(n - d.scale), n)
    else
      var p := Pow10(d.scale - n);
      var q' := RoundMagnitude(Abs(d.unscaled), p);
      ApplySign(d.unscaled, p, q');
      Decimal(Signed(d.unscaled, q'), n)
  }

  /** q with the sign of v. */
  function Signed(v: int, q: nat): int
  {
    if v < 0 then -(q as int) else q
  }

  /** HALF_UP on magnitudes: m / p rounded to the nearest integer, a tie upwards. */
  function RoundMagnitude(m: nat, p: nat): (q': nat)
    requires p >= 1
    ensures 2 * Abs(q' * p - m) <= p
    ensures 2 * Abs(q' * p - m) == p ==> q' * p > m
  {
    var q := m / p;
    var rem := m % p;
    var up := 2 * rem >= p;
    var q': nat := if up then q + 1 else q;
    RoundingStep(m, p, q, rem, up, q');
    q'
  }

  /** Giving the rounded magnitude back its sign keeps the distance and the tie rule. */
  lemma ApplySign(v: int, p: nat, q': nat)
    requires p >= 1
    requires 2 * Abs(q' * p - Abs(v)) <= p
    requires 2 * Abs(q' * p - Abs(v)) == p ==> q' * p > Abs(v)
    ensures 2 * Abs(Signed(v, q') * p - v) <= p
    ensures 2 * Abs(Signed(v, q') * p - v) == p ==> Abs(Signed(v, q')) * p > Abs(v)
    ensures (v >= 0 ==> Signed(v, q') >= 0) && (v <= 0 ==> Signed(v, q') <= 0)
  {
    if v < 0 {
      assert Signed(v, q') * p == -(q' * p);
      assert Signed(v, q') * p - v == -(q' * p - Abs(v));
    }
  }

  /** The arithmetic of one HALF_UP step on magnitudes: m = q * p + rem. */
  lemma RoundingStep(m: nat, p: nat, q: nat, rem: nat, up: bool, q': nat)
    requires p >= 1 && rem < p && m == q * p + rem
    requires up == (2 * rem >= p) && q' == if up then q + 1 else q
    ensures 2 * Abs(q' * p - m) <= p
    ensures 2 * Abs(q' * p - m) == p ==> q' * p > m
  {
    if up {
      assert q' * p == q * p + p;
      assert q' * p - m == p - rem;
    } else {
      assert q' * p - m == -(rem as int);
    }
  }

  function RealAbs(x: real): real
  {
    if x < 0.0 then -x else x
  }

  /** HALF_UP rounding to n places lands within half a unit of the n-th place
      of the exact value (and is exact when no digit is dropped). */
  /** r is within half a unit of its own last place of d. */
  ghost predicate WithinHalfUnit(r: Decimal, d: Decimal)
  {
    2.0 * RealAbs(ToReal(r) - ToReal(d)) * Pow10(r.scale) as real <= 1.0
  }

  lemma HalfUpNearest(d: Decimal, n: nat)
    ensures WithinHalfUnit(SetScaleHalfUp(d, n), d)
  {
    if n >= d.scale {
      HalfUpExact(d, n);
      assert ToReal(SetScaleHalfUp(d, n)) - ToReal(d) == 0.0;
    } else {
      HalfUpDropped(d, n);
    }
  }

  /** Rounding to at least as many places as d has keeps its value. */
  lemma HalfUpExact(d: Decimal, n: nat)
    ensures n >= d.scale ==> ToReal(SetScaleHalfUp(d, n)) == ToReal(d)
  {
    if n >= d.scale {
      assert SetScaleHalfUp(d, n) == Decimal(Rescale(d, n), n);
      RescaleExact(d, n);
    }
  }

  lemma HalfUpDropped(d: Decimal, n: nat)
    requires n < d.scale
    ensures 2.0 * RealAbs(ToReal(SetScaleHalfUp(d, n)) - ToReal(d)) * Pow10(n) as real <= 1.0
  {
    HalfUpGap(SetScaleHalfUp(d, n), d, n);
  }

  /** r at scale n, within half a unit of its last place of d's unscaled value
      written at d's larger scale, is within half a unit of that place of d. */
  lemma HalfUpGap(r: Decimal, d: Decimal, n: nat)
    requires n < d.scale && r.scale == n
    requires 2 * Abs(r.unscaled * Pow10(d.scale - n) - d.unscaled) <= Pow10(d.scale - n)
    ensures 2.0 * RealAbs(ToReal(r) - ToReal(d)) * Pow10(n) as real <= 1.0
  {
    var k := d.scale - n;
    var p, q := Pow10(k), Pow10(n);
    assert Pow10(d.scale) == q * p by { Pow10Add(n, k); }
    HalfUpReal(ToReal(r), ToReal(d), r.unscaled, d.unscaled, p, q, r.unscaled * p - d.unscaled);
  }

  /** The real-number step of HalfUpGap: u/q - v/(q*p) == (u*p - v)/(q*p). */
  lemma HalfUpReal(x: real, y: real, u: int, v: int, p: nat, q: nat, diff: int)
    requires p >= 1 && q >= 1 && diff == u * p - v && 2 * Abs(diff) <= p
    requires x == u as real / q as real && y == v as real / (q * p) as real
    ensures 2.0 * RealAbs(x - y) * q as real <= 1.0
  {
    var P, Q := p as real, q as real;
    ProductAsReal(q, p);
    ProductAsReal(u, p);
    RealCancel(u as real, P, Q);
    assert u as real / Q == (u as real * P) / (P * Q);
    var g := x - y;
    assert g == diff as real / (Q * P);
    assert g * Q == diff as real / P;
    var a := RealAbs(diff as real);
    assert 2.0 * a <= P;
    assert 2.0 * RealAbs(g) * Q == 2.0 * a / P;
  }

  predicate AllDigits(s: string)
  {
    forall k | 0 <= k < |s| :: IsDigit(s[k])
  }

  /** new BigDecimal(String) without exponent notation: an optional sign,
      digits with at most one '.', at least one digit; the scale is the number
      of digits after the point. */
  function ParseDecimal(s: string): Option<Decimal>
  {
    var negative := |s| > 0 && s[0] == '-';
    var body := if |s| > 0 && (s[0] == '-' || s[0] == '+') then s[1..] else s;
    var dot := IndexOf(body, '.');
    var intPart := if dot < 0 then body else body[..dot];
    var fraction := if dot < 0 then [] else body[dot + 1..];
    if AllDigits(intPart) && AllDigits(fraction) && |intPart| + |fraction| > 0 then
      var magnitude: int := DigitsValue(intPart + fraction);
      Some(Decimal(if negative then -magnitude else magnitude, |fraction|))
    else None
  }

  /** Integer.toString followed by new BigDecimal(String) gives back the integer at scale 0. */
  lemma ParseIntToString(n: int)
    ensures ParseDecimal(IntToString(n)) == Some(Decimal(n, 0))
  {
    var m: nat := if n < 0 then -n else n;
    DigitsOfNatToString(m);
    if n < 0 {
      ParseDigits("-", NatToString(m));
    } else {
      ParseDigits("", NatToString(m));
      assert "" + NatToString(m) == NatToString(m);
    }
  }

  /** An optional minus sign and digits parse to their value at scale 0. */
  lemma ParseDigits(sign: string, digits: string)
    requires sign == "" || sign == "-"
    requires |digits| > 0 && AllDigits(digits)
    ensures ParseDecimal(sign + digits) ==
      Some(Decimal(if sign == "-" then -(DigitsValue(digits) as int) else DigitsValue(digits), 0))
  {
    var s := sign + digits;
    assert '.' !in digits by {
      forall k | 0 <= k < |digits|
        ensures digits[k] != '.'
      {
        assert IsDigit(digits[k]);
      }
    }
    assert IndexOf(digits, '.') == -1;
    assert digits + [] == digits;
    if sign == "" {
      assert s == digits;
      assert IsDigit(s[0]);
    } else {
      assert s[0] == '-' && s[1..] == digits;
    }
  }
}
