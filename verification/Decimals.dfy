/** Decimal arithmetic as Python's default context does it: 28 significant digits. */
module Decimals {

  const PRECISION: nat := 28

  function Pow10(k: nat): (p: nat)
    ensures 1 <= p
  {
    if k == 0 then 1 else 10 * Pow10(k - 1)
  }

  lemma {:induction false} Pow10Sum(a: nat, b: nat)
    ensures Pow10(a + b) == Pow10(a) * Pow10(b)
  {
    if a > 0 {
      Pow10Sum(a - 1, b);
      Associate(10, Pow10(a - 1), Pow10(b));
    }
  }

  lemma Associate(n: int, p: int, q: int)
    ensures (n * p) * q == n * (p * q)
  {}

  lemma {:induction false} Pow10Monotone(a: nat, b: nat)
    requires a <= b
    ensures Pow10(a) <= Pow10(b)
  {
    if a < b { Pow10Monotone(a, b - 1); }
  }

  /** The number of digits of a coefficient. */
  function Digits(n: nat): (d: nat)
    ensures 1 <= d && n < Pow10(d)
    ensures 0 < n ==> Pow10(d - 1) <= n
  {
    if n < 10 then 1 else 1 + Digits(n / 10)
  }

  /** A number has at most k digits exactly if it is below the k-th power of ten. */
  lemma DigitsAtMost(n: nat, k: nat)
    requires 1 <= k
    ensures Digits(n) <= k <==> n < Pow10(k)
  {
    if Digits(n) <= k { Pow10Monotone(Digits(n), k); }
    if k < Digits(n) && 0 < n { Pow10Monotone(k, Digits(n) - 1); }
  }

  function Abs(n: int): nat { if n < 0 then -n else n }

  /** n / d rounded to the nearest integer, ties away from zero. */
  function HalfUp(n: int, d: nat): int
    requires 0 < d
  {
    var q := (2 * Abs(n) + d) / (2 * d);
    if n < 0 then -q else q
  }

  /** n / d rounded to the nearest integer, ties to the even one. */
  function HalfEven(n: int, d: nat): int
    requires 0 < d
  {
    var q, r := Abs(n) / d, Abs(n) % d;
    var rounded := if 2 * r > d || (2 * r == d && q % 2 == 1) then q + 1 else q;
    if n < 0 then -rounded else rounded
  }

  lemma DivMod(n: nat, d: nat)
    requires 0 < d
    ensures n == d * (n / d) + n % d && 0 <= n % d < d
  {}

  predicate NearestEven(q: int, n: int, d: nat) {
    2 * Abs(q * d - n) <= d && (2 * Abs(q * d - n) == d ==> q % 2 == 0)
  }

  lemma NearestNegated(q: int, n: int, d: nat)
    requires NearestEven(q, n, d)
    ensures NearestEven(-q, -n, d)
  {
    assert (-q) * d == -(q * d);
  }

  lemma NearestOf(x: int, r: int, q: int, d: nat)
    requires 0 <= r < d && x == q * d
    ensures 2 * r < d || (2 * r == d && q % 2 == 0) ==> NearestEven(q, x + r, d)
    ensures 2 * r > d || (2 * r == d && q % 2 == 1) ==> NearestEven(q + 1, x + r, d)
  {
    assert (q + 1) * d == x + d;
  }

  /** HALF_EVEN is off by at most half a unit, and by exactly half only at an even result. */
  lemma HalfEvenNearest(n: int, d: nat)
    requires 0 < d
    ensures NearestEven(HalfEven(n, d), n, d)
  {
    var a := Abs(n);
    HalfEvenUp(a, d);
    if n < 0 { NearestNegated(HalfEven(a, d), a, d); }
  }

  lemma HalfEvenUp(a: nat, d: nat)
    requires 0 < d
    ensures NearestEven(HalfEven(a, d), a, d)
  {
    DivMod(a, d);
    var q, r := a / d, a % d;
    Commute(d, q);
    NearestOf(d * q, r, q, d);
  }

  lemma Commute(a: int, b: int)
    ensures a * b == b * a
  {}

  /** HALF_UP is off by at most half a unit, and by exactly half only away from zero. */
  lemma HalfUpNearest(n: int, d: nat)
    requires 0 < d
    ensures 2 * Abs(HalfUp(n, d) * d - n) <= d
    ensures 2 * Abs(HalfUp(n, d) * d - n) == d ==> Abs(n) < Abs(HalfUp(n, d) * d)
  {
    var m := 2 * Abs(n) + d;
    DivMod(m, 2 * d);
    var q := m / (2 * d);
    assert 2 * d * q == 2 * (q * d);
    if n < 0 { assert (-q) * d == -(q * d); }
  }

  /** It is the only such integer. */
  lemma HalfUpUnique(n: int, d: nat, q: int)
    requires 0 < d && 2 * Abs(q * d - n) <= d
    requires 2 * Abs(q * d - n) == d ==> Abs(n) < Abs(q * d)
    ensures q == HalfUp(n, d)
  {
    HalfUpNearest(n, d);
    var p := HalfUp(n, d);
    if p != q { Apart(p, q, d); }
    if p != 0 { Apart(p, 0, d); }
    OneNearest(n, d, p * d, q * d);
  }

  lemma Apart(p: int, q: int, d: nat)
    requires p != q
    ensures Abs(p * d - q * d) >= d
  {
    var k := Abs(p - q);
    assert k * d == d + (k - 1) * d;
    assert p * d - q * d == (p - q) * d;
    if p < q { assert (p - q) * d == -(k * d); }
  }

  lemma OneNearest(n: int, d: nat, x: int, y: int)
    requires 0 < d && (x == y || Abs(x - y) >= d) && (x == 0 || Abs(x) >= d)
    requires 2 * Abs(x - n) <= d && (2 * Abs(x - n) == d ==> Abs(n) < Abs(x))
    requires 2 * Abs(y - n) <= d && (2 * Abs(y - n) == d ==> Abs(n) < Abs(y))
    ensures x == y
  {}

  /** A decimal number n * 10^exp. */
  datatype Decimal = Dec(n: int, exp: int)

  /** The result of an operation, rounded half-even to the context's precision. */
  function Fit(d: Decimal): Decimal {
    var extra := Digits(Abs(d.n)) - PRECISION;
    if extra <= 0 then d else Dec(HalfEven(d.n, Pow10(extra)), d.exp + extra)
  }

  /** An operation's result is kept if it has at most 28 digits; otherwise the surplus digits go, and
      what stays is off by at most half a unit, by exactly half only if it is even. */
  lemma FitMeans(d: Decimal)
    ensures var surplus := Digits(Abs(d.n)) - 28;
      if surplus <= 0 then Fit(d) == d
      else Fit(d).exp == d.exp + surplus && NearestEven(Fit(d).n, d.n, Pow10(surplus))
  {
    if Digits(Abs(d.n)) > PRECISION { FitOver(d, Digits(Abs(d.n)) - PRECISION); }
  }

  lemma FitOver(d: Decimal, extra: int)
    requires extra == Digits(Abs(d.n)) - PRECISION && 0 < extra
    ensures Fit(d).exp == d.exp + extra && NearestEven(Fit(d).n, d.n, Pow10(extra))
  {
    HalfEvenNearest(d.n, Pow10(extra));
  }

  lemma FitExact(d: Decimal)
    requires Abs(d.n) < Pow10(PRECISION)
    ensures Fit(d) == d
  {
    DigitsAtMost(Abs(d.n), PRECISION);
  }

  function Mul(a: Decimal, b: Decimal): Decimal { Fit(Dec(a.n * b.n, a.exp + b.exp)) }

  /** The coefficient of d at a smaller or equal exponent. */
  function At(d: Decimal, exp: int): int
    requires exp <= d.exp
  {
    d.n * Pow10(d.exp - exp)
  }

  function Lower(a: Decimal, b: Decimal): int { if a.exp <= b.exp then a.exp else b.exp }

  function Minus(a: Decimal, b: Decimal): Decimal {
    var e := Lower(a, b);
    Fit(Dec(At(a, e) - At(b, e), e))
  }

  predicate Less(a: Decimal, b: Decimal) {
    var e := Lower(a, b);
    At(a, e) < At(b, e)
  }

  function Absolute(d: Decimal): Decimal { Fit(Dec(Abs(d.n), d.exp)) }

  /** The coefficient of d at the given exponent, rounded half-up. */
  function Rescaled(d: Decimal, exp: int): int {
    if exp <= d.exp then At(d, exp) else HalfUp(d.n, Pow10(exp - d.exp))
  }

  /** quantize raises InvalidOperation if the result needs more digits than the context has. */
  predicate Quantizes(d: Decimal, exp: int) { Digits(Abs(Rescaled(d, exp))) <= PRECISION }

  function Quantize(d: Decimal, exp: int): Decimal
    requires Quantizes(d, exp)
  {
    Dec(Rescaled(d, exp), exp)
  }

  /** Quantizing changes the value by at most half a unit of the new exponent. */
  lemma QuantizeNear(d: Decimal, exp: int)
    ensures exp <= d.exp ==> Rescaled(d, exp) == At(d, exp)
    ensures d.exp < exp ==> 2 * Abs(Rescaled(d, exp) * Pow10(exp - d.exp) - d.n) <= Pow10(exp - d.exp)
  {
    if d.exp < exp { HalfUpNearest(d.n, Pow10(exp - d.exp)); }
  }

  /** money and rate are idempotent: a quantized value is left as it is. */
  lemma QuantizeTwice(d: Decimal, exp: int)
    requires Quantizes(d, exp)
    ensures Quantizes(Quantize(d, exp), exp) && Quantize(Quantize(d, exp), exp) == Quantize(d, exp)
  {
    assert Pow10(0) == 1;
  }

  // ----- what the comparisons mean

  /** The number that d denotes. */
  function ValueOf(d: Decimal): real {
    if d.exp >= 0 then (d.n * Pow10(d.exp)) as real else d.n as real / Pow10(-d.exp) as real
  }

  lemma ScaleUp(n: int, p: nat, q: nat)
    requires 0 < p && 0 < q
    ensures (n * p) as real / (p * q) as real == n as real / q as real
  {
    Cancel(n as real, p as real, q as real);
    assert (n * p) as real == n as real * p as real;
    assert (p * q) as real == p as real * q as real;
  }

  lemma Cancel(x: real, p: real, q: real)
    requires p > 0.0 && q > 0.0
    ensures (x * p) / (p * q) == x / q
  {
    assert (x / q) * (p * q) == x * p;
  }

  /** A coefficient taken at a smaller exponent denotes the same number. */
  lemma AtKeepsValue(d: Decimal, exp: int)
    requires exp <= d.exp
    ensures ValueOf(Dec(At(d, exp), exp)) == ValueOf(d)
  {
    if exp >= 0 { BothWhole(d, exp); } else if d.exp < 0 { BothFractions(d, exp); } else { WholeToFraction(d, exp); }
  }

  lemma BothWhole(d: Decimal, exp: int)
    requires 0 <= exp <= d.exp
    ensures ValueOf(Dec(At(d, exp), exp)) == ValueOf(d)
  {
    Pow10Sum(d.exp - exp, exp);
    Associate(d.n, Pow10(d.exp - exp), Pow10(exp));
  }

  lemma BothFractions(d: Decimal, exp: int)
    requires exp <= d.exp < 0
    ensures ValueOf(Dec(At(d, exp), exp)) == ValueOf(d)
  {
    Pow10Sum(d.exp - exp, -d.exp);
    ScaleUp(d.n, Pow10(d.exp - exp), Pow10(-d.exp));
  }

  lemma WholeToFraction(d: Decimal, exp: int)
    requires exp < 0 <= d.exp
    ensures ValueOf(Dec(At(d, exp), exp)) == ValueOf(d)
  {
    Pow10Sum(d.exp, -exp);
    Associate(d.n, Pow10(d.exp), Pow10(-exp));
    WholeQuotient(d.n * Pow10(d.exp), Pow10(-exp));
  }

  lemma WholeQuotient(n: int, p: nat)
    requires 0 < p
    ensures (n * p) as real / p as real == n as real
  {
    assert n as real * p as real == (n * p) as real;
  }

  lemma SameExponent(m: int, n: int, exp: int)
    ensures ValueOf(Dec(m, exp)) < ValueOf(Dec(n, exp)) <==> m < n
  {
    if exp >= 0 { Multiples(m, n, Pow10(exp)); } else { Quotients(m as real, n as real, Pow10(-exp) as real); }
  }

  lemma Multiples(m: int, n: int, p: nat)
    requires 0 < p
    ensures m * p < n * p <==> m < n
  {
    if m < n { Larger(m, n - m, p); } else if n < m { Larger(n, m - n, p); }
  }

  lemma Larger(m: int, k: nat, p: nat)
    requires 0 < k && 0 < p
    ensures m * p < (m + k) * p
  {
    assert (m + k) * p == m * p + k * p;
  }

  lemma Quotients(x: real, y: real, p: real)
    requires p > 0.0
    ensures x / p < y / p <==> x < y
  {
    assert (x / p) * p == x && (y / p) * p == y;
  }

  /** Less compares the numbers. */
  lemma LessMeans(a: Decimal, b: Decimal)
    ensures Less(a, b) <==> ValueOf(a) < ValueOf(b)
  {
    var e := Lower(a, b);
    AtKeepsValue(a, e);
    AtKeepsValue(b, e);
    SameExponent(At(a, e), At(b, e), e);
  }

  lemma Difference(m: int, n: int, exp: int)
    ensures ValueOf(Dec(m - n, exp)) == ValueOf(Dec(m, exp)) - ValueOf(Dec(n, exp))
  {
    if exp >= 0 {
      assert (m - n) * Pow10(exp) == m * Pow10(exp) - n * Pow10(exp);
    } else {
      Split(m as real, n as real, Pow10(-exp) as real);
    }
  }

  lemma Split(x: real, y: real, p: real)
    requires p > 0.0
    ensures (x - y) / p == x / p - y / p
  {}

  function AbsReal(x: real): real { if x < 0.0 then -x else x }

  lemma AbsoluteValue(n: int, exp: int)
    ensures ValueOf(Dec(Abs(n), exp)) == AbsReal(ValueOf(Dec(n, exp)))
  {
    Difference(0, n, exp);
    SameExponent(n, 0, exp);
    ZeroIsZero(exp);
  }

  lemma ZeroIsZero(exp: int)
    ensures ValueOf(Dec(0, exp)) == 0.0
  {}

  /** The exact difference fits the context. */
  predicate DifferenceFits(a: Decimal, b: Decimal) {
    var e := Lower(a, b);
    Abs(At(a, e) - At(b, e)) < Pow10(PRECISION)
  }

  /** Then |a - b| is computed exactly. */
  lemma DistanceMeans(a: Decimal, b: Decimal)
    requires DifferenceFits(a, b)
    ensures ValueOf(Absolute(Minus(a, b))) == AbsReal(ValueOf(a) - ValueOf(b))
  {
    var e := Lower(a, b);
    DistanceExact(a, b, e);
    AtKeepsValue(a, e);
    AtKeepsValue(b, e);
    Difference(At(a, e), At(b, e), e);
    AbsoluteValue(At(a, e) - At(b, e), e);
  }

  lemma DistanceExact(a: Decimal, b: Decimal, e: int)
    requires DifferenceFits(a, b) && e == Lower(a, b)
    ensures Absolute(Minus(a, b)) == Dec(Abs(At(a, e) - At(b, e)), e)
  {
    AbsoluteExact(At(a, e) - At(b, e), e);
  }

  lemma AbsoluteExact(n: int, e: int)
    requires Abs(n) < Pow10(PRECISION)
    ensures Fit(Dec(n, e)) == Dec(n, e) && Absolute(Dec(n, e)) == Dec(Abs(n), e)
  {
    FitExact(Dec(n, e));
    FitExact(Dec(Abs(n), e));
  }

  /** Quantizing moves the number by at most half a unit of the new exponent. */
  lemma QuantizeMeans(d: Decimal, exp: int)
    ensures 2.0 * AbsReal(ValueOf(Dec(Rescaled(d, exp), exp)) - ValueOf(d)) <= ValueOf(Dec(1, exp))
  {
    QuantizeNear(d, exp);
    if exp <= d.exp {
      AtKeepsValue(d, exp);
      SameExponent(0, 1, exp);
      ZeroIsZero(exp);
    } else {
      var r, p := Rescaled(d, exp), Pow10(exp - d.exp);
      AtKeepsValue(Dec(r, exp), d.exp);
      AtKeepsValue(Dec(1, exp), d.exp);
      assert 1 * p == p;
      HalfUnit(r * p - d.n, p, d.exp);
      Difference(r * p, d.n, d.exp);
    }
  }

  lemma HalfUnit(n: int, p: int, exp: int)
    requires 2 * Abs(n) <= p
    ensures 2.0 * AbsReal(ValueOf(Dec(n, exp))) <= ValueOf(Dec(p, exp))
  {
    AbsoluteValue(n, exp);
    Difference(2 * Abs(n), Abs(n), exp);
    SameExponent(p, 2 * Abs(n), exp);
  }
}
