/** Rounding to binary64 (IEEE 754-2019, section 4.3.1, roundTiesToEven), over exact reals.

    A JavaScript number operation is the exact operation followed by `Fl`.  Magnitudes here stay
    far below 2^1024, so overflow to infinity is not part of the format. */
module Binary64 {

  const SIGNIFICANDS := 9007199254740992 // 2^53
  const MIN_EXPONENT := -1074

  function Abs(x: real): real {
    if x < 0.0 then -x else x
  }

  // ---- Exact arithmetic: products by name, and the few laws about them that are needed

  function Mul(a: real, b: real): real {
    a * b
  }

  lemma MulQuotient(x: real, u: real)
    requires u > 0.0
    ensures Mul(x / u, u) == x
  {
  }

  lemma MulOrder(a: real, b: real, u: real)
    requires u > 0.0
    ensures a <= b <==> Mul(a, u) <= Mul(b, u)
  {
  }

  lemma MulMono(a: real, p: real, q: real)
    requires a >= 0.0 && p <= q
    ensures Mul(a, p) <= Mul(a, q)
  {
  }

  lemma MulDiff(a: real, b: real, u: real)
    ensures Mul(a, u) - Mul(b, u) == Mul(a - b, u)
  {
  }

  lemma MulSign(a: real, u: real)
    requires u > 0.0
    ensures Mul(-a, u) == -Mul(a, u) && Mul(0.0, u) == 0.0 && Mul(1.0, u) == u && Mul(0.5, u) == u / 2.0
    ensures a >= 0.0 <==> Mul(a, u) >= 0.0
  {
  }

  lemma MulAssoc(a: real, b: real, c: real)
    ensures Mul(a, Mul(b, c)) == Mul(Mul(a, b), c)
  {
  }

  lemma MulSwap(a: real, b: real)
    ensures Mul(a, b) == Mul(b, a)
  {
  }

  lemma MulTwo(a: real, u: real)
    ensures Mul(a, 2.0 * u) == 2.0 * Mul(a, u) == Mul(2.0 * a, u)
  {
  }

  lemma MulInts(m: int, i: int)
    ensures Mul(m as real, i as real) == (m * i) as real
  {
  }

  lemma MulAbs(a: real, b: real, u: real)
    requires u > 0.0
    ensures Abs(Mul(a, u) - Mul(b, u)) == Mul(Abs(a - b), u)
  {
    hide Mul;
    MulDiff(a, b, u);
    MulSign(a - b, u);
    MulSign(b - a, u);
  }

  lemma QuotientHalves(y: real, u: real)
    requires u > 0.0
    ensures y / (2.0 * u) == (y / u) / 2.0
  {
    hide Mul;
    var a, b := y / (2.0 * u), y / u;
    MulQuotient(y, 2.0 * u);
    MulQuotient(y, u);
    MulTwo(a, u);
    MulOrder(2.0 * a, b, u);
    MulOrder(b, 2.0 * a, u);
  }

  lemma QuotientAtLeast(y: real, u: real, b: real)
    requires u > 0.0 && y >= Mul(b, u)
    ensures y / u >= b
  {
    hide Mul;
    MulQuotient(y, u);
    MulOrder(b, y / u, u);
  }

  lemma MulNearer(a: real, b: real, c: real, u: real)
    requires u > 0.0 && Abs(a - b) <= Abs(a - c)
    ensures Abs(Mul(a, u) - Mul(b, u)) <= Abs(Mul(a, u) - Mul(c, u))
  {
    hide Mul;
    MulAbs(a, b, u);
    MulAbs(a, c, u);
    hide Abs;
    MulOrder(Abs(a - b), Abs(a - c), u);
  }

  /** The exact product of a significand and a spacing. */
  function Times(m: int, p: real): real {
    Mul(m as real, p)
  }

  lemma TimesRegroup(m: int, i: int, p: real)
    ensures Times(m, Times(i, p)) == Times(m * i, p)
  {
    hide Mul;
    MulAssoc(m as real, i as real, p);
    MulInts(m, i);
  }

  lemma TimesSmaller(m: int, bound: int, p: real, q: real)
    requires -bound <= m <= bound && 0.0 < p <= q
    ensures Abs(Times(m, p)) <= Times(bound, q)
  {
    hide Mul;
    MulOrder(m as real, bound as real, p);
    MulOrder(-(bound as real), m as real, p);
    MulSign(bound as real, p);
    MulMono(bound as real, p, q);
  }

  // ---- Powers of two

  function Pow2(e: int): (r: real)
    ensures r > 0.0
    decreases if e < 0 then -e else e
  {
    if e == 0 then 1.0
    else if e > 0 then 2.0 * Pow2(e - 1)
    else Pow2(e + 1) / 2.0
  }

  lemma Pow2Step(e: int)
    ensures Pow2(e + 1) == 2.0 * Pow2(e)
  {
  }

  lemma {:induction false} Pow2Add(a: int, n: nat)
    ensures Pow2(a + n) == Mul(Pow2(a), Pow2(n))
  {
    if n == 0 {
      MulSign(Pow2(a), 1.0);
      MulSwap(1.0, Pow2(a));
    } else {
      Pow2Add(a, n - 1);
      Pow2Step(a + n - 1);
      Pow2Step(n - 1);
      hide Pow2, Mul;
      MulTwo(Pow2(a), Pow2(n - 1));
    }
  }

  /** 2^n is a whole number. */
  function IntPow2(n: nat): (r: nat)
    ensures r >= 1 && Pow2(n) == r as real
  {
    if n == 0 then 1 else 2 * IntPow2(n - 1)
  }

  lemma {:induction false} Pow2Order(a: int, b: int)
    requires a <= b
    ensures Pow2(a) <= Pow2(b)
    decreases b - a
  {
    if a < b {
      Pow2Step(b - 1);
      Pow2Order(a, b - 1);
    }
  }

  lemma SmallPowers()
    ensures Pow2(-8) == 0.00390625 && Pow2(3) == 8.0 && Pow2(10) == 1024.0
  {
    assert Pow2(-3) == 0.125;
    assert Pow2(-5) == 0.03125;
    assert Pow2(-7) == 0.0078125;
    assert Pow2(5) == 32.0;
    assert Pow2(8) == 256.0;
  }

  lemma Pow2Of53()
    ensures Pow2(53) == SIGNIFICANDS as real
  {
    hide Pow2;
    SmallPowers();
    Pow2Add(10, 10);
    Pow2Add(20, 20);
    Pow2Add(40, 10);
    Pow2Add(50, 3);
  }

  // ---- The format

  /** `x` is an integer significand times a power of two. */
  ghost predicate IsForm(x: real, m: int, e: int) {
    -SIGNIFICANDS <= m <= SIGNIFICANDS && e >= MIN_EXPONENT && x == Times(m, Pow2(e))
  }

  /** The representable numbers. */
  ghost predicate Double(x: real) {
    exists m: int, e: int :: IsForm(x, m, e)
  }

  lemma IntIsDouble(n: int)
    requires -SIGNIFICANDS <= n <= SIGNIFICANDS
    ensures Double(n as real)
  {
    assert IsForm(n as real, n, 0);
  }

  /** The nearest integer, to even on a tie. */
  function RoundEven(x: real): (n: int)
    ensures Abs(x - n as real) <= 0.5
    ensures Abs(x - n as real) == 0.5 ==> n % 2 == 0
  {
    var f := x.Floor;
    var d := x - f as real;
    if d < 0.5 then f else if d > 0.5 then f + 1 else if f % 2 == 0 then f else f + 1
  }

  lemma NearestInteger(a: real, n: int, k: int)
    requires Abs(a - n as real) <= 0.5
    ensures Abs(a - n as real) <= Abs(a - k as real)
  {
    if k < n {
      assert k as real <= n as real - 1.0;
    } else if n < k {
      assert n as real <= k as real - 1.0;
    }
  }

  /** The nearest multiple of `u`. */
  function RoundTo(x: real, u: real): real
    requires u > 0.0
  {
    Times(RoundEven(x / u), u)
  }

  lemma RoundToError(x: real, u: real)
    requires u > 0.0
    ensures Abs(x - RoundTo(x, u)) <= u / 2.0
  {
    hide Mul, RoundEven;
    var a, n := x / u, RoundEven(x / u);
    MulQuotient(x, u);
    MulAbs(a, n as real, u);
    MulOrder(Abs(a - n as real), 0.5, u);
    MulSign(0.5, u);
  }

  lemma RoundToNearest(x: real, u: real, k: int)
    requires u > 0.0
    ensures Abs(x - RoundTo(x, u)) <= Abs(x - Times(k, u))
  {
    hide Mul, RoundEven, Abs;
    var a, n := x / u, RoundEven(x / u);
    MulQuotient(x, u);
    NearestInteger(a, n, k);
    MulNearer(a, n as real, k as real, u);
  }

  lemma RoundToRange(x: real, u: real, bound: int)
    requires u > 0.0 && Abs(x) < Mul(bound as real, u)
    ensures -bound <= RoundEven(x / u) <= bound
  {
    hide Mul, RoundEven;
    var a := x / u;
    MulQuotient(x, u);
    MulSign(bound as real, u);
    MulOrder(bound as real, a, u);
    MulOrder(a, -(bound as real), u);
  }

  const HALF_SIGNIFICANDS := 4503599627370496 // 2^52

  lemma MulSignificands(u: real)
    ensures Mul(SIGNIFICANDS as real, u) == SIGNIFICANDS as real * u
    ensures Times(SIGNIFICANDS, u) == SIGNIFICANDS as real * u
    ensures Times(HALF_SIGNIFICANDS, u) == HALF_SIGNIFICANDS as real * u
    ensures Times(-HALF_SIGNIFICANDS, u) == -(HALF_SIGNIFICANDS as real * u)
  {
  }

  /** The smallest exponent, from `e` up, at which the significand of x has 53 bits. */
  function Exponent(x: real, e: int): (r: int)
    ensures r >= e && Abs(x) < SIGNIFICANDS as real * Pow2(r)
    ensures r > e ==> Abs(x) >= SIGNIFICANDS as real * Pow2(r - 1)
    decreases (Abs(x) / Pow2(e)).Floor
  {
    if Abs(x) < SIGNIFICANDS as real * Pow2(e) then e
    else
      ExponentDescends(Abs(x), e);
      Exponent(x, e + 1)
  }

  lemma ExponentDescends(y: real, e: int)
    requires y >= SIGNIFICANDS as real * Pow2(e)
    ensures 0 <= (y / Pow2(e + 1)).Floor < (y / Pow2(e)).Floor
  {
    Pow2Step(e);
    hide Pow2, Mul;
    QuotientHalves(y, Pow2(e));
    MulSignificands(Pow2(e));
    QuotientAtLeast(y, Pow2(e), SIGNIFICANDS as real);
  }

  /** The distance between neighbouring doubles around x. */
  function Ulp(x: real): (u: real)
    ensures u > 0.0
  {
    Pow2(Exponent(x, MIN_EXPONENT))
  }

  /** Round to nearest, ties to even. */
  function Fl(x: real): real {
    RoundTo(x, Ulp(x))
  }

  lemma FlIsDouble(x: real)
    ensures Double(Fl(x))
  {
    hide Pow2, Exponent, Mul, Times, RoundEven;
    var e := Exponent(x, MIN_EXPONENT);
    MulSignificands(Pow2(e));
    RoundToRange(x, Pow2(e), SIGNIFICANDS);
    assert IsForm(Fl(x), RoundEven(x / Pow2(e)), e);
  }

  /** Below the binade of x every double is at most 2^52 spacings away from zero, and x is not. */
  lemma BelowBinade(x: real, y: real, m: int, e: int)
    requires IsForm(y, m, e) && e < Exponent(x, MIN_EXPONENT)
    ensures Abs(y) <= HALF_SIGNIFICANDS as real * Ulp(x) <= Abs(x)
  {
    hide Pow2, Exponent, Mul, Times;
    var top := Exponent(x, MIN_EXPONENT);
    Pow2Step(top - 1);
    Pow2Order(e, top - 1);
    TimesSmaller(m, SIGNIFICANDS, Pow2(e), Pow2(top - 1));
    MulSignificands(Pow2(top - 1));
  }

  lemma AboveBinade(x: real, y: real, m: int, e: int) returns (k: int)
    requires IsForm(y, m, e) && e >= Exponent(x, MIN_EXPONENT)
    ensures y == Times(k, Ulp(x))
  {
    hide Pow2, Exponent, IntPow2, Mul, Times;
    var top := Exponent(x, MIN_EXPONENT);
    Pow2IsMultiple(top, e);
    k := m * IntPow2(e - top);
    TimesRegroup(m, IntPow2(e - top), Pow2(top));
  }

  lemma Pow2IsMultiple(a: int, b: int)
    requires a <= b
    ensures Pow2(b) == Times(IntPow2(b - a), Pow2(a))
  {
    hide Pow2, IntPow2, Mul;
    Pow2Add(a, b - a);
    MulSwap(IntPow2(b - a) as real, Pow2(a));
  }

  /** Correct rounding: no representable number is nearer to x. */
  lemma FlIsNearest(x: real, y: real)
    requires Double(y)
    ensures Abs(x - Fl(x)) <= Abs(x - y)
  {
    hide Pow2, Exponent, RoundTo, Times;
    var m: int, e: int :| IsForm(y, m, e);
    if e >= Exponent(x, MIN_EXPONENT) {
      var k := AboveBinade(x, y, m, e);
      RoundToNearest(x, Ulp(x), k);
    } else {
      BelowBinade(x, y, m, e);
      MulSignificands(Ulp(x));
      RoundToNearest(x, Ulp(x), if x >= 0.0 then HALF_SIGNIFICANDS else -HALF_SIGNIFICANDS);
    }
  }

  /** A representable result is not rounded. */
  lemma FlExact(x: real)
    requires Double(x)
    ensures Fl(x) == x
  {
    hide Double, Fl;
    FlIsNearest(x, x);
  }

  /** Rounding never crosses a representable number. */
  lemma FlAtLeast(x: real, y: real)
    requires Double(y) && y <= x
    ensures y <= Fl(x)
  {
    hide Double, Fl;
    FlIsNearest(x, y);
  }

  lemma FlMonotone(x: real, z: real)
    requires x <= z
    ensures Fl(x) <= Fl(z)
  {
    hide Fl, Double;
    FlIsDouble(x);
    FlIsDouble(z);
    FlIsNearest(x, Fl(z));
    FlIsNearest(z, Fl(x));
  }

  /** The exponent of a number is that of any binade that contains it. */
  lemma ExponentIs(x: real, e: int)
    requires e >= MIN_EXPONENT && Abs(x) < SIGNIFICANDS as real * Pow2(e)
    requires e > MIN_EXPONENT ==> Abs(x) >= SIGNIFICANDS as real * Pow2(e - 1)
    ensures Exponent(x, MIN_EXPONENT) == e
  {
    hide Pow2, Exponent;
    var r := Exponent(x, MIN_EXPONENT);
    if r < e {
      Pow2Order(r, e - 1);
    } else if e < r {
      Pow2Order(e, r - 1);
    }
  }

  const MIN_NORMAL_EXPONENT := -1022

  /** The error of one rounding in the normal range is at most 2^-53 of the exact result. */
  lemma FlRelative(x: real)
    requires Abs(x) >= Pow2(MIN_NORMAL_EXPONENT)
    ensures Abs(Fl(x) - x) * SIGNIFICANDS as real <= Abs(x)
  {
    hide Pow2, Exponent, RoundTo, Mul;
    RoundToError(x, Ulp(x));
    var e := Exponent(x, MIN_EXPONENT);
    Pow2Step(e - 1);
    if e == MIN_EXPONENT {
      Pow2Of53();
      Pow2Add(MIN_EXPONENT - 1, 53);
      MulSwap(Pow2(e - 1), SIGNIFICANDS as real);
      MulSignificands(Pow2(e - 1));
    }
  }

  /** The same bound for the sizes that amounts of money have. */
  lemma FlOfAmount(x: real)
    requires x == 0.0 || x >= 0.00390625
    ensures Abs(Fl(x) - x) * SIGNIFICANDS as real <= x
  {
    hide Fl;
    if x == 0.0 {
      IntIsDouble(0);
      FlExact(x);
    } else {
      Pow2Order(MIN_NORMAL_EXPONENT, -8);
      SmallPowers();
      hide Pow2;
      FlRelative(x);
    }
  }

  /** Half-way results go to the neighbour with the even significand: 2^53 + 1 down, 2^53 + 3 up. */
  lemma TiesToEven()
    ensures Fl(9007199254740993.0) == 9007199254740992.0
    ensures Fl(9007199254740995.0) == 9007199254740996.0
  {
    TieSpacing(9007199254740993.0);
    TieSpacing(9007199254740995.0);
    assert RoundEven(9007199254740993.0 / 2.0) == 4503599627370496;
    assert RoundEven(9007199254740995.0 / 2.0) == 4503599627370498;
  }

  lemma TieSpacing(x: real)
    requires 9007199254740992.0 <= x < 18014398509481984.0
    ensures Ulp(x) == 2.0
  {
    hide Exponent;
    assert Pow2(1) == 2.0 && Pow2(0) == 1.0;
    ExponentIs(x, 1);
  }
}
