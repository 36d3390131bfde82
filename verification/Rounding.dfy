/**
  Decimal quantisation.  Amounts are exact reals; every explicit `quantize` call of the
  program becomes `Quantize` on one of its two grids, 0.01 for fees and 0.00000001 for
  quantities.  The mode is round-half-even, roundTiesToEven of section 4.3.1 of IEEE 754-2008.
 */
module Rounding {

  datatype Grid = Cent | Satoshi

  /** Grid points per unit. */
  function Scale(g: Grid): real {
    match g
    case Cent => 100.0
    case Satoshi => 100_000_000.0
  }

  function HalfUnit(g: Grid): real {
    match g
    case Cent => 0.005
    case Satoshi => 0.000_000_005
  }

  /** The nearest integer; an exact half goes to the even neighbour. */
  function RoundHalfEven(x: real): (n: int)
    ensures n as real - 0.5 <= x <= n as real + 0.5
    ensures x == n as real - 0.5 || x == n as real + 0.5 ==> n % 2 == 0
  {
    var below := x.Floor;
    var rest := x - below as real;
    if rest < 0.5 || (rest == 0.5 && below % 2 == 0) then below else below + 1
  }

  /** The n-th point of the grid. */
  function Point(n: int, g: Grid): real {
    match g
    case Cent => n as real / 100.0
    case Satoshi => n as real / 100_000_000.0
  }

  function Quantize(x: real, g: Grid): real {
    Point(RoundHalfEven(x * Scale(g)), g)
  }

  ghost predicate OnGrid(x: real, g: Grid) {
    exists n :: x == Point(n, g)
  }

  /** The two clauses of RoundHalfEven's contract leave no other integer. */
  lemma RoundUnique(x: real, m: int)
    requires m as real - 0.5 <= x <= m as real + 0.5
    requires x == m as real - 0.5 || x == m as real + 0.5 ==> m % 2 == 0
    ensures m == RoundHalfEven(x)
  {
    var n := RoundHalfEven(x);
    assert n as real - 1.0 <= m as real <= n as real + 1.0;
    assert n - 1 <= m <= n + 1;
  }

  lemma RoundMonotone(x: real, y: real)
    requires x <= y
    ensures RoundHalfEven(x) <= RoundHalfEven(y)
  {
    var m, n := RoundHalfEven(x), RoundHalfEven(y);
    assert m as real - 1.0 <= n as real;
    assert m - 1 <= n;
  }

  lemma RoundOdd(x: real)
    ensures RoundHalfEven(-x) == -RoundHalfEven(x)
  {
    RoundUnique(-x, -RoundHalfEven(x));
  }

  lemma QuantizeNear(x: real, g: Grid)
    ensures -HalfUnit(g) <= Quantize(x, g) - x <= HalfUnit(g)
    ensures OnGrid(Quantize(x, g), g)
  {
    match g
    case Cent =>
    case Satoshi =>
  }

  lemma PointMonotone(m: int, n: int, g: Grid)
    requires m <= n
    ensures Point(m, g) <= Point(n, g)
  {
  }

  lemma QuantizeMonotone(x: real, y: real, g: Grid)
    requires x <= y
    ensures Quantize(x, g) <= Quantize(y, g)
  {
    match g
    case Cent =>
      RoundMonotone(x * 100.0, y * 100.0);
      PointMonotone(RoundHalfEven(x * 100.0), RoundHalfEven(y * 100.0), g);
    case Satoshi =>
      RoundMonotone(x * 100_000_000.0, y * 100_000_000.0);
      PointMonotone(RoundHalfEven(x * 100_000_000.0), RoundHalfEven(y * 100_000_000.0), g);
  }

  lemma QuantizeOnGrid(x: real, g: Grid)
    requires OnGrid(x, g)
    ensures Quantize(x, g) == x
  {
    var n :| x == Point(n, g);
    RoundUnique(x * Scale(g), n);
  }

  function Distance(x: real, y: real): real { if x <= y then y - x else x - y }

  /** No grid point is nearer than the one chosen. */
  lemma QuantizeNearest(x: real, y: real, g: Grid)
    requires OnGrid(y, g)
    ensures Distance(Quantize(x, g), x) <= Distance(y, x)
  {
    var m :| y == Point(m, g);
    if m != RoundHalfEven(x * Scale(g)) {
      QuantizeNear(x, g);
      OthersAreFar(x, m, g);
    }
  }

  lemma OthersAreFar(x: real, m: int, g: Grid)
    requires m != RoundHalfEven(x * Scale(g))
    ensures Distance(Point(m, g), x) >= HalfUnit(g)
  {
    var n := RoundHalfEven(x * Scale(g));
    assert m <= n - 1 || n + 1 <= m;
    assert m as real <= n as real - 1.0 || n as real + 1.0 <= m as real;
    match g
    case Cent => assert n as real - 0.5 <= x * 100.0 <= n as real + 0.5;
    case Satoshi => assert n as real - 0.5 <= x * 100_000_000.0 <= n as real + 0.5;
  }

  lemma PointOdd(n: int, g: Grid)
    ensures Point(-n, g) == -Point(n, g)
  {
  }

  /** Rounding the sign-and-magnitude form, as `decimal` does, gives the same result. */
  lemma QuantizeOdd(x: real, g: Grid)
    ensures Quantize(-x, g) == -Quantize(x, g)
  {
    var scaled := x * Scale(g);
    assert (-x) * Scale(g) == -scaled;
    RoundOdd(scaled);
    PointOdd(RoundHalfEven(scaled), g);
    hide RoundHalfEven;
  }

  /** The error is small against the value: a rounded fee never exceeds twice the exact one. */
  lemma QuantizeAtMostDouble(x: real, g: Grid)
    requires x >= 0.0
    ensures 0.0 <= Quantize(x, g) <= 2.0 * x
  {
    QuantizeMonotone(0.0, x, g);
    QuantizeNear(x, g);
    RoundUnique(0.0, 0);
    if x <= HalfUnit(g) { RoundUnique(x * Scale(g), 0); }
  }

  // ---- the rounding rule on its own ----

  /**
    A multiple of 1 / perUnit, at most half of that away from the exact value, and an even multiple at exactly
    half.
   */
  ghost predicate IsRounded(value: real, exact: real, perUnit: real)
    requires perUnit > 0.0
  {
    exists n: int :: RoundsTo(n, value, exact, perUnit)
  }

  predicate RoundsTo(n: int, value: real, exact: real, perUnit: real)
    requires perUnit > 0.0
  {
    && value == n as real / perUnit
    && n as real - 0.5 <= exact * perUnit <= n as real + 0.5
    && (exact * perUnit == n as real - 0.5 || exact * perUnit == n as real + 0.5 ==> n % 2 == 0)
  }

  /** Quantising is this rule, for fees in hundredths and for quantities in hundred-millionths. */
  lemma QuantizeIsRounded(x: real)
    ensures IsRounded(Quantize(x, Cent), x, 100.0)
    ensures IsRounded(Quantize(x, Satoshi), x, 100_000_000.0)
  {
    assert RoundsTo(RoundHalfEven(x * 100.0), Quantize(x, Cent), x, 100.0);
    assert RoundsTo(RoundHalfEven(x * 100_000_000.0), Quantize(x, Satoshi), x, 100_000_000.0);
  }

  /** The rule leaves one value only. */
  lemma RoundedOnce(v: real, w: real, exact: real, perUnit: real)
    requires perUnit > 0.0 && IsRounded(v, exact, perUnit) && IsRounded(w, exact, perUnit)
    ensures v == w
  {
    var m: int :| RoundsTo(m, v, exact, perUnit);
    var n: int :| RoundsTo(n, w, exact, perUnit);
    RoundUnique(exact * perUnit, m);
    RoundUnique(exact * perUnit, n);
  }

  /** Within half a quantity unit at the price of this amount of money. */
  predicate IsWorth(q: real, price: real, amount: real) {
    -0.000_000_005 * price <= q * price - amount <= 0.000_000_005 * price
  }

  /** A quantity bought for an amount at a positive price is worth it. */
  lemma QuantityWorth(q: real, price: real, amount: real)
    requires price > 0.0 && IsRounded(q, amount / price, 100_000_000.0)
    ensures IsWorth(q, price, amount)
  {
    var exact := amount / price;
    var n: int :| RoundsTo(n, q, exact, 100_000_000.0);
    assert -0.000_000_005 <= q - exact <= 0.000_000_005;
    NearWorth(q, exact, price, amount);
  }

  lemma NearWorth(q: real, exact: real, price: real, amount: real)
    requires price > 0.0 && exact * price == amount && -0.000_000_005 <= q - exact <= 0.000_000_005
    ensures IsWorth(q, price, amount)
  {
    ScaledUp(exact - 0.000_000_005, q, price);
    ScaledUp(q, exact + 0.000_000_005, price);
    assert (exact - 0.000_000_005) * price == exact * price - 0.000_000_005 * price;
    assert (exact + 0.000_000_005) * price == exact * price + 0.000_000_005 * price;
  }

  lemma ScaledUp(x: real, y: real, price: real)
    requires x <= y && price > 0.0
    ensures x * price <= y * price
  {
  }
}
