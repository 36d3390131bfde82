/**
  Samuelson's inequality for the Bollinger window: no price of a window of n is more than
  sqrt(n - 1) standard deviations from the mean.
 */
module Samuelson {
  import opened Indicators

  lemma PositiveTimes(x: real, y: real)
    requires x > 0.0 && y > 0.0
    ensures Times(x, y) > 0.0
  {
  }

  lemma SquareNegated(x: real)
    ensures Square(-x) == Square(x)
    ensures Square(0.0) == 0.0
  {
  }

  lemma SquarePositive(x: real)
    ensures Square(x) >= 0.0
    ensures Square(x) == 0.0 <==> x == 0.0
    ensures Square(-x) == Square(x)
  {
    hide Times;
    SquareNegated(x);
    if x > 0.0 {
      PositiveTimes(x, x);
    } else if x < 0.0 {
      PositiveTimes(-x, -x);
    }
  }

  lemma {:induction false} DeviationsNonNegative(s: seq<real>, from: real)
    ensures SquaredDeviations(s, from) >= 0.0
  {
    hide Square;
    if |s| > 0 {
      SquarePositive(s[|s| - 1] - from);
      DeviationsNonNegative(s[..|s| - 1], from);
    }
  }

  /** (a + x)^2 <= (k + 1)(b + x^2) follows from a^2 <= k b. */
  lemma CauchySchwarzStep(k: real, a: real, b: real, x: real)
    requires (k == 0.0 || k >= 1.0) && b >= 0.0 && Square(a) <= Times(k, b)
    ensures Square(a + x) <= Times(k + 1.0, b + Square(x))
  {
    if k == 0.0 {
      assert k * b == 0.0;
      SquarePositive(a);
      assert a == 0.0;
    } else {
      SquarePositive(a - k * x);
      assert Square(a - k * x) == Square(a) - 2.0 * k * (a * x) + k * k * Square(x);
      assert k * (b + k * Square(x) - 2.0 * (a * x)) >= 0.0;
      assert b + k * Square(x) - 2.0 * (a * x) >= 0.0;
    }
  }

  function TotalDeviation(s: seq<real>, from: real): real {
    Sum(s) - |s| as real * from
  }

  lemma TotalDeviationStep(s: seq<real>, from: real)
    requires |s| > 0
    ensures TotalDeviation(s, from) == TotalDeviation(s[..|s| - 1], from) + (s[|s| - 1] - from)
  {
    assert |s| as real == (|s| - 1) as real + 1.0;
  }

  lemma EmptyDeviation(from: real)
    ensures TotalDeviation([], from) == 0.0 && Square(0.0) == 0.0 && Times(0.0, 0.0) == 0.0
  {
  }

  /** Cauchy-Schwarz: the squared total deviation is at most the count times the squared deviations. */
  lemma {:induction false} CauchySchwarz(s: seq<real>, from: real)
    ensures Square(TotalDeviation(s, from)) <= Times(|s| as real, SquaredDeviations(s, from))
  {
    hide Square;
    hide Times;
    if |s| > 0 {
      var n := |s| - 1;
      CauchySchwarz(s[..n], from);
      DeviationsNonNegative(s[..n], from);
      TotalDeviationStep(s, from);
      hide TotalDeviation;
      CauchySchwarzStep(n as real, TotalDeviation(s[..n], from), SquaredDeviations(s[..n], from), s[n] - from);
      assert n as real + 1.0 == |s| as real;
    } else {
      EmptyDeviation(from);
    }
  }

  lemma CancelFactor(n: real, x: real, y: real)
    requires n >= 1.0 && n * x <= n * y
    ensures x <= y
  {
    var d := n * (y - x);
    assert d / n == y - x;
  }

  lemma SamuelsonArithmetic(n: real, d: real, total: real, variance: real)
    requires n >= 1.0 && Square(d) <= Times(n - 1.0, total - Square(d)) && total == Times(n, variance)
    ensures Square(d) <= Times(n - 1.0, variance)
  {
    var q, bound := Square(d), (n - 1.0) * variance;
    assert (n - 1.0) * (n * variance - q) == n * bound - (n - 1.0) * q;
    assert q + (n - 1.0) * q == n * q;
    hide Square;
    CancelFactor(n, q, bound);
  }

  lemma MeanCentres(w: seq<real>)
    requires |w| > 0
    ensures TotalDeviation(w, Mean(w)) == 0.0
  {
  }

  lemma VarianceTimesCount(w: seq<real>)
    requires |w| > 0
    ensures SquaredDeviations(w, Mean(w)) == Times(|w| as real, Variance(w))
  {
  }

  /** The latest price of a window is within sqrt(n - 1) standard deviations of the mean. */
  lemma LatestWithin(w: seq<real>)
    requires |w| > 0
    ensures Square(w[|w| - 1] - Mean(w)) <= Times(|w| as real - 1.0, Variance(w))
  {
    hide Times;
    hide Variance;
    var n, m := |w| - 1, Mean(w);
    var d := w[n] - m;
    MeanCentres(w);
    TotalDeviationStep(w, m);
    hide TotalDeviation;
    hide Mean;
    CauchySchwarz(w[..n], m);
    SquarePositive(d);
    hide Square;
    VarianceTimesCount(w);
    SamuelsonArithmetic(|w| as real, d, SquaredDeviations(w, m), Variance(w));
  }

  ghost predicate Flat(w: seq<real>) {
    forall i :: 0 <= i < |w| ==> w[i] == w[0]
  }

  lemma {:induction false} FlatSum(w: seq<real>, price: real)
    requires forall i :: 0 <= i < |w| ==> w[i] == price
    ensures Sum(w) == |w| as real * price && SquaredDeviations(w, price) == 0.0
  {
    if |w| > 0 { FlatSum(w[..|w| - 1], price); }
  }

  lemma {:induction false} NoDeviation(s: seq<real>, from: real)
    requires SquaredDeviations(s, from) == 0.0
    ensures forall i :: 0 <= i < |s| ==> s[i] == from
  {
    if |s| > 0 {
      hide Square;
      var n := |s| - 1;
      DeviationsNonNegative(s[..n], from);
      SquarePositive(s[n] - from);
      NoDeviation(s[..n], from);
      forall i | 0 <= i < |s| ensures s[i] == from {
        if i < n { assert s[..n][i] == s[i]; }
      }
    }
  }

  lemma VarianceZeroIffFlat(w: seq<real>)
    requires |w| > 0
    ensures Variance(w) >= 0.0
    ensures Variance(w) == 0.0 <==> Flat(w)
    ensures Flat(w) ==> Mean(w) == w[0]
  {
    var total := SquaredDeviations(w, Mean(w));
    DeviationsNonNegative(w, Mean(w));
    assert Variance(w) * |w| as real == total;
    if Flat(w) {
      FlatSum(w, w[0]);
      assert Mean(w) == w[0];
    }
    if Variance(w) == 0.0 {
      assert total == 0.0;
      NoDeviation(w, Mean(w));
    }
  }

  lemma SmallerSquare(d: real, b: real)
    requires Square(d) < Square(b) && b >= 0.0
    ensures -b < d < b
  {
  }

  lemma WiderSquare(d: real, bound: real, variance: real, numStd: real, s: real)
    requires Square(d) <= Times(bound, variance) && variance > 0.0 && bound < Square(numStd) && Square(s) == variance
    ensures Square(d) < Square(s * numStd)
  {
    assert bound * variance < Square(numStd) * variance;
    assert Square(s * numStd) == Square(numStd) * Square(s);
  }

  /** Wide bands hold every window: strictly when prices moved, on both edges when they did not. */
  lemma WideBands(w: seq<real>, numStd: real, root: Root)
    requires |w| > 0 && IsRoot(root) && numStd > 0.0 && Square(numStd) > |w| as real - 1.0
    ensures var b := BandsOf(w, numStd, root);
      if Flat(w) then b.lower == w[|w| - 1] == b.upper else b.lower < w[|w| - 1] < b.upper
  {
    VarianceZeroIffFlat(w);
    LatestWithin(w);
    var v := Variance(w);
    var s := root(v);
    assert s >= 0.0 && Square(s) == v;
    var d := w[|w| - 1] - Mean(w);
    if Flat(w) {
      SquarePositive(s);
    } else {
      SquarePositive(s);
      WiderSquare(d, |w| as real - 1.0, v, numStd, s);
      SmallerSquare(d, s * numStd);
    }
  }
}
