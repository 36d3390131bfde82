/**
  Changing the unit of account: every close p becomes a * p + c with a > 0.  What the strategies look at
  does not change.
 */
module Affine {
  import opened Market
  import opened Indicators
  import opened MacdIndicator
  import opened FeatureBuilding
  import opened Strategies
  import opened Samuelson

  function Move(a: real, c: real, x: real): real { Times(a, x) + c }

  function Rescale(s: seq<real>, a: real, c: real): (t: seq<real>)
    ensures |t| == |s|
  {
    seq(|s|, i requires 0 <= i < |s| => Move(a, c, s[i]))
  }

  lemma RescalePrefix(s: seq<real>, a: real, c: real, n: int)
    requires 0 <= n <= |s|
    ensures Rescale(s, a, c)[..n] == Rescale(s[..n], a, c)
  {
  }

  lemma RescaleLastN(s: seq<real>, a: real, c: real, limit: int)
    ensures LastN(Rescale(s, a, c), limit) == Rescale(LastN(s, limit), a, c)
  {
  }

  lemma RescaleAppend(s: seq<real>, x: real, a: real, c: real)
    ensures Rescale(s + [x], a, c) == Rescale(s, a, c) + [Move(a, c, x)]
  {
  }

  lemma TimesAdd(a: real, x: real, y: real)
    ensures Times(a, x + y) == Times(a, x) + Times(a, y)
    ensures Times(a, x - y) == Times(a, x) - Times(a, y)
    ensures Times(a, 0.0) == 0.0 && Times(a, -x) == -Times(a, x)
  {
  }

  lemma TimesOrder(a: real, x: real, y: real)
    requires a > 0.0
    ensures x < y <==> Times(a, x) < Times(a, y)
  {
    TimesAdd(a, y, x);
    PositiveFactor(a, y - x);
    hide Times;
  }

  lemma PositiveFactor(a: real, x: real)
    requires a > 0.0
    ensures x > 0.0 <==> Times(a, x) > 0.0
  {
    if x > 0.0 { assert a * x > 0.0; } else { assert a * x <= 0.0; }
  }

  lemma MoveOrder(a: real, c: real, x: real, y: real)
    requires a > 0.0
    ensures x < y <==> Move(a, c, x) < Move(a, c, y)
  {
    TimesOrder(a, x, y);
    hide Times;
  }

  // ---- averages ----

  lemma {:induction false} SumRescaled(s: seq<real>, a: real, c: real)
    ensures Sum(Rescale(s, a, c)) == Times(a, Sum(s)) + Times(c, |s| as real)
  {
    if |s| == 0 {
    } else {
      var n := |s| - 1;
      SumRescaled(s[..n], a, c);
      RescalePrefix(s, a, c, n);
      TimesAdd(a, Sum(s[..n]), s[n]);
      TimesAdd(c, n as real, 1.0);
      assert Times(c, 1.0) == c;
      hide Times;
      assert |s| as real == n as real + 1.0;
    }
  }

  lemma DivideSum(a: real, c: real, x: real, n: real)
    requires n > 0.0
    ensures (Times(a, x) + Times(c, n)) / n == Times(a, x / n) + c
  {
    assert x / n * n == x;
    assert (a * (x / n) + c) * n == a * x + c * n;
  }

  lemma MeanRescaled(s: seq<real>, a: real, c: real)
    requires |s| > 0
    ensures Mean(Rescale(s, a, c)) == Move(a, c, Mean(s))
  {
    SumRescaled(s, a, c);
    DivideSum(a, c, Sum(s), |s| as real);
    hide Times;
  }

  lemma BlendRescaled(k: real, a: real, c: real, price: real, average: real)
    ensures Blend(k, Move(a, c, price), Move(a, c, average)) == Move(a, c, Blend(k, price, average))
  {
    assert a * (price * k + average * (1.0 - k)) == a * price * k + a * average * (1.0 - k);
    assert (a * price + c) * k + (a * average + c) * (1.0 - k) == a * price * k + a * average * (1.0 - k) + c;
  }

  lemma {:induction false} EmaRescaled(s: seq<real>, k: real, a: real, c: real)
    requires |s| > 0
    ensures EmaFold(Rescale(s, a, c), k) == Move(a, c, EmaFold(s, k))
  {
    hide Blend;
    hide Move;
    var n := |s| - 1;
    if n > 0 {
      EmaRescaled(s[..n], k, a, c);
      RescalePrefix(s, a, c, n);
      BlendRescaled(k, a, c, s[n], EmaFold(s[..n], k));
    }
  }

  lemma SmaRescaled(s: seq<real>, window: int, a: real, c: real)
    requires window >= 1
    ensures Sma(s, window).Some? <==> Sma(Rescale(s, a, c), window).Some?
    ensures Sma(s, window).Some? ==> Sma(Rescale(s, a, c), window).value == Move(a, c, Sma(s, window).value)
  {
    hide Move;
    hide Mean;
    if |s| >= window {
      RescaleLastN(s, a, c, window);
      MeanRescaled(Recent(s, window), a, c);
    }
  }

  // ---- relative strength ----

  lemma DeltasRescaled(s: seq<real>, a: real, c: real)
    requires |s| > 0
    ensures Deltas(Rescale(s, a, c)) == Rescale(Deltas(s), a, 0.0)
  {
    hide Times;
    var d, t := Deltas(s), Deltas(Rescale(s, a, c));
    forall i | 0 <= i < |d| ensures t[i] == Rescale(d, a, 0.0)[i] {
      TimesAdd(a, s[i + 1], s[i]);
    }
  }

  lemma GainsRescaled(d: seq<real>, a: real)
    requires a > 0.0
    ensures Gains(Rescale(d, a, 0.0)) == Rescale(Gains(d), a, 0.0)
    ensures Losses(Rescale(d, a, 0.0)) == Rescale(Losses(d), a, 0.0)
  {
    hide Times;
    var e := Rescale(d, a, 0.0);
    forall i | 0 <= i < |d|
      ensures Gains(e)[i] == Rescale(Gains(d), a, 0.0)[i] && Losses(e)[i] == Rescale(Losses(d), a, 0.0)[i]
    {
      TimesAdd(a, d[i], 0.0);
      TimesOrder(a, 0.0, d[i]);
      TimesOrder(a, d[i], 0.0);
    }
  }

  lemma AveragesRescaled(s: seq<real>, period: int, a: real, c: real)
    requires 1 <= period < |s| && a > 0.0
    ensures AverageGain(Rescale(s, a, c), period) == Times(a, AverageGain(s, period))
    ensures AverageLoss(Rescale(s, a, c), period) == Times(a, AverageLoss(s, period))
  {
    hide Times;
    hide Mean;
    DeltasRescaled(s, a, c);
    GainsRescaled(Deltas(s), a);
    var g, l := Gains(Deltas(s)), Losses(Deltas(s));
    RescaleLastN(g, a, 0.0, period);
    RescaleLastN(l, a, 0.0, period);
    MeanRescaled(Recent(g, period), a, 0.0);
    MeanRescaled(Recent(l, period), a, 0.0);
  }

  lemma QuotientRescaled(a: real, x: real, y: real)
    requires a > 0.0 && y != 0.0
    ensures Times(a, y) != 0.0 && Times(a, x) / Times(a, y) == x / y
  {
    var q := x / y;
    assert q * y == x;
    assert a * y != 0.0;
    assert q * (a * y) == a * x;
  }

  lemma RsiRescaled(s: seq<real>, period: int, a: real, c: real)
    requires period >= 1 && a > 0.0
    ensures Rsi(Rescale(s, a, c), period) == Rsi(s, period)
  {
    hide Times;
    hide AverageGain;
    hide AverageLoss;
    if |s| >= period + 1 {
      AveragesRescaled(s, period, a, c);
      var g, l := AverageGain(s, period), AverageLoss(s, period);
      TimesAdd(a, 0.0, 0.0);
      if l != 0.0 { QuotientRescaled(a, g, l); }
    }
  }

  // ---- Bollinger bands ----

  lemma SquareRescaled(a: real, c: real, x: real, y: real)
    ensures Square(Move(a, c, x) - Move(a, c, y)) == Times(Square(a), Square(x - y))
  {
    assert a * x + c - (a * y + c) == a * (x - y);
    assert (a * (x - y)) * (a * (x - y)) == (a * a) * ((x - y) * (x - y));
  }

  lemma {:induction false} DeviationsRescaled(s: seq<real>, from: real, a: real, c: real)
    ensures SquaredDeviations(Rescale(s, a, c), Move(a, c, from)) == Times(Square(a), SquaredDeviations(s, from))
  {
    hide Move;
    hide Square;
    if |s| == 0 {
      TimesAdd(Square(a), 0.0, 0.0);
    } else {
      var n := |s| - 1;
      DeviationsRescaled(s[..n], from, a, c);
      RescalePrefix(s, a, c, n);
      SquareRescaled(a, c, s[n], from);
      TimesAdd(Square(a), SquaredDeviations(s[..n], from), Square(s[n] - from));
      hide Times;
    }
  }

  lemma VarianceRescaled(s: seq<real>, a: real, c: real)
    requires |s| > 0
    ensures Variance(Rescale(s, a, c)) == Times(Square(a), Variance(s))
  {
    hide Move;
    hide Square;
    hide Mean;
    MeanRescaled(s, a, c);
    DeviationsRescaled(s, Mean(s), a, c);
    DivideSum(Square(a), 0.0, SquaredDeviations(s, Mean(s)), |s| as real);
    assert Times(0.0, |s| as real) == 0.0;
  }

  lemma TimesZero(x: real, y: real)
    requires Times(x, y) == 0.0
    ensures x == 0.0 || y == 0.0
  {
  }

  lemma RootUnique(x: real, y: real)
    requires x >= 0.0 && y >= 0.0 && x * x == y * y
    ensures x == y
  {
    assert (x - y) * (x + y) == x * x - y * y;
    TimesZero(x - y, x + y);
  }

  lemma RootRescaled(root: Root, a: real, v: real)
    requires IsRoot(root) && a > 0.0 && v >= 0.0
    ensures Times(Square(a), v) >= 0.0 && root(Times(Square(a), v)) == Times(a, root(v))
  {
    var s := root(v);
    assert a * a > 0.0;
    assert a * a * v >= 0.0;
    assert (a * s) * (a * s) == a * a * (s * s);
    RootUnique(root(Times(Square(a), v)), a * s);
  }

  lemma BandsRescaled(w: seq<real>, numStd: real, root: Root, a: real, c: real)
    requires |w| > 0 && IsRoot(root) && a > 0.0
    ensures var b, t := BandsOf(w, numStd, root), BandsOf(Rescale(w, a, c), numStd, root);
      t.upper == Move(a, c, b.upper) && t.lower == Move(a, c, b.lower)
  {
    VarianceZeroIffFlat(w);
    VarianceRescaled(w, a, c);
    MeanRescaled(w, a, c);
    RootRescaled(root, a, Variance(w));
    var s := root(Variance(w));
    assert a * s * numStd == a * (s * numStd);
    hide Variance;
    hide Mean;
    hide Square;
    TimesAdd(a, Mean(w), s * numStd);
  }

  // ---- what a strategy sees ----

  lemma LinesRescaled(s: seq<real>, p: Periods, a: real, c: real)
    requires |s| > 0
    ensures Line(Rescale(s, a, c), p) == Times(a, Line(s, p))
  {
    EmaRescaled(s, Smoothing(p.fast), a, c);
    EmaRescaled(s, Smoothing(p.slow), a, c);
    TimesAdd(a, EmaFold(s, Smoothing(p.fast)), EmaFold(s, Smoothing(p.slow)));
    hide Times;
    hide EmaFold;
  }

  lemma {:induction false} LineHistoryRescaled(s: seq<real>, p: Periods, a: real, c: real)
    ensures LineHistory(Rescale(s, a, c), p) == Rescale(LineHistory(s, p), a, 0.0)
    decreases |s|
  {
    hide Line;
    hide Times;
    if |s| >= Start(p) {
      var n := |s| - 1;
      LineHistoryRescaled(s[..n], p, a, c);
      RescalePrefix(s, a, c, n);
      LinesRescaled(s, p, a, c);
      RescaleAppend(LineHistory(s[..n], p), Line(s, p), a, 0.0);
    }
  }

  lemma MacdRescaled(s: seq<real>, p: Periods, a: real, c: real)
    requires a > 0.0
    ensures Macd(s, p).Some? <==> Macd(Rescale(s, a, c), p).Some?
    ensures var m, t := Macd(s, p), Macd(Rescale(s, a, c), p);
      m.Some? ==> (m.value.line > m.value.signalLine <==> t.value.line > t.value.signalLine)
  {
    hide Line;
    hide EmaFold;
    hide Times;
    LineHistoryRescaled(s, p, a, c);
    var h := LineHistory(s, p);
    if |h| >= p.signal {
      LinesRescaled(s, p, a, c);
      EmaRescaled(h, Smoothing(p.signal), a, 0.0);
      TimesOrder(a, EmaFold(h, Smoothing(p.signal)), Line(s, p));
    }
  }

  lemma BollingerRescaled(s: seq<real>, window: int, numStd: real, root: Root, a: real, c: real)
    requires window >= 1 && IsRoot(root) && a > 0.0 && |s| > 0
    ensures var b, t := Bollinger(s, window, numStd, root), Bollinger(Rescale(s, a, c), window, numStd, root);
      && (b.Some? <==> t.Some?)
      && (b.Some? ==>
        var p, q := s[|s| - 1], Rescale(s, a, c)[|s| - 1];
        && (p <= b.value.lower <==> q <= t.value.lower)
        && (p >= b.value.upper <==> q >= t.value.upper)
        && (b.value.upper - b.value.lower == 0.0 <==> t.value.upper - t.value.lower == 0.0))
  {
    hide BandsOf;
    hide Move;
    if |s| >= window {
      RescaleLastN(s, a, c, window);
      var w := Recent(s, window);
      BandsRescaled(w, numStd, root, a, c);
      var b := BandsOf(w, numStd, root);
      MoveOrder(a, c, b.lower, s[|s| - 1]);
      MoveOrder(a, c, s[|s| - 1], b.upper);
      MoveOrder(a, c, b.lower, b.upper);
      MoveOrder(a, c, b.upper, b.lower);
    }
  }

  /** The view of every strategy, zone and filters alike, is the same in the new unit. */
  lemma ViewRescaled(r: Rules, root: Root, symbol: string, closes: seq<real>, a: real, c: real)
    requires IsRoot(root) && a > 0.0
    ensures var f, g := FeaturesOf(BuilderFor(r), symbol, closes),
        FeaturesOf(BuilderFor(r), symbol, Rescale(closes, a, c));
      && (f.Some? <==> g.Some?)
      && (f.Some? ==> Look(r, root, f.value) == Look(r, root, g.value))
  {
    hide Sma;
    hide Ema;
    hide Rsi;
    hide Macd;
    hide Bollinger;
    hide Move;
    var b := BuilderFor(r);
    if |closes| >= Required(b) {
      SmaRescaled(closes, b.shortWindow, a, c);
      SmaRescaled(closes, b.longWindow, a, c);
      RsiRescaled(closes, b.rsiPeriod, a, c);
      match r
      case MaRules(_, _, _) =>
        var s, l := Sma(closes, b.shortWindow), Sma(closes, b.longWindow);
        if s.Some? && l.Some? {
          MoveOrder(a, c, s.value, l.value);
          MoveOrder(a, c, l.value, s.value);
        }
      case RsiRules(_, _, _) =>
      case BollingerRules(window, numStd) => BollingerRescaled(closes, window, numStd, root, a, c);
      case MacdRules(p) => MacdRescaled(closes, p, a, c);
    }
  }
}
