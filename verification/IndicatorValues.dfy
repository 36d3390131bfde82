/** The indicators in plain sums: which prices they read, with which weights, and what they make of them. */
module IndicatorValues {
  import opened Options
  import opened PlainSums
  import opened Indicators
  import opened MacdIndicator
  import Samuelson

  /** The latest n prices. */
  function Last(s: seq<real>, n: int): (r: seq<real>)
    requires 0 <= n <= |s|
    ensures |r| == n
  {
    s[|s| - n..]
  }

  lemma RecentIsLast(s: seq<real>, n: int)
    requires 1 <= n <= |s|
    ensures Recent(s, n) == Last(s, n)
  {
  }

  lemma {:induction false} SumIsTotal(s: seq<real>)
    ensures Sum(s) == Total(s)
  {
    if |s| > 0 {
      SumIsTotal(s[..|s| - 1]);
      TotalLast(s);
    }
  }

  /** The simple average: the total of the latest prices over their number. */
  lemma SmaIsAverage(s: seq<real>, window: int)
    requires window >= 1
    ensures Sma(s, window) == if |s| < window then None else Some(Total(Last(s, window)) / window as real)
  {
    if |s| >= window {
      RecentIsLast(s, window);
      SumIsTotal(Last(s, window));
    }
    hide Sum;
    hide Total;
  }

  // ---- exponential averages ----

  lemma BlendIs(k: real, price: real, average: real, w: int)
    requires w >= 1 && k == Newest(w)
    ensures Blend(k, price, average) == PlainSums.Times(Fading(w), average) + PlainSums.Times(Newest(w), price)
  {
  }

  lemma {:induction false} EmaFoldIsExponential(s: seq<real>, w: int)
    requires w >= 1 && |s| > 0
    ensures EmaFold(s, Smoothing(w)) == Exponential(s, w)
  {
    hide Blend;
    hide Exponential;
    hide PlainSums.Times;
    var n := |s| - 1;
    if n == 0 {
      assert s == [s[0]];
      ExponentialOfOne(s[0], w);
    } else {
      assert s == s[..n] + [s[n]];
      EmaFoldIsExponential(s[..n], w);
      BlendIs(Smoothing(w), s[n], Exponential(s[..n], w), w);
      ExponentialOneMore(s[..n], s[n], w);
    }
  }

  /** The exponential average is the weighted sum of all prices given, once there are as many as the window. */
  lemma EmaIsExponential(s: seq<real>, w: int)
    requires w >= 1
    ensures Ema(s, w) == if |s| < w then None else Some(Exponential(s, w))
  {
    if |s| >= w { EmaFoldIsExponential(s, w); }
    hide EmaFold;
    hide Exponential;
  }

  /** Its recurrence: a new price counts twice, the average so far w - 1 times, out of w + 1. */
  lemma EmaOneMore(s: seq<real>, p: real, w: int)
    requires w >= 1 && |s| > 0 && |s| + 1 >= w
    ensures Ema(s + [p], w).Some?
    ensures (w + 1) as real * Ema(s + [p], w).value == 2.0 * p + (w - 1) as real * Exponential(s, w)
  {
    EmaIsExponential(s + [p], w);
    ExponentialOneMore(s, p, w);
    hide Ema;
    hide Exponential;
    FadingTimes(w, p, Exponential(s, w));
  }

  lemma FadingTimes(w: int, p: real, e: real)
    requires w >= 1
    ensures (w + 1) as real * (PlainSums.Times(Fading(w), e) + PlainSums.Times(Newest(w), p))
         == 2.0 * p + (w - 1) as real * e
  {
    var n := (w + 1) as real;
    var k := 2.0 / n;
    assert n * k == 2.0;
    Spread(n, k, p, e);
    assert (w - 1) as real == n - 2.0;
  }

  lemma Spread(n: real, k: real, p: real, e: real)
    requires n * k == 2.0
    ensures n * ((1.0 - k) * e + k * p) == 2.0 * p + (n - 2.0) * e
  {
    assert n * ((1.0 - k) * e + k * p) == n * e - (n * k) * e + (n * k) * p;
  }

  // ---- MACD ----

  /** The MACD line of these prices: the fast average less the slow one. */
  function LineOf(s: seq<real>, p: Periods): real {
    Exponential(s, p.fast) - Exponential(s, p.slow)
  }

  /** The lines of all prefixes from this length on. */
  function LinesFrom(s: seq<real>, p: Periods, from: int): (lines: seq<real>)
    requires 0 <= from <= |s|
    ensures |lines| == |s| - from + 1
  {
    seq(|s| - from + 1, i requires 0 <= i < |s| - from + 1 => LineOf(s[..from + i], p))
  }

  lemma LineIs(s: seq<real>, p: Periods)
    requires |s| > 0
    ensures Line(s, p) == LineOf(s, p)
  {
    EmaFoldIsExponential(s, p.fast);
    EmaFoldIsExponential(s, p.slow);
    hide EmaFold;
    hide Exponential;
  }

  lemma {:induction false} HistoryIsLines(s: seq<real>, p: Periods, from: int)
    requires from == Start(p) <= |s|
    ensures LineHistory(s, p) == LinesFrom(s, p, from)
  {
    hide LineOf;
    hide Line;
    var n := |s| - 1;
    LineIs(s, p);
    if n >= from { HistoryIsLines(s[..n], p, from); }
    forall i | 0 <= i < |s| - from + 1 ensures LineHistory(s, p)[i] == LineOf(s[..from + i], p) {
      if i < |s| - from {
        assert LineHistory(s, p)[i] == LineHistory(s[..n], p)[i];
        assert s[..n][..from + i] == s[..from + i];
      } else {
        assert s[..from + i] == s;
      }
    }
  }

  /**
    A MACD reading: the line of all prices; the exponential average of the lines of every prefix of at least
    slow + signal prices, and of at least the fast window; and the difference of the two.
   */
  lemma MacdIs(s: seq<real>, p: Periods)
    ensures var from := if p.slow + p.signal < p.fast then p.fast else p.slow + p.signal;
      if |s| < from + p.signal - 1 then Macd(s, p) == None
      else
        && Macd(s, p).Some?
        && Macd(s, p).value.line == Exponential(s, p.fast) - Exponential(s, p.slow)
        && Macd(s, p).value.signalLine == Exponential(LinesFrom(s, p, from), p.signal)
        && Macd(s, p).value.histogram == Macd(s, p).value.line - Macd(s, p).value.signalLine
  {
    var from := Start(p);
    hide EmaFold;
    hide Exponential;
    hide Line;
    hide LinesFrom;
    if |s| >= from + p.signal - 1 {
      LineIs(s, p);
      HistoryIsLines(s, p, from);
      EmaFoldIsExponential(LinesFrom(s, p, from), p.signal);
    }
    hide LineHistory;
  }

  // ---- relative strength ----

  lemma ChangesOfLast(s: seq<real>, period: int)
    requires 1 <= period < |s|
    ensures Recent(Gains(Deltas(s)), period) == Gains(Deltas(Last(s, period + 1)))
    ensures Recent(Losses(Deltas(s)), period) == Losses(Deltas(Last(s, period + 1)))
  {
    RecentIsLast(Gains(Deltas(s)), period);
    RecentIsLast(Losses(Deltas(s)), period);
  }

  lemma {:induction false} ChangesAddUp(s: seq<real>)
    requires |s| > 0
    ensures Total(Gains(Deltas(s))) == Rises(s) && Total(Losses(Deltas(s))) == Falls(s)
  {
    if |s| > 1 {
      ChangesAddUp(s[1..]);
      assert Gains(Deltas(s))[1..] == Gains(Deltas(s[1..]));
      assert Losses(Deltas(s))[1..] == Losses(Deltas(s[1..]));
    }
  }

  lemma AverageChanges(s: seq<real>, period: int)
    requires 1 <= period < |s|
    ensures AverageGain(s, period) == Rises(Last(s, period + 1)) / period as real
    ensures AverageLoss(s, period) == Falls(Last(s, period + 1)) / period as real
  {
    ChangesOfLast(s, period);
    ChangesAddUp(Last(s, period + 1));
    SumIsTotal(Gains(Deltas(Last(s, period + 1))));
    SumIsTotal(Losses(Deltas(Last(s, period + 1))));
    hide Sum;
    hide Total;
    hide Gains;
    hide Losses;
    hide Deltas;
    hide Recent;
  }

  lemma StrengthIs(gain: real, loss: real, n: real)
    requires n > 0.0 && gain >= 0.0 && loss > 0.0
    ensures gain / n >= 0.0 && loss / n > 0.0
    ensures RsiOf(gain / n, loss / n) * (gain + loss) == 100.0 * gain
  {
    var g, l := gain / n, loss / n;
    assert g * n == gain && l * n == loss;
    assert l > 0.0;
    var rs := g / l;
    assert rs * l == g;
    QuotientNonNegative(g, l);
    var q := 100.0 / (1.0 + rs);
    assert q * (1.0 + rs) == 100.0;
    StrengthAlgebra(q, rs, l, n);
    assert (1.0 + rs) * l == l + g;
  }

  lemma StrengthAlgebra(q: real, rs: real, l: real, n: real)
    requires q * (1.0 + rs) == 100.0
    ensures (100.0 - q) * (rs * l * n + l * n) == 100.0 * (rs * l * n)
  {
    var m := l * n;
    assert rs * l * n == rs * m;
    assert (100.0 - q) * (rs * m + m) == 100.0 * (rs * m) + 100.0 * m - (q * (1.0 + rs)) * m;
  }

  lemma {:induction false} ChangesNonNegative(s: seq<real>)
    ensures Rises(s) >= 0.0 && Falls(s) >= 0.0
  {
    if |s| >= 2 { ChangesNonNegative(s[1..]); }
  }

  lemma RsiIsStrength(s: seq<real>, period: int)
    requires 1 <= period < |s|
    ensures var gain, loss := Rises(Last(s, period + 1)), Falls(Last(s, period + 1));
      && gain / period as real >= 0.0 && loss / period as real >= 0.0 && gain >= 0.0 && loss >= 0.0
      && Rsi(s, period) == Some(RsiOf(gain / period as real, loss / period as real))
  {
    AverageChanges(s, period);
    ChangesNonNegative(Last(s, period + 1));
    hide AverageGain;
    hide AverageLoss;
    hide Rises;
    hide Falls;
    hide RsiOf;
    hide Last;
  }

  /** A hundred times the rises over the rises and falls together, and 100 where there are no falls. */
  predicate IsStrength(v: real, rises: real, falls: real) {
    && (falls == 0.0 ==> v == 100.0)
    && (falls > 0.0 ==> v * (rises + falls) == 100.0 * rises)
  }

  lemma RsiOfIsStrength(gain: real, loss: real, n: real)
    requires n > 0.0 && gain >= 0.0 && loss >= 0.0 && gain / n >= 0.0 && loss / n >= 0.0
    ensures IsStrength(RsiOf(gain / n, loss / n), gain, loss)
  {
    if loss > 0.0 {
      StrengthIs(gain, loss, n);
      hide RsiOf;
    } else {
      assert loss / n == 0.0;
    }
  }

  /** The index is the strength of the latest period + 1 prices. */
  lemma RsiIs(s: seq<real>, period: int)
    requires period >= 1
    ensures if |s| < period + 1 then Rsi(s, period) == None
            else
              && Rsi(s, period).Some?
              && IsStrength(Rsi(s, period).value, Rises(Last(s, period + 1)), Falls(Last(s, period + 1)))
  {
    if |s| >= period + 1 {
      RsiIsStrength(s, period);
      hide Rsi;
      hide Rises;
      hide Falls;
      hide Last;
      hide IsStrength;
      hide RsiOf;
      RsiOfIsStrength(Rises(Last(s, period + 1)), Falls(Last(s, period + 1)), period as real);
    }
  }

  // ---- Bollinger bands ----

  function Square(x: real): real { PlainSums.Times(x, x) }

  lemma {:induction false} DeviationsAreSquares(s: seq<real>, from: real)
    ensures SquaredDeviations(s, from) == Squares(s, from)
  {
    hide PlainSums.Times;
    if |s| > 0 {
      DeviationsAreSquares(s[..|s| - 1], from);
      SquaresLast(s, from);
      SameSquare(s[|s| - 1] - from);
    }
  }

  lemma SameSquare(x: real)
    ensures Indicators.Square(x) == PlainSums.Times(x, x)
  {
  }

  /** The mean of the latest closes, and their squared distances from it. */
  function MeanOf(s: seq<real>, n: int): real
    requires 1 <= n <= |s|
  {
    Total(Last(s, n)) / n as real
  }

  function SpreadOf(s: seq<real>, n: int): real
    requires 1 <= n <= |s|
  {
    Squares(Last(s, n), MeanOf(s, n))
  }

  lemma MeanIs(s: seq<real>, n: int)
    requires 1 <= n <= |s|
    ensures Mean(Recent(s, n)) == MeanOf(s, n)
    ensures Variance(Recent(s, n)) == SpreadOf(s, n) / n as real
  {
    RecentIsLast(s, n);
    SumIsTotal(Last(s, n));
    DeviationsAreSquares(Last(s, n), MeanOf(s, n));
    hide Sum;
    hide Total;
    hide Squares;
    hide SquaredDeviations;
  }

  /** A distance whose square times n is that of num_std times the spread. */
  predicate IsBand(n: real, band: real, numStd: real, spread: real) {
    n * Square(band) == Square(numStd) * spread
  }

  lemma BandAlgebra(n: real, r: real, k: real, spread: real)
    requires n > 0.0 && r >= 0.0 && r * r == spread / n
    ensures IsBand(n, r * k, k, spread)
    ensures r * k >= 0.0 <==> k >= 0.0 || spread == 0.0
  {
    assert PlainSums.Times(r, r) == spread / n;
    assert n * PlainSums.Times(r, r) == spread;
    assert n * ((r * k) * (r * k)) == (n * (r * r)) * (k * k);
    RootSign(n, r, spread);
    SignOf(r, k);
  }

  lemma RootSign(n: real, r: real, spread: real)
    requires n > 0.0 && n * PlainSums.Times(r, r) == spread
    ensures r == 0.0 <==> spread == 0.0
  {
    NonZeroSquare(r);
    var q := PlainSums.Times(r, r);
    hide PlainSums.Times;
    if q > 0.0 { Product(n, q); }
  }

  lemma Product(x: real, y: real)
    requires x > 0.0 && y > 0.0
    ensures x * y > 0.0 && PlainSums.Times(x, y) > 0.0
  {
  }

  lemma Mirrored(x: real, y: real)
    ensures PlainSums.Times(-x, -y) == PlainSums.Times(x, y) && PlainSums.Times(0.0, y) == 0.0
  {
  }

  lemma NonZeroSquare(r: real)
    ensures PlainSums.Times(r, r) >= 0.0 && (PlainSums.Times(r, r) == 0.0 <==> r == 0.0)
  {
    hide PlainSums.Times;
    Mirrored(r, r);
    if r > 0.0 { Product(r, r); }
    if r < 0.0 { Product(-r, -r); }
  }

  lemma SignOf(r: real, k: real)
    requires r >= 0.0
    ensures r * k >= 0.0 <==> k >= 0.0 || r == 0.0
  {
    if r > 0.0 {
      if k > 0.0 { Product(r, k); }
      if k < 0.0 { Product(r, -k); }
      if k == 0.0 { assert r * k == 0.0; }
      assert r * -k == -(r * k);
    } else {
      assert r * k == 0.0;
    }
  }

  /**
    The bands lie symmetrically about the mean of the latest n closes, at a distance whose square times n is the
    square of num_std times the squared distances of those closes from the mean; the upper one is the higher one
    unless num_std is negative and the closes are not all the same.
   */
  lemma BandsAre(s: seq<real>, n: int, numStd: real, root: Root)
    requires 1 <= n && IsRoot(root)
    ensures if |s| < n then Bollinger(s, n, numStd, root) == None
            else
              && Bollinger(s, n, numStd, root).Some?
              && var b, m := Bollinger(s, n, numStd, root).value, MeanOf(s, n);
              && b.middle == m && b.upper + b.lower == 2.0 * m
              && IsBand(n as real, b.upper - m, numStd, SpreadOf(s, n))
              && (b.upper >= m <==> numStd >= 0.0 || Samuelson.Flat(Last(s, n)))
  {
    if |s| >= n {
      MeanIs(s, n);
      RecentIsLast(s, n);
      Samuelson.VarianceZeroIffFlat(Last(s, n));
      var v := SpreadOf(s, n) / n as real;
      assert v * n as real == SpreadOf(s, n);
      hide MeanOf;
      hide SpreadOf;
      hide Samuelson.Flat;
      hide Variance;
      hide Mean;
      hide Last;
      hide IsBand;
      BandAlgebra(n as real, root(v), numStd, SpreadOf(s, n));
    }
  }

  /** A distance d from the mean, outwards, of at least num_std deviations. */
  predicate Out(n: real, d: real, numStd: real, spread: real) {
    d >= 0.0 && n * Square(d) >= Square(numStd) * spread
  }

  /** A distance outwards of any size, or inwards of at most that many. */
  predicate NotFarIn(n: real, d: real, numStd: real, spread: real) {
    d >= 0.0 || n * Square(d) <= Square(numStd) * spread
  }

  /** A distance outwards that reaches the band. */
  predicate Reaches(n: real, d: real, numStd: real, spread: real) {
    if numStd >= 0.0 then Out(n, d, numStd, spread) else NotFarIn(n, d, numStd, spread)
  }

  /** Beyond the band means out by at least num_std deviations, or, for a negative band, not in by more. */
  lemma FarFrom(n: real, d: real, band: real, numStd: real, spread: real)
    requires n > 0.0 && IsBand(n, band, numStd, spread)
    ensures band >= 0.0 ==> (d >= band <==> Out(n, d, numStd, spread))
    ensures band <= 0.0 ==> (d >= band <==> NotFarIn(n, d, numStd, spread))
  {
    SquareOrder(d, band);
    ScaledOrder(n, Square(d), Square(band));
    hide Square;
  }

  lemma ScaledOrder(n: real, x: real, y: real)
    requires n > 0.0
    ensures n * x >= n * y <==> x >= y
  {
    if x < y { assert n * (y - x) > 0.0; }
    assert n * (x - y) == n * x - n * y;
  }

  lemma SquareOrder(d: real, band: real)
    ensures band >= 0.0 ==> (d >= band <==> d >= 0.0 && Square(d) >= Square(band))
    ensures band <= 0.0 ==> (d >= band <==> d >= 0.0 || Square(d) <= Square(band))
  {
    assert Square(d) - Square(band) == (d - band) * (d + band);
    if d + band > 0.0 && d < band { assert (d - band) * (d + band) < 0.0; }
    if d + band > 0.0 && d >= band { assert (d - band) * (d + band) >= 0.0; }
    if d + band < 0.0 && d < band { assert (d - band) * (d + band) > 0.0; }
    if d + band < 0.0 && d >= band { assert (d - band) * (d + band) <= 0.0; }
  }

  /** The zones on prices; a negative num_std turns the bands inside out. */
  lemma ZonesOnPrices(s: seq<real>, n: int, numStd: real, root: Root, close: real)
    requires 1 <= n <= |s| && IsRoot(root)
    ensures Bollinger(s, n, numStd, root).Some?
    ensures var b, m, spread := Bollinger(s, n, numStd, root).value, MeanOf(s, n), SpreadOf(s, n);
      && (close <= b.lower <==> Reaches(n as real, m - close, numStd, spread))
      && (close >= b.upper <==> Reaches(n as real, close - m, numStd, spread))
  {
    BandsAre(s, n, numStd, root);
    FlatHasNoSpread(s, n);
    hide Bollinger;
    hide MeanOf;
    hide SpreadOf;
    hide Samuelson.Flat;
    hide IsBand;
    hide Out;
    hide NotFarIn;
    var m, b := MeanOf(s, n), Bollinger(s, n, numStd, root).value;
    NoBand(n as real, b.upper - m, numStd, SpreadOf(s, n));
    FarFrom(n as real, m - close, b.upper - m, numStd, SpreadOf(s, n));
    FarFrom(n as real, close - m, b.upper - m, numStd, SpreadOf(s, n));
  }

  lemma FlatHasNoSpread(s: seq<real>, n: int)
    requires 1 <= n <= |s|
    ensures Samuelson.Flat(Last(s, n)) <==> SpreadOf(s, n) == 0.0
  {
    MeanIs(s, n);
    RecentIsLast(s, n);
    Samuelson.VarianceZeroIffFlat(Last(s, n));
    assert SpreadOf(s, n) / n as real == 0.0 <==> SpreadOf(s, n) == 0.0;
    hide SpreadOf;
    hide Variance;
    hide Samuelson.Flat;
  }

  lemma NoBand(n: real, band: real, numStd: real, spread: real)
    requires n > 0.0 && IsBand(n, band, numStd, spread)
    ensures spread == 0.0 ==> band == 0.0
  {
    if spread == 0.0 { RootSign(n, band, 0.0); }
  }
}
