/**
  The signals of fresh strategies in terms of closes alone: the chain from prices over indicators, look-back and
  automaton, with every constant written out.
 */
module PriceSignals {
  import opened Options
  import opened Signals
  import opened Market
  import opened PlainSums
  import opened Indicators
  import opened MacdIndicator
  import opened IndicatorValues
  import opened FeatureBuilding
  import opened Strategies
  import opened Backtest
  import opened SignalWindows

  // ---- the look-back ----

  function Min(x: int, y: int): int { if x < y then x else y }

  /** How many closes a strategy looks back over in a backtest, and how few it needs to look at all. */
  lemma LookBackIs(r: Rules, symbol: string, candles: seq<Candle>)
    ensures var all := Closes(History(candles, symbol));
      var n := |all|;
      match r
      case MaRules(_, l, p) => Visible(r, symbol, candles) == Last(all, Min(n, (if l < p + 1 then p + 1 else l) + 15))
      case RsiRules(p, _, _) => Visible(r, symbol, candles) == Last(all, Min(n, p + 15))
      case BollingerRules(w, _) => Visible(r, symbol, candles) == Last(all, Min(n, w + 15))
      case MacdRules(p) => Visible(r, symbol, candles) == Last(all, Min(n, p.slow + p.signal + 15))
  {
    hide History;
  }

  /** Where a builder is given no look-back it takes ten candles more than it needs. */
  lemma DefaultLookBackIs(b: Builder)
    ensures var needed := if b.longWindow < b.rsiPeriod + 1 then b.rsiPeriod + 1 else b.longWindow;
      b.snapshotLimit <= 0 ==> Limit(b) == needed + 10
    ensures b.snapshotLimit > 0 ==> Limit(b) == b.snapshotLimit
  {
  }

  /** Enough closes for features, with the windows a strategy does not name at their defaults. */
  predicate Enough(closes: seq<real>, longWindow: int, rsiPeriod: int) {
    |closes| >= longWindow && |closes| >= rsiPeriod + 1
  }

  lemma FeaturesWhen(b: Builder, symbol: string, closes: seq<real>)
    ensures FeaturesOf(b, symbol, closes).Some? <==> Enough(closes, b.longWindow, b.rsiPeriod)
    ensures FeaturesOf(b, symbol, closes).Some? ==>
      var f := FeaturesOf(b, symbol, closes).value;
      && f.closes == closes && f.current == closes[|closes| - 1]
      && f.smaShort == Sma(closes, b.shortWindow) && f.smaLong == Sma(closes, b.longWindow)
      && f.emaShort == Ema(closes, b.shortWindow) && f.emaLong == Ema(closes, b.longWindow)
      && f.rsi == Rsi(closes, b.rsiPeriod)
  {
    hide Sma;
    hide Ema;
    hide Rsi;
  }

  // ---- relative strength on prices ----

  /** Rises and falls whose strength is above, or below, a level. */
  predicate Stronger(rises: real, falls: real, level: real) {
    if falls == 0.0 then 100.0 > level else 100.0 * rises > level * (rises + falls)
  }

  predicate Weaker(rises: real, falls: real, level: real) {
    if falls == 0.0 then 100.0 < level else 100.0 * rises < level * (rises + falls)
  }

  /** The same of the latest changes. */
  predicate StrongerThan(closes: seq<real>, period: int, level: real)
    requires 1 <= period < |closes|
  {
    Stronger(Rises(Last(closes, period + 1)), Falls(Last(closes, period + 1)), level)
  }

  predicate WeakerThan(closes: seq<real>, period: int, level: real)
    requires 1 <= period < |closes|
  {
    Weaker(Rises(Last(closes, period + 1)), Falls(Last(closes, period + 1)), level)
  }

  lemma LevelOrder(v: real, rises: real, falls: real, level: real)
    requires IsStrength(v, rises, falls) && rises >= 0.0 && falls >= 0.0
    ensures v > level <==> Stronger(rises, falls, level)
    ensures v < level <==> Weaker(rises, falls, level)
  {
    if falls > 0.0 { QuotientOrder(v, level, rises + falls); }
  }

  lemma QuotientOrder(v: real, level: real, total: real)
    requires total > 0.0
    ensures v > level <==> v * total > level * total
    ensures v < level <==> v * total < level * total
  {
    if v > level { assert (v - level) * total > 0.0; }
    if v < level { assert (level - v) * total > 0.0; }
    assert (v - level) * total == v * total - level * total;
  }

  lemma RsiAgainst(closes: seq<real>, period: int, level: real)
    requires 1 <= period < |closes|
    ensures Rsi(closes, period).Some?
    ensures Rsi(closes, period).value > level <==> StrongerThan(closes, period, level)
    ensures Rsi(closes, period).value < level <==> WeakerThan(closes, period, level)
  {
    RsiIs(closes, period);
    hide Rsi;
    var last := Last(closes, period + 1);
    ChangesNonNegative(last);
    LevelOrder(Rsi(closes, period).value, Rises(last), Falls(last), level);
    hide IsStrength;
    hide Stronger;
    hide Weaker;
    hide Rises;
    hide Falls;
    hide Last;
  }

  /**
    The RSI strategy on prices: it reads from 20 closes and period + 1 on, buys where the strength was below the
    oversold level and is now between the levels, and sells where it was above both and is.
   */
  lemma RsiOnPrices(r: Rules, root: Root, symbol: string, candles: seq<Candle>, i: nat)
    requires r.RsiRules? && i < |candles|
    ensures var was, now := Visible(r, symbol, candles[..i]), Visible(r, symbol, candles[..i + 1]);
      var signal := Process(r, root, symbol, map[], candles).1[i];
      && (signal == Some(BUY) <==>
            Enough(was, 20, r.period) && Enough(now, 20, r.period) && WeakerThan(was, r.period, r.oversold)
            && !WeakerThan(now, r.period, r.oversold) && !StrongerThan(now, r.period, r.overbought))
      && (signal == Some(SELL) <==>
            Enough(was, 20, r.period) && Enough(now, 20, r.period) && StrongerThan(was, r.period, r.overbought)
            && !WeakerThan(was, r.period, r.oversold)
            && !WeakerThan(now, r.period, r.oversold) && !StrongerThan(now, r.period, r.overbought))
  {
    RsiSignals(r, root, symbol, candles, i);
    RsiReads(r, symbol, candles[..i]);
    RsiReads(r, symbol, candles[..i + 1]);
    hide Process;
    hide RsiAt;
    hide Visible;
    hide StrongerThan;
    hide WeakerThan;
  }

  lemma RsiReads(r: Rules, symbol: string, candles: seq<Candle>)
    requires r.RsiRules?
    ensures var closes := Visible(r, symbol, candles);
      && (RsiAt(r, symbol, candles).Some? <==> Enough(closes, 20, r.period))
      && (RsiAt(r, symbol, candles).Some? ==>
            var v := RsiAt(r, symbol, candles).value;
            && (v > r.overbought <==> StrongerThan(closes, r.period, r.overbought))
            && (v < r.oversold <==> WeakerThan(closes, r.period, r.oversold)))
  {
    var closes := Visible(r, symbol, candles);
    FeaturesWhen(BuilderFor(r), symbol, closes);
    hide FeaturesOf;
    hide Visible;
    if Enough(closes, 20, r.period) {
      RsiAgainst(closes, r.period, r.overbought);
      RsiAgainst(closes, r.period, r.oversold);
    }
    hide Rsi;
    hide StrongerThan;
    hide WeakerThan;
  }

  // ---- the other strategies on prices ----

  /** The average of the latest s closes against that of the latest l. */
  function Gap(closes: seq<real>, s: int, l: int): real
    requires 1 <= s <= |closes| && 1 <= l <= |closes|
  {
    Total(Last(closes, s)) / s as real - Total(Last(closes, l)) / l as real
  }

  /** The strategy has both averages. */
  predicate HasGap(r: Rules, closes: seq<real>)
    requires r.MaRules?
  {
    Enough(closes, r.longWindow, r.rsiPeriod) && |closes| >= r.shortWindow
  }

  lemma CrossoverReads(r: Rules, symbol: string, candles: seq<Candle>)
    requires r.MaRules?
    ensures var closes := Visible(r, symbol, candles);
      var a := AveragesAt(r, symbol, candles);
      && (a.Some? && a.value.ShortAbove() <==> HasGap(r, closes) && Gap(closes, r.shortWindow, r.longWindow) > 0.0)
      && (a.Some? && a.value.ShortBelow() <==> HasGap(r, closes) && Gap(closes, r.shortWindow, r.longWindow) < 0.0)
      && (HasGap(r, closes) ==>
            && (a.value.Overbought() <==> StrongerThan(closes, r.rsiPeriod, 70.0))
            && (a.value.Oversold() <==> WeakerThan(closes, r.rsiPeriod, 30.0)))
  {
    var closes := Visible(r, symbol, candles);
    FeaturesWhen(BuilderFor(r), symbol, closes);
    SmaIsAverage(closes, r.shortWindow);
    SmaIsAverage(closes, r.longWindow);
    hide FeaturesOf;
    hide Visible;
    hide Sma;
    if Enough(closes, r.longWindow, r.rsiPeriod) {
      RsiAgainst(closes, r.rsiPeriod, 70.0);
      RsiAgainst(closes, r.rsiPeriod, 30.0);
    }
    hide Rsi;
    hide Total;
    hide StrongerThan;
    hide WeakerThan;
  }

  /**
    The crossover strategy on prices: it buys where the short average is above the long one and was not before,
    unless the strength is above 70, and sells where it is below and was not, unless the strength is below 30.
   */
  lemma CrossoverOnPrices(r: Rules, root: Root, symbol: string, candles: seq<Candle>, i: nat)
    requires r.MaRules? && i < |candles|
    ensures var was, now := Visible(r, symbol, candles[..i]), Visible(r, symbol, candles[..i + 1]);
      var s, l := r.shortWindow, r.longWindow;
      var signal := Process(r, root, symbol, map[], candles).1[i];
      && (signal == Some(BUY) <==>
            HasGap(r, now) && Gap(now, s, l) > 0.0 && !(HasGap(r, was) && Gap(was, s, l) > 0.0)
            && !StrongerThan(now, r.rsiPeriod, 70.0))
      && (signal == Some(SELL) <==>
            HasGap(r, now) && Gap(now, s, l) < 0.0 && !(HasGap(r, was) && Gap(was, s, l) < 0.0)
            && !WeakerThan(now, r.rsiPeriod, 30.0))
  {
    CrossoverSignals(r, root, symbol, candles, i);
    CrossoverReads(r, symbol, candles[..i]);
    CrossoverReads(r, symbol, candles[..i + 1]);
    hide Process;
    hide AveragesAt;
    hide Visible;
    hide Gap;
    hide StrongerThan;
    hide WeakerThan;
  }

  /** There are closes enough for features and for a MACD reading. */
  predicate HasReading(p: Periods, closes: seq<real>) {
    Enough(closes, 20, 14) && |closes| >= From(p) + p.signal - 1
  }

  function From(p: Periods): int {
    if p.slow + p.signal < p.fast then p.fast else p.slow + p.signal
  }

  /** The fast average less the slow one, less the exponential average of those differences so far. */
  function AboveLine(p: Periods, closes: seq<real>): real
    requires HasReading(p, closes)
  {
    Exponential(closes, p.fast) - Exponential(closes, p.slow) - Exponential(LinesFrom(closes, p, From(p)), p.signal)
  }

  lemma MacdReads(r: Rules, symbol: string, candles: seq<Candle>)
    requires r.MacdRules?
    ensures var closes := Visible(r, symbol, candles);
      var m := MacdAt(r, symbol, candles);
      && (m.Some? <==> HasReading(r.periods, closes))
      && (m.Some? ==> m.value.histogram == AboveLine(r.periods, closes))
  {
    var closes := Visible(r, symbol, candles);
    FeaturesWhen(BuilderFor(r), symbol, closes);
    MacdIs(closes, r.periods);
    hide FeaturesOf;
    hide Visible;
    hide Macd;
    hide Exponential;
    hide LinesFrom;
  }

  /**
    The MACD strategy on prices: it buys where the reading is above its signal line and was not, and sells the other
    way round.
   */
  lemma MacdOnPrices(r: Rules, root: Root, symbol: string, candles: seq<Candle>, i: nat)
    requires r.MacdRules? && i < |candles|
    ensures var p, was, now := r.periods, Visible(r, symbol, candles[..i]), Visible(r, symbol, candles[..i + 1]);
      var signal := Process(r, root, symbol, map[], candles).1[i];
      && (signal == Some(BUY) <==>
            HasReading(p, was) && HasReading(p, now) && AboveLine(p, was) <= 0.0 && AboveLine(p, now) > 0.0)
      && (signal == Some(SELL) <==>
            HasReading(p, was) && HasReading(p, now) && AboveLine(p, was) > 0.0 && AboveLine(p, now) <= 0.0)
  {
    MacdSignals(r, root, symbol, candles, i);
    MacdReads(r, symbol, candles[..i]);
    MacdReads(r, symbol, candles[..i + 1]);
    hide Process;
    hide MacdAt;
    hide Visible;
    hide AboveLine;
  }

  /** The latest close lies out at the lower, or upper, band: num_std deviations or more below, or above, the mean. */
  predicate OutBelow(closes: seq<real>, n: int, numStd: real) {
    && Enough(closes, 20, 14) && 1 <= n <= |closes|
    && Reaches(n as real, MeanOf(closes, n) - closes[|closes| - 1], numStd, SpreadOf(closes, n))
  }

  predicate OutAbove(closes: seq<real>, n: int, numStd: real) {
    && Enough(closes, 20, 14) && 1 <= n <= |closes|
    && Reaches(n as real, closes[|closes| - 1] - MeanOf(closes, n), numStd, SpreadOf(closes, n))
  }

  lemma BollingerReads(r: Rules, root: Root, symbol: string, candles: seq<Candle>)
    requires r.BollingerRules? && IsRoot(root)
    ensures var closes, p := Visible(r, symbol, candles), BandsAt(r, root, symbol, candles);
      && (p.Some? <==> Enough(closes, 20, 14) && |closes| >= r.window)
      && (p.Some? ==> (p.value.close <= p.value.lower <==> OutBelow(closes, r.window, r.numStd)))
      && (p.Some? ==> (p.value.close >= p.value.upper <==> OutAbove(closes, r.window, r.numStd)))
  {
    var closes := Visible(r, symbol, candles);
    FeaturesWhen(BuilderFor(r), symbol, closes);
    BandsWhen(closes, r.window, r.numStd, root);
    hide FeaturesOf;
    hide Visible;
    hide Bollinger;
    hide MeanOf;
    hide SpreadOf;
    hide Reaches;
    if |closes| >= r.window && |closes| > 0 { ZonesOnPrices(closes, r.window, r.numStd, root, closes[|closes| - 1]); }
  }

  lemma BandsWhen(closes: seq<real>, n: int, numStd: real, root: Root)
    requires n >= 1
    ensures Bollinger(closes, n, numStd, root).Some? <==> |closes| >= n
  {
  }

  /**
    The Bollinger strategy on prices: it buys where the close was out below and is not out now, and sells where it
    was out above.
   */
  lemma BollingerOnPrices(r: Rules, root: Root, symbol: string, candles: seq<Candle>, i: nat)
    requires r.BollingerRules? && IsRoot(root) && i < |candles|
    ensures var was, now := Visible(r, symbol, candles[..i]), Visible(r, symbol, candles[..i + 1]);
      var n, k := r.window, r.numStd;
      var signal := Process(r, root, symbol, map[], candles).1[i];
      var inside := Enough(now, 20, 14) && |now| >= n && !OutBelow(now, n, k) && !OutAbove(now, n, k);
      && (signal == Some(BUY) <==> inside && OutBelow(was, n, k))
      && (signal == Some(SELL) <==> inside && OutAbove(was, n, k) && !OutBelow(was, n, k))
  {
    BollingerSignals(r, root, symbol, candles, i);
    BollingerReads(r, root, symbol, candles[..i]);
    BollingerReads(r, root, symbol, candles[..i + 1]);
    hide Process;
    hide BandsAt;
    hide Visible;
    hide MeanOf;
    hide SpreadOf;
    hide Reaches;
  }
}
