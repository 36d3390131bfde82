/**
  What the strategies' memory amounts to: over a run of a fresh strategy the signal at a candle is a function of
  two windows of closes, the one visible at that candle and the one before it.
 */
module SignalWindows {
  import opened Options
  import opened Signals
  import opened Market
  import opened Indicators
  import opened FeatureBuilding
  import opened Strategies
  import opened Backtest
  import opened RunLaws

  /** What the strategy sees after these candles, if it can see anything. */
  function ViewAt(r: Rules, root: Root, symbol: string, candles: seq<Candle>): Option<View> {
    match FeaturesOf(BuilderFor(r), symbol, Visible(r, symbol, candles))
    case None => None
    case Some(f) => Look(r, root, f)
  }

  function ZoneOf(v: Option<View>): Option<Zone> {
    if v.Some? then Some(v.value.zone) else None
  }

  lemma ReactToView(r: Rules, root: Root, symbol: string, memory: Memory, candles: seq<Candle>)
    ensures React(r, root, symbol, memory, Visible(r, symbol, candles)) ==
      match ViewAt(r, root, symbol, candles)
      case None => (memory, None)
      case Some(v) => (memory[symbol := v.zone], Emit(r, Recall(memory, symbol), v))
  {
    hide Look;
    hide Emit;
    hide Visible;
  }

  /** Once a strategy reads it reads at every later candle, and at none before the first. */
  lemma ReadingGoesOn(r: Rules, root: Root, symbol: string, candles: seq<Candle>)
    ensures ViewAt(r, root, symbol, []) == None
    ensures |candles| > 0 && ViewAt(r, root, symbol, candles[..|candles| - 1]).Some?
            ==> ViewAt(r, root, symbol, candles).Some?
  {
    ReadsWhen(r, root, symbol, []);
    ReadsWhen(r, root, symbol, candles);
    if |candles| > 0 { ReadsWhen(r, root, symbol, candles[..|candles| - 1]); }
    hide Look;
    hide Visible;
    hide CanRead;
  }

  /** The remembered zone is the one seen at the latest candle. */
  lemma {:induction false} MemoryIsLatestZone(r: Rules, root: Root, symbol: string, candles: seq<Candle>)
    ensures Recall(Process(r, root, symbol, map[], candles).0, symbol) == ZoneOf(ViewAt(r, root, symbol, candles))
  {
    hide React;
    hide ViewAt;
    hide Visible;
    hide Emit;
    ReadingGoesOn(r, root, symbol, candles);
    if |candles| > 0 {
      var n := |candles| - 1;
      MemoryIsLatestZone(r, root, symbol, candles[..n]);
      ReactToView(r, root, symbol, Process(r, root, symbol, map[], candles[..n]).0, candles);
    }
  }

  /** A fresh strategy's signal at a candle, from the views at that candle and the one before. */
  lemma SignalFromTwoWindows(r: Rules, root: Root, symbol: string, candles: seq<Candle>, i: nat)
    requires i < |candles|
    ensures Process(r, root, symbol, map[], candles).1[i] ==
      match ViewAt(r, root, symbol, candles[..i + 1])
      case None => None
      case Some(v) => Emit(r, ZoneOf(ViewAt(r, root, symbol, candles[..i])), v)
  {
    hide React;
    hide ViewAt;
    hide Visible;
    hide Emit;
    SignalAt(r, root, symbol, map[], candles, i);
    MemoryIsLatestZone(r, root, symbol, candles[..i]);
    ReactToView(r, root, symbol, Process(r, root, symbol, map[], candles[..i]).0, candles[..i + 1]);
    hide Process;
  }

  /** The relative strength a strategy reads after these candles. */
  function RsiAt(r: Rules, symbol: string, candles: seq<Candle>): Option<real> {
    match FeaturesOf(BuilderFor(r), symbol, Visible(r, symbol, candles))
    case None => None
    case Some(f) => f.rsi
  }

  predicate Within(level: Option<real>, low: real, high: real) {
    level.Some? && low <= level.value <= high
  }

  lemma RsiView(r: Rules, root: Root, symbol: string, candles: seq<Candle>)
    requires r.RsiRules?
    ensures ViewAt(r, root, symbol, candles) ==
      match RsiAt(r, symbol, candles)
      case None => None
      case Some(v) =>
        Some(View(if v < r.oversold then Oversold else if v > r.overbought then Overbought else Neutral, false, false))
  {
    hide FeaturesOf;
    hide Visible;
  }

  /**
    The RSI strategy buys exactly when the index has come back from below the oversold level into the neutral
    band, and sells exactly when it has come back from above; a jump across the band is no signal.
   */
  lemma RsiSignals(r: Rules, root: Root, symbol: string, candles: seq<Candle>, i: nat)
    requires r.RsiRules? && i < |candles|
    ensures var before, now := RsiAt(r, symbol, candles[..i]), RsiAt(r, symbol, candles[..i + 1]);
      var signal := Process(r, root, symbol, map[], candles).1[i];
      && (signal == Some(BUY) <==> Within(now, r.oversold, r.overbought) && before.Some? && before.value < r.oversold)
      && (signal == Some(SELL) <==> Within(now, r.oversold, r.overbought) && before.Some? && before.value > r.overbought
                                    && before.value >= r.oversold)
      && signal != Some(HOLD)
  {
    hide Process;
    hide ViewAt;
    hide RsiAt;
    SignalFromTwoWindows(r, root, symbol, candles, i);
    RsiView(r, root, symbol, candles[..i]);
    RsiView(r, root, symbol, candles[..i + 1]);
  }

  /** The two averages and the index after these candles. */
  datatype Averages = Averages(short: Option<real>, long: Option<real>, index: Option<real>)
  {
    predicate ShortAbove() { short.Some? && long.Some? && short.value > long.value }
    predicate ShortBelow() { short.Some? && long.Some? && short.value < long.value }
    predicate Overbought() { index.Some? && index.value > 70.0 }
    predicate Oversold() { index.Some? && index.value < 30.0 }
  }

  function AveragesAt(r: Rules, symbol: string, candles: seq<Candle>): Option<Averages> {
    match FeaturesOf(BuilderFor(r), symbol, Visible(r, symbol, candles))
    case None => None
    case Some(f) => Some(Averages(f.smaShort, f.smaLong, f.rsi))
  }

  lemma CrossoverView(r: Rules, root: Root, symbol: string, candles: seq<Candle>)
    requires r.MaRules?
    ensures ViewAt(r, root, symbol, candles) ==
      match AveragesAt(r, symbol, candles)
      case None => None
      case Some(a) =>
        Some(View(if a.ShortAbove() then Golden else if a.ShortBelow() then Dead else NoCross,
                  a.Overbought(), a.Oversold()))
  {
    hide FeaturesOf;
    hide Visible;
  }

  /**
    The crossover strategy buys exactly at a candle where the short average is above the long one and was not at
    the candle before, unless the index is above 70; it sells exactly at the mirror image, unless it is below 30.
   */
  lemma CrossoverSignals(r: Rules, root: Root, symbol: string, candles: seq<Candle>, i: nat)
    requires r.MaRules? && i < |candles|
    ensures var before, now := AveragesAt(r, symbol, candles[..i]), AveragesAt(r, symbol, candles[..i + 1]);
      var signal := Process(r, root, symbol, map[], candles).1[i];
      && (signal == Some(BUY) <==>
            now.Some? && now.value.ShortAbove() && !(before.Some? && before.value.ShortAbove())
            && !now.value.Overbought())
      && (signal == Some(SELL) <==>
            now.Some? && now.value.ShortBelow() && !(before.Some? && before.value.ShortBelow())
            && !now.value.Oversold())
      && signal != Some(HOLD)
  {
    hide Process;
    hide ViewAt;
    hide AveragesAt;
    SignalFromTwoWindows(r, root, symbol, candles, i);
    CrossoverView(r, root, symbol, candles[..i]);
    CrossoverView(r, root, symbol, candles[..i + 1]);
  }

  /** The MACD reading after these candles. */
  function MacdAt(r: Rules, symbol: string, candles: seq<Candle>): Option<MacdIndicator.Reading>
    requires r.MacdRules?
  {
    match FeaturesOf(BuilderFor(r), symbol, Visible(r, symbol, candles))
    case None => None
    case Some(f) => MacdIndicator.Macd(f.closes, r.periods)
  }

  lemma MacdView(r: Rules, root: Root, symbol: string, candles: seq<Candle>)
    requires r.MacdRules?
    ensures ViewAt(r, root, symbol, candles) ==
      match MacdAt(r, symbol, candles)
      case None => None
      case Some(m) => Some(View(if m.histogram > 0.0 then Above else Below, false, false))
  {
    hide FeaturesOf;
    hide Visible;
    hide MacdIndicator.LineHistory;
    hide MacdIndicator.Line;
    hide EmaFold;
  }

  /** The MACD strategy signals exactly where two successive readings lie on different sides of the signal line. */
  lemma MacdSignals(r: Rules, root: Root, symbol: string, candles: seq<Candle>, i: nat)
    requires r.MacdRules? && i < |candles|
    ensures var before, now := MacdAt(r, symbol, candles[..i]), MacdAt(r, symbol, candles[..i + 1]);
      var signal := Process(r, root, symbol, map[], candles).1[i];
      && (signal == Some(BUY) <==> before.Some? && now.Some? && before.value.histogram <= 0.0 < now.value.histogram)
      && (signal == Some(SELL) <==> before.Some? && now.Some? && now.value.histogram <= 0.0 < before.value.histogram)
      && signal != Some(HOLD)
  {
    hide Process;
    hide ViewAt;
    hide MacdAt;
    SignalFromTwoWindows(r, root, symbol, candles, i);
    MacdView(r, root, symbol, candles[..i]);
    MacdView(r, root, symbol, candles[..i + 1]);
  }

  /** A close and the band edges it is compared to. */
  datatype Place = Place(close: real, lower: real, upper: real)
  {
    predicate Inside() { lower < close < upper }
    predicate AtLower() { close <= lower }
    predicate AtUpper() { close >= upper && !AtLower() }
  }

  /** Where the latest of these candles closes. */
  function BandsAt(r: Rules, root: Root, symbol: string, candles: seq<Candle>): Option<Place>
    requires r.BollingerRules?
  {
    match FeaturesOf(BuilderFor(r), symbol, Visible(r, symbol, candles))
    case None => None
    case Some(f) =>
      match Bollinger(f.closes, r.window, r.numStd, root)
      case None => None
      case Some(b) => Some(Place(f.current, b.lower, b.upper))
  }

  lemma BollingerView(r: Rules, root: Root, symbol: string, candles: seq<Candle>)
    requires r.BollingerRules?
    ensures ViewAt(r, root, symbol, candles) ==
      match BandsAt(r, root, symbol, candles)
      case None => None
      case Some(p) =>
        var flat := p.upper - p.lower == 0.0;
        Some(View(if p.AtLower() then BelowLower else if p.AtUpper() then AboveUpper else Neutral, flat, flat))
  {
    hide FeaturesOf;
    hide Visible;
    hide BandsOf;
  }

  /**
    The Bollinger strategy buys exactly where the close comes back inside from the lower band, and sells where it
    does from the upper.
   */
  lemma BollingerSignals(r: Rules, root: Root, symbol: string, candles: seq<Candle>, i: nat)
    requires r.BollingerRules? && i < |candles|
    ensures var before, now := BandsAt(r, root, symbol, candles[..i]), BandsAt(r, root, symbol, candles[..i + 1]);
      var signal := Process(r, root, symbol, map[], candles).1[i];
      && (signal == Some(BUY) <==> now.Some? && now.value.Inside() && before.Some? && before.value.AtLower())
      && (signal == Some(SELL) <==> now.Some? && now.value.Inside() && before.Some? && before.value.AtUpper())
      && signal != Some(HOLD)
  {
    hide Process;
    hide ViewAt;
    hide BandsAt;
    SignalFromTwoWindows(r, root, symbol, candles, i);
    BollingerView(r, root, symbol, candles[..i]);
    BollingerView(r, root, symbol, candles[..i + 1]);
  }
}
