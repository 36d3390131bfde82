/**
  The four rule strategies (strategy/impl).  Each one reduces the features to a zone, remembers the last
  zone of every symbol and signals on the edge between two zones.
 */
module Strategies {
  import opened Options
  import opened Signals
  import opened Indicators
  import opened MacdIndicator
  import opened FeatureBuilding

  datatype RawRules =
    | MaRules(shortWindow: int, longWindow: int, rsiPeriod: int)
    | RsiRules(period: int, oversold: real, overbought: real)
    | BollingerRules(window: int, numStd: real)
    | MacdRules(periods: Periods)

  ghost predicate Usable(r: RawRules) {
    match r
    case MaRules(s, l, p) => s >= 1 && l >= 1 && p >= 1
    case RsiRules(p, _, _) => p >= 1
    case BollingerRules(w, _) => w >= 1
    case MacdRules(_) => true
  }

  /** Strategy parameters; every averaging window is at least one. */
  type Rules = r: RawRules | Usable(r) ghost witness MaRules(5, 20, 14)

  type Window = w: int | w >= 1 witness 1

  /** The keys an update names; a strategy looks at its own and leaves the rest alone. */
  datatype Patch = Patch(shortWindow: Option<Window>, longWindow: Option<Window>, rsiPeriod: Option<Window>,
                         oversold: Option<real>, overbought: Option<real>,
                         window: Option<Window>, numStd: Option<real>,
                         fast: Option<Window>, slow: Option<Window>, signal: Option<Window>)

  function Or<T>(named: Option<T>, kept: T): T {
    if named.Some? then named.value else kept
  }

  /** Parameters after an update: what it names is new, everything else is kept. */
  function Merge(r: Rules, p: Patch): (merged: Rules)
    ensures merged.MaRules? == r.MaRules? && merged.RsiRules? == r.RsiRules?
    ensures merged.BollingerRules? == r.BollingerRules? && merged.MacdRules? == r.MacdRules?
  {
    match r
    case MaRules(s, l, n) => MaRules(Or(p.shortWindow, s), Or(p.longWindow, l), Or(p.rsiPeriod, n))
    case RsiRules(n, low, high) => RsiRules(Or(p.rsiPeriod, n), Or(p.oversold, low), Or(p.overbought, high))
    case BollingerRules(w, k) => BollingerRules(Or(p.window, w), Or(p.numStd, k))
    case MacdRules(m) => MacdRules(Params(Or(p.fast, m.fast), Or(p.slow, m.slow), Or(p.signal, m.signal)))
  }

  /** The value of one parameter after an update: the named one, or else the one it had. */
  predicate Sets<T(==)>(named: Option<T>, before: T, after: T) {
    (named == None ==> after == before) && (named.Some? ==> after == named.value)
  }

  /** Every key sets its own parameter and no other. */
  lemma MergeSets(r: Rules, p: Patch)
    ensures var m := Merge(r, p);
      && (r.MaRules? ==>
            && Sets(p.shortWindow, r.shortWindow, m.shortWindow) && Sets(p.longWindow, r.longWindow, m.longWindow)
            && Sets(p.rsiPeriod, r.rsiPeriod, m.rsiPeriod))
      && (r.RsiRules? ==>
            && Sets(p.rsiPeriod, r.period, m.period) && Sets(p.oversold, r.oversold, m.oversold)
            && Sets(p.overbought, r.overbought, m.overbought))
      && (r.BollingerRules? ==> Sets(p.window, r.window, m.window) && Sets(p.numStd, r.numStd, m.numStd))
      && (r.MacdRules? ==>
            && Sets(p.fast, r.periods.fast, m.periods.fast) && Sets(p.slow, r.periods.slow, m.periods.slow)
            && Sets(p.signal, r.periods.signal, m.periods.signal))
  {
  }

  function Either<T>(later: Option<T>, earlier: Option<T>): Option<T> {
    if later.Some? then later else earlier
  }

  /** Two updates in a row are one that names the keys of both, the later value winning. */
  lemma UpdatesAccumulate(r: Rules, p: Patch, q: Patch)
    ensures Merge(Merge(r, p), q) == Merge(r, Patch(
        Either(q.shortWindow, p.shortWindow), Either(q.longWindow, p.longWindow), Either(q.rsiPeriod, p.rsiPeriod),
        Either(q.oversold, p.oversold), Either(q.overbought, p.overbought),
        Either(q.window, p.window), Either(q.numStd, p.numStd),
        Either(q.fast, p.fast), Either(q.slow, p.slow), Either(q.signal, p.signal)))
    ensures Merge(r, Patch(None, None, None, None, None, None, None, None, None, None)) == r
  {
  }

  datatype Zone =
    | Golden | Dead | NoCross                 // moving averages
    | Oversold | Overbought                   // relative strength
    | BelowLower | AboveUpper                 // Bollinger bands
    | Above | Below                           // MACD against its signal line
    | Neutral

  type Memory = map<string, Zone>

  /** What a strategy reads off the features: its zone, and whether a buy or a sell is filtered out. */
  datatype View = View(zone: Zone, noBuy: bool, noSell: bool)

  function RequiredCandles(r: Rules): int {
    match r
    case MaRules(_, l, p) => (if l < p + 1 then p + 1 else l) + 15
    case RsiRules(p, _, _) => p + 15
    case BollingerRules(w, _) => w + 15
    case MacdRules(p) => p.slow + p.signal + 15
  }

  /** The feature builder a backtest makes for a strategy: windows the strategy does not name keep their defaults. */
  function BuilderFor(r: Rules): Builder {
    var limit := RequiredCandles(r);
    match r
    case MaRules(s, l, p) => Windows(s, l, p, limit)
    case RsiRules(p, _, _) => Windows(5, 20, p, limit)
    case BollingerRules(_, _) => Windows(5, 20, 14, limit)
    case MacdRules(_) => Windows(5, 20, 14, limit)
  }

  function Look(r: Rules, root: Root, f: Features): Option<View> {
    match r
    case MaRules(_, _, _) =>
      var zone := if f.IsGoldenCross() then Golden else if f.IsDeadCross() then Dead else NoCross;
      Some(View(zone, f.IsOverbought(), f.IsOversold()))
    case RsiRules(_, oversold, overbought) =>
      (match f.rsi
       case None => None
       case Some(v) =>
         Some(View(if v < oversold then Oversold else if v > overbought then Overbought else Neutral, false, false)))
    case BollingerRules(window, numStd) =>
      (match Bollinger(f.closes, window, numStd, root)
       case None => None
       case Some(b) =>
         var zone := if f.current <= b.lower then BelowLower else if f.current >= b.upper then AboveUpper else Neutral;
         var flat := b.upper - b.lower == 0.0;
         Some(View(zone, flat, flat)))
    case MacdRules(periods) =>
      (match Macd(f.closes, periods)
       case None => None
       case Some(m) => Some(View(if m.line > m.signalLine then Above else Below, false, false)))
  }

  /** The zone changes that mean buy and sell. */
  predicate BuyEdge(r: Rules, prev: Option<Zone>, zone: Zone) {
    match r
    case MaRules(_, _, _) => zone == Golden && prev != Some(Golden)
    case RsiRules(_, _, _) => prev == Some(Oversold) && zone == Neutral
    case BollingerRules(_, _) => prev == Some(BelowLower) && zone == Neutral
    case MacdRules(_) => prev == Some(Below) && zone == Above
  }

  predicate SellEdge(r: Rules, prev: Option<Zone>, zone: Zone) {
    match r
    case MaRules(_, _, _) => zone == Dead && prev != Some(Dead)
    case RsiRules(_, _, _) => prev == Some(Overbought) && zone == Neutral
    case BollingerRules(_, _) => prev == Some(AboveUpper) && zone == Neutral
    case MacdRules(_) => prev == Some(Above) && zone == Below
  }

  function Emit(r: Rules, prev: Option<Zone>, v: View): Option<SignalType> {
    if BuyEdge(r, prev, v.zone) && !v.noBuy then Some(BUY)
    else if SellEdge(r, prev, v.zone) && !v.noSell then Some(SELL)
    else None
  }

  function Recall(memory: Memory, symbol: string): Option<Zone> {
    if symbol in memory then Some(memory[symbol]) else None
  }

  function Evaluate(r: Rules, root: Root, memory: Memory, f: Features): (Memory, Option<SignalType>) {
    match Look(r, root, f)
    case None => (memory, None)
    case Some(v) => (memory[f.symbol := v.zone], Emit(r, Recall(memory, f.symbol), v))
  }

  // ---- the strategy objects ----

  class MACrossoverStrategy {
    var prevCross: Memory
    var rules: Rules

    constructor (rules: Rules)
      requires rules.MaRules?
      ensures this.rules == rules && prevCross == map[]
    {
      this.rules, prevCross := rules, map[];
    }

    method UpdateParams(patch: Patch)
      modifies this
      ensures rules == Merge(old(rules), patch) && prevCross == map[]
    {
      rules, prevCross := Merge(rules, patch), map[];
    }

    method EvaluateFeatures(f: Features, ghost root: Root) returns (signal: Option<SignalType>)
      requires rules.MaRules?
      modifies this`prevCross
      ensures (prevCross, signal) == Evaluate(rules, root, old(prevCross), f)
    {
      var prev := if f.symbol in prevCross then prevCross[f.symbol] else NoCross;
      var current: Zone;
      if f.IsGoldenCross() {
        current := Golden;
      } else if f.IsDeadCross() {
        current := Dead;
      } else {
        current := NoCross;
      }
      prevCross := prevCross[f.symbol := current];
      if current == Golden && prev != Golden && !f.IsOverbought() {
        return Some(BUY);
      }
      if current == Dead && prev != Dead && !f.IsOversold() {
        return Some(SELL);
      }
      return None;
    }
  }

  class RsiStrategy {
    var prevZone: Memory
    var rules: Rules

    constructor (rules: Rules)
      requires rules.RsiRules?
      ensures this.rules == rules && prevZone == map[]
    {
      this.rules, prevZone := rules, map[];
    }

    method UpdateParams(patch: Patch)
      modifies this
      ensures rules == Merge(old(rules), patch) && prevZone == map[]
    {
      rules, prevZone := Merge(rules, patch), map[];
    }

    method EvaluateFeatures(f: Features, ghost root: Root) returns (signal: Option<SignalType>)
      requires rules.RsiRules?
      modifies this`prevZone
      ensures (prevZone, signal) == Evaluate(rules, root, old(prevZone), f)
    {
      if f.rsi == None {
        return None;
      }
      signal := EvaluateRsi(f.symbol, f.rsi.value, rules.oversold, rules.overbought);
    }

    method EvaluateRsi(symbol: string, rsi: real, oversold: real, overbought: real) returns (signal: Option<SignalType>)
      modifies this`prevZone
      ensures var zone := if rsi < oversold then Oversold else if rsi > overbought then Overbought else Neutral;
        && prevZone == old(prevZone)[symbol := zone]
        && signal == (if zone == Neutral && Recall(old(prevZone), symbol) == Some(Oversold) then Some(BUY)
                      else if zone == Neutral && Recall(old(prevZone), symbol) == Some(Overbought) then Some(SELL)
                      else None)
    {
      var prev := if symbol in prevZone then prevZone[symbol] else Neutral;
      var zone: Zone;
      if rsi < oversold {
        zone := Oversold;
      } else if rsi > overbought {
        zone := Overbought;
      } else {
        zone := Neutral;
      }
      prevZone := prevZone[symbol := zone];
      if prev == Oversold && zone == Neutral {
        return Some(BUY);
      }
      if prev == Overbought && zone == Neutral {
        return Some(SELL);
      }
      return None;
    }
  }

  class BollingerStrategy {
    var prevZone: Memory
    var rules: Rules
    const root: Root

    constructor (rules: Rules, root: Root)
      requires rules.BollingerRules?
      ensures this.rules == rules && prevZone == map[] && this.root == root
    {
      this.rules, prevZone, this.root := rules, map[], root;
    }

    method UpdateParams(patch: Patch)
      modifies this
      ensures rules == Merge(old(rules), patch) && prevZone == map[]
    {
      rules, prevZone := Merge(rules, patch), map[];
    }

    method EvaluateFeatures(f: Features) returns (signal: Option<SignalType>)
      requires rules.BollingerRules?
      modifies this`prevZone
      ensures (prevZone, signal) == Evaluate(rules, root, old(prevZone), f)
    {
      hide BandsOf;
      var bands := Bollinger(f.closes, rules.window, rules.numStd, root);
      if bands == None {
        return None;
      }
      signal := EvaluateBands(f.symbol, f.current, bands.value.upper, bands.value.lower);
    }

    method EvaluateBands(symbol: string, price: real, upper: real, lower: real) returns (signal: Option<SignalType>)
      modifies this`prevZone
      ensures var zone := if price <= lower then BelowLower else if price >= upper then AboveUpper else Neutral;
        var back, from := upper != lower && zone == Neutral, Recall(old(prevZone), symbol);
        && prevZone == old(prevZone)[symbol := zone]
        && signal == (if back && from == Some(BelowLower) then Some(BUY)
                      else if back && from == Some(AboveUpper) then Some(SELL)
                      else None)
    {
      var prev := if symbol in prevZone then prevZone[symbol] else Neutral;
      var zone: Zone;
      if price <= lower {
        zone := BelowLower;
      } else if price >= upper {
        zone := AboveUpper;
      } else {
        zone := Neutral;
      }
      prevZone := prevZone[symbol := zone];
      var bandWidth := upper - lower;
      if bandWidth == 0.0 {
        return None;
      }
      if prev == BelowLower && zone == Neutral {
        return Some(BUY);
      }
      if prev == AboveUpper && zone == Neutral {
        return Some(SELL);
      }
      return None;
    }
  }

  class MacdStrategy {
    var prevPosition: Memory
    var rules: Rules

    constructor (rules: Rules)
      requires rules.MacdRules?
      ensures this.rules == rules && prevPosition == map[]
    {
      this.rules, prevPosition := rules, map[];
    }

    method UpdateParams(patch: Patch)
      modifies this
      ensures rules == Merge(old(rules), patch) && prevPosition == map[]
    {
      rules, prevPosition := Merge(rules, patch), map[];
    }

    method EvaluateFeatures(f: Features, ghost root: Root) returns (signal: Option<SignalType>)
      requires rules.MacdRules?
      modifies this`prevPosition
      ensures (prevPosition, signal) == Evaluate(rules, root, old(prevPosition), f)
    {
      hide EmaFold;
      hide LineHistory;
      hide MacdIndicator.Macd;
      var reading := ComputeMacd(f.closes, rules.periods);
      if reading == None {
        return None;
      }
      signal := EvaluateMacd(f.symbol, reading.value.line, reading.value.signalLine);
    }

    method EvaluateMacd(symbol: string, macdLine: real, signalLine: real) returns (signal: Option<SignalType>)
      modifies this`prevPosition
      ensures var zone := if macdLine > signalLine then Above else Below;
        && prevPosition == old(prevPosition)[symbol := zone]
        && signal == (if zone == Above && Recall(old(prevPosition), symbol) == Some(Below) then Some(BUY)
                      else if zone == Below && Recall(old(prevPosition), symbol) == Some(Above) then Some(SELL)
                      else None)
    {
      var prev := if symbol in prevPosition then Some(prevPosition[symbol]) else None;
      var current := if macdLine > signalLine then Above else Below;
      prevPosition := prevPosition[symbol := current];
      if prev == None {
        return None;
      }
      if prev == Some(Below) && current == Above {
        return Some(BUY);
      }
      if prev == Some(Above) && current == Below {
        return Some(SELL);
      }
      return None;
    }
  }
}
