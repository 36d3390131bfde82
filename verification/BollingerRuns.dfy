/**
  Bollinger bands wider than sqrt(window - 1) standard deviations: by Samuelson's inequality no price can
  touch them, so the strategy reacts to nothing but the end of a flat stretch.
 */
module BollingerRuns {
  import opened Options
  import opened Signals
  import opened Market
  import opened Indicators
  import opened FeatureBuilding
  import opened Strategies
  import opened Ledger
  import opened Backtest
  import opened RunLaws
  import opened Samuelson

  ghost predicate Wide(r: Rules) {
    r.BollingerRules? && r.numStd > 0.0 && Square(r.numStd) > r.window as real - 1.0
  }

  /** The strategy reads at the last of these candles. */
  predicate ReadsAt(r: Rules, symbol: string, candles: seq<Candle>) {
    CanRead(r) && |History(candles, symbol)| >= FirstRead(r)
  }

  /** ... and every close in its window is the same. */
  ghost predicate FlatAt(r: Rules, symbol: string, candles: seq<Candle>)
    requires r.BollingerRules?
  {
    var closes := Visible(r, symbol, candles);
    |closes| >= r.window && Flat(Recent(closes, r.window))
  }

  /** A flat window counts as touching the lower band; any other window is neutral. */
  ghost function ZoneAt(r: Rules, symbol: string, candles: seq<Candle>): Zone
    requires r.BollingerRules?
  {
    if FlatAt(r, symbol, candles) then BelowLower else Neutral
  }

  lemma WideView(r: Rules, root: Root, symbol: string, closes: seq<real>)
    requires Wide(r) && IsRoot(root) && |closes| >= Required(BuilderFor(r))
    ensures var flat := |closes| >= r.window && Flat(Recent(closes, r.window));
      Look(r, root, FeaturesOf(BuilderFor(r), symbol, closes).value)
      == if |closes| < r.window then None else Some(View(if flat then BelowLower else Neutral, flat, flat))
  {
    hide BandsOf;
    hide Flat;
    hide Square;
    hide IsRoot;
    hide Mean;
    hide EmaFold;
    if |closes| >= r.window {
      WideBands(Recent(closes, r.window), r.numStd, root);
    }
  }

  /** The reaction at the last candle. */
  lemma WideReact(r: Rules, root: Root, symbol: string, memory: Memory, candles: seq<Candle>)
    requires Wide(r) && IsRoot(root)
    requires Recall(memory, symbol) != Some(AboveUpper)
    ensures var (after, signal) := React(r, root, symbol, memory, Visible(r, symbol, candles));
      var seen, flat := ReadsAt(r, symbol, candles), FlatAt(r, symbol, candles);
      && Recall(after, symbol) == (if seen then Some(ZoneAt(r, symbol, candles)) else Recall(memory, symbol))
      && signal == (if seen && !flat && Recall(memory, symbol) == Some(BelowLower) then Some(BUY) else None)
  {
    hide Flat;
    hide Square;
    hide IsRoot;
    hide Look;
    hide History;
    hide Mean;
    hide EmaFold;
    ReadsWhen(r, root, symbol, candles);
    var closes := Visible(r, symbol, candles);
    if |closes| >= Required(BuilderFor(r)) {
      WideView(r, root, symbol, closes);
    }
    hide Visible;
  }

  lemma ReadsOn(r: Rules, symbol: string, candles: seq<Candle>)
    requires |candles| > 0 && ReadsAt(r, symbol, candles[..|candles| - 1])
    ensures ReadsAt(r, symbol, candles)
  {
  }

  lemma {:induction false} WideMemory(r: Rules, root: Root, symbol: string, candles: seq<Candle>)
    requires Wide(r) && IsRoot(root)
    ensures Recall(Process(r, root, symbol, map[], candles).0, symbol)
         == if |candles| > 0 && ReadsAt(r, symbol, candles) then Some(ZoneAt(r, symbol, candles)) else None
  {
    hide React;
    hide Visible;
    hide Wide;
    hide IsRoot;
    hide FlatAt;
    if |candles| > 0 {
      var n := |candles| - 1;
      WideMemory(r, root, symbol, candles[..n]);
      WideReact(r, root, symbol, Process(r, root, symbol, map[], candles[..n]).0, candles);
      if n > 0 && ReadsAt(r, symbol, candles[..n]) { ReadsOn(r, symbol, candles); }
    }
  }

  /**
    The exact signals of a fresh wide-band strategy: a buy at the candle that ends a flat stretch, and
    nothing anywhere else.
   */
  lemma WideSignals(r: Rules, root: Root, symbol: string, candles: seq<Candle>, i: nat)
    requires Wide(r) && IsRoot(root) && i < |candles|
    ensures Process(r, root, symbol, map[], candles).1[i]
         == if i > 0 && ReadsAt(r, symbol, candles[..i]) && FlatAt(r, symbol, candles[..i])
               && !FlatAt(r, symbol, candles[..i + 1])
            then Some(BUY) else None
  {
    hide React;
    hide Visible;
    hide Wide;
    hide IsRoot;
    hide FlatAt;
    SignalAt(r, root, symbol, map[], candles, i);
    WideMemory(r, root, symbol, candles[..i]);
    WideReact(r, root, symbol, Process(r, root, symbol, map[], candles[..i]).0, candles[..i + 1]);
    assert candles[..i + 1][..i] == candles[..i];
    if i > 0 && ReadsAt(r, symbol, candles[..i]) { ReadsOn(r, symbol, candles[..i + 1]); }
    hide Process;
  }

  /** Where no window is flat it never signals, and the backtest returns the initial balance. */
  lemma NoFlatWindowNoTrade(cfg: Config, r: Rules, root: Root, symbol: string, initial: real, candles: seq<Candle>)
    requires Wide(r) && IsRoot(root) && |candles| > 0
    requires forall i :: 0 <= i <= |candles| ==> !FlatAt(r, symbol, candles[..i])
    ensures forall i :: 0 <= i < |candles| ==> Process(r, root, symbol, map[], candles).1[i] == None
    ensures var result := ResultOf(cfg, r, root, symbol, map[], initial, candles);
      result.finalBalance == initial && result.trades == []
  {
    forall i | 0 <= i < |candles| ensures Process(r, root, symbol, map[], candles).1[i] == None {
      WideSignals(r, root, symbol, candles, i);
    }
    NoBuyNoTrade(cfg, symbol, initial, Replay(r, root, symbol, map[], candles));
  }
}
