/** The feature set a strategy consumes and its assembly (data/processor/feature_builder.py). */
module FeatureBuilding {
  import opened Options
  import opened Market
  import opened Indicators

  datatype Features = Features(symbol: string, closes: seq<real>, current: real,
                               smaShort: Option<real>, smaLong: Option<real>,
                               emaShort: Option<real>, emaLong: Option<real>, rsi: Option<real>)
  {
    predicate IsGoldenCross() { smaShort.Some? && smaLong.Some? && smaShort.value > smaLong.value }
    predicate IsDeadCross() { smaShort.Some? && smaLong.Some? && smaShort.value < smaLong.value }
    predicate IsOverbought() { rsi.Some? && rsi.value > 70.0 }
    predicate IsOversold() { rsi.Some? && rsi.value < 30.0 }
  }

  datatype Windows = Windows(shortWindow: int, longWindow: int, rsiPeriod: int, snapshotLimit: int)
  type Builder = w: Windows | w.shortWindow >= 1 && w.longWindow >= 1 && w.rsiPeriod >= 1 witness Windows(5, 20, 14, 0)

  /** Candles without which there are no features. */
  function Required(b: Builder): int {
    if b.longWindow < b.rsiPeriod + 1 then b.rsiPeriod + 1 else b.longWindow
  }

  /** How many candles the builder looks back over. */
  function Limit(b: Builder): int {
    if b.snapshotLimit > 0 then b.snapshotLimit else Required(b) + 10
  }

  function Closes(candles: seq<Candle>): (s: seq<real>)
    ensures |s| == |candles|
  {
    seq(|candles|, i requires 0 <= i < |candles| => candles[i].close)
  }

  function FeaturesOf(b: Builder, symbol: string, closes: seq<real>): Option<Features> {
    if |closes| < Required(b) then None
    else
      Some(Features(symbol, closes, closes[|closes| - 1],
                    Sma(closes, b.shortWindow), Sma(closes, b.longWindow),
                    Ema(closes, b.shortWindow), Ema(closes, b.longWindow), Rsi(closes, b.rsiPeriod)))
  }

  /** `candles` is what the snapshot returned for `Limit(b)`. */
  function Build(b: Builder, symbol: string, candles: seq<Candle>): Option<Features> {
    FeaturesOf(b, symbol, Closes(candles))
  }

  /**
    There are features from the required count on, with the long average and the index always among them; the
    short average may be missing.
   */
  lemma BuildGives(b: Builder, symbol: string, candles: seq<Candle>)
    ensures var f := Build(b, symbol, candles);
      && (f.Some? <==> |candles| >= b.longWindow && |candles| >= b.rsiPeriod + 1)
      && (f.Some? ==> f.value.smaLong.Some? && f.value.rsi.Some? && f.value.emaLong.Some?)
      && (f.Some? ==> (f.value.smaShort.Some? <==> |candles| >= b.shortWindow))
      && (f.Some? ==> f.value.symbol == symbol && f.value.current == candles[|candles| - 1].close)
  {
    hide Mean;
    hide EmaFold;
    hide RsiOf;
  }
}
