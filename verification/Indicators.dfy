/** The indicators of data/processor/indicators as exact arithmetic on close prices, oldest first. */
module Indicators {
  import opened Options
  import opened Market

  function Sum(s: seq<real>): real {
    if |s| == 0 then 0.0 else Sum(s[..|s| - 1]) + s[|s| - 1]
  }

  function Mean(s: seq<real>): real
    requires |s| > 0
  {
    Sum(s) / |s| as real
  }

  /** The `window` most recent prices, when there are that many. */
  function Recent(prices: seq<real>, window: int): (w: seq<real>)
    requires 1 <= window <= |prices|
    ensures |w| == window
  {
    LastN(prices, window)
  }

  // ---- simple and exponential moving averages ----

  function Sma(prices: seq<real>, window: int): Option<real>
    requires window >= 1
  {
    if |prices| < window then None else Some(Mean(Recent(prices, window)))
  }

  function Smoothing(window: int): real
    requires window >= 1
  {
    2.0 / (window + 1) as real
  }

  function Blend(k: real, price: real, average: real): real {
    price * k + average * (1.0 - k)
  }

  /** The average seeded with the first price and blended with each later one. */
  function EmaFold(prices: seq<real>, k: real): real
    requires |prices| > 0
  {
    var n := |prices| - 1;
    if n == 0 then prices[0] else Blend(k, prices[n], EmaFold(prices[..n], k))
  }

  function Ema(prices: seq<real>, window: int): Option<real>
    requires window >= 1
  {
    if |prices| < window then None else Some(EmaFold(prices, Smoothing(window)))
  }

  method ComputeEma(prices: seq<real>, window: int) returns (average: Option<real>)
    requires window >= 1
    ensures average == Ema(prices, window)
  {
    if |prices| < window {
      return None;
    }
    var k := Smoothing(window);
    var result := prices[0];
    for i := 1 to |prices|
      invariant result == EmaFold(prices[..i], k)
    {
      assert prices[..i + 1][..i] == prices[..i];
      result := Blend(k, prices[i], result);
    }
    assert prices[..|prices|] == prices;
    average := Some(result);
  }

  // ---- relative strength index ----

  function Deltas(prices: seq<real>): (d: seq<real>)
    requires |prices| > 0
    ensures |d| == |prices| - 1
  {
    seq(|prices| - 1, i requires 0 <= i < |prices| - 1 => prices[i + 1] - prices[i])
  }

  function Gains(deltas: seq<real>): (g: seq<real>)
    ensures |g| == |deltas|
  {
    seq(|deltas|, i requires 0 <= i < |deltas| => if deltas[i] > 0.0 then deltas[i] else 0.0)
  }

  function Losses(deltas: seq<real>): (l: seq<real>)
    ensures |l| == |deltas|
  {
    seq(|deltas|, i requires 0 <= i < |deltas| => if deltas[i] < 0.0 then -deltas[i] else 0.0)
  }

  lemma QuotientNonNegative(x: real, y: real)
    requires x >= 0.0 && y > 0.0
    ensures x / y >= 0.0
  {
  }

  /** The index from the average gain and loss; 100 when nothing was lost. */
  function RsiOf(gain: real, loss: real): real
    requires gain >= 0.0 && loss >= 0.0
  {
    if loss == 0.0 then 100.0
    else
      var rs := gain / loss;
      QuotientNonNegative(gain, loss);
      100.0 - 100.0 / (1.0 + rs)
  }

  lemma SumNonNegative(s: seq<real>)
    requires forall i :: 0 <= i < |s| ==> s[i] >= 0.0
    ensures Sum(s) >= 0.0
  {
  }

  function AverageGain(prices: seq<real>, period: int): (g: real)
    requires 1 <= period < |prices|
    ensures g >= 0.0
  {
    var recent := Recent(Gains(Deltas(prices)), period);
    SumNonNegative(recent);
    Mean(recent)
  }

  function AverageLoss(prices: seq<real>, period: int): (l: real)
    requires 1 <= period < |prices|
    ensures l >= 0.0
  {
    var recent := Recent(Losses(Deltas(prices)), period);
    SumNonNegative(recent);
    Mean(recent)
  }

  function Rsi(prices: seq<real>, period: int): Option<real>
    requires period >= 1
  {
    if |prices| < period + 1 then None
    else Some(RsiOf(AverageGain(prices, period), AverageLoss(prices, period)))
  }

  /**
    The index is a number from 0 to 100: 100 exactly when nothing was lost in the window, 0 exactly when
    something was lost and nothing gained.
   */
  lemma RsiInRange(prices: seq<real>, period: int)
    requires 1 <= period < |prices|
    ensures var gain, loss := AverageGain(prices, period), AverageLoss(prices, period);
      exists v :: Rsi(prices, period) == Some(v) && 0.0 <= v <= 100.0
        && (v == 100.0 <==> loss == 0.0) && (v == 0.0 <==> loss > 0.0 && gain == 0.0)
  {
    var gain, loss := AverageGain(prices, period), AverageLoss(prices, period);
    if loss > 0.0 {
      QuotientNonNegative(gain, loss);
      StrengthInRange(gain / loss);
      assert gain / loss * loss == gain;
    }
    hide AverageGain;
    hide AverageLoss;
    assert Rsi(prices, period) == Some(RsiOf(gain, loss));
  }

  lemma StrengthInRange(rs: real)
    requires rs >= 0.0
    ensures 0.0 <= 100.0 - 100.0 / (1.0 + rs) < 100.0
    ensures 100.0 - 100.0 / (1.0 + rs) == 0.0 <==> rs == 0.0
  {
    var q := 100.0 / (1.0 + rs);
    assert q * (1.0 + rs) == 100.0;
    assert q > 0.0;
    assert q + q * rs == 100.0;
    assert q * rs >= 0.0;
  }

  // ---- Bollinger bands ----

  function Times(x: real, y: real): real { x * y }

  function Square(x: real): real { Times(x, x) }

  function SquaredDeviations(s: seq<real>, from: real): real {
    if |s| == 0 then 0.0
    else SquaredDeviations(s[..|s| - 1], from) + Square(s[|s| - 1] - from)
  }

  function Variance(s: seq<real>): real
    requires |s| > 0
  {
    SquaredDeviations(s, Mean(s)) / |s| as real
  }

  datatype Bands = Bands(upper: real, middle: real, lower: real)

  /** The square root is the library's: any function with the two properties below will do. */
  type Root = real -> real

  ghost predicate IsRoot(root: Root) {
    forall v :: v >= 0.0 ==> root(v) >= 0.0 && root(v) * root(v) == v
  }

  function BandsOf(window: seq<real>, numStd: real, root: Root): Bands
    requires |window| > 0
  {
    var middle := Mean(window);
    var band := root(Variance(window)) * numStd;
    Bands(middle + band, middle, middle - band)
  }

  function Bollinger(prices: seq<real>, window: int, numStd: real, root: Root): Option<Bands>
    requires window >= 1
  {
    if |prices| < window then None else Some(BandsOf(Recent(prices, window), numStd, root))
  }
}

/** MACD with its signal line recomputed from every prefix (data/processor/indicators/macd.py). */
module MacdIndicator {
  import opened Options
  import opened Indicators

  datatype Params = Params(fast: int, slow: int, signal: int)
  type Periods = p: Params | p.fast >= 1 && p.slow >= 1 && p.signal >= 1 witness Params(12, 26, 9)

  /** The shortest prefix that contributes to the history. */
  function Start(p: Periods): int {
    if p.slow + p.signal < p.fast then p.fast else p.slow + p.signal
  }

  function Line(prices: seq<real>, p: Periods): real
    requires |prices| > 0
  {
    EmaFold(prices, Smoothing(p.fast)) - EmaFold(prices, Smoothing(p.slow))
  }

  /** The MACD line of every long enough prefix, shortest first. */
  function LineHistory(prices: seq<real>, p: Periods): (h: seq<real>)
    ensures |h| == if |prices| < Start(p) then 0 else |prices| - Start(p) + 1
  {
    if |prices| < Start(p) then [] else LineHistory(prices[..|prices| - 1], p) + [Line(prices, p)]
  }

  datatype Reading = Reading(line: real, signalLine: real, histogram: real)

  function Macd(prices: seq<real>, p: Periods): Option<Reading> {
    var history := LineHistory(prices, p);
    if |history| < p.signal then None
    else
      var line, signalLine := Line(prices, p), EmaFold(history, Smoothing(p.signal));
      Some(Reading(line, signalLine, line - signalLine))
  }

  method ComputeMacd(prices: seq<real>, p: Periods) returns (reading: Option<Reading>)
    ensures reading == Macd(prices, p)
  {
    if |prices| < p.slow + p.signal {
      return None;
    }
    var emaFast := ComputeEma(prices, p.fast);
    var emaSlow := ComputeEma(prices, p.slow);
    if emaFast == None || emaSlow == None {
      return None;
    }
    var macdLine := emaFast.value - emaSlow.value;
    var history: seq<real> := [];
    for i := p.signal + p.slow to |prices| + 1
      invariant history == LineHistory(prices[..i - 1], p)
    {
      var sub := prices[..i];
      assert sub[..i - 1] == prices[..i - 1];
      var ef := ComputeEma(sub, p.fast);
      var es := ComputeEma(sub, p.slow);
      if ef != None && es != None {
        history := history + [ef.value - es.value];
      }
    }
    assert prices[..|prices|] == prices;
    if |history| < p.signal {
      return None;
    }
    var signalLine := ComputeEma(history, p.signal);
    if signalLine == None {
      return None;
    }
    reading := Some(Reading(macdLine, signalLine.value, macdLine - signalLine.value));
  }

  /** A reading exists exactly from Start + signal - 1 prices on; for fast <= slow that is slow + 2 * signal - 1. */
  lemma MacdReady(prices: seq<real>, p: Periods)
    ensures Macd(prices, p).Some? <==> |prices| >= Start(p) + p.signal - 1
    ensures p.fast <= p.slow ==> (Macd(prices, p).Some? <==> |prices| >= p.slow + 2 * p.signal - 1)
  {
  }

  // ---- the same numbers in one pass ----

  /** What a single pass has to remember. */
  datatype Online = Online(seen: nat, fastEma: real, slowEma: real, lines: nat, signalEma: real)

  function Feed(o: Online, price: real, p: Periods): Online {
    var fast := if o.seen == 0 then price else Blend(Smoothing(p.fast), price, o.fastEma);
    var slow := if o.seen == 0 then price else Blend(Smoothing(p.slow), price, o.slowEma);
    var line := fast - slow;
    if o.seen + 1 < Start(p) then Online(o.seen + 1, fast, slow, o.lines, o.signalEma)
    else
      Online(o.seen + 1, fast, slow, o.lines + 1,
             if o.lines == 0 then line else Blend(Smoothing(p.signal), line, o.signalEma))
  }

  function OnePass(prices: seq<real>, p: Periods): Online {
    if |prices| == 0 then Online(0, 0.0, 0.0, 0, 0.0)
    else Feed(OnePass(prices[..|prices| - 1], p), prices[|prices| - 1], p)
  }

  function OnlineReading(o: Online, p: Periods): Option<Reading> {
    if o.lines < p.signal then None
    else Some(Reading(o.fastEma - o.slowEma, o.signalEma, o.fastEma - o.slowEma - o.signalEma))
  }

  lemma {:induction false} OnePassAverages(prices: seq<real>, p: Periods)
    ensures var o := OnePass(prices, p);
      && o.seen == |prices|
      && (|prices| > 0 ==> o.fastEma == EmaFold(prices, Smoothing(p.fast)))
      && (|prices| > 0 ==> o.slowEma == EmaFold(prices, Smoothing(p.slow)))
  {
    hide Blend;
    hide Smoothing;
    if |prices| > 1 {
      OnePassAverages(prices[..|prices| - 1], p);
      FoldStep(prices, Smoothing(p.fast));
      FoldStep(prices, Smoothing(p.slow));
      hide EmaFold;
    }
  }

  lemma {:induction false} OnePassSignal(prices: seq<real>, p: Periods)
    ensures var o := OnePass(prices, p);
      && o.lines == |LineHistory(prices, p)|
      && (o.lines > 0 ==> o.signalEma == EmaFold(LineHistory(prices, p), Smoothing(p.signal)))
  {
    hide Blend;
    hide Smoothing;
    if |prices| > 0 {
      var n := |prices| - 1;
      OnePassSignal(prices[..n], p);
      OnePassAverages(prices[..n], p);
      OnePassAverages(prices, p);
      var h := LineHistory(prices[..n], p);
      if |prices| >= Start(p) {
        assert LineHistory(prices, p) == h + [Line(prices, p)];
        assert (h + [Line(prices, p)])[..|h|] == h;
        if |h| > 0 { FoldStep(LineHistory(prices, p), Smoothing(p.signal)); hide EmaFold; }
      }
    }
  }

  lemma OnePassState(prices: seq<real>, p: Periods)
    ensures var o := OnePass(prices, p);
      && o.seen == |prices|
      && o.lines == |LineHistory(prices, p)|
      && (|prices| > 0 ==> o.fastEma == EmaFold(prices, Smoothing(p.fast)))
      && (|prices| > 0 ==> o.slowEma == EmaFold(prices, Smoothing(p.slow)))
      && (o.lines > 0 ==> o.signalEma == EmaFold(LineHistory(prices, p), Smoothing(p.signal)))
  {
    OnePassAverages(prices, p);
    OnePassSignal(prices, p);
  }

  lemma FoldStep(s: seq<real>, k: real)
    requires |s| > 1
    ensures EmaFold(s, k) == Blend(k, s[|s| - 1], EmaFold(s[..|s| - 1], k))
  {
  }

  /** Recomputing the averages of every prefix gives the reading a single pass gives. */
  lemma MacdIsOnePass(prices: seq<real>, p: Periods)
    ensures Macd(prices, p) == OnlineReading(OnePass(prices, p), p)
  {
    hide Blend;
    hide Smoothing;
    OnePassState(prices, p);
    hide EmaFold;
    hide OnePass;
    hide LineHistory;
  }
}
