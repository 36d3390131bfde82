/** On a price series that only rises or only falls the crossover strategy never buys. */
module MonotoneRuns {
  import opened Options
  import opened Signals
  import opened Market
  import opened Indicators
  import opened FeatureBuilding
  import opened Strategies
  import opened Ledger
  import opened Backtest
  import opened RunLaws
  import opened Affine

  ghost predicate NonDecreasing(s: seq<real>) {
    forall i, j :: 0 <= i < j < |s| ==> s[i] <= s[j]
  }

  ghost predicate NonIncreasing(s: seq<real>) {
    forall i, j :: 0 <= i < j < |s| ==> s[i] >= s[j]
  }

  // ---- the average of the latest prices against a longer one ----

  lemma {:induction false} SumSplit(s: seq<real>, n: int)
    requires 0 <= n <= |s|
    ensures Sum(s) == Sum(s[..n]) + Sum(s[n..])
    decreases |s|
  {
    if n < |s| {
      var m := |s| - 1;
      SumSplit(s[..m], n);
      assert s[..m][..n] == s[..n] && s[..m][n..] == s[n..][..|s| - n - 1];
    } else {
      assert s[..n] == s;
    }
  }

  lemma {:induction false} SumBounds(s: seq<real>, low: real, high: real)
    requires forall i :: 0 <= i < |s| ==> low <= s[i] <= high
    ensures Times(low, |s| as real) <= Sum(s) <= Times(high, |s| as real)
  {
    if |s| > 0 {
      var n := |s| - 1;
      SumBounds(s[..n], low, high);
      TimesAdd(low, n as real, 1.0);
      TimesAdd(high, n as real, 1.0);
      TimesOne(low);
      TimesOne(high);
      assert |s| as real == n as real + 1.0;
      hide Times;
    }
  }

  lemma TimesOne(x: real)
    ensures Times(x, 1.0) == x
  {
  }

  lemma AtMostQuotient(x: real, y: real, n: real)
    requires n > 0.0 && Times(x, n) <= y
    ensures x <= y / n
  {
  }

  /** From a <= p * k and p * n <= b: the mean b/n of the n latest is at least the mean (a + b)/(k + n) of them all. */
  lemma LatestAverageArithmetic(a: real, b: real, pivot: real, k: real, n: real)
    requires k >= 0.0 && n > 0.0 && a <= Times(pivot, k) && Times(pivot, n) <= b
    ensures (a + b) / (k + n) <= b / n
  {
    var m := b / n;
    assert m * n == b;
    AtMostQuotient(pivot, b, n);
    assert pivot * k <= m * k;
    assert a + b <= m * (k + n);
    var q := (a + b) / (k + n);
    assert q * (k + n) == a + b;
  }

  lemma LatestMeanHighest(s: seq<real>, short: int, long: int)
    requires NonDecreasing(s) && 1 <= short <= long <= |s|
    ensures Mean(Recent(s, long)) <= Mean(Recent(s, short))
  {
    hide Times;
    var w, k := Recent(s, long), long - short;
    assert Recent(s, short) == w[k..];
    SumSplit(w, k);
    var pivot := w[k];
    SumBounds(w[..k], w[0], pivot);
    SumBounds(w[k..], pivot, w[|w| - 1]);
    hide Sum;
    assert long as real == k as real + short as real;
    LatestAverageArithmetic(Sum(w[..k]), Sum(w[k..]), pivot, k as real, short as real);
  }

  lemma MinusOne(x: real)
    ensures Move(-1.0, 0.0, x) == -x
  {
  }

  lemma LatestMeanLowest(s: seq<real>, short: int, long: int)
    requires NonIncreasing(s) && 1 <= short <= long <= |s|
    ensures Mean(Recent(s, long)) >= Mean(Recent(s, short))
  {
    hide Move;
    hide Mean;
    var t := Rescale(s, -1.0, 0.0);
    forall i | 0 <= i < |s| ensures t[i] == -s[i] { MinusOne(s[i]); }
    LatestMeanHighest(t, short, long);
    RescaleLastN(s, -1.0, 0.0, short);
    RescaleLastN(s, -1.0, 0.0, long);
    MeanRescaled(Recent(s, short), -1.0, 0.0);
    MeanRescaled(Recent(s, long), -1.0, 0.0);
    MinusOne(Mean(Recent(s, short)));
    MinusOne(Mean(Recent(s, long)));
  }

  // ---- no loss means an index of 100 ----

  lemma NoLossOverbought(s: seq<real>, period: int)
    requires NonDecreasing(s) && 1 <= period < |s|
    ensures Rsi(s, period) == Some(100.0)
  {
    var recent := Recent(Losses(Deltas(s)), period);
    forall i | 0 <= i < |recent| ensures recent[i] == 0.0 {
      var j := |s| - 1 - period + i;
      assert Deltas(s)[j] == s[j + 1] - s[j];
      assert recent[i] == Losses(Deltas(s))[j];
    }
    SumOfZeros(recent);
  }

  lemma {:induction false} SumOfZeros(s: seq<real>)
    requires forall i :: 0 <= i < |s| ==> s[i] == 0.0
    ensures Sum(s) == 0.0
  {
    if |s| > 0 { SumOfZeros(s[..|s| - 1]); }
  }

  // ---- the run ----

  /** The positions, in order, from which a subsequence is taken. */
  ghost predicate Picks(part: seq<Candle>, all: seq<Candle>, at: seq<int>) {
    && |at| == |part|
    && (forall i :: 0 <= i < |at| ==> 0 <= at[i] < |all| && part[i] == all[at[i]])
    && forall i, j :: 0 <= i < j < |at| ==> at[i] < at[j]
  }

  lemma PicksOneMore(part: seq<Candle>, all: seq<Candle>, at: seq<int>, c: Candle)
    requires Picks(part, all, at)
    ensures Picks(part, all + [c], at) && Picks(part + [c], all + [c], at + [|all|])
  {
  }

  /** The history of one symbol is a subsequence of the candles. */
  lemma {:induction false} HistoryIndex(candles: seq<Candle>, symbol: string) returns (at: seq<int>)
    ensures Picks(History(candles, symbol), candles, at)
  {
    if |candles| == 0 {
      at := [];
    } else {
      var n := |candles| - 1;
      var before := HistoryIndex(candles[..n], symbol);
      PicksOneMore(History(candles[..n], symbol), candles[..n], before, candles[n]);
      assert candles == candles[..n] + [candles[n]];
      at := if candles[n].symbol == symbol then before + [n] else before;
      assert History(candles[..n], symbol) + [] == History(candles[..n], symbol);
      hide Picks;
    }
  }

  ghost predicate Monotone(s: seq<real>) { NonDecreasing(s) || NonIncreasing(s) }

  lemma VisibleMonotone(r: Rules, symbol: string, candles: seq<Candle>)
    requires Monotone(Closes(candles))
    ensures Monotone(Visible(r, symbol, candles))
  {
    var at := HistoryIndex(candles, symbol);
    var h, all := History(candles, symbol), Closes(candles);
    var closes := Visible(r, symbol, candles);
    var drop := |h| - |closes|;
    forall i | 0 <= i < |closes| ensures closes[i] == all[at[drop + i]] {
      assert LastN(h, Limit(BuilderFor(r)))[i] == h[drop + i];
    }
  }

  /** Rising prices are overbought whenever the averages cross up; falling prices never cross up. */
  lemma NoBuyOnMonotone(r: Rules, root: Root, symbol: string, memory: Memory, closes: seq<real>)
    requires r.MaRules? && r.shortWindow <= r.longWindow && Monotone(closes)
    ensures React(r, root, symbol, memory, closes).1 != Some(BUY)
  {
    hide Mean;
    hide RsiOf;
    var b := BuilderFor(r);
    if |closes| >= Required(b) {
      if NonDecreasing(closes) {
        NoLossOverbought(closes, b.rsiPeriod);
      } else {
        LatestMeanLowest(closes, b.shortWindow, b.longWindow);
      }
    }
  }

  /**
    A crossover backtest over closes that never fall, or never rise, makes no trade and returns the initial
    balance, whatever the strategy remembered.
   */
  lemma MonotoneRunDoesNotTrade(cfg: Config, r: Rules, root: Root, symbol: string, memory: Memory, initial: real,
                                candles: seq<Candle>)
    requires r.MaRules? && r.shortWindow <= r.longWindow
    requires |candles| > 0 && Monotone(Closes(candles))
    ensures var result := ResultOf(cfg, r, root, symbol, memory, initial, candles);
      result.finalBalance == initial && result.trades == []
  {
    hide React;
    var bars := Replay(r, root, symbol, memory, candles);
    forall i | 0 <= i < |bars| ensures bars[i].signal != Some(BUY) {
      SignalAt(r, root, symbol, memory, candles, i);
      PrefixMonotone(candles, i + 1);
      VisibleMonotone(r, symbol, candles[..i + 1]);
      NoBuyOnMonotone(r, root, symbol, Process(r, root, symbol, memory, candles[..i]).0,
                      Visible(r, symbol, candles[..i + 1]));
    }
    NoBuyNoTrade(cfg, symbol, initial, bars);
  }

  lemma PrefixMonotone(candles: seq<Candle>, n: int)
    requires 0 <= n <= |candles| && Monotone(Closes(candles))
    ensures Monotone(Closes(candles[..n]))
  {
    assert Closes(candles[..n]) == Closes(candles)[..n];
  }
}
