/** Laws of whole backtests that hold for every strategy. */
module RunLaws {
  import opened Options
  import opened Signals
  import opened Market
  import opened Indicators
  import opened FeatureBuilding
  import opened Strategies
  import opened Ledger
  import opened Backtest
  import opened Affine

  /** The i-th signal is the reaction to the closes visible at that candle, given the memory so far. */
  lemma {:induction false} SignalAt(r: Rules, root: Root, symbol: string, memory: Memory, candles: seq<Candle>, i: nat)
    requires i < |candles|
    ensures Process(r, root, symbol, memory, candles).1[i]
         == React(r, root, symbol, Process(r, root, symbol, memory, candles[..i]).0,
                  Visible(r, symbol, candles[..i + 1])).1
  {
    hide React;
    hide Visible;
    var n := |candles| - 1;
    if i < n {
      SignalAt(r, root, symbol, memory, candles[..n], i);
      assert candles[..n][..i] == candles[..i] && candles[..n][..i + 1] == candles[..i + 1];
    } else {
      assert candles[..i + 1] == candles;
    }
  }

  /** A run in which nothing ever says buy ends with the cash it began with and no trade. */
  lemma {:induction false} NoBuyNoTrade(cfg: Config, symbol: string, initial: real, bars: seq<Bar>)
    requires |bars| > 0
    requires forall i :: 0 <= i < |bars| ==> bars[i].signal != Some(BUY)
    ensures var b := Play(cfg, symbol, initial, bars); b.account == Account(initial, None) && b.trades == []
    ensures var b := RunLedger(cfg, symbol, initial, bars); b.account.balance == initial && b.trades == []
  {
    var n := |bars| - 1;
    if n > 0 { NoBuyNoTrade(cfg, symbol, initial, bars[..n]); }
  }

  // ---- the unit of account ----

  function RescaleCandles(candles: seq<Candle>, a: real, c: real): (t: seq<Candle>)
    ensures |t| == |candles|
  {
    seq(|candles|, i requires 0 <= i < |candles| => candles[i].(close := Move(a, c, candles[i].close)))
  }

  lemma {:induction false} HistoryRescaled(candles: seq<Candle>, symbol: string, a: real, c: real)
    ensures History(RescaleCandles(candles, a, c), symbol) == RescaleCandles(History(candles, symbol), a, c)
  {
    hide Move;
    if |candles| > 0 {
      var n := |candles| - 1;
      HistoryRescaled(candles[..n], symbol, a, c);
      assert RescaleCandles(candles, a, c)[..n] == RescaleCandles(candles[..n], a, c);
    }
  }

  lemma VisibleRescaled(r: Rules, symbol: string, candles: seq<Candle>, a: real, c: real)
    ensures Visible(r, symbol, RescaleCandles(candles, a, c)) == Rescale(Visible(r, symbol, candles), a, c)
  {
    hide Move;
    HistoryRescaled(candles, symbol, a, c);
  }

  lemma ReactRescaled(r: Rules, root: Root, symbol: string, memory: Memory, closes: seq<real>, a: real, c: real)
    requires IsRoot(root) && a > 0.0
    ensures React(r, root, symbol, memory, Rescale(closes, a, c)) == React(r, root, symbol, memory, closes)
  {
    ViewRescaled(r, root, symbol, closes, a, c);
    hide Look;
    hide Emit;
  }

  /** Quoting the closes in another unit changes no signal and no memory of any of the four strategies. */
  lemma {:induction false} SignalsIgnoreTheUnit(r: Rules, root: Root, symbol: string, memory: Memory,
                                                candles: seq<Candle>, a: real, c: real)
    requires IsRoot(root) && a > 0.0
    ensures Process(r, root, symbol, memory, RescaleCandles(candles, a, c)) == Process(r, root, symbol, memory, candles)
    decreases |candles|
  {
    hide React;
    hide Visible;
    hide Move;
    if |candles| > 0 {
      var n := |candles| - 1;
      SignalsIgnoreTheUnit(r, root, symbol, memory, candles[..n], a, c);
      assert RescaleCandles(candles, a, c)[..n] == RescaleCandles(candles[..n], a, c);
      VisibleRescaled(r, symbol, candles, a, c);
      ReactRescaled(r, root, symbol, Process(r, root, symbol, memory, candles[..n]).0, Visible(r, symbol, candles),
                    a, c);
    }
  }

  // ---- the order of the candle list ----

  ghost predicate InOrder(candles: seq<Candle>) {
    forall i, j :: 0 <= i < j < |candles| ==> candles[i].timestamp <= candles[j].timestamp
  }

  ghost predicate DistinctTimes(candles: seq<Candle>) {
    forall i, j :: 0 <= i < j < |candles| ==> candles[i].timestamp != candles[j].timestamp
  }

  ghost predicate NoLater(candles: seq<Candle>, time: int) {
    forall i :: 0 <= i < |candles| ==> candles[i].timestamp <= time
  }

  lemma AppendInOrder(sorted: seq<Candle>, c: Candle)
    requires InOrder(sorted) && NoLater(sorted, c.timestamp)
    ensures InOrder(sorted + [c])
  {
  }

  lemma {:induction false} InsertNoLater(c: Candle, sorted: seq<Candle>, time: int)
    requires NoLater(sorted, time) && c.timestamp <= time
    ensures NoLater(Insert(c, sorted), time)
  {
    if |sorted| > 0 && sorted[|sorted| - 1].timestamp > c.timestamp {
      InsertNoLater(c, sorted[..|sorted| - 1], time);
    }
  }

  lemma {:induction false} InsertInOrder(c: Candle, sorted: seq<Candle>)
    requires InOrder(sorted)
    ensures InOrder(Insert(c, sorted))
  {
    if |sorted| > 0 {
      var n := |sorted| - 1;
      if sorted[n].timestamp <= c.timestamp {
        AppendInOrder(sorted, c);
      } else {
        InsertInOrder(c, sorted[..n]);
        InsertNoLater(c, sorted[..n], sorted[n].timestamp);
        AppendInOrder(Insert(c, sorted[..n]), sorted[n]);
      }
    }
  }

  lemma {:induction false} SortInOrder(candles: seq<Candle>)
    ensures InOrder(SortByTime(candles))
  {
    if |candles| > 0 {
      var n := |candles| - 1;
      SortInOrder(candles[..n]);
      InsertInOrder(candles[n], SortByTime(candles[..n]));
    }
  }

  ghost predicate OneAtATime(m: multiset<Candle>) {
    forall x, y :: x in m && y in m && x.timestamp == y.timestamp ==> x == y
  }

  lemma LastIsLatest(s: seq<Candle>, c: Candle)
    requires InOrder(s) && c in multiset(s)
    ensures |s| > 0 && c.timestamp <= s[|s| - 1].timestamp
  {
    var i :| 0 <= i < |s| && s[i] == c;
  }

  lemma WithoutLast(s: seq<Candle>)
    requires |s| > 0
    ensures multiset(s[..|s| - 1]) == multiset(s) - multiset{s[|s| - 1]}
    ensures s[|s| - 1] in multiset(s)
    ensures s == s[..|s| - 1] + [s[|s| - 1]]
    ensures InOrder(s) ==> InOrder(s[..|s| - 1])
  {
    assert s == s[..|s| - 1] + [s[|s| - 1]];
  }

  lemma FewerOneAtATime(m: multiset<Candle>, c: Candle)
    requires OneAtATime(m)
    ensures OneAtATime(m - multiset{c})
  {
  }

  lemma SameLast(s: seq<Candle>, t: seq<Candle>, m: multiset<Candle>)
    requires multiset(s) == m == multiset(t) && InOrder(s) && InOrder(t) && OneAtATime(m) && |s| > 0
    ensures |t| > 0 && s[|s| - 1] == t[|t| - 1]
  {
    WithoutLast(s);
    LastIsLatest(t, s[|s| - 1]);
    WithoutLast(t);
    LastIsLatest(s, t[|t| - 1]);
  }

  /** Two orderings of the same candles with distinct times are the same list. */
  lemma {:induction false} OneOrder(s: seq<Candle>, t: seq<Candle>, m: multiset<Candle>)
    requires multiset(s) == m == multiset(t) && InOrder(s) && InOrder(t) && OneAtATime(m)
    ensures s == t
    decreases |s|
  {
    hide OneAtATime;
    hide InOrder;
    if |s| == 0 {
      assert |multiset(t)| == 0;
    } else {
      SameLast(s, t, m);
      WithoutLast(s);
      WithoutLast(t);
      var c, before, earlier := s[|s| - 1], s[..|s| - 1], t[..|t| - 1];
      FewerOneAtATime(m, c);
      OneOrder(before, earlier, m - multiset{c});
    }
  }

  /** With distinct timestamps the run's candles, and so its result, depend only on which candles were given. */
  lemma OrderDoesNotMatter(given: seq<Candle>, shuffled: seq<Candle>)
    requires multiset(given) == multiset(shuffled) && DistinctTimes(given)
    ensures SortByTime(given) == SortByTime(shuffled)
  {
    SortKeeps(given);
    SortKeeps(shuffled);
    SortInOrder(given);
    SortInOrder(shuffled);
    forall x, y | x in multiset(given) && y in multiset(given) && x.timestamp == y.timestamp
      ensures x == y
    {
      var i :| 0 <= i < |given| && given[i] == x;
      var j :| 0 <= j < |given| && given[j] == y;
    }
    OneOrder(SortByTime(given), SortByTime(shuffled), multiset(given));
  }

  /** A result's period runs from the earliest to the latest of the given candles, and its balances are the run's. */
  lemma PeriodCoversCandles(cfg: Config, r: Rules, root: Root, symbol: string, memory: Memory, initial: real,
                            given: seq<Candle>, c: Candle)
    requires c in given
    ensures |SortByTime(given)| > 0
    ensures var result := ResultOf(cfg, r, root, symbol, memory, initial, SortByTime(given));
      && result.periodStart <= c.timestamp <= result.periodEnd
      && (exists x :: x in given && x.timestamp == result.periodStart)
      && (exists x :: x in given && x.timestamp == result.periodEnd)
      && result.symbol == symbol && result.initialBalance == initial
  {
    SortInOrder(given);
    SortKeeps(given);
    var sorted := SortByTime(given);
    hide SortByTime;
    hide RunLedger;
    hide Replay;
    assert c in multiset(sorted);
    assert sorted[0] in multiset(given) && sorted[|sorted| - 1] in multiset(given);
  }

  // ---- warm-up ----

  /** The strategy gets an indicator value from these closes. */
  predicate Reads(r: Rules, root: Root, symbol: string, closes: seq<real>) {
    var f := FeaturesOf(BuilderFor(r), symbol, closes);
    f.Some? && Look(r, root, f.value).Some?
  }

  /** The fewest visible closes from which the strategy can read. */
  function FirstRead(r: Rules): int {
    match r
    case MaRules(_, l, p) => if l < p + 1 then p + 1 else l
    case RsiRules(p, _, _) => if 20 < p + 1 then p + 1 else 20
    case BollingerRules(w, _) => if 20 < w then w else 20
    case MacdRules(p) =>
      var needed := MacdIndicator.Start(p) + p.signal - 1;
      if 20 < needed then needed else 20
  }

  /** The look-back the strategy asks for reaches that far. */
  predicate CanRead(r: Rules) {
    match r
    case MaRules(_, _, _) => true
    case RsiRules(p, _, _) => p >= 5
    case BollingerRules(w, _) => w >= 5
    case MacdRules(p) => p.slow + p.signal >= 5 && MacdIndicator.Start(p) <= p.slow + 16
  }

  lemma LookReads(r: Rules, root: Root, symbol: string, closes: seq<real>)
    ensures Reads(r, root, symbol, closes) <==> |closes| >= FirstRead(r)
  {
    hide EmaFold;
    hide Mean;
    hide AverageGain;
    hide AverageLoss;
    hide RsiOf;
    hide Smoothing;
    hide BandsOf;
    hide MacdIndicator.LineHistory;
    match r
    case MaRules(_, _, _) =>
    case RsiRules(_, _, _) =>
    case BollingerRules(_, _) =>
    case MacdRules(p) =>
      MacdIndicator.MacdReady(closes, p);
      hide MacdIndicator.Macd;
  }

  lemma VisibleCount(r: Rules, symbol: string, candles: seq<Candle>)
    ensures var n := |History(candles, symbol)|;
      |Visible(r, symbol, candles)| == if n < RequiredCandles(r) then n else RequiredCandles(r)
  {
  }

  /**
    A strategy reads at a candle exactly when its symbol has had FirstRead candles and its own look-back
    is long enough; a strategy for which it is not never reads at all.
   */
  lemma ReadsWhen(r: Rules, root: Root, symbol: string, candles: seq<Candle>)
    ensures Reads(r, root, symbol, Visible(r, symbol, candles))
       <==> CanRead(r) && |History(candles, symbol)| >= FirstRead(r)
  {
    VisibleCount(r, symbol, candles);
    LookReads(r, root, symbol, Visible(r, symbol, candles));
    hide Reads;
    hide Visible;
    hide History;
  }

  /** MACD with fast <= slow: read from candle max(20, slow + 2 * signal - 1) on if signal <= 16, else never. */
  lemma MacdReadsWhen(p: MacdIndicator.Periods, root: Root, symbol: string, candles: seq<Candle>)
    requires p.fast <= p.slow && p.slow + p.signal >= 5
    ensures var n := |History(candles, symbol)|;
      Reads(MacdRules(p), root, symbol, Visible(MacdRules(p), symbol, candles))
      <==> p.signal <= 16 && n >= 20 && n >= p.slow + 2 * p.signal - 1
  {
    ReadsWhen(MacdRules(p), root, symbol, candles);
  }

  /** A strategy that cannot read never trades: every run returns the initial balance. */
  lemma BlindStrategyNeverTrades(cfg: Config, r: Rules, root: Root, symbol: string, memory: Memory, initial: real,
                                 candles: seq<Candle>)
    requires !CanRead(r) && |candles| > 0
    ensures var result := ResultOf(cfg, r, root, symbol, memory, initial, candles);
      result.finalBalance == initial && result.trades == []
  {
    var bars := Replay(r, root, symbol, memory, candles);
    forall i | 0 <= i < |bars| ensures bars[i].signal != Some(BUY) {
      SignalAt(r, root, symbol, memory, candles, i);
      ReadsWhen(r, root, symbol, candles[..i + 1]);
    }
    NoBuyNoTrade(cfg, symbol, initial, bars);
  }
}
