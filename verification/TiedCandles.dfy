/** Candles with equal timestamps: the sort keeps them in list order, and a run can depend on that order. */
module TiedCandles {
  import opened Options
  import opened Rounding
  import opened Signals
  import opened Market
  import opened Indicators
  import opened FeatureBuilding
  import opened Strategies
  import opened Ledger
  import opened Backtest
  import opened RunLaws
  import opened SignalWindows

  /** The candles of one timestamp, in list order. */
  function At(candles: seq<Candle>, time: int): seq<Candle> {
    if |candles| == 0 then []
    else
      var n := |candles| - 1;
      At(candles[..n], time) + if candles[n].timestamp == time then [candles[n]] else []
  }

  lemma AtAppend(candles: seq<Candle>, c: Candle, time: int)
    ensures At(candles + [c], time) == At(candles, time) + if c.timestamp == time then [c] else []
  {
    assert (candles + [c])[..|candles|] == candles;
  }

  lemma {:induction false} InsertIsStable(c: Candle, sorted: seq<Candle>, time: int)
    ensures At(Insert(c, sorted), time) == At(sorted, time) + if c.timestamp == time then [c] else []
  {
    AtAppend(sorted, c, time);
    if |sorted| == 0 {
      assert sorted + [c] == [c];
    } else {
      var n := |sorted| - 1;
      if sorted[n].timestamp > c.timestamp {
        InsertIsStable(c, sorted[..n], time);
        AtAppend(Insert(c, sorted[..n]), sorted[n], time);
      }
    }
  }

  /** Sorting keeps the candles of every timestamp in the order they were given. */
  lemma {:induction false} SortIsStable(candles: seq<Candle>, time: int)
    ensures At(SortByTime(candles), time) == At(candles, time)
  {
    if |candles| > 0 {
      var n := |candles| - 1;
      SortIsStable(candles[..n], time);
      InsertIsStable(candles[n], SortByTime(candles[..n]), time);
    }
  }

  lemma {:induction false} SortedStays(candles: seq<Candle>)
    requires InOrder(candles)
    ensures SortByTime(candles) == candles
  {
    if |candles| > 0 {
      var n := |candles| - 1;
      SortedStays(candles[..n]);
      assert candles == candles[..n] + [candles[n]];
    }
  }

  // ---- two runs over the same candles ----

  const RULES: Rules := MaRules(1, 2, 2)
  const CFG: Config := Settings(0.0, 0.8)

  function Quote(price: real, time: int): Candle {
    Candle("BTC", "1m", price, price, price, price, 1.0, time)
  }

  /** Four candles, the last two of them at the same time. */
  function Four(third: real, fourth: real): seq<Candle> {
    [Quote(100.0, 1), Quote(50.0, 2), Quote(third, 3), Quote(fourth, 3)]
  }

  lemma {:induction false} OneHistory(candles: seq<Candle>, symbol: string)
    requires forall i :: 0 <= i < |candles| ==> candles[i].symbol == symbol
    ensures History(candles, symbol) == candles
  {
    if |candles| > 0 {
      var n := |candles| - 1;
      OneHistory(candles[..n], symbol);
      assert candles == candles[..n] + [candles[n]];
    }
  }

  lemma AllVisible(third: real, fourth: real, i: nat)
    requires i <= 4
    ensures Visible(RULES, "BTC", Four(third, fourth)[..i]) == Closes(Four(third, fourth)[..i])
  {
    OneHistory(Four(third, fourth)[..i], "BTC");
    hide History;
  }

  lemma MeanOfOne(x: real)
    ensures Mean([x]) == x
  {
    assert [x][..0] == [];
    assert Sum([x]) == x;
  }

  lemma MeanOfTwo(x: real, y: real)
    ensures Mean([x, y]) == (x + y) / 2.0
  {
    assert [x, y][..1] == [x] && [x][..0] == [];
    assert Sum([x]) == x;
    assert Sum([x, y]) == x + y;
  }

  /** The averages after three closes that fall and then rise. */
  lemma ThreeCloses(third: real, fourth: real)
    requires third > 50.0
    ensures AveragesAt(RULES, "BTC", Four(third, fourth)[..3])
         == Some(Averages(Some(third), Some((50.0 + third) / 2.0), Some(RsiOf((third - 50.0) / 2.0, 25.0))))
  {
    AllVisible(third, fourth, 3);
    var s := [100.0, 50.0, third];
    assert Closes(Four(third, fourth)[..3]) == s;
    assert Recent(s, 1) == [third] && Recent(s, 2) == [50.0, third];
    assert Deltas(s) == [-50.0, third - 50.0];
    assert Recent(Gains(Deltas(s)), 2) == [0.0, third - 50.0];
    assert Recent(Losses(Deltas(s)), 2) == [50.0, 0.0];
    MeanOfOne(third);
    MeanOfTwo(50.0, third);
    MeanOfTwo(0.0, third - 50.0);
    MeanOfTwo(50.0, 0.0);
    hide Mean;
    hide Visible;
    hide RsiOf;
    hide EmaFold;
  }

  lemma FourCloses(third: real, fourth: real)
    ensures var a := AveragesAt(RULES, "BTC", Four(third, fourth)[..4]);
      a.Some? && a.value.short == Some(fourth) && a.value.long == Some((third + fourth) / 2.0)
  {
    AllVisible(third, fourth, 4);
    var s := [100.0, 50.0, third, fourth];
    assert Closes(Four(third, fourth)[..4]) == s;
    assert Recent(s, 1) == [fourth] && Recent(s, 2) == [third, fourth];
    MeanOfOne(fourth);
    MeanOfTwo(third, fourth);
    hide Mean;
    hide Visible;
    hide AverageGain;
    hide AverageLoss;
    hide RsiOf;
    hide EmaFold;
  }

  lemma TooFew(third: real, fourth: real, i: nat)
    requires i <= 2
    ensures AveragesAt(RULES, "BTC", Four(third, fourth)[..i]) == None
  {
    AllVisible(third, fourth, i);
    hide Visible;
  }

  function SignalAtCandle(root: Root, third: real, fourth: real, i: nat): Option<SignalType>
    requires i < 4
  {
    Process(RULES, root, "BTC", map[], Four(third, fourth)).1[i]
  }

  lemma QuietStart(root: Root, third: real, fourth: real, i: nat)
    requires i <= 1
    ensures SignalAtCandle(root, third, fourth, i) == None
  {
    hide AveragesAt;
    hide Process;
    TooFew(third, fourth, i + 1);
    CrossoverSignals(RULES, root, "BTC", Four(third, fourth), i);
    OnlyThreeKinds(SignalAtCandle(root, third, fourth, i));
  }

  lemma OnlyThreeKinds(s: Option<SignalType>)
    ensures s == None || s == Some(BUY) || s == Some(SELL) || s == Some(HOLD)
  {
    if s.Some? { assert s.value.BUY? || s.value.SELL? || s.value.HOLD?; }
  }

  /** At the third close the averages cross upwards; the index decides. */
  lemma ThirdSignal(root: Root, third: real, fourth: real)
    requires third > 50.0
    ensures SignalAtCandle(root, third, fourth, 2)
         == if RsiOf((third - 50.0) / 2.0, 25.0) > 70.0 then None else Some(BUY)
  {
    hide AveragesAt;
    hide Process;
    hide RsiOf;
    TooFew(third, fourth, 2);
    ThreeCloses(third, fourth);
    CrossoverSignals(RULES, root, "BTC", Four(third, fourth), 2);
    OnlyThreeKinds(SignalAtCandle(root, third, fourth, 2));
  }

  /** The fourth close is no new upward cross; if it is higher it is none at all. */
  lemma FourthSignal(root: Root, third: real, fourth: real)
    requires third > 50.0
    ensures SignalAtCandle(root, third, fourth, 3) != Some(BUY)
    ensures fourth > third ==> SignalAtCandle(root, third, fourth, 3) == None
  {
    hide AveragesAt;
    hide Process;
    hide RsiOf;
    ThreeCloses(third, fourth);
    FourCloses(third, fourth);
    assert Four(third, fourth)[..4] == Four(third, fourth);
    CrossoverSignals(RULES, root, "BTC", Four(third, fourth), 3);
    OnlyThreeKinds(SignalAtCandle(root, third, fourth, 3));
  }

  lemma Strengths()
    ensures RsiOf(15.0, 25.0) == 37.5 && RsiOf(75.0, 25.0) == 75.0
  {
  }

  lemma QuietBar(cfg: Config, symbol: string, initial: real, bars: seq<Bar>)
    requires |bars| > 0 && bars[|bars| - 1].signal == None
    ensures Play(cfg, symbol, initial, bars).account == Play(cfg, symbol, initial, bars[..|bars| - 1]).account
  {
  }

  /** The final account after two quiet bars, a purchase and another quiet bar. */
  lemma BuyAtThird(cfg: Config, symbol: string, initial: real, bars: seq<Bar>)
    requires |bars| == 4 && bars[0].signal == None && bars[1].signal == None
    requires bars[2].signal == Some(BUY) && bars[3].signal == None
    ensures RunLedger(cfg, symbol, initial, bars).account
         == SellAccount(cfg, BuyAccount(cfg, Account(initial, None), bars[2].close), bars[3].close)
  {
    hide BuyAccount;
    hide Execute;
    hide Value;
    hide Fee;
    assert bars[..3][..2] == bars[..2] && bars[..2][..1] == bars[..1] && bars[..1][..0] == [];
    assert Play(cfg, symbol, initial, []).account == Account(initial, None);
    BuyBar(cfg, symbol, Account(initial, None), bars[2]);
    assert Play(cfg, symbol, initial, bars[..3]).account
        == Execute(cfg, symbol, Play(cfg, symbol, initial, bars[..2]).account, bars[2]).0;
    hide Play;
    QuietBar(cfg, symbol, initial, bars[..1]);
    QuietBar(cfg, symbol, initial, bars[..2]);
    QuietBar(cfg, symbol, initial, bars);
  }

  lemma BuyBar(cfg: Config, symbol: string, a: Account, bar: Bar)
    requires bar.signal == Some(BUY)
    ensures Execute(cfg, symbol, a, bar).0 == BuyAccount(cfg, a, bar.close)
  {
    hide BuyQuantity;
    hide Divides;
    hide OrderAmount;
  }

  /** Buying for 8000 at 80 and selling at 200. */
  lemma OneHundredCoins()
    ensures SellAccount(CFG, BuyAccount(CFG, Account(10000.0, None), 80.0), 200.0) == Account(22000.0, None)
  {
    assert OrderAmount(CFG, 10000.0) / 80.0 == 100.0;
    RoundUnique(100.0 * Scale(Satoshi), 10_000_000_000);
    assert Wanted(CFG, 10000.0, 80.0) == 100.0;
    RoundUnique(0.0, 0);
    assert Fee(CFG, Value(100.0, 80.0)) == 0.0 && Fee(CFG, Value(100.0, 200.0)) == 0.0;
    hide Quantize;
  }

  function BarsOfFour(root: Root, third: real, fourth: real): (bars: seq<Bar>)
    ensures |bars| == 4
  {
    Replay(RULES, root, "BTC", map[], Four(third, fourth))
  }

  lemma BarAt(root: Root, third: real, fourth: real, i: nat)
    requires i < 4
    ensures BarsOfFour(root, third, fourth)[i]
         == Bar(Four(third, fourth)[i].close, Four(third, fourth)[i].timestamp, SignalAtCandle(root, third, fourth, i))
  {
    hide Process;
  }

  lemma FirstOrder(root: Root)
    ensures RunLedger(CFG, "BTC", 10000.0, BarsOfFour(root, 80.0, 200.0)).account.balance == 22000.0
  {
    hide BarsOfFour;
    hide SignalAtCandle;
    hide RsiOf;
    hide RunLedger;
    hide BuyAccount;
    hide SellAccount;
    BarAt(root, 80.0, 200.0, 0);
    BarAt(root, 80.0, 200.0, 1);
    BarAt(root, 80.0, 200.0, 2);
    BarAt(root, 80.0, 200.0, 3);
    QuietStart(root, 80.0, 200.0, 0);
    QuietStart(root, 80.0, 200.0, 1);
    Strengths();
    ThirdSignal(root, 80.0, 200.0);
    FourthSignal(root, 80.0, 200.0);
    BuyAtThird(CFG, "BTC", 10000.0, BarsOfFour(root, 80.0, 200.0));
    OneHundredCoins();
  }

  lemma SecondOrder(root: Root)
    ensures RunLedger(CFG, "BTC", 10000.0, BarsOfFour(root, 200.0, 80.0)).account.balance == 10000.0
  {
    hide BarsOfFour;
    hide SignalAtCandle;
    hide RsiOf;
    hide RunLedger;
    hide Play;
    QuietStart(root, 200.0, 80.0, 0);
    QuietStart(root, 200.0, 80.0, 1);
    Strengths();
    ThirdSignal(root, 200.0, 80.0);
    FourthSignal(root, 200.0, 80.0);
    forall i | 0 <= i < 4 ensures BarsOfFour(root, 200.0, 80.0)[i].signal != Some(BUY) {
      BarAt(root, 200.0, 80.0, i);
      assert i == 0 || i == 1 || i == 2 || i == 3;
    }
    NoBuyNoTrade(CFG, "BTC", 10000.0, BarsOfFour(root, 200.0, 80.0));
  }

  lemma SwapLast(head: seq<Candle>, x: Candle, y: Candle)
    ensures multiset(head + [x] + [y]) == multiset(head + [y] + [x])
  {
  }

  lemma SameCandles(third: real, fourth: real)
    ensures multiset(Four(third, fourth)) == multiset(Four(fourth, third))
    ensures SortByTime(Four(third, fourth)) == Four(third, fourth)
  {
    SortedStays(Four(third, fourth));
    hide SortByTime;
    var head := [Quote(100.0, 1), Quote(50.0, 2)];
    var x, y := Quote(third, 3), Quote(fourth, 3);
    assert Four(third, fourth) == head + [x] + [y];
    assert Four(fourth, third) == head + [y] + [x];
    hide Quote;
    hide Four;
    SwapLast(head, x, y);
  }

  /**
    The same four candles in two orders that differ only in which of two simultaneous ones comes first: one
    backtest buys at 80 and more than doubles the balance, the other finds the market overbought and buys nothing.
   */
  lemma TiedRunsDiffer(root: Root)
    ensures multiset(Four(80.0, 200.0)) == multiset(Four(200.0, 80.0))
    ensures ResultOf(CFG, RULES, root, "BTC", map[], 10000.0, SortByTime(Four(80.0, 200.0))).finalBalance == 22000.0
    ensures ResultOf(CFG, RULES, root, "BTC", map[], 10000.0, SortByTime(Four(200.0, 80.0))).finalBalance == 10000.0
  {
    hide RunLedger;
    hide Replay;
    hide SortByTime;
    hide Four;
    SameCandles(80.0, 200.0);
    SameCandles(200.0, 80.0);
    FirstOrder(root);
    SecondOrder(root);
  }
}
