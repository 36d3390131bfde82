/** MACD signals alternate, so every MACD position is one purchase and one sale. */
module MacdTrading {
  import opened Options
  import opened Signals
  import opened Market
  import opened Indicators
  import opened Strategies
  import opened Ledger
  import opened LedgerLaws
  import opened Backtest

  /** The most recent signal. */
  function Latest(signals: seq<Option<SignalType>>): Option<SignalType> {
    if |signals| == 0 then None
    else if signals[|signals| - 1].Some? then signals[|signals| - 1]
    else Latest(signals[..|signals| - 1])
  }

  /** Every signal differs from the one before it, and only buys and sells occur. */
  ghost predicate Alternating(signals: seq<Option<SignalType>>) {
    forall i :: 0 <= i < |signals| && signals[i].Some? ==>
      signals[i] != Some(HOLD) && signals[i] != Latest(signals[..i])
  }

  lemma AlternatingAppend(signals: seq<Option<SignalType>>, s: Option<SignalType>)
    requires Alternating(signals) && (s.Some? ==> s != Some(HOLD) && s != Latest(signals))
    ensures Alternating(signals + [s])
    ensures Latest(signals + [s]) == if s.Some? then s else Latest(signals)
  {
    var all := signals + [s];
    assert all[..|signals|] == signals;
    forall i | 0 <= i < |all| && all[i].Some?
      ensures all[i] != Some(HOLD) && all[i] != Latest(all[..i])
    {
      if i < |signals| { assert all[..i] == signals[..i]; }
    }
  }

  /** After a buy the remembered side is above the signal line, after a sell below it. */
  ghost predicate SideMatches(latest: Option<SignalType>, zone: Option<Zone>) {
    && (latest == Some(BUY) ==> zone == Some(Above))
    && (latest == Some(SELL) ==> zone == Some(Below))
  }

  lemma ReactKeepsSide(p: MacdIndicator.Periods, root: Root, symbol: string, memory: Memory, closes: seq<real>,
                       latest: Option<SignalType>)
    requires SideMatches(latest, Recall(memory, symbol))
    ensures var (after, s) := React(MacdRules(p), root, symbol, memory, closes);
      && (s.Some? ==> s != Some(HOLD) && s != latest)
      && SideMatches(if s.Some? then s else latest, Recall(after, symbol))
  {
    hide MacdIndicator.Macd;
  }

  /** The signals of a MACD run strictly alternate, whatever the prices and whatever the strategy remembered before. */
  lemma {:induction false} MacdAlternates(p: MacdIndicator.Periods, root: Root, symbol: string, memory: Memory,
                                          candles: seq<Candle>)
    ensures var (after, signals) := Process(MacdRules(p), root, symbol, memory, candles);
      Alternating(signals) && SideMatches(Latest(signals), Recall(after, symbol))
  {
    hide React;
    hide Visible;
    if |candles| > 0 {
      var n := |candles| - 1;
      MacdAlternates(p, root, symbol, memory, candles[..n]);
      var (before, signals) := Process(MacdRules(p), root, symbol, memory, candles[..n]);
      var closes := Visible(MacdRules(p), symbol, candles);
      ReactKeepsSide(p, root, symbol, before, closes, Latest(signals));
      AlternatingAppend(signals, React(MacdRules(p), root, symbol, before, closes).1);
    }
  }

  // ---- what alternation does to the book ----

  function SignalsOf(bars: seq<Bar>): (s: seq<Option<SignalType>>)
    ensures |s| == |bars|
  {
    seq(|bars|, i requires 0 <= i < |bars| => bars[i].signal)
  }

  /** Trades come in pairs: every second one is a purchase, each followed by what closes it. */
  ghost predicate Paired(trades: seq<Trade>) {
    forall i :: 0 <= i < |trades| ==> (trades[i].side == Buy <==> i % 2 == 0)
  }

  ghost predicate OneAtMost(cfg: Config, initial: real, b: Book, latest: Option<SignalType>) {
    && Paired(b.trades)
    && (b.account.holding.Some? <==> |b.trades| % 2 == 1)
    && (b.account.holding.Some? ==> latest == Some(BUY))
    && OpenFees(b.trades) == (if b.account.holding.Some? then Fee(cfg, Basis(b.account)) else 0.0)
    && Unexplained(initial, b) == 0.0
  }

  lemma PairedAppend(trades: seq<Trade>, t: Trade)
    requires Paired(trades) && (t.side == Buy <==> |trades| % 2 == 0)
    ensures Paired(trades + [t])
  {
  }

  lemma SellOne(cfg: Config, initial: real, b: Book, t: Trade, price: real, latest: Option<SignalType>)
    requires b.account.holding.Some? && t.side != Buy && t.pnl == SellPnl(cfg, b.account.holding.value, price)
    requires OneAtMost(cfg, initial, b, Some(BUY))
    ensures OneAtMost(cfg, initial, Book(SellAccount(cfg, b.account, price), b.trades + [t], b.equity), latest)
  {
    hide Value;
    hide Fee;
    OpenAppend(b.trades, t);
    TotalPnlAppend(b.trades, t);
    PairedAppend(b.trades, t);
    hide OpenFees;
    hide TotalPnl;
    hide Paired;
  }

  lemma BuyOne(cfg: Config, initial: real, b: Book, t: Trade)
    requires t.side == Buy && t.quantity > 0.0 && t.pnl == 0.0 && t.fee == Fee(cfg, Value(t.quantity, t.price))
    requires OneAtMost(cfg, initial, b, Some(SELL)) || OneAtMost(cfg, initial, b, None)
    ensures var a := Account(b.account.balance - (Value(t.quantity, t.price) + t.fee),
                             Some(Pool(b.account.holding, t.quantity, t.price)));
      OneAtMost(cfg, initial, Book(a, b.trades + [t], b.equity), Some(BUY))
  {
    hide Value;
    hide Fee;
    OpenAppend(b.trades, t);
    TotalPnlAppend(b.trades, t);
    PairedAppend(b.trades, t);
    hide OpenFees;
    hide TotalPnl;
    hide Paired;
  }

  lemma StepOne(cfg: Config, symbol: string, initial: real, b: Book, bar: Bar, latest: Option<SignalType>)
    requires OneAtMost(cfg, initial, b, latest)
    requires bar.signal.Some? ==> bar.signal != latest
    requires latest != Some(HOLD) && bar.signal != Some(HOLD)
    ensures OneAtMost(cfg, initial, StepBook(cfg, symbol, b, bar), if bar.signal.Some? then bar.signal else latest)
  {
    hide Value;
    hide Fee;
    hide OpenFees;
    hide TotalPnl;
    hide Paired;
    hide BuyQuantity;
    hide Pool;
    var (account, trades) := Execute(cfg, symbol, b.account, bar);
    if trades == [] {
      assert b.trades + trades == b.trades;
    } else if bar.signal == Some(BUY) {
      BuyOne(cfg, initial, b, trades[0]);
    } else {
      SellOne(cfg, initial, b, trades[0], bar.close, bar.signal);
    }
  }

  lemma {:induction false} PlayOne(cfg: Config, symbol: string, initial: real, bars: seq<Bar>)
    requires Alternating(SignalsOf(bars))
    ensures OneAtMost(cfg, initial, Play(cfg, symbol, initial, bars), Latest(SignalsOf(bars)))
    ensures Latest(SignalsOf(bars)) != Some(HOLD)
  {
    hide StepBook;
    if |bars| == 0 {
      assert TotalPnl([]) == 0.0;
    } else {
      var n := |bars| - 1;
      var s := SignalsOf(bars);
      assert SignalsOf(bars[..n]) == s[..n];
      assert Alternating(s[..n]) by {
        forall i | 0 <= i < n && s[..n][i].Some? ensures s[..n][i] != Some(HOLD) && s[..n][i] != Latest(s[..n][..i]) {
          assert s[..n][..i] == s[..i] && s[i] == s[..n][i];
        }
      }
      PlayOne(cfg, symbol, initial, bars[..n]);
      StepOne(cfg, symbol, initial, Play(cfg, symbol, initial, bars[..n]), bars[n], Latest(s[..n]));
    }
  }

  /**
    Alternating signals give buy/sell pairs, each purchase closed, and profits that equal the change in cash
    exactly.
   */
  lemma AlternatingRun(cfg: Config, symbol: string, initial: real, bars: seq<Bar>)
    requires |bars| > 0 && Alternating(SignalsOf(bars))
    ensures var b := RunLedger(cfg, symbol, initial, bars);
      Paired(b.trades) && |b.trades| % 2 == 0 && TotalPnl(b.trades) == b.account.balance - initial
  {
    PlayOne(cfg, symbol, initial, bars);
    hide Play;
    hide Value;
    hide Fee;
    hide TotalPnl;
    hide OpenFees;
    var b, last := Play(cfg, symbol, initial, bars), bars[|bars| - 1];
    if b.account.holding.Some? {
      var t := SellTrade(cfg, symbol, b.account.holding.value, last.close, last.timestamp).(side := ForceClose);
      SellOne(cfg, initial, b, t, last.close, None);
    }
  }

  /** Every MACD backtest: paired trades, all closed, and no rounding gap between profits and return. */
  lemma MacdBacktest(cfg: Config, p: MacdIndicator.Periods, root: Root, symbol: string, memory: Memory, initial: real,
                     candles: seq<Candle>)
    requires |candles| > 0
    ensures var r := ResultOf(cfg, MacdRules(p), root, symbol, memory, initial, candles);
      Paired(r.trades) && |r.trades| % 2 == 0 && TotalPnl(r.trades) == r.finalBalance - r.initialBalance
  {
    MacdAlternates(p, root, symbol, memory, candles);
    var bars := Replay(MacdRules(p), root, symbol, memory, candles);
    assert SignalsOf(bars) == Process(MacdRules(p), root, symbol, memory, candles).1;
    AlternatingRun(cfg, symbol, initial, bars);
    hide RunLedger;
    hide Process;
  }
}
