/** The figures a backtest reports about its trades (BacktestResult), and what they leave out. */
module Results {
  import opened Options
  import opened Ledger
  import opened LedgerLaws

  function Keep(trades: seq<Trade>, p: Trade -> bool): seq<Trade> {
    if |trades| == 0 then []
    else Keep(trades[..|trades| - 1], p) + if p(trades[|trades| - 1]) then [trades[|trades| - 1]] else []
  }

  predicate IsSale(t: Trade) { t.side == Sell }
  predicate IsWin(t: Trade) { t.pnl > 0.0 }
  predicate IsLoss(t: Trade) { t.pnl <= 0.0 }

  function SellTrades(trades: seq<Trade>): seq<Trade> { Keep(trades, IsSale) }
  function WinningTrades(trades: seq<Trade>): seq<Trade> { Keep(SellTrades(trades), IsWin) }
  function LosingTrades(trades: seq<Trade>): seq<Trade> { Keep(SellTrades(trades), IsLoss) }

  function WinRate(trades: seq<Trade>): real {
    if |SellTrades(trades)| == 0 then 0.0 else |WinningTrades(trades)| as real / |SellTrades(trades)| as real
  }

  /** Total profit over total loss; no value stands for infinity. */
  function ProfitFactor(trades: seq<Trade>): Option<real> {
    var profit, loss := TotalPnl(WinningTrades(trades)), Abs(TotalPnl(LosingTrades(trades)));
    if loss == 0.0 then (if profit > 0.0 then None else Some(0.0)) else Some(profit / loss)
  }

  function ReturnPct(initial: real, final: real): real {
    if initial == 0.0 then 0.0 else (final - initial) / initial * 100.0
  }

  // ---- sums over parts of the list ----

  lemma KeepOneMore(trades: seq<Trade>, t: Trade, p: Trade -> bool)
    ensures Keep(trades + [t], p) == Keep(trades, p) + if p(t) then [t] else []
  {
    assert (trades + [t])[..|trades|] == trades;
  }

  lemma WinsAndLossesOneMore(sales: seq<Trade>, t: Trade)
    ensures var wins, losses := Keep(sales, IsWin), Keep(sales, IsLoss);
      if t.pnl > 0.0 then Keep(sales + [t], IsWin) == wins + [t] && Keep(sales + [t], IsLoss) == losses
      else Keep(sales + [t], IsWin) == wins && Keep(sales + [t], IsLoss) == losses + [t]
  {
    KeepOneMore(sales, t, IsWin);
    KeepOneMore(sales, t, IsLoss);
    hide Keep;
  }

  lemma {:induction false} Partition(sales: seq<Trade>)
    ensures var wins, losses := Keep(sales, IsWin), Keep(sales, IsLoss);
      && TotalPnl(sales) == TotalPnl(wins) + TotalPnl(losses)
      && |sales| == |wins| + |losses|
      && TotalPnl(wins) >= 0.0 >= TotalPnl(losses)
  {
    if |sales| > 0 {
      var n := |sales| - 1;
      assert sales == sales[..n] + [sales[n]];
      Partition(sales[..n]);
      WinsAndLossesOneMore(sales[..n], sales[n]);
      TotalPnlAppend(Keep(sales[..n], IsWin), sales[n]);
      TotalPnlAppend(Keep(sales[..n], IsLoss), sales[n]);
      TotalPnlAppend(sales[..n], sales[n]);
      hide Keep;
      hide TotalPnl;
    }
  }

  /** The sales are the winners and the losers together. */
  lemma WinsAndLosses(trades: seq<Trade>)
    ensures var wins, losses := WinningTrades(trades), LosingTrades(trades);
      && TotalPnl(SellTrades(trades)) == TotalPnl(wins) + TotalPnl(losses)
      && |SellTrades(trades)| == |wins| + |losses|
      && TotalPnl(wins) >= 0.0 >= TotalPnl(losses)
  {
    Partition(SellTrades(trades));
  }

  // ---- what the figures are ----

  lemma {:induction false} KeepsExactly(trades: seq<Trade>, p: Trade -> bool, t: Trade)
    ensures multiset(Keep(trades, p))[t] == if p(t) then multiset(trades)[t] else 0
  {
    if |trades| > 0 {
      var n := |trades| - 1;
      KeepsExactly(trades[..n], p, t);
      assert trades == trades[..n] + [trades[n]];
    }
  }

  /** Of every trade the winners keep all copies if it is a sale with a profit, the losers if it is one without. */
  lemma WinnersAndLosersAre(trades: seq<Trade>, t: Trade)
    ensures multiset(SellTrades(trades))[t] == if t.side == Sell then multiset(trades)[t] else 0
    ensures multiset(WinningTrades(trades))[t] == if t.side == Sell && t.pnl > 0.0 then multiset(trades)[t] else 0
    ensures multiset(LosingTrades(trades))[t] == if t.side == Sell && t.pnl <= 0.0 then multiset(trades)[t] else 0
  {
    KeepsExactly(trades, IsSale, t);
    KeepsExactly(SellTrades(trades), IsWin, t);
    KeepsExactly(SellTrades(trades), IsLoss, t);
    hide Keep;
  }

  /** The win rate is the share of winners among the sales. */
  lemma WinRateIs(trades: seq<Trade>)
    ensures WinRate(trades) * |SellTrades(trades)| as real == |WinningTrades(trades)| as real
    ensures SellTrades(trades) == [] ==> WinRate(trades) == 0.0
  {
    WinsAndLosses(trades);
    hide SellTrades;
    hide WinningTrades;
    hide LosingTrades;
    if |SellTrades(trades)| > 0 { BackToWhole(|WinningTrades(trades)| as real, |SellTrades(trades)| as real); }
  }

  lemma BackToWhole(x: real, y: real)
    requires y != 0.0
    ensures x / y * y == x
  {
  }

  /** The profit factor is the winners' profit over the losers' loss; infinite, or zero, where nothing was lost. */
  lemma ProfitFactorIs(trades: seq<Trade>)
    ensures var profit, loss := TotalPnl(WinningTrades(trades)), -TotalPnl(LosingTrades(trades));
      && (loss == 0.0 ==> ProfitFactor(trades) == if profit > 0.0 then None else Some(0.0))
      && (loss != 0.0 ==> ProfitFactor(trades).Some? && ProfitFactor(trades).value * loss == profit)
  {
    WinsAndLosses(trades);
    var profit, loss := TotalPnl(WinningTrades(trades)), -TotalPnl(LosingTrades(trades));
    assert Abs(TotalPnl(LosingTrades(trades))) == loss;
    hide TotalPnl;
    hide WinningTrades;
    hide LosingTrades;
    if loss != 0.0 { BackToWhole(profit, loss); }
  }

  lemma ReturnPctIs(initial: real, final: real)
    ensures ReturnPct(initial, final) * initial == if initial == 0.0 then 0.0 else (final - initial) * 100.0
    ensures initial == 0.0 ==> ReturnPct(initial, final) == 0.0
  {
    if initial != 0.0 { BackToWhole(final - initial, initial); }
  }

  // ---- what the figures mean ----

  /** The win rate is a fraction of the sales: one exactly when every sale won, zero exactly when none did. */
  lemma WinRateMeans(trades: seq<Trade>)
    ensures 0.0 <= WinRate(trades) <= 1.0
    ensures WinRate(trades) == 1.0 <==> LosingTrades(trades) == [] && SellTrades(trades) != []
    ensures WinRate(trades) == 0.0 <==> WinningTrades(trades) == []
  {
    WinsAndLosses(trades);
    var wins, sales := |WinningTrades(trades)|, |SellTrades(trades)|;
    hide SellTrades;
    hide WinningTrades;
    hide LosingTrades;
    if sales > 0 { Fraction(wins, sales); }
  }

  lemma Fraction(k: nat, n: nat)
    requires k <= n && n > 0
    ensures 0.0 <= k as real / n as real <= 1.0
    ensures k as real / n as real == 1.0 <==> k == n
    ensures k as real / n as real == 0.0 <==> k == 0
  {
    var q := k as real / n as real;
    assert q * n as real == k as real;
  }

  /** A profit factor above one, or infinite, means exactly that the sales it counts made money together. */
  lemma ProfitFactorMeans(trades: seq<Trade>)
    ensures (ProfitFactor(trades) == None || ProfitFactor(trades).value > 1.0) <==> TotalPnl(SellTrades(trades)) > 0.0
  {
    WinsAndLosses(trades);
    var profit, loss := TotalPnl(WinningTrades(trades)), -TotalPnl(LosingTrades(trades));
    assert loss == Abs(TotalPnl(LosingTrades(trades)));
    hide TotalPnl;
    hide WinningTrades;
    hide LosingTrades;
    if loss != 0.0 { AboveOne(profit, loss); }
  }

  lemma AboveOne(profit: real, loss: real)
    requires loss > 0.0
    ensures profit / loss > 1.0 <==> profit > loss
  {
    var q := profit / loss;
    assert q * loss == profit;
  }

  // ---- what they leave out ----

  lemma PlaySellsOnly(cfg: Config, symbol: string, a: Account, bar: Bar)
    ensures var trades := Execute(cfg, symbol, a, bar).1;
      trades == [] || (|trades| == 1 && (trades[0].side == Sell || (trades[0].side == Buy && trades[0].pnl == 0.0)))
  {
    hide BuyGoesThrough;
    hide BuyQuantity;
    hide Value;
    hide Fee;
  }

  predicate AllProfitOnSales(trades: seq<Trade>) { TotalPnl(trades) == TotalPnl(SellTrades(trades)) }

  lemma OneMoreTrade(trades: seq<Trade>, more: seq<Trade>)
    requires AllProfitOnSales(trades)
    requires more == [] || (|more| == 1 && (more[0].side == Sell || (more[0].side == Buy && more[0].pnl == 0.0)))
    ensures AllProfitOnSales(trades + more)
  {
    hide Keep;
    hide TotalPnl;
    if more == [] {
      assert trades + more == trades;
    } else {
      assert more == [more[0]];
      TotalPnlAppend(trades, more[0]);
      TotalPnlAppend(SellTrades(trades), more[0]);
      KeepOneMore(trades, more[0], IsSale);
      assert SellTrades(trades) + [] == SellTrades(trades);
    }
  }

  /** Before the forced close every reported profit sits on an ordinary sale. */
  lemma {:induction false} PlayPnlIsSales(cfg: Config, symbol: string, initial: real, bars: seq<Bar>)
    ensures AllProfitOnSales(Play(cfg, symbol, initial, bars).trades)
  {
    hide Execute;
    if |bars| > 0 {
      hide AllProfitOnSales;
      var n := |bars| - 1;
      PlayPnlIsSales(cfg, symbol, initial, bars[..n]);
      var before := Play(cfg, symbol, initial, bars[..n]);
      PlaySellsOnly(cfg, symbol, before.account, bars[n]);
      OneMoreTrade(before.trades, Execute(cfg, symbol, before.account, bars[n]).1);
    }
  }

  function ForcedPnl(cfg: Config, b: Book, last: Bar): real {
    match b.account.holding
    case None => 0.0
    case Some(h) => SellPnl(cfg, h, last.close)
  }

  lemma FiguresFollowTheSales(x: seq<Trade>, y: seq<Trade>)
    requires SellTrades(x) == SellTrades(y)
    ensures WinRate(x) == WinRate(y) && ProfitFactor(x) == ProfitFactor(y)
  {
    hide SellTrades;
  }

  /**
    The forced close carries its own label, so every figure over the sales is the one of the run without it;
    all the profit of the run is then the sales' and the forced close's.
   */
  lemma ForcedCloseIsUncounted(cfg: Config, symbol: string, initial: real, bars: seq<Bar>)
    requires |bars| > 0
    ensures var b, r := Play(cfg, symbol, initial, bars), RunLedger(cfg, symbol, initial, bars);
      && SellTrades(r.trades) == SellTrades(b.trades)
      && WinRate(r.trades) == WinRate(b.trades) && ProfitFactor(r.trades) == ProfitFactor(b.trades)
      && TotalPnl(r.trades) == TotalPnl(SellTrades(r.trades)) + ForcedPnl(cfg, b, bars[|bars| - 1])
  {
    hide SellPnl;
    hide SellAccount;
    hide WinRate;
    hide ProfitFactor;
    PlayPnlIsSales(cfg, symbol, initial, bars);
    var b, r, last := Play(cfg, symbol, initial, bars), RunLedger(cfg, symbol, initial, bars), bars[|bars| - 1];
    if b.account.holding.Some? {
      var sale := SellTrade(cfg, symbol, b.account.holding.value, last.close, last.timestamp).(side := ForceClose);
      TotalPnlAppend(b.trades, sale);
      KeepOneMore(b.trades, sale, IsSale);
      assert r.trades == b.trades + [sale];
    }
    hide Play;
    hide Keep;
    hide TotalPnl;
    FiguresFollowTheSales(r.trades, b.trades);
  }

  /**
    What the reported profit factor says about the money: the return is the profit of the counted sales plus the
    forced close's, up to half a cent a trade.  So when nothing was force-closed a factor above one means a
    return above minus that bound, and otherwise the forced close can turn the sign.
   */
  lemma ReturnBehindTheFigures(cfg: Config, symbol: string, initial: real, bars: seq<Bar>)
    requires |bars| > 0
    ensures var b, r := Play(cfg, symbol, initial, bars), RunLedger(cfg, symbol, initial, bars);
      var gained := r.account.balance - initial;
      var counted := TotalPnl(WinningTrades(r.trades)) - Abs(TotalPnl(LosingTrades(r.trades)));
      var slack := 0.005 * |r.trades| as real;
      && Abs(gained - counted - ForcedPnl(cfg, b, bars[|bars| - 1])) <= slack
      && (b.account.holding == None && (ProfitFactor(r.trades) == None || ProfitFactor(r.trades).value > 1.0)
          ==> gained > -slack)
  {
    hide Play;
    hide RunLedger;
    hide SellTrades;
    hide WinningTrades;
    hide LosingTrades;
    hide WinRate;
    hide ProfitFactor;
    hide ForcedPnl;
    hide TotalPnl;
    var b, r := Play(cfg, symbol, initial, bars), RunLedger(cfg, symbol, initial, bars);
    ForcedCloseIsUncounted(cfg, symbol, initial, bars);
    PnlMatchesCash(cfg, symbol, initial, bars);
    NothingForced(cfg, b, bars[|bars| - 1]);
    WinsAndLosses(r.trades);
    ProfitFactorMeans(r.trades);
  }

  lemma NothingForced(cfg: Config, b: Book, last: Bar)
    ensures b.account.holding == None ==> ForcedPnl(cfg, b, last) == 0.0
  {
  }
}
