/** Conservation laws of the backtest ledger, over every bar sequence and every signal. */
module LedgerLaws {
  import opened Options
  import opened Rounding
  import opened Signals
  import opened Ledger

  lemma TotalFeeAppend(ts: seq<Trade>, t: Trade)
    ensures TotalFee(ts + [t]) == TotalFee(ts) + t.fee
  {
    assert (ts + [t])[..|ts|] == ts;
  }

  lemma TotalPnlAppend(ts: seq<Trade>, t: Trade)
    ensures TotalPnl(ts + [t]) == TotalPnl(ts) + t.pnl
  {
    assert (ts + [t])[..|ts|] == ts;
  }

  lemma ValueAdd(x: real, y: real, price: real)
    ensures Value(x + y, price) == Value(x, price) + Value(y, price)
    ensures Value(0.0, price) == 0.0
  {
  }

  lemma ValueMove(quantity: real, from: real, to: real)
    ensures Value(quantity, to) == Value(quantity, from) + quantity * (to - from)
  {
  }

  // ---- self-financing ----

  lemma BuyEquity(cfg: Config, symbol: string, a: Account, price: real, timestamp: int)
    requires BuyGoesThrough(cfg, a.balance, price)
    ensures Equity(BuyAccount(cfg, a, price), price)
         == Equity(a, price) - BuyTrade(cfg, symbol, a.balance, price, timestamp).fee
  {
    hide Value;
    hide Fee;
    hide BuyQuantity;
    ValueAdd(Held(a), BuyQuantity(cfg, a.balance, price), price);
  }

  /** A trade changes equity at its own price by its fee and by nothing else. */
  lemma ExecuteEquity(cfg: Config, symbol: string, b: Book, bar: Bar)
    ensures var s := StepBook(cfg, symbol, b, bar);
      Equity(s.account, bar.close) == Equity(b.account, bar.close) - (TotalFee(s.trades) - TotalFee(b.trades))
  {
    hide Value;
    hide Fee;
    hide BuyGoesThrough;
    var (account, trades) := Execute(cfg, symbol, b.account, bar);
    ValueAdd(0.0, 0.0, bar.close);
    if trades == [] {
      assert b.trades + trades == b.trades;
    } else {
      TotalFeeAppend(b.trades, trades[0]);
      if bar.signal == Some(BUY) {
        BuyEquity(cfg, symbol, b.account, bar.close, bar.timestamp);
      }
    }
  }

  /** What the market gave: the quantity held over each interval times the move of the close. */
  function MarketGain(cfg: Config, symbol: string, initial: real, bars: seq<Bar>): real
  {
    if |bars| < 2 then 0.0
    else
      var n := |bars| - 1;
      MarketGain(cfg, symbol, initial, bars[..n])
      + Held(Play(cfg, symbol, initial, bars[..n]).account) * (bars[n].close - bars[n - 1].close)
  }

  lemma {:induction false} EquityDuringRun(cfg: Config, symbol: string, initial: real, bars: seq<Bar>)
    requires |bars| > 0
    ensures var b := Play(cfg, symbol, initial, bars);
      Equity(b.account, bars[|bars| - 1].close)
      == initial + MarketGain(cfg, symbol, initial, bars) - TotalFee(b.trades)
  {
    hide Value;
    hide StepBook;
    var n := |bars| - 1;
    var before := Play(cfg, symbol, initial, bars[..n]);
    ExecuteEquity(cfg, symbol, before, bars[n]);
    if n > 0 {
      EquityDuringRun(cfg, symbol, initial, bars[..n]);
      ValueMove(Held(before.account), bars[n - 1].close, bars[n].close);
    } else {
      ValueAdd(0.0, 0.0, bars[n].close);
    }
  }

  /** The run's return is exactly its market gain less every fee paid, forced close included. */
  lemma SelfFinancing(cfg: Config, symbol: string, initial: real, bars: seq<Bar>)
    requires |bars| > 0
    ensures var r := RunLedger(cfg, symbol, initial, bars);
      && r.account.holding == None
      && r.account.balance - initial == MarketGain(cfg, symbol, initial, bars) - TotalFee(r.trades)
  {
    hide Value;
    hide Fee;
    hide MarketGain;
    hide Play;
    EquityDuringRun(cfg, symbol, initial, bars);
    var b := Play(cfg, symbol, initial, bars);
    var last := bars[|bars| - 1];
    ValueAdd(0.0, 0.0, last.close);
    if b.account.holding.Some? {
      TotalFeeAppend(b.trades, SellTrade(cfg, symbol, b.account.holding.value, last.close,
                                         last.timestamp).(side := ForceClose));
    }
  }

  // ---- realised profit against cash ----

  /** Purchases since the position was last flat. */
  function OpenBuys(ts: seq<Trade>): nat {
    if |ts| == 0 || ts[|ts| - 1].side != Buy then 0 else OpenBuys(ts[..|ts| - 1]) + 1
  }

  function OpenFees(ts: seq<Trade>): real {
    if |ts| == 0 || ts[|ts| - 1].side != Buy then 0.0 else OpenFees(ts[..|ts| - 1]) + ts[|ts| - 1].fee
  }

  lemma OpenAppend(ts: seq<Trade>, t: Trade)
    ensures OpenBuys(ts + [t]) == if t.side == Buy then OpenBuys(ts) + 1 else 0
    ensures OpenFees(ts + [t]) == if t.side == Buy then OpenFees(ts) + t.fee else 0.0
  {
    assert (ts + [t])[..|ts|] == ts;
  }

  function Basis(a: Account): real {
    if a.holding.Some? then Value(a.holding.value.quantity, a.holding.value.avgPrice) else 0.0
  }

  /** Cash that the realised profit, the open cost and the open fees do not explain. */
  function Unexplained(initial: real, b: Book): real {
    b.account.balance - initial - TotalPnl(b.trades) + Basis(b.account) + OpenFees(b.trades)
  }

  function Abs(x: real): real { if x < 0.0 then -x else x }

  lemma ExactFeeAdd(cfg: Config, x: real, y: real)
    ensures ExactFee(cfg, x + y) == ExactFee(cfg, x) + ExactFee(cfg, y)
    ensures ExactFee(cfg, 0.0) == 0.0
  {
  }

  ghost predicate Reconciled(cfg: Config, initial: real, b: Book) {
    && OpenBuys(b.trades) <= |b.trades|
    && (b.account.holding == None <==> OpenBuys(b.trades) == 0)
    && (b.account.holding == None ==> OpenFees(b.trades) == 0.0)
    && Abs(OpenFees(b.trades) - ExactFee(cfg, Basis(b.account))) <= 0.005 * OpenBuys(b.trades) as real
    && Abs(Unexplained(initial, b)) <= 0.005 * (|b.trades| - OpenBuys(b.trades)) as real
  }

  lemma PoolBasis(a: Account, quantity: real, price: real)
    requires quantity > 0.0
    ensures Basis(Account(a.balance, Some(Pool(a.holding, quantity, price)))) == Basis(a) + Value(quantity, price)
  {
    if a.holding.Some? {
      var total := a.holding.value.quantity + quantity;
      var cost := Basis(a) + Value(quantity, price);
      assert cost / total * total == cost;
    }
  }

  lemma FeeNear(cfg: Config, value: real)
    ensures Abs(Fee(cfg, value) - ExactFee(cfg, value)) <= 0.005
  {
    QuantizeNear(ExactFee(cfg, value), Cent);
  }

  lemma BuyReconciles(cfg: Config, initial: real, b: Book, t: Trade)
    requires t.side == Buy && t.quantity > 0.0 && t.pnl == 0.0 && t.fee == Fee(cfg, Value(t.quantity, t.price))
    requires Reconciled(cfg, initial, b)
    ensures var a := Account(b.account.balance - (Value(t.quantity, t.price) + t.fee),
                             Some(Pool(b.account.holding, t.quantity, t.price)));
      Reconciled(cfg, initial, Book(a, b.trades + [t], b.equity))
  {
    hide Value;
    hide Fee;
    hide ExactFee;
    hide Pool;
    var value := Value(t.quantity, t.price);
    OpenAppend(b.trades, t);
    TotalPnlAppend(b.trades, t);
    PoolBasis(b.account, t.quantity, t.price);
    FeeNear(cfg, value);
    ExactFeeAdd(cfg, Basis(b.account), value);
    var a := Account(b.account.balance - (value + t.fee), Some(Pool(b.account.holding, t.quantity, t.price)));
    assert Basis(a) == Basis(b.account) + value;
    assert Unexplained(initial, Book(a, b.trades + [t], b.equity)) == Unexplained(initial, b);
  }

  lemma SellReconciles(cfg: Config, initial: real, b: Book, t: Trade, price: real)
    requires b.account.holding.Some? && t.side != Buy
    requires t.pnl == SellPnl(cfg, b.account.holding.value, price)
    requires Reconciled(cfg, initial, b)
    ensures Reconciled(cfg, initial, Book(SellAccount(cfg, b.account, price), b.trades + [t], b.equity))
  {
    hide Value;
    hide Fee;
    hide ExactFee;
    OpenAppend(b.trades, t);
    TotalPnlAppend(b.trades, t);
    FeeNear(cfg, Basis(b.account));
    ExactFeeAdd(cfg, 0.0, 0.0);
    assert Abs(OpenFees(b.trades) - Fee(cfg, Basis(b.account))) <= 0.005 * OpenBuys(b.trades) as real + 0.005;
  }

  lemma StepReconciles(cfg: Config, symbol: string, initial: real, b: Book, bar: Bar)
    requires Reconciled(cfg, initial, b)
    ensures Reconciled(cfg, initial, StepBook(cfg, symbol, b, bar))
  {
    hide Value;
    hide Fee;
    hide ExactFee;
    hide BuyQuantity;
    hide Pool;
    hide SellAccount;
    hide OpenBuys;
    hide OpenFees;
    var (account, trades) := Execute(cfg, symbol, b.account, bar);
    if trades == [] {
      assert b.trades + trades == b.trades;
    } else if bar.signal == Some(BUY) {
      BuyReconciles(cfg, initial, b, trades[0]);
    } else {
      SellReconciles(cfg, initial, b, trades[0], bar.close);
    }
  }

  lemma {:induction false} PlayReconciles(cfg: Config, symbol: string, initial: real, bars: seq<Bar>)
    ensures Reconciled(cfg, initial, Play(cfg, symbol, initial, bars))
  {
    hide StepBook;
    if |bars| > 0 {
      var n := |bars| - 1;
      PlayReconciles(cfg, symbol, initial, bars[..n]);
      StepReconciles(cfg, symbol, initial, Play(cfg, symbol, initial, bars[..n]), bars[n]);
    }
  }

  /**
    The profits reported on the trades add up to the change in cash, up to half a cent a trade: a sale
    charges one rounded fee on the pooled cost where the purchases paid several.
   */
  lemma PnlMatchesCash(cfg: Config, symbol: string, initial: real, bars: seq<Bar>)
    requires |bars| > 0
    ensures var r := RunLedger(cfg, symbol, initial, bars);
      Abs(TotalPnl(r.trades) - (r.account.balance - initial)) <= 0.005 * |r.trades| as real
  {
    hide Value;
    hide Fee;
    hide Play;
    PlayReconciles(cfg, symbol, initial, bars);
    var b, last := Play(cfg, symbol, initial, bars), bars[|bars| - 1];
    if b.account.holding.Some? {
      var t := SellTrade(cfg, symbol, b.account.holding.value, last.close, last.timestamp).(side := ForceClose);
      SellReconciles(cfg, initial, b, t, last.close);
    }
  }
}
