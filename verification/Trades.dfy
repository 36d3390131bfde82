/**
  What the trades of a backtest are in plain numbers: sizes, fees, prices and cash, each rounding by the rule of
  Rounding.IsRounded and by nothing else.
 */
module Trades {
  import opened Options
  import opened Rounding
  import opened Signals
  import opened Ledger
  import opened Positions

  function Times(x: real, y: real): real { x * y }

  /** The fee on an amount of money, in whole cents. */
  ghost predicate IsFee(fee: real, amount: real, rate: real) {
    IsRounded(fee, Times(amount, rate), 100.0)
  }

  /** A quantity in whole hundred-millionths. */
  ghost predicate IsQuantity(q: real, amount: real, price: real) {
    price != 0.0 && IsRounded(q, amount / price, 100_000_000.0)
  }

  /**
    The quantity a purchase comes to: the order amount at the price, unless that with its fee costs more than the
    balance, and then what the balance buys at the price with fee.
   */
  ghost predicate IsSize(cfg: Config, balance: real, price: real, q: real) {
    exists wanted, fee :: IsSizeBy(cfg, balance, price, q, wanted, fee)
  }

  ghost predicate IsSizeBy(cfg: Config, balance: real, price: real, q: real, wanted: real, fee: real) {
    && IsQuantity(wanted, Times(balance, cfg.orderRatio), price)
    && IsFee(fee, Times(wanted, price), cfg.feeRate)
    && if Times(wanted, price) + fee > balance
       then IsQuantity(q, balance, Times(price, 1.0 + cfg.feeRate))
       else q == wanted
  }

  lemma FeeIsFee(cfg: Config, q: real, price: real)
    ensures IsFee(Fee(cfg, Value(q, price)), Times(q, price), cfg.feeRate)
  {
    var amount := Value(q, price);
    assert amount == Times(q, price);
    QuantizeIsRounded(ExactFee(cfg, amount));
    assert ExactFee(cfg, amount) == Times(amount, cfg.feeRate);
    hide IsRounded;
    hide Quantize;
    hide Value;
    hide Times;
    hide ExactFee;
  }

  lemma WantedIsQuantity(cfg: Config, balance: real, price: real)
    requires price != 0.0
    ensures IsQuantity(Wanted(cfg, balance, price), Times(balance, cfg.orderRatio), price)
  {
    assert OrderAmount(cfg, balance) == Times(balance, cfg.orderRatio);
    QuantizeIsRounded(OrderAmount(cfg, balance) / price);
    hide IsRounded;
    hide Quantize;
    hide OrderAmount;
    hide Times;
  }

  lemma TimesZero(x: real, y: real)
    ensures Times(x, y) == 0.0 <==> x == 0.0 || y == 0.0
  {
    if x != 0.0 && x * y == 0.0 { assert y == x * y / x; }
  }

  lemma GrossIs(cfg: Config, price: real)
    ensures Gross(cfg, price) == Times(price, 1.0 + cfg.feeRate)
  {
  }

  lemma AffordableIsQuantity(cfg: Config, balance: real, price: real)
    requires price != 0.0 && cfg.feeRate != -1.0
    ensures IsQuantity(Affordable(cfg, balance, price), balance, Times(price, 1.0 + cfg.feeRate))
  {
    GrossIs(cfg, price);
    TimesZero(price, 1.0 + cfg.feeRate);
    hide Times;
    hide Gross;
    hide IsRounded;
    hide Quantize;
    QuantizeIsRounded(balance / Gross(cfg, price));
  }

  lemma CostIs(cfg: Config, q: real, price: real)
    ensures Cost(cfg, q, price) == Times(q, price) + Fee(cfg, Value(q, price))
  {
    hide Fee;
  }

  lemma SizeIsSize(cfg: Config, balance: real, price: real)
    requires Divides(cfg, balance, price)
    ensures IsSize(cfg, balance, price, BuyQuantity(cfg, balance, price))
  {
    var wanted := Wanted(cfg, balance, price);
    FeeIsFee(cfg, wanted, price);
    WantedIsQuantity(cfg, balance, price);
    CostIs(cfg, wanted, price);
    if Oversized(cfg, balance, price) { AffordableIsQuantity(cfg, balance, price); }
    hide IsFee;
    hide IsQuantity;
    hide Wanted;
    hide Affordable;
    hide Cost;
    hide Fee;
    hide Times;
    hide Value;
    assert IsSizeBy(cfg, balance, price, BuyQuantity(cfg, balance, price), wanted, Fee(cfg, Value(wanted, price)));
  }

  lemma SizeOnce(cfg: Config, balance: real, price: real, q: real)
    requires IsSize(cfg, balance, price, q)
    ensures Divides(cfg, balance, price) && q == BuyQuantity(cfg, balance, price)
  {
    hide Wanted;
    hide Affordable;
    hide Cost;
    hide Fee;
    hide Times;
    hide Value;
    hide IsRounded;
    var wanted, fee :| IsSizeBy(cfg, balance, price, q, wanted, fee);
    WantedIsQuantity(cfg, balance, price);
    RoundedOnce(wanted, Wanted(cfg, balance, price), Times(balance, cfg.orderRatio) / price, 100_000_000.0);
    FeeIsFee(cfg, wanted, price);
    RoundedOnce(fee, Fee(cfg, Value(wanted, price)), Times(Times(wanted, price), cfg.feeRate), 100.0);
    CostIs(cfg, wanted, price);
    if Times(wanted, price) + fee > balance {
      TimesZero(price, 1.0 + cfg.feeRate);
      AffordableIsQuantity(cfg, balance, price);
      RoundedOnce(q, Affordable(cfg, balance, price), balance / Times(price, 1.0 + cfg.feeRate), 100_000_000.0);
    }
  }

  /** The order amount is above 1000 and it has a size, which is positive. */
  ghost predicate Buys(cfg: Config, balance: real, price: real) {
    Times(balance, cfg.orderRatio) > 1000.0 && exists q :: q > 0.0 && IsSize(cfg, balance, price, q)
  }

  /** Exactly then a purchase happens. */
  lemma BuysWhen(cfg: Config, balance: real, price: real)
    ensures BuyGoesThrough(cfg, balance, price) <==> Buys(cfg, balance, price)
  {
    assert OrderAmount(cfg, balance) == Times(balance, cfg.orderRatio);
    hide OrderAmount;
    hide Times;
    hide IsSize;
    hide Divides;
    hide BuyQuantity;
    if Divides(cfg, balance, price) { SizeIsSize(cfg, balance, price); }
    if q :| q > 0.0 && IsSize(cfg, balance, price, q) { SizeOnce(cfg, balance, price, q); }
  }

  /** The order amount is above 1000 and has no size: some division on the way is by zero. */
  ghost predicate Raises(cfg: Config, balance: real, price: real) {
    Times(balance, cfg.orderRatio) > 1000.0 && forall q :: !IsSize(cfg, balance, price, q)
  }

  /** Exactly then a purchase raises. */
  lemma RaisesWhen(cfg: Config, balance: real, price: real)
    ensures BuyRaises(cfg, balance, price) <==> Raises(cfg, balance, price)
  {
    assert OrderAmount(cfg, balance) == Times(balance, cfg.orderRatio);
    hide OrderAmount;
    hide Times;
    hide IsSize;
    hide Divides;
    hide BuyQuantity;
    if Divides(cfg, balance, price) { SizeIsSize(cfg, balance, price); }
    if q :| IsSize(cfg, balance, price, q) { SizeOnce(cfg, balance, price, q); }
  }

  // ---- one bar ----

  function PaidFor(a: Account): real {
    match a.holding
    case None => 0.0
    case Some(h) => Times(h.quantity, h.avgPrice)
  }

  /** A purchase at this bar: what it trades, what it takes from the cash and what is held afterwards. */
  ghost predicate IsPurchase(cfg: Config, symbol: string, a: Account, bar: Bar, t: Trade, after: Account) {
    && t.symbol == symbol && t.side == Buy && t.price == bar.close && t.timestamp == bar.timestamp && t.pnl == 0.0
    && t.quantity > 0.0 && IsSize(cfg, a.balance, bar.close, t.quantity)
    && IsFee(t.fee, Times(t.quantity, bar.close), cfg.feeRate)
    && after.balance == a.balance - (Times(t.quantity, bar.close) + t.fee)
    && after.holding.Some?
    && after.holding.value.quantity == Held(a) + t.quantity
    && PaidFor(after) == PaidFor(a) + Times(t.quantity, bar.close)
  }

  /** The profit of selling a lot: proceeds less the sale fee, its cost and a fee on that cost. */
  ghost predicate IsProfit(pnl: real, fee: real, quantity: real, price: real, avgPrice: real, rate: real) {
    exists costFee :: IsFee(costFee, Times(quantity, avgPrice), rate)
      && pnl == Times(quantity, price) - fee - Times(quantity, avgPrice) - costFee
  }

  /** The sale of everything held. */
  ghost predicate IsSaleOf(cfg: Config, symbol: string, h: Holding, bar: Bar, t: Trade) {
    && t.symbol == symbol && t.price == bar.close && t.timestamp == bar.timestamp && t.quantity == h.quantity
    && IsFee(t.fee, Times(h.quantity, bar.close), cfg.feeRate)
    && IsProfit(t.pnl, t.fee, h.quantity, bar.close, h.avgPrice, cfg.feeRate)
  }

  lemma PoolIs(a: Account, quantity: real, price: real)
    requires quantity > 0.0
    ensures var h := Pool(a.holding, quantity, price);
      && h.quantity == Held(a) + quantity
      && Times(h.quantity, h.avgPrice) == PaidFor(a) + Times(quantity, price)
  {
    if a.holding.Some? {
      var h := a.holding.value;
      var total, cost := h.quantity + quantity, Value(h.quantity, h.avgPrice) + Value(quantity, price);
      assert total * (cost / total) == cost;
    }
  }

  lemma BuyMeans(cfg: Config, symbol: string, a: Account, price: real, timestamp: int)
    requires BuyGoesThrough(cfg, a.balance, price)
    ensures IsPurchase(cfg, symbol, a, Bar(price, timestamp, Some(BUY)),
                       BuyTrade(cfg, symbol, a.balance, price, timestamp), BuyAccount(cfg, a, price))
  {
    var q := BuyQuantity(cfg, a.balance, price);
    SizeIsSize(cfg, a.balance, price);
    FeeIsFee(cfg, q, price);
    CostIs(cfg, q, price);
    PoolIs(a, q, price);
    hide IsSize;
    hide IsFee;
    hide BuyQuantity;
    hide Cost;
    hide Fee;
    hide Pool;
    hide Value;
    hide Times;
    hide Oversized;
  }

  lemma SellMeans(cfg: Config, symbol: string, h: Holding, price: real, timestamp: int)
    ensures var t := SellTrade(cfg, symbol, h, price, timestamp);
      && t.side == Sell && IsSaleOf(cfg, symbol, h, Bar(price, timestamp, Some(SELL)), t)
      && SellAccount(cfg, Account(0.0, Some(h)), price) == Account(Times(h.quantity, price) - t.fee, None)
  {
    FeeIsFee(cfg, h.quantity, price);
    FeeIsFee(cfg, h.quantity, h.avgPrice);
    assert Value(h.quantity, price) == Times(h.quantity, price);
    assert Value(h.quantity, h.avgPrice) == Times(h.quantity, h.avgPrice);
    hide IsFee;
    hide Fee;
    hide Value;
    hide Times;
    assert IsProfit(SellPnl(cfg, h, price), Fee(cfg, Value(h.quantity, price)), h.quantity, price, h.avgPrice,
                    cfg.feeRate);
  }

  /** What each bar of a run does, in plain numbers. */
  lemma ExecuteMeans(cfg: Config, symbol: string, a: Account, bar: Bar)
    ensures var (after, trades) := Execute(cfg, symbol, a, bar);
      match bar.signal
      case Some(BUY) =>
        if Buys(cfg, a.balance, bar.close)
        then |trades| == 1 && IsPurchase(cfg, symbol, a, bar, trades[0], after)
        else trades == [] && after == a
      case Some(SELL) =>
        if a.holding.Some?
        then |trades| == 1 && trades[0].side == Sell && IsSaleOf(cfg, symbol, a.holding.value, bar, trades[0])
             && after == Account(a.balance + (Times(Held(a), bar.close) - trades[0].fee), None)
        else trades == [] && after == a
      case _ => trades == [] && after == a
  {
    BuysWhen(cfg, a.balance, bar.close);
    hide Buys;
    hide IsSize;
    hide IsFee;
    hide BuyGoesThrough;
    hide Times;
    if bar.signal == Some(BUY) && BuyGoesThrough(cfg, a.balance, bar.close) {
      BuyMeans(cfg, symbol, a, bar.close, bar.timestamp);
    }
    if bar.signal == Some(SELL) && a.holding.Some? {
      SellMeans(cfg, symbol, a.holding.value, bar.close, bar.timestamp);
    }
    hide BuyTrade;
    hide BuyAccount;
    hide SellTrade;
    hide Fee;
    hide IsProfit;
    hide PaidFor;
    hide Value;
  }

  // ---- whole runs ----

  /**
    The figures of the i-th trade: its fee in whole cents, and for a sale, forced or not, the profit of the position
    its earlier trades leave.
   */
  ghost predicate HasFigures(cfg: Config, trades: seq<Trade>, i: nat)
    requires i < |trades|
  {
    var t, p := trades[i], After(FillsOf(trades[..i]));
    && IsFee(t.fee, Times(t.quantity, t.price), cfg.feeRate)
    && (t.side == Side.Buy ==> t.pnl == 0.0)
    && (t.side != Side.Buy ==>
          t.quantity == p.quantity && IsProfit(t.pnl, t.fee, t.quantity, t.price, p.avgPrice, cfg.feeRate))
  }

  ghost predicate FeesCharged(cfg: Config, trades: seq<Trade>) {
    forall i :: 0 <= i < |trades| ==> FeeCharged(cfg, trades[i])
  }

  predicate FeeCharged(cfg: Config, t: Trade) {
    t.fee == Fee(cfg, Value(t.quantity, t.price)) && (t.side == Side.Buy ==> t.pnl == 0.0)
  }

  lemma BarCharges(cfg: Config, symbol: string, a: Account, bar: Bar)
    ensures FeesCharged(cfg, Execute(cfg, symbol, a, bar).1)
  {
    hide Value;
    hide Fee;
    hide BuyQuantity;
    hide Divides;
    hide SellPnl;
  }

  lemma {:induction false} PlayCharges(cfg: Config, symbol: string, initial: real, bars: seq<Bar>)
    ensures FeesCharged(cfg, Play(cfg, symbol, initial, bars).trades)
  {
    hide Execute;
    hide FeeCharged;
    if |bars| > 0 {
      var n := |bars| - 1;
      PlayCharges(cfg, symbol, initial, bars[..n]);
      BarCharges(cfg, symbol, Play(cfg, symbol, initial, bars[..n]).account, bars[n]);
    }
  }

  lemma RunCharges(cfg: Config, symbol: string, initial: real, bars: seq<Bar>)
    requires |bars| > 0
    ensures FeesCharged(cfg, RunLedger(cfg, symbol, initial, bars).trades)
  {
    PlayCharges(cfg, symbol, initial, bars);
    hide Play;
    hide Value;
    hide Fee;
    hide SellPnl;
  }

  lemma UnrealizedIs(p: Position, price: real)
    ensures p.UnrealizedPnl(price) == Times(p.quantity, price) - Times(p.quantity, p.avgPrice)
  {
    ProfitSplits(p.quantity, price, p.avgPrice);
  }

  /** Every trade of every run, the forced close included, has these figures. */
  lemma RunFigures(cfg: Config, symbol: string, initial: real, bars: seq<Bar>, i: nat)
    requires |bars| > 0 && i < |RunLedger(cfg, symbol, initial, bars).trades|
    ensures HasFigures(cfg, RunLedger(cfg, symbol, initial, bars).trades, i)
  {
    var trades := RunLedger(cfg, symbol, initial, bars).trades;
    RunCharges(cfg, symbol, initial, bars);
    SalePnlIsUnrealized(cfg, symbol, initial, bars, i);
    hide RunLedger;
    var t, p := trades[i], After(FillsOf(trades[..i]));
    assert FeeCharged(cfg, t);
    FeeIsFee(cfg, t.quantity, t.price);
    FeeIsFee(cfg, p.quantity, p.avgPrice);
    UnrealizedIs(p, t.price);
    hide IsFee;
    hide Fee;
    hide Times;
    hide Value;
    hide After;
    if t.side != Side.Buy {
      assert IsFee(Fee(cfg, Value(p.quantity, p.avgPrice)), Times(t.quantity, p.avgPrice), cfg.feeRate);
    }
  }

  /** The recorded equity: the opening balance, then at each candle the cash and holding before it at its close. */
  lemma {:induction false} EquityHistoryIs(cfg: Config, symbol: string, initial: real, bars: seq<Bar>)
    ensures var equity := Play(cfg, symbol, initial, bars).equity;
      && |equity| == |bars| + 1 && equity[0] == initial
      && forall i :: 0 <= i < |bars| ==>
           var a := Play(cfg, symbol, initial, bars[..i]).account;
           equity[i + 1] == a.balance + Times(Held(a), bars[i].close)
  {
    hide Execute;
    hide Times;
    hide Value;
    if |bars| > 0 {
      var n := |bars| - 1;
      EquityHistoryIs(cfg, symbol, initial, bars[..n]);
      var a := Play(cfg, symbol, initial, bars[..n]).account;
      ValueIsTimes(Held(a), bars[n].close);
      forall i | 0 <= i < n ensures bars[..n][..i] == bars[..i] { }
    }
  }

  lemma ValueIsTimes(x: real, y: real)
    ensures Value(x, y) == Times(x, y)
  {
  }
}
