/** The paper-trading portfolio object of backtest/runner.py, proved against the ledger functions. */
module Portfolio {
  import opened Options
  import opened Rounding
  import opened Ledger
  import Drawdown
  import Trades

  type Prices = map<string, real>

  /** A holding is marked at the current price, or at its average price where there is none. */
  function Mark(h: Holding, symbol: string, prices: Prices): real {
    Value(h.quantity, if symbol in prices then prices[symbol] else h.avgPrice)
  }

  ghost function HoldingsValue(holdings: map<string, Holding>, prices: Prices): real {
    if holdings == map[] then 0.0
    else
      var s :| s in holdings;
      Mark(holdings[s], s, prices) + HoldingsValue(holdings - {s}, prices)
  }

  /** The sum does not depend on the order in which holdings are visited. */
  lemma {:induction false} HoldingsValueSplit(holdings: map<string, Holding>, symbol: string, prices: Prices)
    requires symbol in holdings
    ensures HoldingsValue(holdings, prices)
         == Mark(holdings[symbol], symbol, prices) + HoldingsValue(holdings - {symbol}, prices)
    ensures var h := holdings[symbol];
      Mark(h, symbol, prices) == Trades.Times(h.quantity, if symbol in prices then prices[symbol] else h.avgPrice)
    decreases |holdings|
  {
    var h := holdings[symbol];
    var price := if symbol in prices then prices[symbol] else h.avgPrice;
    Trades.ValueIsTimes(h.quantity, price);
    assert Mark(h, symbol, prices) == Trades.Times(h.quantity, price);
    hide Mark;
    hide Trades.Times;
    var s :| s in holdings && HoldingsValue(holdings, prices)
             == Mark(holdings[s], s, prices) + HoldingsValue(holdings - {s}, prices);
    if s != symbol {
      HoldingsValueSplit(holdings - {s}, symbol, prices);
      HoldingsValueSplit(holdings - {symbol}, s, prices);
      assert holdings - {s} - {symbol} == holdings - {symbol} - {s};
    }
  }

  class SimulatedPortfolio {
    var balance: real
    var holdings: map<string, Holding>
    var equityHistory: seq<real>
    const cfg: Config

    constructor (initialBalance: real, feeRate: real, orderRatio: real)
      ensures balance == initialBalance && holdings == map[] && equityHistory == [initialBalance]
      ensures cfg == Settings(feeRate, orderRatio)
    {
      balance, holdings, equityHistory := initialBalance, map[], [initialBalance];
      cfg := Settings(feeRate, orderRatio);
    }

    /** The account the ledger sees for one symbol. */
    function Slot(symbol: string): Account
      reads this
    {
      Account(balance, if symbol in holdings then Some(holdings[symbol]) else None)
    }

    /** A division error leaves everything as it was. */
    method Buy(symbol: string, price: real, timestamp: int) returns (trade: Option<Trade>, raised: bool)
      modifies this`balance, this`holdings
      ensures raised == BuyRaises(cfg, old(balance), price)
      ensures Slot(symbol) == BuyAccount(cfg, old(Slot(symbol)), price)
      ensures trade == if BuyGoesThrough(cfg, old(balance), price)
                       then Some(BuyTrade(cfg, symbol, old(balance), price, timestamp)) else None
      ensures trade.Some? <==> Trades.Buys(cfg, old(balance), price)
      ensures raised <==> Trades.Raises(cfg, old(balance), price)
      ensures trade.Some? ==>
        Trades.IsPurchase(cfg, symbol, old(Slot(symbol)), Bar(price, timestamp, Some(Signals.BUY)), trade.value,
                          Slot(symbol))
      ensures holdings - {symbol} == old(holdings) - {symbol}
    {
      Trades.BuysWhen(cfg, balance, price);
      Trades.RaisesWhen(cfg, balance, price);
      if BuyGoesThrough(cfg, balance, price) { Trades.BuyMeans(cfg, symbol, Slot(symbol), price, timestamp); }
      hide Trades.Buys;
      hide Trades.Raises;
      hide Trades.IsPurchase;
      hide Pool;
      hide Value;
      hide Fee;
      hide BuyQuantity;
      hide Divides;
      trade, raised := None, false;
      var orderKrw := OrderAmount(cfg, balance);
      if orderKrw <= MIN_ORDER {
        return;
      }
      var quantity, fee;
      quantity, fee, raised := SizeOrder(orderKrw, price);
      if raised {
        return;
      }
      if quantity <= 0.0 {
        return;
      }
      balance := balance - (Value(quantity, price) + fee);
      AddHolding(symbol, quantity, price);
      trade := Some(Trade(symbol, Side.Buy, price, quantity, fee, timestamp, 0.0));
    }

    /** The quantity and fee of a purchase, shrunk where the balance does not cover it. */
    method SizeOrder(orderKrw: real, price: real) returns (quantity: real, fee: real, raised: bool)
      requires orderKrw == OrderAmount(cfg, balance)
      ensures raised == !Divides(cfg, balance, price)
      ensures !raised ==> quantity == BuyQuantity(cfg, balance, price) && fee == Fee(cfg, Value(quantity, price))
    {
      hide Value;
      hide Fee;
      hide Quantize;
      quantity, fee, raised := 0.0, 0.0, false;
      if price == 0.0 {
        raised := true;
        return;
      }
      quantity := Quantize(orderKrw / price, Satoshi);
      fee := Fee(cfg, Value(quantity, price));
      if Value(quantity, price) + fee > balance {
        if cfg.feeRate == -1.0 {
          raised := true;
          return;
        }
        quantity := Quantize(balance / (price * (1.0 + cfg.feeRate)), Satoshi);
        fee := Fee(cfg, Value(quantity, price));
      }
    }

    /** The position after a purchase, at the weighted average price. */
    method AddHolding(symbol: string, quantity: real, price: real)
      requires quantity > 0.0
      modifies this`holdings
      ensures holdings == old(holdings)[symbol := Pool(old(Slot(symbol)).holding, quantity, price)]
    {
      hide Value;
      if symbol in holdings {
        var h := holdings[symbol];
        var totalQuantity := h.quantity + quantity;
        var avgPrice := (Value(h.quantity, h.avgPrice) + Value(quantity, price)) / totalQuantity;
        holdings := holdings[symbol := Lot(totalQuantity, avgPrice)];
      } else {
        holdings := holdings[symbol := Lot(quantity, price)];
      }
    }

    method Sell(symbol: string, price: real, timestamp: int) returns (trade: Option<Trade>)
      modifies this`balance, this`holdings
      ensures Slot(symbol) == SellAccount(cfg, old(Slot(symbol)), price)
      ensures trade == if symbol in old(holdings)
                       then Some(SellTrade(cfg, symbol, old(holdings)[symbol], price, timestamp)) else None
      ensures trade.Some? ==>
        && Trades.IsSaleOf(cfg, symbol, old(holdings)[symbol], Bar(price, timestamp, Some(Signals.SELL)), trade.value)
        && balance == old(balance) + (Trades.Times(trade.value.quantity, price) - trade.value.fee)
      ensures holdings == old(holdings) - {symbol}
    {
      if symbol in holdings { Trades.SellMeans(cfg, symbol, holdings[symbol], price, timestamp); }
      hide Trades.IsSaleOf;
      hide Trades.Times;
      hide Value;
      hide Fee;
      if symbol !in holdings {
        return None;
      }
      var h := holdings[symbol];
      var gross := Value(h.quantity, price);
      var fee := Fee(cfg, gross);
      var net := gross - fee;
      var costBasis := Value(h.quantity, h.avgPrice);
      var buyFee := Fee(cfg, costBasis);
      var pnl := net - costBasis - buyFee;
      balance := balance + net;
      holdings := holdings - {symbol};
      trade := Some(Trade(symbol, Side.Sell, price, h.quantity, fee, timestamp, pnl));
    }

    method TotalEquity(prices: Prices) returns (total: real)
      ensures total == balance + HoldingsValue(holdings, prices)
    {
      hide Mark;
      var rest, value := holdings, 0.0;
      while rest != map[]
        invariant value + HoldingsValue(rest, prices) == HoldingsValue(holdings, prices)
        decreases |rest|
      {
        var s :| s in rest;
        HoldingsValueSplit(rest, s, prices);
        value := value + Mark(rest[s], s, prices);
        rest := rest - {s};
      }
      total := balance + value;
    }

    method RecordEquity(prices: Prices)
      modifies this`equityHistory
      ensures equityHistory == old(equityHistory) + [balance + HoldingsValue(holdings, prices)]
    {
      var total := TotalEquity(prices);
      equityHistory := equityHistory + [total];
    }

    method MaxDrawdown() returns (dd: real)
      ensures dd == Drawdown.MaxDrawdown(equityHistory)
    {
      hide Drawdown.Fall;
      if |equityHistory| < 2 {
        return 0.0;
      }
      var peak := equityHistory[0];
      dd := 0.0;
      for i := 0 to |equityHistory|
        invariant i == 0 ==> peak == equityHistory[0] && dd == 0.0
        invariant i > 0 ==> (peak, dd) == Drawdown.Scan(equityHistory[..i])
      {
        var equity := equityHistory[i];
        assert equityHistory[..i + 1][..i] == equityHistory[..i];
        if equity > peak { peak := equity; }
        if peak > 0.0 { dd := Drawdown.Max(dd, Drawdown.Fall(peak, equity)); }
      }
      assert equityHistory[..|equityHistory|] == equityHistory;
    }
  }
}
