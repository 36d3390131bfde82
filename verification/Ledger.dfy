/** What a strategy can ask for (strategy/base.py). */
module Signals {
  datatype SignalType = BUY | SELL | HOLD
}

/**
  The paper-trading ledger of backtest/runner.py as functions of its state.  An account is the
  cash balance and the holding of the one symbol a run trades; a book adds the trade list and the
  recorded equities.
 */
module Ledger {
  import opened Options
  import opened Rounding
  import opened Signals

  datatype Settings = Settings(feeRate: real, orderRatio: real)

  type Config = Settings

  datatype Lot = Lot(quantity: real, avgPrice: real)
  type Holding = h: Lot | h.quantity > 0.0 witness Lot(1.0, 0.0)

  datatype Account = Account(balance: real, holding: Option<Holding>)

  datatype Side = Buy | Sell | ForceClose
  datatype Trade = Trade(symbol: string, side: Side, price: real, quantity: real, fee: real, timestamp: int, pnl: real)

  const MIN_ORDER := 1000.0

  function Value(quantity: real, price: real): real {
    quantity * price
  }

  /** The fee before rounding. */
  function ExactFee(cfg: Config, value: real): real {
    value * cfg.feeRate
  }

  function Fee(cfg: Config, value: real): real {
    Quantize(ExactFee(cfg, value), Cent)
  }

  function Cost(cfg: Config, quantity: real, price: real): real {
    Value(quantity, price) + Fee(cfg, Value(quantity, price))
  }

  /** The share of the cash an order may use. */
  function OrderAmount(cfg: Config, balance: real): real {
    balance * cfg.orderRatio
  }

  /** The quantity that amount buys before the fee. */
  function Wanted(cfg: Config, balance: real, price: real): real
    requires price != 0.0
  {
    Quantize(OrderAmount(cfg, balance) / price, Satoshi)
  }

  /** The unit cost of a purchase, fee included. */
  function Gross(cfg: Config, price: real): real { price * (1.0 + cfg.feeRate) }

  /** The quantity the whole balance pays for, fee included, rounded half-even. */
  function Affordable(cfg: Config, balance: real, price: real): real
    requires price != 0.0 && cfg.feeRate != -1.0
  {
    Quantize(balance / Gross(cfg, price), Satoshi)
  }

  /** The wanted quantity costs more than the balance, so the order shrinks. */
  predicate Oversized(cfg: Config, balance: real, price: real)
    requires price != 0.0
  {
    Cost(cfg, Wanted(cfg, balance, price), price) > balance
  }

  /** None of the divisions on the way to the quantity is by zero. */
  predicate Divides(cfg: Config, balance: real, price: real) {
    price != 0.0 && (Oversized(cfg, balance, price) ==> cfg.feeRate != -1.0)
  }

  function BuyQuantity(cfg: Config, balance: real, price: real): real
    requires Divides(cfg, balance, price)
  {
    if Oversized(cfg, balance, price) then Affordable(cfg, balance, price) else Wanted(cfg, balance, price)
  }

  /** A purchase that raises the division error, which it does before it has changed anything. */
  predicate BuyRaises(cfg: Config, balance: real, price: real) {
    OrderAmount(cfg, balance) > MIN_ORDER && !Divides(cfg, balance, price)
  }

  predicate BuyGoesThrough(cfg: Config, balance: real, price: real) {
    OrderAmount(cfg, balance) > MIN_ORDER && Divides(cfg, balance, price) && BuyQuantity(cfg, balance, price) > 0.0
  }

  /** Pooling a purchase into a holding: quantities add, the average price is weighted. */
  function Pool(held: Option<Holding>, quantity: real, price: real): Holding
    requires quantity > 0.0
  {
    match held
    case None => Lot(quantity, price)
    case Some(h) =>
      var total := h.quantity + quantity;
      Lot(total, (Value(h.quantity, h.avgPrice) + Value(quantity, price)) / total)
  }

  function BuyTrade(cfg: Config, symbol: string, balance: real, price: real, timestamp: int): Trade
    requires Divides(cfg, balance, price)
  {
    var quantity := BuyQuantity(cfg, balance, price);
    Trade(symbol, Buy, price, quantity, Fee(cfg, Value(quantity, price)), timestamp, 0.0)
  }

  function BuyAccount(cfg: Config, a: Account, price: real): Account {
    if !BuyGoesThrough(cfg, a.balance, price) then a
    else
      var quantity := BuyQuantity(cfg, a.balance, price);
      Account(a.balance - Cost(cfg, quantity, price), Some(Pool(a.holding, quantity, price)))
  }

  /** Selling everything: proceeds less the sale fee, the pooled cost and the fee on that cost. */
  function SellPnl(cfg: Config, h: Holding, price: real): real {
    var gross := Value(h.quantity, price);
    var basis := Value(h.quantity, h.avgPrice);
    gross - Fee(cfg, gross) - basis - Fee(cfg, basis)
  }

  function SellTrade(cfg: Config, symbol: string, h: Holding, price: real, timestamp: int): Trade {
    Trade(symbol, Sell, price, h.quantity, Fee(cfg, Value(h.quantity, price)), timestamp, SellPnl(cfg, h, price))
  }

  function SellAccount(cfg: Config, a: Account, price: real): Account {
    match a.holding
    case None => a
    case Some(h) => Account(a.balance + (Value(h.quantity, price) - Fee(cfg, Value(h.quantity, price))), None)
  }

  function Held(a: Account): real {
    if a.holding.Some? then a.holding.value.quantity else 0.0
  }

  function Equity(a: Account, price: real): real {
    a.balance + Value(Held(a), price)
  }

  // ---- a whole run ----

  /** One candle as the ledger sees it: the close and what the strategy said after reading it. */
  datatype Bar = Bar(close: real, timestamp: int, signal: Option<SignalType>)

  datatype Book = Book(account: Account, trades: seq<Trade>, equity: seq<real>)

  function Opening(initial: real): Book {
    Book(Account(initial, None), [], [initial])
  }

  function Execute(cfg: Config, symbol: string, a: Account, bar: Bar): (r: (Account, seq<Trade>)) {
    match bar.signal
    case Some(BUY) =>
      if BuyGoesThrough(cfg, a.balance, bar.close) then
        (BuyAccount(cfg, a, bar.close), [BuyTrade(cfg, symbol, a.balance, bar.close, bar.timestamp)])
      else (a, [])
    case Some(SELL) =>
      if a.holding.Some? then
        (SellAccount(cfg, a, bar.close), [SellTrade(cfg, symbol, a.holding.value, bar.close, bar.timestamp)])
      else (a, [])
    case _ => (a, [])
  }

  /** Equity is recorded at the new close before the signal is acted on. */
  function StepBook(cfg: Config, symbol: string, b: Book, bar: Bar): Book {
    var (account, trades) := Execute(cfg, symbol, b.account, bar);
    Book(account, b.trades + trades, b.equity + [Equity(b.account, bar.close)])
  }

  function Play(cfg: Config, symbol: string, initial: real, bars: seq<Bar>): Book {
    if |bars| == 0 then Opening(initial)
    else
      var n := |bars| - 1;
      StepBook(cfg, symbol, Play(cfg, symbol, initial, bars[..n]), bars[n])
  }

  /** Whatever is still held is sold at the last close under its own label. */
  function CloseOut(cfg: Config, symbol: string, b: Book, last: Bar): Book {
    match b.account.holding
    case None => b
    case Some(h) =>
      var sale := SellTrade(cfg, symbol, h, last.close, last.timestamp).(side := ForceClose);
      Book(SellAccount(cfg, b.account, last.close), b.trades + [sale], b.equity)
  }

  function RunLedger(cfg: Config, symbol: string, initial: real, bars: seq<Bar>): Book
    requires |bars| > 0
  {
    CloseOut(cfg, symbol, Play(cfg, symbol, initial, bars), bars[|bars| - 1])
  }

  /** The bar whose purchase raises ends the run with that error. */
  predicate BarRaises(cfg: Config, a: Account, bar: Bar) {
    bar.signal == Some(BUY) && BuyRaises(cfg, a.balance, bar.close)
  }

  /**
    Some bar of the run raises.  The laws about books hold of every bar sequence; for one that raises they speak
    of the run in which those purchases are refused.
   */
  predicate RunRaises(cfg: Config, symbol: string, initial: real, bars: seq<Bar>) {
    |bars| > 0 &&
    var n := |bars| - 1;
    RunRaises(cfg, symbol, initial, bars[..n]) || BarRaises(cfg, Play(cfg, symbol, initial, bars[..n]).account, bars[n])
  }

  /** How many bars are taken up before the run ends or raises. */
  function Reached(cfg: Config, symbol: string, initial: real, bars: seq<Bar>): (k: nat)
    ensures k <= |bars|
  {
    if |bars| == 0 then 0
    else
      var n := |bars| - 1;
      if RunRaises(cfg, symbol, initial, bars[..n]) then Reached(cfg, symbol, initial, bars[..n]) else |bars|
  }

  function TotalFee(trades: seq<Trade>): real {
    if |trades| == 0 then 0.0 else TotalFee(trades[..|trades| - 1]) + trades[|trades| - 1].fee
  }

  function TotalPnl(trades: seq<Trade>): real {
    if |trades| == 0 then 0.0 else TotalPnl(trades[..|trades| - 1]) + trades[|trades| - 1].pnl
  }
}
