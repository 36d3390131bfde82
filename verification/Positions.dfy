/** Live positions kept from order fills (portfolio/position.py), and their laws. */
module Positions {
  import opened Options
  import opened Ledger
  import opened Signals

  datatype Position = Position(quantity: real, avgPrice: real)
  {
    predicate IsOpen() { quantity > 0.0 }
    function UnrealizedPnl(price: real): real { Value(quantity, price - avgPrice) }
  }

  const FLAT := Position(0.0, 0.0)

  /** An executed order.  A side other than buy or sell is recorded but moves nothing. */
  datatype Fill = Fill(side: Side, quantity: real, price: real)

  function ApplyFill(p: Position, f: Fill): Position {
    match f.side
    case Buy =>
      var cost := Value(p.quantity, p.avgPrice) + Value(f.quantity, f.price);
      var quantity := p.quantity + f.quantity;
      Position(quantity, if quantity > 0.0 then cost / quantity else 0.0)
    case Sell =>
      var quantity := p.quantity - f.quantity;
      if quantity <= 0.0 then FLAT else Position(quantity, p.avgPrice)
    case ForceClose => p
  }

  /** The position after these fills of one symbol. */
  function After(fills: seq<Fill>): Position {
    if |fills| == 0 then FLAT else ApplyFill(After(fills[..|fills| - 1]), fills[|fills| - 1])
  }

  class PositionManager {
    var positions: map<string, Position>

    constructor ()
      ensures positions == map[]
    {
      positions := map[];
    }

    function GetPosition(symbol: string): Position
      reads this
    {
      if symbol in positions then positions[symbol] else FLAT
    }

    function GetAllPositions(): (open: map<string, Position>)
      reads this
      ensures forall s :: s in open <==> GetPosition(s).IsOpen()
      ensures forall s :: s in open ==> open[s] == GetPosition(s)
    {
      map s | s in positions && positions[s].IsOpen() :: positions[s]
    }

    method OnOrderFilled(symbol: string, fill: Fill)
      modifies this
      ensures positions == old(positions)[symbol := ApplyFill(old(GetPosition(symbol)), fill)]
    {
      hide Value;
      if symbol !in positions {
        positions := positions[symbol := FLAT];
      }
      var p := positions[symbol];
      if fill.side == Side.Buy {
        var totalCost := Value(p.quantity, p.avgPrice) + Value(fill.quantity, fill.price);
        p := p.(quantity := p.quantity + fill.quantity);
        p := p.(avgPrice := if p.quantity > 0.0 then totalCost / p.quantity else 0.0);
      } else if fill.side == Side.Sell {
        p := p.(quantity := p.quantity - fill.quantity);
        if p.quantity <= 0.0 {
          p := p.(quantity := 0.0, avgPrice := 0.0);
        }
      }
      positions := positions[symbol := p];
    }
  }

  // ---- the reflection law ----

  ghost predicate Sensible(fills: seq<Fill>) {
    forall i :: 0 <= i < |fills| ==> fills[i].quantity >= 0.0
  }

  function Moved(f: Fill): real {
    match f.side
    case Buy => f.quantity
    case Sell => -f.quantity
    case ForceClose => 0.0
  }

  /** Bought less sold. */
  function Net(fills: seq<Fill>): real {
    if |fills| == 0 then 0.0 else Net(fills[..|fills| - 1]) + Moved(fills[|fills| - 1])
  }

  /** The least running total, the empty one included. */
  function Lowest(fills: seq<Fill>): real {
    if |fills| == 0 then 0.0
    else
      var before := Lowest(fills[..|fills| - 1]);
      if Net(fills) < before then Net(fills) else before
  }

  lemma {:induction false} LowestIsLeast(fills: seq<Fill>)
    ensures forall k :: 0 <= k <= |fills| ==> Lowest(fills) <= Net(fills[..k])
    ensures exists k :: 0 <= k <= |fills| && Lowest(fills) == Net(fills[..k])
  {
    var n := |fills| - 1;
    if |fills| > 0 {
      LowestIsLeast(fills[..n]);
      forall k | 0 <= k <= |fills| ensures Lowest(fills) <= Net(fills[..k]) {
        if k <= n { assert fills[..n][..k] == fills[..k]; } else { assert fills[..k] == fills; }
      }
      var k :| 0 <= k <= n && Lowest(fills[..n]) == Net(fills[..n][..k]);
      assert fills[..n][..k] == fills[..k] && fills[..|fills|] == fills;
      assert Lowest(fills) == Net(fills[..k]) || Lowest(fills) == Net(fills[..|fills|]);
    } else {
      assert fills[..0] == fills;
      assert Lowest(fills) == Net(fills[..0]);
    }
  }

  /** Clamping at zero makes the quantity the running total reflected at its least value so far. */
  lemma {:induction false} Reflection(fills: seq<Fill>)
    requires Sensible(fills)
    ensures After(fills).quantity == Net(fills) - Lowest(fills)
    ensures After(fills).quantity >= 0.0
    ensures !After(fills).IsOpen() ==> After(fills) == FLAT
  {
    hide Value;
    if |fills| > 0 { Reflection(fills[..|fills| - 1]); }
  }

  // ---- the average price ----

  /** Prices paid since the position was last flat. */
  function Paid(fills: seq<Fill>): seq<real> {
    if !After(fills).IsOpen() then []
    else
      assert |fills| > 0;
      var before, f := fills[..|fills| - 1], fills[|fills| - 1];
      Paid(before) + if f.side == Side.Buy then [f.price] else []
  }

  lemma QuotientBetween(cost: real, q: real, x: real, low: real, high: real)
    requires q + x > 0.0
    requires Value(low, q) + Value(low, x) <= cost <= Value(high, q) + Value(high, x)
    ensures low <= cost / (q + x) <= high
  {
    var a, n := cost / (q + x), q + x;
    assert a * n == cost;
    assert low * n <= a * n <= high * n;
  }

  lemma ValueBetween(q: real, low: real, price: real, high: real)
    requires q >= 0.0 && low <= price <= high
    ensures Value(low, q) <= Value(q, price) <= Value(high, q)
  {
    assert (price - low) * q >= 0.0;
    assert (high - price) * q >= 0.0;
  }

  lemma NothingCosts(x: real, y: real)
    ensures Value(0.0, x) == Value(0.0, y)
  {
  }

  lemma AverageBetween(q: real, avg: real, x: real, price: real, low: real, high: real)
    requires q >= 0.0 && x >= 0.0 && q + x > 0.0
    requires q == 0.0 || low <= avg <= high
    requires low <= price <= high
    ensures low <= (Value(q, avg) + Value(x, price)) / (q + x) <= high
  {
    hide Value;
    ValueBetween(x, low, price, high);
    ValueBetween(q, low, if q == 0.0 then low else avg, high);
    NothingCosts(avg, low);
    QuotientBetween(Value(q, avg) + Value(x, price), q, x, low, high);
  }

  /** While open, the average price lies between any bounds on the prices paid since the position was last flat. */
  lemma {:induction false} AverageWithinPaid(fills: seq<Fill>, low: real, high: real)
    requires Sensible(fills) && After(fills).IsOpen()
    requires forall p :: p in Paid(fills) ==> low <= p <= high
    ensures Paid(fills) != []
    ensures low <= After(fills).avgPrice <= high
  {
    hide Value;
    var before, f := fills[..|fills| - 1], fills[|fills| - 1];
    var p := After(before);
    Reflection(before);
    assert Paid(fills) == Paid(before) + if f.side == Side.Buy then [f.price] else [];
    forall x | x in Paid(before) ensures x in Paid(fills) { }
    if p.IsOpen() { AverageWithinPaid(before, low, high); }
    if f.side == Side.Buy {
      assert f.price in Paid(fills);
      AverageBetween(p.quantity, p.avgPrice, f.quantity, f.price, low, high);
    }
  }

  // ---- the paper book and the live book ----

  function FillsOf(trades: seq<Trade>): (fills: seq<Fill>)
    ensures |fills| == |trades|
  {
    seq(|trades|, i requires 0 <= i < |trades| => Fill(trades[i].side, trades[i].quantity, trades[i].price))
  }

  function AsPosition(a: Account): Position {
    match a.holding
    case None => FLAT
    case Some(h) => Position(h.quantity, h.avgPrice)
  }

  lemma AfterAppend(trades: seq<Trade>, t: Trade)
    ensures After(FillsOf(trades + [t])) == ApplyFill(After(FillsOf(trades)), Fill(t.side, t.quantity, t.price))
  {
    assert FillsOf(trades + [t])[..|trades|] == FillsOf(trades);
  }

  lemma FirstPurchase(quantity: real, price: real)
    requires quantity > 0.0
    ensures (Value(0.0, 0.0) + Value(quantity, price)) / (0.0 + quantity) == price
  {
    assert price * quantity / quantity == price;
  }

  lemma BuyAgrees(a: Account, quantity: real, price: real)
    requires quantity > 0.0
    ensures var h := Pool(a.holding, quantity, price);
      ApplyFill(AsPosition(a), Fill(Side.Buy, quantity, price)) == Position(h.quantity, h.avgPrice)
  {
    FirstPurchase(quantity, price);
    hide Value;
  }

  lemma StepAgrees(cfg: Config, symbol: string, b: Book, bar: Bar)
    requires After(FillsOf(b.trades)) == AsPosition(b.account)
    ensures var s := StepBook(cfg, symbol, b, bar); After(FillsOf(s.trades)) == AsPosition(s.account)
  {
    hide Value;
    hide Fee;
    hide BuyQuantity;
    hide Pool;
    var (account, trades) := Execute(cfg, symbol, b.account, bar);
    if trades == [] {
      assert b.trades + trades == b.trades;
    } else {
      AfterAppend(b.trades, trades[0]);
      if trades[0].side == Side.Buy { BuyAgrees(b.account, trades[0].quantity, bar.close); }
      hide After;
    }
  }

  /** Feeding a run's trades to the live book gives the paper holding, quantity and average price, at every step. */
  lemma {:induction false} BooksAgree(cfg: Config, symbol: string, initial: real, bars: seq<Bar>)
    ensures var b := Play(cfg, symbol, initial, bars);
      After(FillsOf(b.trades)) == AsPosition(b.account)
      && (After(FillsOf(b.trades)).IsOpen() <==> b.account.holding.Some?)
  {
    hide StepBook;
    if |bars| > 0 {
      var n := |bars| - 1;
      BooksAgree(cfg, symbol, initial, bars[..n]);
      StepAgrees(cfg, symbol, Play(cfg, symbol, initial, bars[..n]), bars[n]);
    }
  }

  lemma ProfitSplits(quantity: real, price: real, avg: real)
    ensures Value(quantity, price - avg) == Value(quantity, price) - Value(quantity, avg)
  {
  }

  /** If the i-th trade sells, it sells the live position and reports its unrealised profit less two fees. */
  ghost predicate SellsUnrealized(cfg: Config, trades: seq<Trade>, i: nat)
    requires i < |trades|
  {
    var t, p := trades[i], After(FillsOf(trades[..i]));
    t.side != Side.Buy ==>
      && p.IsOpen() && t.quantity == p.quantity && t.fee == Fee(cfg, Value(p.quantity, t.price))
      && t.pnl == p.UnrealizedPnl(t.price) - t.fee - Fee(cfg, Value(p.quantity, p.avgPrice))
  }

  ghost predicate AllSellUnrealized(cfg: Config, trades: seq<Trade>) {
    forall i :: 0 <= i < |trades| ==> SellsUnrealized(cfg, trades, i)
  }

  /** Selling what the account holds, whichever label the sale carries. */
  lemma SaleAppends(cfg: Config, symbol: string, trades: seq<Trade>, a: Account, price: real, timestamp: int,
                    side: Side)
    requires AllSellUnrealized(cfg, trades) && After(FillsOf(trades)) == AsPosition(a) && a.holding.Some?
    ensures AllSellUnrealized(cfg, trades + [SellTrade(cfg, symbol, a.holding.value, price, timestamp).(side := side)])
  {
    var h := a.holding.value;
    var more := trades + [SellTrade(cfg, symbol, h, price, timestamp).(side := side)];
    ProfitSplits(h.quantity, price, h.avgPrice);
    hide Value;
    hide Fee;
    hide After;
    assert more[..|trades|] == trades;
    assert SellsUnrealized(cfg, more, |trades|);
    forall i | 0 <= i < |trades| ensures SellsUnrealized(cfg, more, i) {
      assert SellsUnrealized(cfg, trades, i) && more[..i] == trades[..i];
    }
  }

  lemma BuyAppends(cfg: Config, trades: seq<Trade>, t: Trade)
    requires AllSellUnrealized(cfg, trades) && t.side == Side.Buy
    ensures AllSellUnrealized(cfg, trades + [t])
  {
    hide After;
    hide Fee;
    forall i | 0 <= i < |trades + [t]| ensures SellsUnrealized(cfg, trades + [t], i) {
      if i < |trades| { assert SellsUnrealized(cfg, trades, i) && (trades + [t])[..i] == trades[..i]; }
    }
  }

  lemma {:induction false} PlaySalesAreUnrealized(cfg: Config, symbol: string, initial: real, bars: seq<Bar>)
    ensures AllSellUnrealized(cfg, Play(cfg, symbol, initial, bars).trades)
  {
    hide AllSellUnrealized;
    hide SellTrade;
    hide BuyTrade;
    hide BuyGoesThrough;
    if |bars| > 0 {
      var n := |bars| - 1;
      PlaySalesAreUnrealized(cfg, symbol, initial, bars[..n]);
      BooksAgree(cfg, symbol, initial, bars[..n]);
      var b, bar := Play(cfg, symbol, initial, bars[..n]), bars[n];
      var trades := Execute(cfg, symbol, b.account, bar).1;
      if trades == [] {
        assert b.trades + trades == b.trades;
      } else if bar.signal == Some(BUY) {
        BuyIsBuy(cfg, symbol, b.account, bar);
        BuyAppends(cfg, b.trades, trades[0]);
      } else {
        SaleAppends(cfg, symbol, b.trades, b.account, bar.close, bar.timestamp, Side.Sell);
        SaleIsSale(cfg, symbol, b.account.holding.value, bar);
      }
      hide After;
    } else {
      NoTrades(cfg);
    }
  }

  lemma NoTrades(cfg: Config)
    ensures AllSellUnrealized(cfg, [])
  {
  }

  lemma BuyIsBuy(cfg: Config, symbol: string, a: Account, bar: Bar)
    requires BuyGoesThrough(cfg, a.balance, bar.close)
    ensures BuyTrade(cfg, symbol, a.balance, bar.close, bar.timestamp).side == Side.Buy
  {
  }

  lemma SaleIsSale(cfg: Config, symbol: string, h: Holding, bar: Bar)
    ensures var t := SellTrade(cfg, symbol, h, bar.close, bar.timestamp); t.(side := Side.Sell) == t
  {
  }

  /**
    In every run each sale, the forced close included, sells exactly the live position its earlier trades leave,
    and reports that position's unrealised profit less the sale fee and the fee on the pooled cost.
   */
  lemma SalePnlIsUnrealized(cfg: Config, symbol: string, initial: real, bars: seq<Bar>, i: nat)
    requires |bars| > 0 && i < |RunLedger(cfg, symbol, initial, bars).trades|
    ensures SellsUnrealized(cfg, RunLedger(cfg, symbol, initial, bars).trades, i)
  {
    PlaySalesAreUnrealized(cfg, symbol, initial, bars);
    BooksAgree(cfg, symbol, initial, bars);
    var b, last := Play(cfg, symbol, initial, bars), bars[|bars| - 1];
    hide SellsUnrealized;
    hide SellTrade;
    hide SellAccount;
    if b.account.holding.Some? {
      SaleAppends(cfg, symbol, b.trades, b.account, last.close, last.timestamp, ForceClose);
    }
    hide Play;
    hide After;
  }

  /**
    The forced close of a run carries a label the live book does not know: it leaves the live position where
    it was, so over the complete trade list the two books agree exactly when nothing was force-closed.
   */
  lemma ForcedCloseIsNotAFill(cfg: Config, symbol: string, initial: real, bars: seq<Bar>)
    requires |bars| > 0
    ensures var b, r := Play(cfg, symbol, initial, bars), RunLedger(cfg, symbol, initial, bars);
      && After(FillsOf(r.trades)) == AsPosition(b.account)
      && (After(FillsOf(r.trades)) == AsPosition(r.account) <==> b.account.holding == None)
  {
    hide Value;
    hide Fee;
    BooksAgree(cfg, symbol, initial, bars);
    var b, last := Play(cfg, symbol, initial, bars), bars[|bars| - 1];
    if b.account.holding.Some? {
      AfterAppend(b.trades, SellTrade(cfg, symbol, b.account.holding.value, last.close,
                                      last.timestamp).(side := ForceClose));
    }
    hide Play;
  }
}
