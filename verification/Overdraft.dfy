/**
  How far below zero the shrink branch of a purchase can take the cash balance, and when it is
  never taken.
 */
module Overdraft {
  import opened Options
  import opened Rounding
  import opened Signals
  import opened Ledger
  import opened LedgerLaws
  import Drawdown

  lemma ScaleUp(x: real, y: real, m: real)
    requires x <= y && m >= 0.0
    ensures x * m <= y * m
  {
  }

  lemma Cancel(x: real, y: real, m: real)
    requires m * x <= m * y && m > 0.0
    ensures x <= y
  {
  }

  lemma Distribute(x: real, y: real, m: real)
    ensures (x + y) * m == x * m + y * m
  {
  }

  lemma Regroup(quantity: real, price: real, rate: real)
    ensures quantity * (price * (1.0 + rate)) == quantity * price + quantity * price * rate
  {
  }

  lemma GrossSplits(cfg: Config, quantity: real, price: real)
    ensures quantity * Gross(cfg, price) == Value(quantity, price) + ExactFee(cfg, Value(quantity, price))
  {
    Regroup(quantity, price, cfg.feeRate);
  }

  /** A purchase costs its quantity at the gross price, up to the rounding of the fee. */
  lemma CostNear(cfg: Config, quantity: real, price: real)
    ensures -0.005 <= Cost(cfg, quantity, price) - quantity * Gross(cfg, price) <= 0.005
  {
    hide Value;
    hide Fee;
    hide ExactFee;
    hide Gross;
    FeeNear(cfg, Value(quantity, price));
    GrossSplits(cfg, quantity, price);
  }

  /** The most a shrunk purchase can overdraw at this price. */
  function Slack(cfg: Config, price: real): real {
    HalfUnit(Satoshi) * Gross(cfg, price) + 0.005
  }

  lemma GrossPositive(cfg: Config, price: real)
    requires price > 0.0 && cfg.feeRate >= 0.0
    ensures Gross(cfg, price) >= price
  {
    ScaleUp(1.0, 1.0 + cfg.feeRate, price);
  }

  lemma QuantitiesNear(cfg: Config, balance: real, price: real)
    requires price != 0.0 && cfg.feeRate != -1.0
    ensures Affordable(cfg, balance, price) <= balance / Gross(cfg, price) + HalfUnit(Satoshi)
    ensures Wanted(cfg, balance, price) <= OrderAmount(cfg, balance) / price + HalfUnit(Satoshi)
  {
    hide Quantize;
    QuantizeNear(balance / Gross(cfg, price), Satoshi);
    hide OrderAmount;
    QuantizeNear(OrderAmount(cfg, balance) / price, Satoshi);
  }

  lemma ShrunkCost(cfg: Config, balance: real, price: real)
    requires price > 0.0 && cfg.feeRate >= 0.0
    ensures Cost(cfg, Affordable(cfg, balance, price), price) <= balance + Slack(cfg, price)
  {
    hide Cost;
    hide Affordable;
    GrossPositive(cfg, price);
    QuantitiesNear(cfg, balance, price);
    var q, exact := Affordable(cfg, balance, price), balance / Gross(cfg, price);
    hide Gross;
    CostNear(cfg, q, price);
    ScaleUp(q, exact + HalfUnit(Satoshi), Gross(cfg, price));
    assert exact * Gross(cfg, price) == balance;
    Distribute(exact, HalfUnit(Satoshi), Gross(cfg, price));
    assert q * Gross(cfg, price) <= balance + HalfUnit(Satoshi) * Gross(cfg, price);
  }

  /** The exact number of quantity units the balance pays for, fee included. */
  function Units(cfg: Config, balance: real, price: real): real
    requires price > 0.0 && cfg.feeRate >= 0.0
  {
    GrossPositive(cfg, price);
    balance / Gross(cfg, price) * Scale(Satoshi)
  }

  function UnitPrice(cfg: Config, price: real): real { Gross(cfg, price) / Scale(Satoshi) }

  /** What rounding that number adds to the cost, at the gross price; negative when it is rounded down. */
  function Excess(cfg: Config, balance: real, price: real): real
    requires price > 0.0 && cfg.feeRate >= 0.0
  {
    var t := Units(cfg, balance, price);
    (RoundHalfEven(t) as real - t) * UnitPrice(cfg, price)
  }

  /** What the rounding of the fee adds. */
  function FeeError(cfg: Config, value: real): real { Fee(cfg, value) - ExactFee(cfg, value) }

  lemma QuotientTimes(x: real, y: real)
    requires y > 0.0
    ensures (x / y) * y == x
  {
  }

  lemma UnitsTimes(n: real, t: real, gross: real)
    ensures (n - t) * (gross / 100_000_000.0) == n / 100_000_000.0 * gross - t / 100_000_000.0 * gross
  {
  }

  lemma ExcessIsQuantityError(cfg: Config, balance: real, price: real)
    requires price > 0.0 && cfg.feeRate >= 0.0
    ensures Excess(cfg, balance, price) == Affordable(cfg, balance, price) * Gross(cfg, price) - balance
  {
    GrossPositive(cfg, price);
    var t, gross := Units(cfg, balance, price), Gross(cfg, price);
    var n := RoundHalfEven(t) as real;
    assert Affordable(cfg, balance, price) == n / 100_000_000.0;
    QuotientTimes(balance, gross);
    assert t / 100_000_000.0 == balance / gross;
    hide Units;
    hide Gross;
    hide Affordable;
    hide RoundHalfEven;
    UnitsTimes(n, t, gross);
  }

  /** The shrink branch leaves nothing but the errors of its two roundings, the quantity's and the fee's. */
  lemma ShrinkLeaves(cfg: Config, balance: real, price: real)
    requires price > 0.0 && cfg.feeRate >= 0.0
    ensures var q := Affordable(cfg, balance, price);
      balance - Cost(cfg, q, price) == -(Excess(cfg, balance, price) + FeeError(cfg, Value(q, price)))
  {
    hide Affordable;
    hide Fee;
    hide ExactFee;
    hide Value;
    hide Gross;
    hide Excess;
    GrossSplits(cfg, Affordable(cfg, balance, price), price);
    ExcessIsQuantityError(cfg, balance, price);
  }

  /** The purchase goes through, and with the shrunk quantity. */
  predicate BuysShrunk(cfg: Config, balance: real, price: real) {
    BuyGoesThrough(cfg, balance, price) && Oversized(cfg, balance, price)
  }

  /**
    When a purchase takes cash below zero: only if it is shrunk; then always if the quantity is rounded up by more
    than half a cent's worth, never if it is rounded down by at least that, and in between exactly if the fee is
    rounded up by more than the quantity is rounded down.
   */
  lemma OverdrawsExactlyWhen(cfg: Config, a: Account, price: real)
    requires price > 0.0 && cfg.feeRate >= 0.0 && a.balance >= 0.0
    ensures var excess := Excess(cfg, a.balance, price);
      var feeError := FeeError(cfg, Value(Affordable(cfg, a.balance, price), price));
      && -0.005 <= feeError <= 0.005
      && (BuyAccount(cfg, a, price).balance < 0.0
          <==> BuysShrunk(cfg, a.balance, price) && (excess > 0.005 || (excess > -0.005 && feeError > -excess)))
  {
    hide Excess;
    hide Value;
    hide Cost;
    hide Affordable;
    hide Wanted;
    hide OrderAmount;
    hide Pool;
    ShrinkLeaves(cfg, a.balance, price);
    FeeNear(cfg, Value(Affordable(cfg, a.balance, price), price));
    hide Fee;
    hide ExactFee;
  }

  /** Above the half, or on it next to an odd number. */
  predicate RoundsUp(x: real) {
    var below := x.Floor;
    var rest := x - below as real;
    rest > 0.5 || (rest == 0.5 && below % 2 == 1)
  }

  lemma RoundsUpMeans(x: real)
    ensures RoundHalfEven(x) as real > x <==> RoundsUp(x)
  {
  }

  lemma SignOfProduct(x: real, m: real)
    requires m > 0.0
    ensures x * m > 0.0 <==> x > 0.0
  {
    if x <= 0.0 { assert x * m <= 0.0 by { ScaleUp(x, 0.0, m); } }
  }

  lemma NoFeeNoError(cfg: Config, value: real)
    requires cfg.feeRate == 0.0
    ensures FeeError(cfg, value) == 0.0
  {
    assert ExactFee(cfg, value) == 0.0;
    RoundUnique(0.0, 0);
  }

  lemma ExcessSign(cfg: Config, balance: real, price: real)
    requires price > 0.0 && cfg.feeRate >= 0.0
    ensures Excess(cfg, balance, price) > 0.0 <==> RoundsUp(Units(cfg, balance, price))
  {
    var t := Units(cfg, balance, price);
    GrossPositive(cfg, price);
    assert UnitPrice(cfg, price) > 0.0;
    RoundsUpMeans(t);
    hide UnitPrice;
    hide RoundsUp;
    hide Units;
    hide RoundHalfEven;
    SignOfProduct(RoundHalfEven(t) as real - t, UnitPrice(cfg, price));
  }

  /** Without a fee: exactly the shrunk purchases whose number of quantity units rounds up. */
  lemma FreeTradeOverdrawsWhen(cfg: Config, a: Account, price: real)
    requires price > 0.0 && cfg.feeRate == 0.0 && a.balance >= 0.0
    ensures BuyAccount(cfg, a, price).balance < 0.0
       <==> BuysShrunk(cfg, a.balance, price) && RoundsUp(Units(cfg, a.balance, price))
  {
    OverdrawsExactlyWhen(cfg, a, price);
    NoFeeNoError(cfg, Value(Affordable(cfg, a.balance, price), price));
    ExcessSign(cfg, a.balance, price);
    hide Units;
    hide RoundsUp;
    hide Excess;
    hide FeeError;
    hide BuyAccount;
    hide BuysShrunk;
    hide Affordable;
    hide Value;
  }

  lemma OneUnit(price: real)
    requires price == 300_000_000_000.0
    ensures Wanted(Settings(0.0, 1.0), 2000.0, price) == 0.000_000_01
    ensures Affordable(Settings(0.0, 1.0), 2000.0, price) == 0.000_000_01
  {
    var t := 2000.0 / price * 100_000_000.0;
    assert 0.6 < t < 0.7;
    RoundUnique(t, 1);
    hide RoundHalfEven;
    assert Gross(Settings(0.0, 1.0), price) == price;
    hide Gross;
  }

  lemma UnitCost(price: real)
    requires price == 300_000_000_000.0
    ensures Cost(Settings(0.0, 1.0), 0.000_000_01, price) == 3000.0
  {
    RoundUnique(0.0, 0);
  }

  /**
    Not always "within the balance": here the order rounds up to one quantity unit that costs 3000 of a balance of
    2000.
   */
  lemma ShrinkCanOverdraw()
    ensures var cfg: Config := Settings(0.0, 1.0);
      Oversized(cfg, 2000.0, 300_000_000_000.0)
      && BuyAccount(cfg, Account(2000.0, None), 300_000_000_000.0)
         == Account(-1000.0, Some(Lot(0.000_000_01, 300_000_000_000.0)))
  {
    hide Wanted;
    hide Affordable;
    hide Cost;
    OneUnit(300_000_000_000.0);
    UnitCost(300_000_000_000.0);
  }

  lemma PlayStep(cfg: Config, symbol: string, initial: real, bars: seq<Bar>, bar: Bar)
    ensures Play(cfg, symbol, initial, bars + [bar]) == StepBook(cfg, symbol, Play(cfg, symbol, initial, bars), bar)
  {
    assert (bars + [bar])[..|bars|] == bars;
  }

  /** That purchase, and two lower closes after it. */
  const SINKING := [Bar(300_000_000_000.0, 1, Some(BUY)), Bar(200_000_000_000.0, 2, None), Bar(100_000_000.0, 3, None)]

  lemma StepIs(cfg: Config, symbol: string, b: Book, bar: Bar)
    ensures var s := StepBook(cfg, symbol, b, bar);
      && s.equity == b.equity + [Equity(b.account, bar.close)]
      && s.account == (if bar.signal == Some(BUY) then BuyAccount(cfg, b.account, bar.close) else
                       if bar.signal == Some(SELL) then SellAccount(cfg, b.account, bar.close) else b.account)
  {
    hide BuyQuantity;
    hide OrderAmount;
    hide Divides;
    hide Value;
    hide Fee;
  }

  /** A purchase at the first bar and two quiet ones. */
  lemma ThreeBars(cfg: Config, symbol: string, initial: real, x: Bar, y: Bar, z: Bar)
    requires x.signal == Some(BUY) && y.signal == None && z.signal == None
    ensures var a := BuyAccount(cfg, Account(initial, None), x.close);
      Play(cfg, symbol, initial, [x, y, z]).equity
      == [initial, Equity(Account(initial, None), x.close), Equity(a, y.close), Equity(a, z.close)]
  {
    hide StepBook;
    hide Equity;
    hide BuyAccount;
    assert [] + [x] == [x] && [x] + [y] == [x, y] && [x, y] + [z] == [x, y, z];
    PlayStep(cfg, symbol, initial, [], x);
    PlayStep(cfg, symbol, initial, [x], y);
    PlayStep(cfg, symbol, initial, [x, y], z);
    StepIs(cfg, symbol, Opening(initial), x);
    StepIs(cfg, symbol, Play(cfg, symbol, initial, [x]), y);
    StepIs(cfg, symbol, Play(cfg, symbol, initial, [x, y]), z);
    assert Play(cfg, symbol, initial, []) == Opening(initial);
    hide Play;
  }

  lemma MarkedDown()
    ensures var a := Account(-1000.0, Some(Lot(0.000_000_01, 300_000_000_000.0)));
      Equity(a, 200_000_000_000.0) == 1000.0 && Equity(a, 100_000_000.0) == -999.0
    ensures Equity(Account(2000.0, None), 300_000_000_000.0) == 2000.0
  {
  }

  lemma SinkingEquity(symbol: string)
    ensures Play(Settings(0.0, 1.0), symbol, 2000.0, SINKING).equity == [2000.0, 2000.0, 1000.0, -999.0]
  {
    hide Play;
    hide Equity;
    hide BuyAccount;
    hide Oversized;
    ThreeBars(Settings(0.0, 1.0), symbol, 2000.0, SINKING[0], SINKING[1], SINKING[2]);
    ShrinkCanOverdraw();
    MarkedDown();
  }

  lemma FallIs(peak: real, equity: real, fall: real)
    requires peak > 0.0 && fall * peak == peak - equity
    ensures Drawdown.Fall(peak, equity) == fall
  {
  }

  lemma ScanStep(history: seq<real>, equity: real)
    requires |history| > 0
    ensures var (peak, worst) := Drawdown.Scan(history);
      var now := Drawdown.Max(peak, equity);
      Drawdown.Scan(history + [equity])
      == (now, if now > 0.0 then Drawdown.Max(worst, Drawdown.Fall(now, equity)) else worst)
  {
    assert (history + [equity])[..|history|] == history;
  }

  lemma SinkingScan()
    ensures Drawdown.Scan([2000.0, 2000.0, 1000.0, -999.0]) == (2000.0, 1.4995)
  {
    FallIs(2000.0, 2000.0, 0.0);
    FallIs(2000.0, 1000.0, 0.5);
    FallIs(2000.0, -999.0, 1.4995);
    hide Drawdown.Fall;
    assert Drawdown.Scan([2000.0]) == (2000.0, 0.0);
    assert [2000.0] + [2000.0] == [2000.0, 2000.0];
    assert [2000.0, 2000.0] + [1000.0] == [2000.0, 2000.0, 1000.0];
    assert [2000.0, 2000.0, 1000.0] + [-999.0] == [2000.0, 2000.0, 1000.0, -999.0];
    hide Drawdown.Scan;
    ScanStep([2000.0], 2000.0);
    ScanStep([2000.0, 2000.0], 1000.0);
    ScanStep([2000.0, 2000.0, 1000.0], -999.0);
  }

  lemma SinkingFalls()
    ensures Drawdown.IsLargestFall([2000.0, 2000.0, 1000.0, -999.0], 1.999)
  {
    var h := [2000.0, 2000.0, 1000.0, -999.0];
    FallIs(h[2], h[3], 1.999);
    assert Drawdown.Fall(h[2], h[3]) == 1.999;
  }

  /**
    Cash overdrawn in this way makes a run whose drawdown is not a number from 0 to 1, and not its largest fall
    either: the equity goes 2000, 2000, 1000, -999, one pass reports the fall from 2000, and the fall from 1000 is
    larger.
   */
  lemma InsolventRun(symbol: string)
    ensures var equity := Play(Settings(0.0, 1.0), symbol, 2000.0, SINKING).equity;
      Drawdown.MaxDrawdown(equity) == 1.4995 && Drawdown.IsLargestFall(equity, 1.999)
  {
    SinkingEquity(symbol);
    SinkingScan();
    SinkingFalls();
    hide Play;
    hide Drawdown.IsLargestFall;
    hide Drawdown.Scan;
  }

  lemma NonNegativeProduct(x: real, y: real)
    requires x >= 0.0 && y >= 0.0
    ensures x * y >= 0.0
  {
  }

  /** For a fee rate of at most one half a rounded fee never exceeds the value it is charged on. */
  lemma FeeWithinValue(cfg: Config, value: real)
    requires 0.0 <= cfg.feeRate <= 0.5 && value >= 0.0
    ensures 0.0 <= Fee(cfg, value) <= value
  {
    hide Quantize;
    NonNegativeProduct(value, cfg.feeRate);
    ScaleUp(cfg.feeRate, 0.5, value);
    assert 0.0 <= ExactFee(cfg, value) <= 0.5 * value;
    hide ExactFee;
    QuantizeAtMostDouble(ExactFee(cfg, value), Cent);
  }

  /** One bar's effect on cash: it falls below zero only by way of a shrunk purchase, and then by at most Slack. */
  lemma CashAfterBar(cfg: Config, symbol: string, a: Account, bar: Bar)
    requires bar.close > 0.0 && 0.0 <= cfg.feeRate <= 0.5
    ensures var after := Execute(cfg, symbol, a, bar).0.balance;
      after >= -Slack(cfg, bar.close) || after >= a.balance
    ensures a.balance >= 0.0
        && (bar.signal == Some(BUY) && OrderAmount(cfg, a.balance) > MIN_ORDER
            ==> !Oversized(cfg, a.balance, bar.close))
        ==> Execute(cfg, symbol, a, bar).0.balance >= 0.0
  {
    var price := bar.close;
    ShrunkCost(cfg, a.balance, price);
    GrossPositive(cfg, price);
    hide Affordable;
    hide Wanted;
    hide Cost;
    if a.holding.Some? {
      NonNegativeProduct(Held(a), price);
      FeeWithinValue(cfg, Value(Held(a), price));
    }
    hide Fee;
    hide Value;
  }

  lemma SlackGrows(cfg: Config, price: real, highest: real)
    requires price <= highest && cfg.feeRate >= 0.0
    ensures Slack(cfg, price) <= Slack(cfg, highest)
  {
    ScaleUp(price, highest, 1.0 + cfg.feeRate);
  }

  ghost predicate Below(bars: seq<Bar>, highest: real) {
    forall i :: 0 <= i < |bars| ==> 0.0 < bars[i].close <= highest
  }

  /** Over a whole run cash never drops below minus half a quantity unit at the highest gross price and half a cent. */
  lemma {:induction false} CashFloor(cfg: Config, symbol: string, initial: real, bars: seq<Bar>, highest: real)
    requires Below(bars, highest) && 0.0 <= cfg.feeRate <= 0.5 && initial >= 0.0
    requires |bars| > 0
    ensures Play(cfg, symbol, initial, bars).account.balance >= -Slack(cfg, highest)
    ensures RunLedger(cfg, symbol, initial, bars).account.balance >= -Slack(cfg, highest)
  {
    var n := |bars| - 1;
    var before := Play(cfg, symbol, initial, bars[..n]);
    GrossPositive(cfg, bars[n].close);
    SlackGrows(cfg, bars[n].close, highest);
    if n > 0 { CashFloor(cfg, symbol, initial, bars[..n], highest); }
    CashAfterBar(cfg, symbol, before.account, bars[n]);
    var after := Play(cfg, symbol, initial, bars);
    CashAfterBar(cfg, symbol, after.account, bars[n].(signal := Some(SELL)));
  }

  /** The numbers under which an order at this price never has to shrink. */
  predicate Roomy(cfg: Config, price: real) {
    && 0.0 <= cfg.feeRate <= 0.5
    && 0.0 < cfg.orderRatio
    && cfg.orderRatio * Slack(cfg, price) <= (1.0 - cfg.orderRatio * (1.0 + cfg.feeRate)) * MIN_ORDER
  }

  lemma RoomyArithmetic(balance: real, ratio: real, rate: real, slack: real)
    requires ratio > 0.0 && balance * ratio > MIN_ORDER && slack >= 0.0
    requires ratio * slack <= (1.0 - ratio * (1.0 + rate)) * MIN_ORDER
    ensures balance * ratio * (1.0 + rate) + slack <= balance
  {
    var room := 1.0 - ratio * (1.0 + rate);
    assert room >= 0.0 by { NonNegativeProduct(ratio, slack); }
    ScaleUp(MIN_ORDER, balance * ratio, room);
    assert ratio * slack <= ratio * (balance * room);
    Cancel(slack, balance * room, ratio);
    assert balance * room == balance - balance * ratio * (1.0 + rate);
  }

  lemma GrossOfQuotient(cfg: Config, amount: real, price: real)
    requires price > 0.0
    ensures (amount / price) * Gross(cfg, price) == amount * (1.0 + cfg.feeRate)
  {
    var exact, m := amount / price, 1.0 + cfg.feeRate;
    assert exact * price == amount;
    Associate(exact, price, m);
  }

  lemma Associate(x: real, y: real, z: real)
    ensures x * (y * z) == (x * y) * z
  {
  }

  lemma WantedCost(cfg: Config, balance: real, price: real)
    requires price > 0.0 && cfg.feeRate >= 0.0
    ensures Cost(cfg, Wanted(cfg, balance, price), price)
         <= OrderAmount(cfg, balance) * (1.0 + cfg.feeRate) + Slack(cfg, price)
  {
    hide Cost;
    hide Wanted;
    GrossPositive(cfg, price);
    QuantitiesNear(cfg, balance, price);
    hide Affordable;
    hide OrderAmount;
    var q, exact := Wanted(cfg, balance, price), OrderAmount(cfg, balance) / price;
    GrossOfQuotient(cfg, OrderAmount(cfg, balance), price);
    hide Gross;
    CostNear(cfg, q, price);
    ScaleUp(q, exact + HalfUnit(Satoshi), Gross(cfg, price));
    Distribute(exact, HalfUnit(Satoshi), Gross(cfg, price));
  }

  lemma NoShrink(cfg: Config, balance: real, price: real)
    requires price > 0.0 && Roomy(cfg, price) && OrderAmount(cfg, balance) > MIN_ORDER
    ensures !Oversized(cfg, balance, price)
  {
    GrossPositive(cfg, price);
    WantedCost(cfg, balance, price);
    hide Cost;
    hide Wanted;
    RoomyArithmetic(balance, cfg.orderRatio, cfg.feeRate, Slack(cfg, price));
  }

  lemma RoomyBelow(cfg: Config, price: real, highest: real)
    requires price <= highest && Roomy(cfg, highest)
    ensures Roomy(cfg, price)
  {
    SlackGrows(cfg, price, highest);
    ScaleUp(Slack(cfg, price), Slack(cfg, highest), cfg.orderRatio);
  }

  lemma RoomyBar(cfg: Config, symbol: string, a: Account, bar: Bar, highest: real)
    requires 0.0 < bar.close <= highest && Roomy(cfg, highest) && a.balance >= 0.0
    ensures Execute(cfg, symbol, a, bar).0.balance >= 0.0
    ensures Equity(a, bar.close) >= 0.0
  {
    RoomyBelow(cfg, bar.close, highest);
    if OrderAmount(cfg, a.balance) > MIN_ORDER {
      NoShrink(cfg, a.balance, bar.close);
    }
    hide Oversized;
    CashAfterBar(cfg, symbol, a, bar);
    NonNegativeProduct(Held(a), bar.close);
  }

  lemma RoomyClose(cfg: Config, symbol: string, b: Book, last: Bar, highest: real)
    requires 0.0 < last.close <= highest && Roomy(cfg, highest) && b.account.balance >= 0.0
    ensures CloseOut(cfg, symbol, b, last).account.balance >= 0.0
  {
    RoomyBar(cfg, symbol, b.account, last.(signal := Some(SELL)), highest);
    hide Value;
    hide Fee;
    hide Roomy;
  }

  /** Where orders are roomy cash and every recorded equity stay non-negative through the run. */
  lemma {:induction false} CashStaysNonNegative(cfg: Config, symbol: string, initial: real, bars: seq<Bar>,
                                                highest: real)
    requires Below(bars, highest) && Roomy(cfg, highest) && initial >= 0.0
    ensures var b := Play(cfg, symbol, initial, bars);
      b.account.balance >= 0.0 && forall i :: 0 <= i < |b.equity| ==> b.equity[i] >= 0.0
    ensures |bars| > 0 ==> RunLedger(cfg, symbol, initial, bars).account.balance >= 0.0
  {
    hide Execute;
    hide Roomy;
    hide Equity;
    if |bars| > 0 {
      var n := |bars| - 1;
      CashStaysNonNegative(cfg, symbol, initial, bars[..n], highest);
      RoomyBar(cfg, symbol, Play(cfg, symbol, initial, bars[..n]).account, bars[n], highest);
      RoomyClose(cfg, symbol, Play(cfg, symbol, initial, bars), bars[n], highest);
    }
  }

  /** There the drawdown of the run is its largest fall, a number from 0 to 1. */
  lemma RunDrawdown(cfg: Config, symbol: string, initial: real, bars: seq<Bar>, highest: real)
    requires Below(bars, highest) && Roomy(cfg, highest) && initial >= 0.0
    ensures var equity := Play(cfg, symbol, initial, bars).equity;
      Drawdown.IsLargestFall(equity, Drawdown.MaxDrawdown(equity)) && 0.0 <= Drawdown.MaxDrawdown(equity) <= 1.0
  {
    CashStaysNonNegative(cfg, symbol, initial, bars, highest);
    Drawdown.MaxDrawdownIsLargestFall(Play(cfg, symbol, initial, bars).equity);
    hide Play;
    hide Roomy;
    hide Drawdown.IsLargestFall;
    hide Drawdown.MaxDrawdown;
  }

  /** The program's defaults are roomy up to a price of four hundred billion. */
  lemma DefaultsAreRoomy()
    ensures Roomy(Settings(0.0005, 0.3), 400_000_000_000.0)
  {
  }
}
