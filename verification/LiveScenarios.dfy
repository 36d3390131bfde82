/**
  Where the live system does less than its documents say: exact conditions over every run, and concrete runs in
  which they bite.
 */
module LiveScenarios {
  import opened Options
  import opened Rounding
  import opened Signals
  import opened Ledger
  import opened Positions
  import opened Risk
  import opened StopLoss
  import opened Orders
  import opened Live
  import opened LiveSignals
  import opened LivePositions
  import opened LiveRounds

  // ---- a sale is not the whole holding ----

  /** The quantity every sale at this price asks for. */
  function SaleQuantity(cfg: Setup, price: real): real
    requires price != 0.0
  {
    Clamp(cfg.orders.risk, Asked(cfg.orders, price), price)
  }

  lemma SaleIsUnsplit(cfg: Setup, pass: nat, signal: Signal)
    requires signal.price != 0.0 && OrderSide(signal.kind) == Side.Sell
    ensures OrderOf(cfg, pass, signal).quantity == SaleQuantity(cfg, signal.price)
  {
    hide Clamp;
    hide Asked;
  }

  lemma SubmitOrder(cfg: Setup, actions: seq<Action>, id: nat)
    requires id in Exec(cfg, actions).desk.submits && Exec(cfg, actions).desk.submits[id].order.side == Side.Sell
    ensures var order := Exec(cfg, actions).desk.submits[id].order;
      order.price != 0.0 && order.quantity == SaleQuantity(cfg, order.price)
  {
    EverythingTraced(cfg, actions);
    hide Exec;
    hide SaleQuantity;
    var s := Exec(cfg, actions);
    var order := s.desk.submits[id].order;
    assert Came(cfg, s.gate.passes, order);
    SaleIsUnsplit(cfg, order.pass, s.gate.passes[order.pass].signal);
    hide Clamp;
    hide Asked;
    hide PieceQuantity;
  }

  /** The step in which the position handler applies an announced execution. */
  lemma HandlerApplies(cfg: Setup, s: State, id: nat, report: Report)
    requires id in s.desk.submits && s.desk.submits[id].stage == Announced(report)
    ensures Step(cfg, s, HandlerRuns(id)).positions
         == s.positions[report.symbol := ApplyFill(PositionIn(s.positions, report.symbol), report.fill)]
  {
    hide ApplyFill;
    var d := Resume(s.desk, HandlerRuns(id));
    assert d.applied == s.desk.applied + [Row(id, report)];
    assert d.applied[|s.desk.applied|..] == [Row(id, report)];
  }

  /**
    A sale executed as submitted leaves the symbol flat exactly when the holding is at most what every sale at that
    price asks for; anything held beyond that stays open.
   */
  lemma SaleFlattensWhen(cfg: Setup, actions: seq<Action>, id: nat, executed: real)
    requires id in Exec(cfg, actions).desk.submits
    requires var u := Exec(cfg, actions).desk.submits[id];
      && u.order.side == Side.Sell
      && u.stage == Announced(Report(u.order.symbol, Fill(Side.Sell, u.order.quantity, executed)))
    ensures var s := Exec(cfg, actions);
      var order := s.desk.submits[id].order;
      && order.price != 0.0
      && (!PositionIn(Step(cfg, s, HandlerRuns(id)).positions, order.symbol).IsOpen()
          <==> PositionIn(s.positions, order.symbol).quantity <= SaleQuantity(cfg, order.price))
  {
    SubmitOrder(cfg, actions, id);
    hide Exec;
    hide SaleQuantity;
    var s := Exec(cfg, actions);
    var order := s.desk.submits[id].order;
    HandlerApplies(cfg, s, id, Report(order.symbol, Fill(Side.Sell, order.quantity, executed)));
    hide Step;
  }

  // ---- a position closed and opened again unseen ----

  predicate TicksFor(a: Action, symbol: string) {
    a.PriceEvent? && a.symbol == symbol
  }

  lemma OtherTicks(cfg: Setup, s: State, a: Action, symbol: string)
    requires !TicksFor(a, symbol) && symbol in s.monitor.triggered
    ensures symbol in Step(cfg, s, a).monitor.triggered
  {
    if a.PriceEvent? {
      hide Crosses;
    } else {
      OnlyPricesTick(cfg, s, a);
      hide Step;
    }
  }

  lemma {:induction false} StaysTriggered(cfg: Setup, s: State, between: seq<Action>, symbol: string)
    requires symbol in s.monitor.triggered && forall i :: 0 <= i < |between| ==> !TicksFor(between[i], symbol)
    ensures symbol in Continue(cfg, s, between).monitor.triggered
  {
    if |between| > 0 {
      var n := |between| - 1;
      StaysTriggered(cfg, s, between[..n], symbol);
      OtherTicks(cfg, Continue(cfg, s, between[..n]), between[n], symbol);
      hide Step;
    }
  }

  lemma TriggeredIsSilent(cfg: Setup, s: State, symbol: string, price: Option<real>)
    requires symbol in s.monitor.triggered
    ensures Step(cfg, s, PriceEvent(symbol, price)).recording == s.recording
  {
    hide Crosses;
  }

  /**
    After a stop sell for a symbol any number of fills may close its position and open it again: while no price
    event for it comes between, the next one starts no signal, whatever price it brings.
   */
  lemma UnseenReopeningIsUnprotected(cfg: Setup, before: seq<Action>, price: Option<real>, between: seq<Action>,
                                     symbol: string, later: Option<real>)
    requires var s := Exec(cfg, before); Step(cfg, s, PriceEvent(symbol, price)).recording != s.recording
    requires forall i :: 0 <= i < |between| ==> !TicksFor(between[i], symbol)
    ensures var t := Exec(cfg, before + [PriceEvent(symbol, price)] + between);
      Step(cfg, t, PriceEvent(symbol, later)).recording == t.recording
  {
    var s := Exec(cfg, before);
    var sold := Step(cfg, s, PriceEvent(symbol, price));
    SellTriggers(cfg, s, symbol, price);
    hide Step;
    OneAction(cfg, s, PriceEvent(symbol, price));
    ExecContinues(cfg, before, [PriceEvent(symbol, price)]);
    ExecContinues(cfg, before + [PriceEvent(symbol, price)], between);
    StaysTriggered(cfg, sold, between, symbol);
    hide Exec;
    hide Continue;
    TriggeredIsSilent(cfg, Exec(cfg, before + [PriceEvent(symbol, price)] + between), symbol, later);
  }

  lemma SellTriggers(cfg: Setup, s: State, symbol: string, price: Option<real>)
    requires Step(cfg, s, PriceEvent(symbol, price)).recording != s.recording
    ensures symbol in Step(cfg, s, PriceEvent(symbol, price)).monitor.triggered
  {
    hide Crosses;
  }

  // ---- concrete runs ----

  /**
    Orders of 100, a cooldown of a minute, no splitting; at most 1000 an order and 60 lost a day; stops at -5% and
    +10%.
   */
  const SHOP: Setup := Setup(Orders.Settings(100.0, 60.0, 1, RiskConfig(1000.0, 60.0, 1.0)), StopConfig(0.05, 0.1))

  const CASH := 1000.0

  function Buying(symbol: string): Signal { Signal(symbol, BUY, 100.0) }
  function Selling(symbol: string, price: real): Signal { Signal(symbol, SELL, price) }
  function Bought(symbol: string): Report { Report(symbol, Fill(Side.Buy, 1.0, 100.0)) }
  function Sold(symbol: string, quantity: real, price: real): Report {
    Report(symbol, Fill(Side.Sell, quantity, price))
  }

  lemma AskedAt()
    ensures Asked(SHOP.orders, 100.0) == 1.0 && Asked(SHOP.orders, 80.0) == 1.25
    ensures Asked(SHOP.orders, 50.0) == 2.0 && Asked(SHOP.orders, 200.0) == 0.5
  {
    RoundUnique(1.0 * Scale(Satoshi), 100_000_000);
    RoundUnique(1.25 * Scale(Satoshi), 125_000_000);
    RoundUnique(2.0 * Scale(Satoshi), 200_000_000);
    RoundUnique(0.5 * Scale(Satoshi), 50_000_000);
    hide RoundHalfEven;
  }

  lemma BuyApproved(s: State, symbol: string)
    ensures Approves(SHOP, s, Buying(symbol), CASH, 1.0)
  {
    AskedAt();
    hide Asked;
    hide Quantize;
  }

  /** One coin bought at 100 may be sold at these prices: what it has lost is within the daily limit. */
  lemma SaleApproved(s: State, symbol: string, price: real)
    requires PositionIn(s.positions, symbol) == Position(1.0, 100.0) && s.dailyLoss == 0.0
    requires price == 80.0 || price == 50.0 || price == 200.0
    ensures Approves(SHOP, s, Selling(symbol, price), CASH, Asked(SHOP.orders, price))
  {
    AskedAt();
    hide Asked;
    hide Quantize;
  }

  lemma BuyAtFlat()
    ensures ApplyFill(FLAT, Fill(Side.Buy, 1.0, 100.0)) == Position(1.0, 100.0)
  {
  }

  lemma AfterBuying(s: State, k: nat, symbol: string)
    requires RoundsDone(s, k, map[]) && PositionIn(s.positions, symbol) == FLAT
    ensures var t := Continue(SHOP, s, Deal(SHOP, k, Buying(symbol), CASH, Bought(symbol)));
      && RoundsDone(t, k + 1, map[]) && t.positions == s.positions[symbol := Position(1.0, 100.0)]
      && t.monitor == s.monitor && t.dailyLoss == s.dailyLoss
      && t.desk.calls == s.desk.calls + [OrderFor(SHOP, k, Buying(symbol), 1.0)]
  {
    BuyApproved(s, symbol);
    BuyAtFlat();
    hide Approves;
    hide ApplyFill;
    hide Continue;
    DealRuns(SHOP, s, k, Buying(symbol), CASH, 1.0, Bought(symbol));
  }

  lemma AfterSelling(s: State, k: nat, symbol: string, quantity: real, price: real)
    requires RoundsDone(s, k, map[]) && PositionIn(s.positions, symbol) == Position(1.0, 100.0) && s.dailyLoss == 0.0
    requires price == 80.0 || price == 50.0 || price == 200.0
    ensures var signal := Selling(symbol, price);
      var t := Continue(SHOP, s, Deal(SHOP, k, signal, CASH, Sold(symbol, quantity, price)));
      && RoundsDone(t, k + 1, map[])
      && t.positions == s.positions[symbol := ApplyFill(Position(1.0, 100.0), Fill(Side.Sell, quantity, price))]
      && t.monitor == s.monitor && t.dailyLoss == s.dailyLoss
      && t.desk.calls == s.desk.calls + [OrderFor(SHOP, k, signal, Asked(SHOP.orders, price))]
  {
    SaleApproved(s, symbol, price);
    hide Approves;
    hide ApplyFill;
    hide Continue;
    hide Asked;
    DealRuns(SHOP, s, k, Selling(symbol, price), CASH, Asked(SHOP.orders, price), Sold(symbol, quantity, price));
  }

  lemma Beginning()
    ensures RoundsDone(START, 0, map[]) && Exec(SHOP, []) == START
  {
  }

  lemma OrderIs(k: nat, symbol: string, price: real)
    requires price == 80.0 || price == 50.0 || price == 200.0
    ensures OrderFor(SHOP, k, Selling(symbol, price), Asked(SHOP.orders, price))
         == Order(k, symbol, Side.Sell, Asked(SHOP.orders, price), price)
  {
    hide Asked;
  }

  /** Buy a coin at 100 and sell at 200, executed as submitted: half a coin stays. */
  lemma SaleLeavesTheRest()
    ensures var buy := Deal(SHOP, 0, Buying("BTC"), CASH, Bought("BTC"));
      var sell := Deal(SHOP, 1, Selling("BTC", 200.0), CASH, Sold("BTC", 0.5, 200.0));
      var t := Exec(SHOP, buy + sell);
      && |t.desk.calls| == 2 && t.desk.calls[1] == Order(1, "BTC", Side.Sell, 0.5, 200.0)
      && PositionIn(t.positions, "BTC") == Position(0.5, 100.0)
  {
    var buy := Deal(SHOP, 0, Buying("BTC"), CASH, Bought("BTC"));
    var sell := Deal(SHOP, 1, Selling("BTC", 200.0), CASH, Sold("BTC", 0.5, 200.0));
    ContinueFromStart(buy);
    ExecContinues(SHOP, buy, sell);
    Beginning();
    AskedAt();
    OrderIs(1, "BTC", 200.0);
    assert ApplyFill(Position(1.0, 100.0), Fill(Side.Sell, 0.5, 200.0)) == Position(0.5, 100.0);
    hide Exec;
    hide Continue;
    hide Deal;
    hide Asked;
    hide ApplyFill;
    AfterBuying(START, 0, "BTC");
    AfterSelling(Exec(SHOP, buy), 1, "BTC", 0.5, 200.0);
  }

  lemma ContinueFromStart(xs: seq<Action>)
    ensures Exec(SHOP, xs) == Continue(SHOP, START, xs)
  {
    ExecContinues(SHOP, [], xs);
    assert [] + xs == xs;
  }

  /** One coin of each, bought at 100. */
  const TWO_BUYS := Deal(SHOP, 0, Buying("BTC"), CASH, Bought("BTC"))
                  + Deal(SHOP, 1, Buying("ETH"), CASH, Bought("ETH"))

  lemma TwoBought()
    ensures var s := Exec(SHOP, TWO_BUYS);
      && RoundsDone(s, 2, map[]) && s.dailyLoss == 0.0 && |s.desk.calls| == 2
      && PositionIn(s.positions, "BTC") == Position(1.0, 100.0)
      && PositionIn(s.positions, "ETH") == Position(1.0, 100.0)
  {
    var btc := Deal(SHOP, 0, Buying("BTC"), CASH, Bought("BTC"));
    var eth := Deal(SHOP, 1, Buying("ETH"), CASH, Bought("ETH"));
    Beginning();
    ContinueFromStart(btc);
    ExecContinues(SHOP, btc, eth);
    hide Exec;
    hide Continue;
    hide Deal;
    AfterBuying(START, 0, "BTC");
    AfterBuying(Exec(SHOP, btc), 1, "ETH");
  }

  /** Selling a coin bought at 100 for 50. */
  lemma SoldAtHalf(actions: seq<Action>, k: nat, symbol: string)
    requires var s := Exec(SHOP, actions);
      RoundsDone(s, k, map[]) && s.dailyLoss == 0.0 && PositionIn(s.positions, symbol) == Position(1.0, 100.0)
    ensures var s := Exec(SHOP, actions);
      var t := Exec(SHOP, actions + Deal(SHOP, k, Selling(symbol, 50.0), CASH, Sold(symbol, 1.0, 50.0)));
      && RoundsDone(t, k + 1, map[]) && t.dailyLoss == 0.0 && t.positions == s.positions[symbol := FLAT]
      && PositionIn(s.positions, symbol).UnrealizedPnl(50.0) == -50.0
      && t.desk.calls == s.desk.calls + [Order(k, symbol, Side.Sell, 2.0, 50.0)]
  {
    var sale := Deal(SHOP, k, Selling(symbol, 50.0), CASH, Sold(symbol, 1.0, 50.0));
    ExecContinues(SHOP, actions, sale);
    AskedAt();
    OrderIs(k, symbol, 50.0);
    assert ApplyFill(Position(1.0, 100.0), Fill(Side.Sell, 1.0, 50.0)) == FLAT;
    assert Position(1.0, 100.0).UnrealizedPnl(50.0) == -50.0;
    hide Exec;
    hide Continue;
    hide Deal;
    hide Asked;
    hide ApplyFill;
    hide Value;
    AfterSelling(Exec(SHOP, actions), k, symbol, 1.0, 50.0);
  }

  /**
    Two sales on one day, each of a coin that has lost 50 of a daily limit of 60: both are submitted and executed,
    and 100 is lost.
   */
  lemma DailyLimitIsPassed()
    ensures var first := TWO_BUYS + Deal(SHOP, 2, Selling("BTC", 50.0), CASH, Sold("BTC", 1.0, 50.0));
      var both := first + Deal(SHOP, 3, Selling("ETH", 50.0), CASH, Sold("ETH", 1.0, 50.0));
      var s, t, u := Exec(SHOP, TWO_BUYS), Exec(SHOP, first), Exec(SHOP, both);
      && PositionIn(s.positions, "BTC").UnrealizedPnl(50.0) == -50.0 && PositionIn(t.positions, "BTC") == FLAT
      && PositionIn(t.positions, "ETH").UnrealizedPnl(50.0) == -50.0 && PositionIn(u.positions, "ETH") == FLAT
      && |u.desk.calls| == 4
      && u.desk.calls[2] == Order(2, "BTC", Side.Sell, 2.0, 50.0)
      && u.desk.calls[3] == Order(3, "ETH", Side.Sell, 2.0, 50.0)
  {
    hide Exec;
    hide Deal;
    hide Value;
    TwoBought();
    SoldAtHalf(TWO_BUYS, 2, "BTC");
    SoldAtHalf(TWO_BUYS + Deal(SHOP, 2, Selling("BTC", 50.0), CASH, Sold("BTC", 1.0, 50.0)), 3, "ETH");
  }

  /** A price event for a coin bought at 100: at 80 the stop sells. */
  lemma StopSells(s: State, k: nat)
    requires RoundsDone(s, k, map[]) && PositionIn(s.positions, "BTC") == Position(1.0, 100.0)
    requires s.monitor.triggered == {}
    ensures var t := Step(SHOP, s, PriceEvent("BTC", Some(80.0)));
      && RoundsDone(t, k, map[k := Selling("BTC", 80.0)]) && t.recording != s.recording
      && t.positions == s.positions && t.dailyLoss == s.dailyLoss && t.desk == s.desk
  {
    var tick := Tick("BTC", Some(80.0), Position(1.0, 100.0));
    assert Crosses(SHOP.stop, tick);
    hide Crosses;
  }

  const ENTRY := Deal(SHOP, 0, Buying("BTC"), CASH, Bought("BTC"))
  const STOP := ENTRY + [PriceEvent("BTC", Some(80.0))]
  const CLOSING := Round(SHOP, 1, CASH, Sold("BTC", 1.0, 80.0))
  const REOPENING := Deal(SHOP, 2, Buying("BTC"), CASH, Bought("BTC"))

  lemma Stopped()
    ensures Exec(SHOP, ENTRY).recording == map[]
    ensures var s := Exec(SHOP, STOP);
      && RoundsDone(s, 1, map[1 := Selling("BTC", 80.0)]) && s.dailyLoss == 0.0
      && PositionIn(s.positions, "BTC") == Position(1.0, 100.0)
  {
    Beginning();
    ContinueFromStart(ENTRY);
    ExecContinues(SHOP, ENTRY, [PriceEvent("BTC", Some(80.0))]);
    OneAction(SHOP, Exec(SHOP, ENTRY), PriceEvent("BTC", Some(80.0)));
    hide Exec;
    hide Continue;
    hide Deal;
    hide Step;
    AfterBuying(START, 0, "BTC");
    StopSells(Exec(SHOP, ENTRY), 1);
  }

  lemma Closed()
    ensures var s := Exec(SHOP, STOP + CLOSING); RoundsDone(s, 2, map[]) && PositionIn(s.positions, "BTC") == FLAT
  {
    Stopped();
    ExecContinues(SHOP, STOP, CLOSING);
    assert ApplyFill(Position(1.0, 100.0), Fill(Side.Sell, 1.0, 80.0)) == FLAT;
    hide Exec;
    hide Continue;
    hide Round;
    hide ApplyFill;
    hide Approves;
    var s := Exec(SHOP, STOP);
    SaleApproved(s, "BTC", 80.0);
    RoundRuns(SHOP, s, 1, Selling("BTC", 80.0), CASH, Asked(SHOP.orders, 80.0), Sold("BTC", 1.0, 80.0));
  }

  lemma Reopened()
    ensures PositionIn(Exec(SHOP, STOP + (CLOSING + REOPENING)).positions, "BTC") == Position(1.0, 100.0)
  {
    Closed();
    ExecContinues(SHOP, STOP + CLOSING, REOPENING);
    assert STOP + (CLOSING + REOPENING) == STOP + CLOSING + REOPENING;
    hide Exec;
    hide Continue;
    hide Deal;
    AfterBuying(Exec(SHOP, STOP + CLOSING), 2, "BTC");
  }

  lemma NoTickBetween()
    ensures forall i :: 0 <= i < |CLOSING + REOPENING| ==> !TicksFor((CLOSING + REOPENING)[i], "BTC")
  {
  }

  /**
    Bought at 100, stopped out at 80, bought again at 100 before any further price event: at 50 the open position
    is far beyond the stop, and no signal starts.
   */
  lemma ReopenedAndUnprotected()
    ensures var t := Exec(SHOP, STOP + (CLOSING + REOPENING));
      && Exec(SHOP, STOP).recording == map[1 := Selling("BTC", 80.0)]
      && PositionIn(Exec(SHOP, STOP + CLOSING).positions, "BTC") == FLAT
      && PositionIn(t.positions, "BTC") == Position(1.0, 100.0)
      && Crosses(SHOP.stop, Tick("BTC", Some(50.0), PositionIn(t.positions, "BTC")))
      && Step(SHOP, t, PriceEvent("BTC", Some(50.0))).recording == t.recording
  {
    assert Crosses(SHOP.stop, Tick("BTC", Some(50.0), Position(1.0, 100.0)));
    hide Crosses;
    ExecContinues(SHOP, ENTRY, [PriceEvent("BTC", Some(80.0))]);
    OneAction(SHOP, Exec(SHOP, ENTRY), PriceEvent("BTC", Some(80.0)));
    hide Exec;
    hide Continue;
    hide Deal;
    hide Round;
    hide Step;
    hide TicksFor;
    Stopped();
    Closed();
    Reopened();
    NoTickBetween();
    UnseenReopeningIsUnprotected(SHOP, ENTRY, Some(80.0), CLOSING + REOPENING, "BTC", Some(50.0));
  }
}
