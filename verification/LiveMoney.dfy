/**
  What the gate, the clamp and the risk check mean together: which purchases are backed, and how fast money can go
  out.
 */
module LiveMoney {
  import opened Rounding
  import opened Ledger
  import opened Risk
  import opened Orders
  import opened Live
  import opened LiveGate
  import opened LiveProtocol
  import opened LiveOrders
  import opened LiveSignals

  // ---- approved purchases ----

  /** This action is the risk check that approved the purchase, with the cash it saw. */
  predicate ApprovedBy(cfg: Setup, a: Action, order: Order) {
    && a.RiskChecked? && a.pass == order.pass && order.price != 0.0
    && WithinRatio(cfg.orders.risk,
                   Value(Clamp(cfg.orders.risk, Asked(cfg.orders, order.price), order.price), order.price),
                   a.available)
  }

  ghost predicate Backed(cfg: Setup, actions: seq<Action>, order: Order) {
    order.side == Side.Buy ==> exists k :: 0 <= k < |actions| && ApprovedBy(cfg, actions[k], order)
  }

  ghost predicate AllBacked(cfg: Setup, actions: seq<Action>, d: Desk) {
    && (forall p :: p in d.dca ==> Backed(cfg, actions, d.dca[p].order))
    && (forall i :: 0 <= i < |d.calls| ==> Backed(cfg, actions, d.calls[i]))
  }

  lemma BackedLater(cfg: Setup, actions: seq<Action>, a: Action, d: Desk)
    requires AllBacked(cfg, actions, d)
    ensures AllBacked(cfg, actions + [a], d)
  {
    hide ApprovedBy;
    forall o | Backed(cfg, actions, o) ensures Backed(cfg, actions + [a], o) {
      if o.side == Side.Buy {
        var k :| 0 <= k < |actions| && ApprovedBy(cfg, actions[k], o);
        assert (actions + [a])[k] == actions[k];
      }
    }
    hide Backed;
  }

  lemma AllowedIsBacked(cfg: Setup, s: State, pass: nat, available: real)
    requires Allowed(cfg, s, pass, available).Some? && Queues(cfg, s.gate.passes, s.checking)
    ensures pass in s.checking
    ensures var signal := s.checking[pass].signal;
      OrderSide(signal.kind) == Side.Buy ==>
        ApprovedBy(cfg, RiskChecked(pass, available),
                   Order(pass, signal.symbol, Side.Buy,
                         PieceQuantity(cfg.orders, Side.Buy, Allowed(cfg, s, pass, available).value), signal.price))
  {
    var c := s.checking[pass];
    assert InQueue(cfg, s.gate.passes, pass, c);
    var risk := cfg.orders.risk;
    ApprovedBuy(risk, s.dailyLoss, PositionIn(s.positions, c.signal.symbol), available, c.asked, c.signal.price);
    hide Judge;
    hide WithinRatio;
    hide Clamp;
    hide Asked;
    hide PieceQuantity;
  }

  lemma AcceptIsBacked(cfg: Setup, s: State, before: seq<Action>, pass: nat, available: real)
    requires AllBacked(cfg, before, s.desk) && Queues(cfg, s.gate.passes, s.checking)
    requires Allowed(cfg, s, pass, available).Some?
    ensures pass in s.checking
    ensures AllBacked(cfg, before + [RiskChecked(pass, available)],
                      Accept(cfg, s.desk, pass, s.checking[pass].signal, Allowed(cfg, s, pass, available).value))
  {
    AllowedIsBacked(cfg, s, pass, available);
    var a := RiskChecked(pass, available);
    BackedLater(cfg, before, a, s.desk);
    hide Allowed;
    hide ApprovedBy;
    hide Queues;
    hide PieceQuantity;
    var signal, side := s.checking[pass].signal, OrderSide(s.checking[pass].signal.kind);
    var order := Order(pass, signal.symbol, side,
                       PieceQuantity(cfg.orders, side, Allowed(cfg, s, pass, available).value), signal.price);
    assert (before + [a])[|before|] == a;
    assert Backed(cfg, before + [a], order);
    hide Backed;
  }

  lemma DeskIsBacked(cfg: Setup, actions: seq<Action>, d: Desk, a: Action)
    requires AllBacked(cfg, actions, d)
    ensures a.PieceDue? ==> AllBacked(cfg, actions, NextPiece(cfg, d, a.pass))
    ensures OfSubmit(a) ==> AllBacked(cfg, actions, Resume(d, a))
  {
    hide Backed;
    hide NextStage;
  }

  lemma {:induction false} EverythingBacked(cfg: Setup, actions: seq<Action>)
    ensures AllBacked(cfg, actions, Exec(cfg, actions).desk)
  {
    if |actions| > 0 {
      var n := |actions| - 1;
      EverythingBacked(cfg, actions[..n]);
      EverythingTraced(cfg, actions[..n]);
      var s, a := Exec(cfg, actions[..n]), actions[n];
      assert actions == actions[..n] + [a];
      DeskAfter(cfg, s, a);
      BackedLater(cfg, actions[..n], a, s.desk);
      hide Step;
      hide Allowed;
      hide Queues;
      hide AllBacked;
      if a.RiskChecked? {
        if Allowed(cfg, s, a.pass, a.available).Some? { AcceptIsBacked(cfg, s, actions[..n], a.pass, a.available); }
      } else {
        DeskIsBacked(cfg, actions, s.desk, a);
      }
      hide Accept;
      hide NextPiece;
      hide Resume;
    }
  }

  /**
    Every purchase the broker is asked for, pieces of split orders included, was approved by a risk check of its
    gate pass that saw enough cash: the clamped order's value is within the ratio of that cash plus itself.
   */
  lemma PurchasesAreBacked(cfg: Setup, actions: seq<Action>, i: nat)
    requires i < |Exec(cfg, actions).desk.calls| && Exec(cfg, actions).desk.calls[i].side == Side.Buy
    ensures exists k :: 0 <= k < |actions| && ApprovedBy(cfg, actions[k], Exec(cfg, actions).desk.calls[i])
  {
    EverythingBacked(cfg, actions);
    hide Exec;
    hide ApprovedBy;
    assert Backed(cfg, actions, Exec(cfg, actions).desk.calls[i]);
  }

  // ---- the money rate ----

  /** The value of what one gate pass has submitted. */
  function PassMoney(calls: seq<Order>, pass: nat): real {
    if |calls| == 0 then 0.0
    else
      var last := calls[|calls| - 1];
      PassMoney(calls[..|calls| - 1], pass) + if last.pass == pass then Value(last.quantity, last.price) else 0.0
  }

  /** The value submitted for a symbol by the first gate passes. */
  function MoneyBelow(calls: seq<Order>, symbol: string, bound: nat): real {
    if |calls| == 0 then 0.0
    else
      var last := calls[|calls| - 1];
      MoneyBelow(calls[..|calls| - 1], symbol, bound)
      + if last.pass < bound && last.symbol == symbol then Value(last.quantity, last.price) else 0.0
  }

  function SymbolMoney(calls: seq<Order>, symbol: string): real {
    if |calls| == 0 then 0.0
    else
      var last := calls[|calls| - 1];
      SymbolMoney(calls[..|calls| - 1], symbol)
      + if last.symbol == symbol then Value(last.quantity, last.price) else 0.0
  }

  lemma {:induction false} MoneyStep(calls: seq<Order>, symbol: string, bound: nat, mine: bool)
    requires forall i :: 0 <= i < |calls| && calls[i].pass == bound ==> (calls[i].symbol == symbol) == mine
    ensures MoneyBelow(calls, symbol, bound + 1)
         == MoneyBelow(calls, symbol, bound) + if mine then PassMoney(calls, bound) else 0.0
  {
    hide Value;
    if |calls| > 0 { MoneyStep(calls[..|calls| - 1], symbol, bound, mine); }
  }

  lemma {:induction false} MoneyEnds(calls: seq<Order>, symbol: string, bound: nat)
    requires forall i :: 0 <= i < |calls| ==> calls[i].pass < bound
    ensures MoneyBelow(calls, symbol, 0) == 0.0 && MoneyBelow(calls, symbol, bound) == SymbolMoney(calls, symbol)
  {
    hide Value;
    if |calls| > 0 { MoneyEnds(calls[..|calls| - 1], symbol, bound); }
  }

  lemma ValueOfMore(x: real, y: real, price: real)
    ensures Value(x + y, price) == Value(x, price) + Value(y, price) && Value(0.0, price) == 0.0
  {
  }

  lemma {:induction false} PassMoneyIs(calls: seq<Order>, pass: nat, price: real)
    requires forall i :: 0 <= i < |calls| && calls[i].pass == pass ==> calls[i].price == price
    ensures PassMoney(calls, pass) == Value(TotalQuantity(calls, pass), price)
  {
    hide Value;
    ValueOfMore(0.0, 0.0, price);
    if |calls| > 0 {
      var n := |calls| - 1;
      PassMoneyIs(calls[..n], pass, price);
      ValueOfMore(TotalQuantity(calls[..n], pass), calls[n].quantity, price);
    }
  }

  /** The most one gate pass can submit at prices up to the highest. */
  function PassLimit(cfg: Setup, highest: real): real {
    cfg.orders.risk.maxOrderKrw + (Pieces(cfg.orders) as real + 1.0) * (HalfUnit(Satoshi) * highest)
  }

  lemma LimitGrows(limit: real, n: real, m: real, half: real, price: real, highest: real)
    requires 0.0 <= n <= m && half >= 0.0 && 0.0 <= price <= highest
    ensures limit + (n + 1.0) * (half * price) <= limit + (m + 1.0) * (half * highest)
  {
    var low, high := half * price, half * highest;
    assert 0.0 <= low <= high by { assert half * (highest - price) >= 0.0; }
    assert (n + 1.0) * low <= (m + 1.0) * low by { assert (m - n) * low >= 0.0; }
    assert (m + 1.0) * low <= (m + 1.0) * high by { assert (m + 1.0) * (high - low) >= 0.0; }
  }

  /** The signals that passed the gate for this symbol came at positive prices up to the highest. */
  ghost predicate PricedUpTo(passes: seq<Pass>, symbol: string, highest: real) {
    forall p :: 0 <= p < |passes| && passes[p].signal.symbol == symbol ==> 0.0 < passes[p].signal.price <= highest
  }

  lemma SpendingIs(cfg: Setup, calls: seq<Order>, order: Order, highest: real)
    requires SpendsWithinLimit(cfg, calls, order) && 0.0 < order.price <= highest
    ensures Value(TotalQuantity(calls, order.pass), order.price) <= PassLimit(cfg, highest)
  {
    hide TotalQuantity;
    hide Pieces;
    var n, m := PieceCount(cfg.orders, order.side) as real, Pieces(cfg.orders) as real;
    PiecesAtLeastOne(cfg);
    assert n <= m;
    hide PieceCount;
    assert HalfUnit(Satoshi) >= 0.0;
    LimitGrows(cfg.orders.risk.maxOrderKrw, n, m, HalfUnit(Satoshi), order.price, highest);
    hide HalfUnit;
  }

  lemma PiecesAtLeastOne(cfg: Setup)
    ensures Pieces(cfg.orders) >= 1
  {
  }

  lemma LimitNotNegative(cfg: Setup, highest: real)
    requires cfg.orders.risk.maxOrderKrw >= 0.0 && highest >= 0.0
    ensures PassLimit(cfg, highest) >= 0.0
  {
    LimitGrows(cfg.orders.risk.maxOrderKrw, 0.0, Pieces(cfg.orders) as real, 0.0, 0.0, highest);
    assert HalfUnit(Satoshi) * highest >= 0.0;
    assert (Pieces(cfg.orders) as real + 1.0) * (HalfUnit(Satoshi) * highest) >= 0.0;
  }

  /** One pass of the symbol. */
  lemma PassWithin(cfg: Setup, actions: seq<Action>, symbol: string, highest: real, pass: nat)
    requires cfg.orders.risk.maxOrderKrw >= 0.0 && highest >= 0.0
    requires pass < |Exec(cfg, actions).gate.passes| && PricedUpTo(Exec(cfg, actions).gate.passes, symbol, highest)
    requires Exec(cfg, actions).gate.passes[pass].signal.symbol == symbol
    ensures PassMoney(Exec(cfg, actions).desk.calls, pass) <= PassLimit(cfg, highest)
  {
    var calls, passes := Exec(cfg, actions).desk.calls, Exec(cfg, actions).gate.passes;
    forall i | 0 <= i < |calls| && calls[i].pass == pass ensures calls[i].price == passes[pass].signal.price {
      CallsFollowSignals(cfg, actions, i);
    }
    hide OrderOf;
    PassMoneyIs(calls, pass, passes[pass].signal.price);
    if i :| 0 <= i < |calls| && calls[i].pass == pass {
      SubmittedWithinLimit(cfg, actions, i);
      hide Exec;
      SpendingIs(cfg, calls, calls[i], highest);
    } else {
      NothingSubmitted(calls, pass);
      LimitNotNegative(cfg, highest);
    }
    hide Exec;
    hide PassLimit;
    hide Value;
  }

  lemma {:induction false} NothingSubmitted(calls: seq<Order>, pass: nat)
    requires forall i :: 0 <= i < |calls| ==> calls[i].pass != pass
    ensures PassMoney(calls, pass) == 0.0
  {
    if |calls| > 0 { NothingSubmitted(calls[..|calls| - 1], pass); }
  }

  lemma {:induction false} MoneyWithin(cfg: Setup, actions: seq<Action>, symbol: string, highest: real, bound: nat)
    requires cfg.orders.risk.maxOrderKrw >= 0.0 && highest >= 0.0
    requires bound <= |Exec(cfg, actions).gate.passes| && PricedUpTo(Exec(cfg, actions).gate.passes, symbol, highest)
    ensures var s := Exec(cfg, actions);
      MoneyBelow(s.desk.calls, symbol, bound)
      <= Gaps(|PassTimes(s.gate.passes[..bound], symbol)|, PassLimit(cfg, highest))
  {
    hide Exec;
    hide PricedUpTo;
    hide PassLimit;
    hide OrderOf;
    var s := Exec(cfg, actions);
    if bound == 0 {
      forall i | 0 <= i < |s.desk.calls| ensures s.desk.calls[i].pass < |s.gate.passes| {
        CallsFollowSignals(cfg, actions, i);
      }
      MoneyEnds(s.desk.calls, symbol, |s.gate.passes|);
      NoGap(PassLimit(cfg, highest));
      hide Gaps;
    } else {
      var pass := bound - 1;
      var mine := s.gate.passes[pass].signal.symbol == symbol;
      MoneyWithin(cfg, actions, symbol, highest, pass);
      PassBelongsToSymbol(cfg, actions, symbol, pass);
      MoneyStep(s.desk.calls, symbol, pass, mine);
      TimesStep(s.gate.passes, symbol, pass);
      if mine { PassWithin(cfg, actions, symbol, highest, pass); }
      OneMoreGap(|PassTimes(s.gate.passes[..pass], symbol)|, PassLimit(cfg, highest));
      hide Gaps;
      hide PassTimes;
      hide MoneyBelow;
      hide PassMoney;
    }
  }

  lemma SymbolMoneyWithin(cfg: Setup, actions: seq<Action>, symbol: string, highest: real)
    requires cfg.orders.risk.maxOrderKrw >= 0.0 && highest >= 0.0
    requires PricedUpTo(Exec(cfg, actions).gate.passes, symbol, highest)
    ensures var s := Exec(cfg, actions);
      SymbolMoney(s.desk.calls, symbol) <= Gaps(|PassTimes(s.gate.passes, symbol)|, PassLimit(cfg, highest))
  {
    var s := Exec(cfg, actions);
    hide Exec;
    hide OrderOf;
    hide Gaps;
    hide PassLimit;
    hide PassTimes;
    hide PricedUpTo;
    MoneyWithin(cfg, actions, symbol, highest, |s.gate.passes|);
    assert s.gate.passes[..|s.gate.passes|] == s.gate.passes;
    forall i | 0 <= i < |s.desk.calls| ensures s.desk.calls[i].pass < |s.gate.passes| {
      CallsFollowSignals(cfg, actions, i);
    }
    MoneyEnds(s.desk.calls, symbol, |s.gate.passes|);
  }

  /** What passes worth at most the limit each, a gap apart, can be worth by this time. */
  function RateLimit(time: real, gap: real, limit: real): real
    requires gap > 0.0
  {
    (time / gap + 1.0) * limit
  }

  lemma PassesInTime(k: nat, gap: real, time: real, limit: real)
    requires gap > 0.0 && limit >= 0.0 && time >= 0.0 && (k > 0 ==> Gaps(k - 1, gap) <= time)
    ensures Gaps(k, limit) <= RateLimit(time, gap, limit)
  {
    var q := time / gap;
    assert q * gap == time;
    if k > 0 {
      assert (k - 1) as real * gap <= q * gap;
      Divided((k - 1) as real, q, gap);
    } else {
      assert q >= 0.0;
    }
    assert k as real <= q + 1.0;
    assert (q + 1.0 - k as real) * limit >= 0.0;
  }

  lemma Divided(x: real, y: real, gap: real)
    requires gap > 0.0 && x * gap <= y * gap
    ensures x <= y
  {
    assert x == x * gap / gap && y == y * gap / gap;
  }

  /**
    The money rate end to end: by time T, in any interleaving and with any number of strategies, the orders sent for a
    symbol are worth at most (T / cooldown + 1) times what one pass may spend at the highest price.
   */
  lemma MoneyRate(cfg: Setup, actions: seq<Action>, symbol: string, highest: real)
    requires cfg.orders.risk.maxOrderKrw >= 0.0 && highest >= 0.0 && cfg.orders.cooldownSec > 0.0
    requires PricedUpTo(Exec(cfg, actions).gate.passes, symbol, highest)
    ensures var s := Exec(cfg, actions);
      SymbolMoney(s.desk.calls, symbol) <= RateLimit(s.clock, cfg.orders.cooldownSec, PassLimit(cfg, highest))
  {
    var s := Exec(cfg, actions);
    var k := |PassTimes(s.gate.passes, symbol)|;
    SymbolMoneyWithin(cfg, actions, symbol, highest);
    OrderRate(cfg, actions, symbol);
    GateHolds(cfg, actions, symbol);
    LimitNotNegative(cfg, highest);
    hide Exec;
    hide PassLimit;
    hide Gaps;
    hide RateLimit;
    hide Spaced;
    PassesInTime(k, cfg.orders.cooldownSec, s.clock, PassLimit(cfg, highest));
    hide SymbolMoney;
    hide PassTimes;
  }
}
