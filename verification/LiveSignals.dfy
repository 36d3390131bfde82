/** Every broker submission traced back to the signal that passed the gate for it. */
module LiveSignals {
  import opened Rounding
  import opened Signals
  import opened Ledger
  import opened Risk
  import opened Orders
  import opened Live
  import opened LiveGate
  import opened LiveProtocol
  import opened LiveOrders

  /**
    The order a signal leads to, whatever is held: the default amount at its price, clamped, in equal pieces if
    split.
   */
  function OrderOf(cfg: Setup, pass: nat, signal: Signal): Order
    requires signal.price != 0.0
  {
    var side := OrderSide(signal.kind);
    Order(pass, signal.symbol, side,
          PieceQuantity(cfg.orders, side, Clamp(cfg.orders.risk, Asked(cfg.orders, signal.price), signal.price)),
          signal.price)
  }

  ghost predicate Came(cfg: Setup, passes: seq<Pass>, order: Order) {
    order.pass < |passes| &&
    var signal := passes[order.pass].signal;
    signal.kind != HOLD && signal.price != 0.0 && order == OrderOf(cfg, order.pass, signal)
  }

  ghost predicate Queues(cfg: Setup, passes: seq<Pass>, checking: map<nat, Check>) {
    forall p :: p in checking ==> InQueue(cfg, passes, p, checking[p])
  }

  ghost predicate InQueue(cfg: Setup, passes: seq<Pass>, p: nat, c: Check) {
    && p < |passes| && passes[p].signal == c.signal && c.signal.kind != HOLD && c.signal.price != 0.0
    && c.asked == Asked(cfg.orders, c.signal.price)
  }

  ghost predicate Traced(cfg: Setup, passes: seq<Pass>, d: Desk) {
    && (forall p :: p in d.dca ==> Came(cfg, passes, d.dca[p].order))
    && (forall id :: id in d.submits ==> Came(cfg, passes, d.submits[id].order))
    && (forall i :: 0 <= i < |d.calls| ==> Came(cfg, passes, d.calls[i]))
  }

  lemma MorePassesTrace(cfg: Setup, passes: seq<Pass>, p: Pass, d: Desk, checking: map<nat, Check>)
    requires Traced(cfg, passes, d) && Queues(cfg, passes, checking)
    ensures Traced(cfg, passes + [p], d) && Queues(cfg, passes + [p], checking)
  {
    hide OrderOf;
    forall o | Came(cfg, passes, o) ensures Came(cfg, passes + [p], o) { }
    forall q, c | InQueue(cfg, passes, q, c) ensures InQueue(cfg, passes + [p], q, c) { }
    hide Came;
    hide InQueue;
  }

  lemma SignalTraces(cfg: Setup, s: State, task: nat)
    requires task in s.recording && Traced(cfg, s.gate.passes, s.desk) && Queues(cfg, s.gate.passes, s.checking)
    ensures var t := PassGate(cfg, s, task);
      Traced(cfg, t.gate.passes, t.desk) && Queues(cfg, t.gate.passes, t.checking)
  {
    hide Traced;
    hide Asked;
    var signal := s.recording[task];
    if Passes(cfg, s.gate, signal, s.clock) {
      MorePassesTrace(cfg, s.gate.passes, Pass(signal, s.clock), s.desk, s.checking);
    }
  }

  lemma VerdictTraces(cfg: Setup, s: State, pass: nat, available: real)
    requires Traced(cfg, s.gate.passes, s.desk) && Queues(cfg, s.gate.passes, s.checking)
    requires Allowed(cfg, s, pass, available).Some?
    ensures pass in s.checking
    ensures Traced(cfg, s.gate.passes,
                   Accept(cfg, s.desk, pass, s.checking[pass].signal, Allowed(cfg, s, pass, available).value))
  {
    AllowedIsClamped(cfg, s, pass, available);
    hide Allowed;
    hide Asked;
    hide Clamp;
    hide PieceQuantity;
    var c := s.checking[pass];
    assert InQueue(cfg, s.gate.passes, pass, c);
    assert Came(cfg, s.gate.passes, OrderOf(cfg, pass, c.signal));
    hide Came;
  }

  lemma DeskTraces(cfg: Setup, passes: seq<Pass>, d: Desk, a: Action)
    requires Traced(cfg, passes, d)
    ensures a.PieceDue? ==> Traced(cfg, passes, NextPiece(cfg, d, a.pass))
    ensures OfSubmit(a) ==> Traced(cfg, passes, Resume(d, a))
  {
    hide Came;
    hide NextStage;
  }

  lemma {:induction false} EverythingTraced(cfg: Setup, actions: seq<Action>)
    ensures var s := Exec(cfg, actions); Traced(cfg, s.gate.passes, s.desk) && Queues(cfg, s.gate.passes, s.checking)
  {
    if |actions| > 0 {
      var n := |actions| - 1;
      EverythingTraced(cfg, actions[..n]);
      var s, a := Exec(cfg, actions[..n]), actions[n];
      hide Traced;
      if a.SignalSaved? {
        if a.task in s.recording { SignalTraces(cfg, s, a.task); }
        hide PassGate;
      } else {
        DeskAfter(cfg, s, a);
        QueueAfter(cfg, s, a);
        hide Step;
        hide Allowed;
        if a.RiskChecked? {
          if Allowed(cfg, s, a.pass, a.available).Some? { VerdictTraces(cfg, s, a.pass, a.available); }
        } else {
          DeskTraces(cfg, s.gate.passes, s.desk, a);
        }
        hide Accept;
        hide NextPiece;
        hide Resume;
        hide InQueue;
      }
    }
  }

  /**
    Whatever happens between the gate and the broker, each submission is the order of the one signal that passed
    for it: its symbol, side and price, and a quantity that depends on the price alone, not on what is held.
   */
  lemma CallsFollowSignals(cfg: Setup, actions: seq<Action>, i: nat)
    requires i < |Exec(cfg, actions).desk.calls|
    ensures var s := Exec(cfg, actions);
      var call := s.desk.calls[i];
      call.pass < |s.gate.passes| &&
      var signal := s.gate.passes[call.pass].signal;
      signal.kind != HOLD && signal.price != 0.0 && call == OrderOf(cfg, call.pass, signal)
  {
    EverythingTraced(cfg, actions);
    hide Exec;
    assert Came(cfg, Exec(cfg, actions).gate.passes, Exec(cfg, actions).desk.calls[i]);
  }

  /**
    The quantity a signal comes to at its price: the default amount, clamped at the order limit, and one of equal
    pieces if it is a purchase and those are split, each step in whole units.
   */
  ghost predicate IsOrderSize(cfg: Setup, side: Side, price: real, quantity: real) {
    exists asked, allowed :: IsOrderSizeBy(cfg, side, price, quantity, asked, allowed)
  }

  ghost predicate IsOrderSizeBy(cfg: Setup, side: Side, price: real, quantity: real, asked: real, allowed: real) {
    && price != 0.0 && IsRounded(asked, cfg.orders.defaultOrderKrw / price, 100_000_000.0)
    && IsClamped(cfg.orders.risk, asked, price, allowed)
    && if side == Side.Buy && cfg.orders.dcaSplitCount > 1
       then IsRounded(quantity, allowed / cfg.orders.dcaSplitCount as real, 100_000_000.0)
       else quantity == allowed
  }

  lemma OrderSizeIs(cfg: Setup, pass: nat, signal: Signal)
    requires signal.price != 0.0
    ensures var order := OrderOf(cfg, pass, signal); IsOrderSize(cfg, order.side, order.price, order.quantity)
  {
    var asked := Asked(cfg.orders, signal.price);
    var allowed := Clamp(cfg.orders.risk, asked, signal.price);
    var order := OrderOf(cfg, pass, signal);
    AskedIs(cfg.orders, signal.price);
    ClampIs(cfg.orders.risk, asked, signal.price);
    PiecesAre(cfg.orders, order.side, allowed);
    hide Asked;
    hide Clamp;
    hide PieceQuantity;
    hide IsRounded;
    hide IsClamped;
    hide IsWorth;
    assert IsOrderSizeBy(cfg, order.side, order.price, order.quantity, asked, allowed);
  }

  /** Every submission in every run has the symbol, side and price of the signal that passed for it, and that size. */
  lemma CallsAreSized(cfg: Setup, actions: seq<Action>, i: nat)
    requires i < |Exec(cfg, actions).desk.calls|
    ensures var s := Exec(cfg, actions);
      var call := s.desk.calls[i];
      && call.pass < |s.gate.passes|
      && var signal := s.gate.passes[call.pass].signal;
      && call.symbol == signal.symbol && call.price == signal.price
      && call.side == (if signal.kind == BUY then Side.Buy else Side.Sell)
      && IsOrderSize(cfg, call.side, call.price, call.quantity)
  {
    CallsFollowSignals(cfg, actions, i);
    var s := Exec(cfg, actions);
    OrderSizeIs(cfg, s.desk.calls[i].pass, s.gate.passes[s.desk.calls[i].pass].signal);
    hide Exec;
    hide IsOrderSize;
    hide Asked;
    hide Clamp;
    hide PieceQuantity;
  }

  /** The size asked for at this price is within the order limit, or above it. */
  ghost predicate AsksWithinLimit(cfg: Setup, price: real, within: bool)
    requires price != 0.0
  {
    exists asked :: IsRounded(asked, cfg.orders.defaultOrderKrw / price, 100_000_000.0)
      && (PlainSums.Times(asked, price) <= cfg.orders.risk.maxOrderKrw) == within
  }

  /**
    At a positive price an unsplit submission is worth the default amount if that asks for no more than the order
    limit, and the limit otherwise, up to half a quantity unit.
   */
  lemma UnsplitCallsAreWorth(cfg: Setup, actions: seq<Action>, i: nat, within: bool)
    requires i < |Exec(cfg, actions).desk.calls|
    requires var call := Exec(cfg, actions).desk.calls[i];
      && call.price > 0.0 && (call.side == Side.Sell || cfg.orders.dcaSplitCount <= 1)
      && AsksWithinLimit(cfg, call.price, within)
    ensures var call := Exec(cfg, actions).desk.calls[i];
      IsWorth(call.quantity, call.price, if within then cfg.orders.defaultOrderKrw else cfg.orders.risk.maxOrderKrw)
  {
    CallsAreSized(cfg, actions, i);
    var call := Exec(cfg, actions).desk.calls[i];
    hide Exec;
    hide IsWorth;
    hide IsRounded;
    hide PlainSums.Times;
    var asked, allowed :| IsOrderSizeBy(cfg, call.side, call.price, call.quantity, asked, allowed);
    var exact := cfg.orders.defaultOrderKrw / call.price;
    var q :| IsRounded(q, exact, 100_000_000.0)
      && (PlainSums.Times(q, call.price) <= cfg.orders.risk.maxOrderKrw) == within;
    RoundedOnce(asked, q, exact, 100_000_000.0);
    if within {
      QuantityWorth(call.quantity, call.price, cfg.orders.defaultOrderKrw);
    } else {
      QuantityWorth(call.quantity, call.price, cfg.orders.risk.maxOrderKrw);
    }
  }

  // ---- how many orders a symbol can get ----

  /** Submissions for this symbol among those of the first gate passes. */
  function CallsFor(calls: seq<Order>, symbol: string, bound: nat): nat {
    if |calls| == 0 then 0
    else
      var last := calls[|calls| - 1];
      CallsFor(calls[..|calls| - 1], symbol, bound) + if last.pass < bound && last.symbol == symbol then 1 else 0
  }

  lemma {:induction false} CallsForStep(calls: seq<Order>, symbol: string, bound: nat, mine: bool)
    requires forall i :: 0 <= i < |calls| && calls[i].pass == bound ==> (calls[i].symbol == symbol) == mine
    ensures CallsFor(calls, symbol, bound + 1)
         == CallsFor(calls, symbol, bound) + if mine then Count(calls, bound) else 0
  {
    if |calls| > 0 { CallsForStep(calls[..|calls| - 1], symbol, bound, mine); }
  }

  lemma TimesStep(passes: seq<Pass>, symbol: string, n: nat)
    requires n < |passes|
    ensures PassTimes(passes[..n + 1], symbol)
         == PassTimes(passes[..n], symbol) + if passes[n].signal.symbol == symbol then [passes[n].time] else []
  {
    assert passes[..n + 1][..n] == passes[..n];
  }

  lemma {:induction false} CallsForEnds(calls: seq<Order>, symbol: string, bound: nat)
    requires forall i :: 0 <= i < |calls| ==> calls[i].pass < bound
    ensures CallsFor(calls, symbol, 0) == 0
    ensures CallsFor(calls, symbol, bound) == SymbolCalls(calls, symbol)
  {
    if |calls| > 0 { CallsForEnds(calls[..|calls| - 1], symbol, bound); }
  }

  function SymbolCalls(calls: seq<Order>, symbol: string): nat {
    if |calls| == 0 then 0
    else SymbolCalls(calls[..|calls| - 1], symbol) + if calls[|calls| - 1].symbol == symbol then 1 else 0
  }

  lemma PassBelongsToSymbol(cfg: Setup, actions: seq<Action>, symbol: string, pass: nat)
    requires pass < |Exec(cfg, actions).gate.passes|
    ensures var s := Exec(cfg, actions);
      forall i :: 0 <= i < |s.desk.calls| && s.desk.calls[i].pass == pass ==>
        (s.desk.calls[i].symbol == symbol) == (s.gate.passes[pass].signal.symbol == symbol)
  {
    EverythingTraced(cfg, actions);
    hide Exec;
    var s := Exec(cfg, actions);
    forall i | 0 <= i < |s.desk.calls| ensures Came(cfg, s.gate.passes, s.desk.calls[i]) { }
  }

  lemma CountLimit(cfg: Setup, actions: seq<Action>, pass: nat)
    ensures Count(Exec(cfg, actions).desk.calls, pass) <= Pieces(cfg.orders)
  {
    PassHolds(cfg, actions, pass);
    hide Exec;
    hide Count;
  }

  lemma {:induction false} CallsWithin(cfg: Setup, actions: seq<Action>, symbol: string, bound: nat)
    requires bound <= |Exec(cfg, actions).gate.passes|
    ensures var s := Exec(cfg, actions);
      CallsFor(s.desk.calls, symbol, bound) <= Product(Pieces(cfg.orders), |PassTimes(s.gate.passes[..bound], symbol)|)
  {
    hide Exec;
    hide Pieces;
    var s := Exec(cfg, actions);
    if bound == 0 {
      forall i | 0 <= i < |s.desk.calls| ensures s.desk.calls[i].pass < |s.gate.passes| {
        CallsFollowSignals(cfg, actions, i);
      }
      CallsForEnds(s.desk.calls, symbol, |s.gate.passes|);
      hide OrderOf;
    } else {
      var pass := bound - 1;
      var mine := s.gate.passes[pass].signal.symbol == symbol;
      CallsWithin(cfg, actions, symbol, pass);
      PassBelongsToSymbol(cfg, actions, symbol, pass);
      CallsForStep(s.desk.calls, symbol, pass, mine);
      TimesStep(s.gate.passes, symbol, pass);
      CountLimit(cfg, actions, pass);
      ProductStep(Pieces(cfg.orders), |PassTimes(s.gate.passes[..pass], symbol)|);
      hide Product;
      hide PassTimes;
      hide CallsFor;
      hide Count;
    }
  }

  lemma SymbolCallsWithinPasses(cfg: Setup, actions: seq<Action>, symbol: string)
    ensures var s := Exec(cfg, actions);
      SymbolCalls(s.desk.calls, symbol) <= Product(Pieces(cfg.orders), |PassTimes(s.gate.passes, symbol)|)
  {
    var s := Exec(cfg, actions);
    CallsWithin(cfg, actions, symbol, |s.gate.passes|);
    assert s.gate.passes[..|s.gate.passes|] == s.gate.passes;
    hide Product;
    forall i | 0 <= i < |s.desk.calls| ensures s.desk.calls[i].pass < |s.gate.passes| {
      CallsFollowSignals(cfg, actions, i);
    }
    CallsForEnds(s.desk.calls, symbol, |s.gate.passes|);
    hide Exec;
    hide OrderOf;
    hide PassTimes;
    hide CallsFor;
    hide SymbolCalls;
  }

  /**
    The rate limit end to end: in any run, whatever the interleaving, the broker is asked for one symbol at most
    split-count times for each of k gate passes, and k passes take at least k - 1 cooldowns.
   */
  lemma OrderRate(cfg: Setup, actions: seq<Action>, symbol: string)
    requires cfg.orders.cooldownSec >= 0.0
    ensures var s := Exec(cfg, actions);
      var k := |PassTimes(s.gate.passes, symbol)|;
      && SymbolCalls(s.desk.calls, symbol) <= Product(Pieces(cfg.orders), k)
      && (k > 0 ==> Gaps(k - 1, cfg.orders.cooldownSec) <= s.clock)
  {
    var s := Exec(cfg, actions);
    var times := PassTimes(s.gate.passes, symbol);
    SymbolCallsWithinPasses(cfg, actions, symbol);
    GateHolds(cfg, actions, symbol);
    hide Exec;
    hide PassTimes;
    hide SymbolCalls;
    hide Product;
    hide Gaps;
    AllWithin(times, 0.0, s.clock);
    SpacedCount(times, cfg.orders.cooldownSec, 0.0, s.clock);
    hide CountWithin;
  }

  lemma {:induction false} AllWithin(times: seq<real>, from: real, to: real)
    requires forall i :: 0 <= i < |times| ==> from <= times[i] <= to
    ensures CountWithin(times, from, to) == |times|
  {
    if |times| > 0 { AllWithin(times[..|times| - 1], from, to); }
  }
}
