/** How many orders, and how large, one pass of the gate can send to the broker. */
module LiveOrders {
  import opened Rounding
  import opened Signals
  import opened Ledger
  import opened Risk
  import opened StopLoss
  import opened Orders
  import opened Live
  import opened LiveProtocol

  function Count(calls: seq<Order>, pass: nat): nat {
    if |calls| == 0 then 0
    else Count(calls[..|calls| - 1], pass) + if calls[|calls| - 1].pass == pass then 1 else 0
  }

  function TotalQuantity(calls: seq<Order>, pass: nat): real {
    if |calls| == 0 then 0.0
    else TotalQuantity(calls[..|calls| - 1], pass)
         + if calls[|calls| - 1].pass == pass then calls[|calls| - 1].quantity else 0.0
  }

  /** Every submission of this pass is the same order. */
  ghost predicate AllAre(calls: seq<Order>, pass: nat, order: Order) {
    forall i :: 0 <= i < |calls| && calls[i].pass == pass ==> calls[i] == order
  }

  /** All the pieces of such an order together stay within the single-order limit and its roundings. */
  predicate Sized(cfg: Setup, o: Order) {
    o.price > 0.0 ==> PiecesWithinLimit(cfg.orders, o.side, o.quantity, o.price)
  }

  ghost predicate Planned(cfg: Setup, calls: seq<Order>, pass: nat, order: Order) {
    && order.pass == pass && Sized(cfg, order) && AllAre(calls, pass, order)
    && Count(calls, pass) <= PieceCount(cfg.orders, order.side)
  }

  /** What holds of one gate pass, from before it happens until long after. */
  ghost predicate PassOk(cfg: Setup, d: Desk, checking: map<nat, Check>, passed: nat, pass: nat) {
    && (pass >= passed || pass in checking ==> pass !in d.dca && Count(d.calls, pass) == 0)
    && (pass >= passed ==> pass !in checking)
    && (pass in d.dca ==>
          && Planned(cfg, d.calls, pass, d.dca[pass].order)
          && Split(cfg.orders, d.dca[pass].order.side)
          && Count(d.calls, pass) == d.dca[pass].started)
    && (Count(d.calls, pass) == 0 || exists order :: Planned(cfg, d.calls, pass, order))
  }

  lemma CountStart(calls: seq<Order>, order: Order, pass: nat)
    ensures Count(calls + [order], pass) == Count(calls, pass) + if order.pass == pass then 1 else 0
  {
    assert (calls + [order])[..|calls|] == calls;
  }

  lemma {:induction false} NoCalls(calls: seq<Order>, pass: nat)
    requires Count(calls, pass) == 0
    ensures forall i :: 0 <= i < |calls| ==> calls[i].pass != pass
  {
    if |calls| > 0 { NoCalls(calls[..|calls| - 1], pass); }
  }

  /** Another pass's submission leaves this one's plan alone. */
  lemma OthersCall(cfg: Setup, calls: seq<Order>, order: Order, pass: nat)
    requires order.pass != pass
    ensures forall o :: Planned(cfg, calls, pass, o) ==> Planned(cfg, calls + [order], pass, o)
  {
    CountStart(calls, order, pass);
    hide Count;
    hide Sized;
  }

  /** One more submission of the planned order. */
  lemma PlannedCall(cfg: Setup, calls: seq<Order>, order: Order)
    requires Planned(cfg, calls, order.pass, order) && Count(calls, order.pass) < PieceCount(cfg.orders, order.side)
    ensures Planned(cfg, calls + [order], order.pass, order)
    ensures Count(calls + [order], order.pass) == Count(calls, order.pass) + 1
  {
    CountStart(calls, order, order.pass);
    hide Count;
    hide Sized;
  }

  lemma ClampedIsSized(cfg: Setup, o: Order, asked: real)
    requires o.price > 0.0 ==> o.quantity == PieceQuantity(cfg.orders, o.side, Clamp(cfg.orders.risk, asked, o.price))
    ensures Sized(cfg, o)
  {
    hide Clamp;
    hide PieceQuantity;
    hide PiecesWithinLimit;
    if o.price > 0.0 { SizingChain(cfg.orders, o.side, asked, o.price); }
  }

  lemma AllowedIsClamped(cfg: Setup, s: State, pass: nat, available: real)
    requires Allowed(cfg, s, pass, available).Some?
    ensures pass in s.checking && s.checking[pass].signal.price != 0.0
    ensures Allowed(cfg, s, pass, available).value
         == Clamp(cfg.orders.risk, s.checking[pass].asked, s.checking[pass].signal.price)
  {
    hide Clamp;
    hide LossTooLarge;
    hide PositionRatio;
    hide Value;
  }

  lemma ApprovedIsSized(cfg: Setup, s: State, pass: nat, available: real)
    requires Allowed(cfg, s, pass, available).Some?
    ensures pass in s.checking
    ensures var signal := s.checking[pass].signal;
      var side := OrderSide(signal.kind);
      Sized(cfg, Order(pass, signal.symbol, side,
                       PieceQuantity(cfg.orders, side, Allowed(cfg, s, pass, available).value), signal.price))
  {
    AllowedIsClamped(cfg, s, pass, available);
    hide Allowed;
    hide Clamp;
    hide PieceQuantity;
    hide Sized;
    var signal := s.checking[pass].signal;
    var side := OrderSide(signal.kind);
    ClampedIsSized(cfg, Order(pass, signal.symbol, side,
                              PieceQuantity(cfg.orders, side, Allowed(cfg, s, pass, available).value), signal.price),
                   s.checking[pass].asked);
  }

  lemma AcceptKeepsPass(cfg: Setup, d: Desk, checking: map<nat, Check>, passed: nat, p: nat, signal: Signal,
                        approved: real, pass: nat)
    requires PassOk(cfg, d, checking, passed, pass) && p in checking
    requires var side := OrderSide(signal.kind);
      Sized(cfg, Order(p, signal.symbol, side, PieceQuantity(cfg.orders, side, approved), signal.price))
    ensures PassOk(cfg, Accept(cfg, d, p, signal, approved), checking - {p}, passed, pass)
  {
    hide Sized;
    hide PieceQuantity;
    var side := OrderSide(signal.kind);
    var order := Order(p, signal.symbol, side, PieceQuantity(cfg.orders, side, approved), signal.price);
    if pass == p {
      NoCalls(d.calls, pass);
      assert Planned(cfg, d.calls, pass, order);
      PlannedCall(cfg, d.calls, order);
    } else {
      OthersCall(cfg, d.calls, order, pass);
      CountStart(d.calls, order, pass);
    }
    hide Count;
    hide AllAre;
  }

  lemma PieceKeepsPass(cfg: Setup, d: Desk, checking: map<nat, Check>, passed: nat, p: nat, pass: nat)
    requires PassOk(cfg, d, checking, passed, pass) && PassOk(cfg, d, checking, passed, p)
    ensures PassOk(cfg, NextPiece(cfg, d, p), checking, passed, pass)
  {
    assert p in d.dca ==> d.dca[p].order.pass == p;
    hide Planned;
    hide Count;
    hide Pieces;
    if p in d.dca && d.dca[p].started < Pieces(cfg.orders) {
      var order := d.dca[p].order;
      if pass == p {
        PlannedCall(cfg, d.calls, order);
      } else {
        OthersCall(cfg, d.calls, order, pass);
        CountStart(d.calls, order, pass);
      }
    }
  }

  lemma ResumeKeepsPass(cfg: Setup, d: Desk, checking: map<nat, Check>, passed: nat, a: Action, pass: nat)
    requires OfSubmit(a) && PassOk(cfg, d, checking, passed, pass)
    ensures PassOk(cfg, Resume(d, a), checking, passed, pass)
  {
    hide NextStage;
    hide Planned;
    hide Count;
  }

  ghost predicate Queued(s: State, t: State, c: Check) {
    t.checking == s.checking[|s.gate.passes| := c]
  }

  /** The queue of signals awaiting the risk check. */
  lemma QueueAfter(cfg: Setup, s: State, a: Action)
    ensures var t := Step(cfg, s, a);
      match a
      case SignalSaved(task) =>
        || (t.checking == s.checking && |t.gate.passes| >= |s.gate.passes|)
        || (|t.gate.passes| == |s.gate.passes| + 1 && exists c :: Queued(s, t, c))
      case RiskChecked(pass, _) => t.checking == s.checking - {pass} && t.gate == s.gate
      case _ => t.checking == s.checking && t.gate == s.gate
  {
    hide OnTick;
    hide Resume;
    hide NextPiece;
    hide Accept;
    hide Deliver;
    hide Live.Verdict;
    hide Asked;
    if a.RiskChecked? && a.pass !in s.checking { assert s.checking - {a.pass} == s.checking; }
    if a.SignalSaved? && a.task in s.recording && s.recording[a.task].price != 0.0 {
      var c := Check(s.recording[a.task], Asked(cfg.orders, s.recording[a.task].price));
      assert Step(cfg, s, a).checking == s.checking || Queued(s, Step(cfg, s, a), c);
    }
  }

  lemma MorePasses(cfg: Setup, d: Desk, checking: map<nat, Check>, passed: nat, c: Check, pass: nat)
    requires PassOk(cfg, d, checking, passed, pass)
    ensures PassOk(cfg, d, checking[passed := c], passed + 1, pass)
    ensures forall more: nat :: more >= passed ==> PassOk(cfg, d, checking, more, pass)
  {
    hide Planned;
    hide Count;
  }

  lemma RemoveCheck(cfg: Setup, d: Desk, checking: map<nat, Check>, passed: nat, p: nat, pass: nat)
    requires PassOk(cfg, d, checking, passed, pass)
    ensures PassOk(cfg, d, checking - {p}, passed, pass)
  {
    hide Planned;
    hide Count;
  }

  lemma {:induction false} PassHolds(cfg: Setup, actions: seq<Action>, pass: nat)
    ensures var s := Exec(cfg, actions); PassOk(cfg, s.desk, s.checking, |s.gate.passes|, pass)
    decreases |actions|
  {
    if |actions| > 0 {
      hide Step;
      hide PassOk;
      hide Allowed;
      var n := |actions| - 1;
      var s, a := Exec(cfg, actions[..n]), actions[n];
      var passed := |s.gate.passes|;
      PassHolds(cfg, actions[..n], pass);
      DeskAfter(cfg, s, a);
      QueueAfter(cfg, s, a);
      if a.SignalSaved? {
        var t := Step(cfg, s, a);
        var c := Check(Signal("", HOLD, 0.0), 0.0);
        if t.checking != s.checking { c :| Queued(s, t, c); }
        MorePasses(cfg, s.desk, s.checking, passed, c, pass);
      } else if a.RiskChecked? {
        var allowed := Allowed(cfg, s, a.pass, a.available);
        if allowed.Some? {
          ApprovedIsSized(cfg, s, a.pass, a.available);
          AcceptKeepsPass(cfg, s.desk, s.checking, passed, a.pass, s.checking[a.pass].signal, allowed.value, pass);
        } else {
          RemoveCheck(cfg, s.desk, s.checking, passed, a.pass, pass);
        }
      } else if a.PieceDue? {
        PassHolds(cfg, actions[..n], a.pass);
        PieceKeepsPass(cfg, s.desk, s.checking, passed, a.pass, pass);
      } else if OfSubmit(a) {
        ResumeKeepsPass(cfg, s.desk, s.checking, passed, a, pass);
      }
      hide Accept;
      hide NextPiece;
      hide Resume;
    }
  }

  // ---- the promises ----

  lemma {:induction false} TotalIsCount(calls: seq<Order>, pass: nat, order: Order)
    requires AllAre(calls, pass, order)
    ensures TotalQuantity(calls, pass) == Count(calls, pass) as real * order.quantity
  {
    if |calls| > 0 {
      var n := |calls| - 1;
      assert AllAre(calls[..n], pass, order);
      TotalIsCount(calls[..n], pass, order);
    }
  }

  lemma FewerPieces(k: real, n: real, quantity: real, price: real, bound: real)
    requires 0.0 <= k <= n && price > 0.0 && n * quantity * price <= bound && bound >= 0.0
    ensures k * quantity * price <= bound
  {
    var v := quantity * price;
    assert n * quantity * price == n * v && k * quantity * price == k * v;
    if v >= 0.0 { assert (n - k) * v >= 0.0; } else { assert k * v <= 0.0; }
  }

  /**
    What everything submitted for this order's pass would cost, against the order limit and the roundings on the
    way.
   */
  predicate SpendsWithinLimit(cfg: Setup, calls: seq<Order>, order: Order) {
    var n := PieceCount(cfg.orders, order.side) as real;
    TotalQuantity(calls, order.pass) * order.price
    <= cfg.orders.risk.maxOrderKrw + (n + 1.0) * (HalfUnit(Satoshi) * order.price)
  }

  lemma PlannedTotal(cfg: Setup, calls: seq<Order>, order: Order)
    requires Planned(cfg, calls, order.pass, order) && order.price > 0.0 && cfg.orders.risk.maxOrderKrw >= 0.0
    ensures SpendsWithinLimit(cfg, calls, order)
  {
    TotalIsCount(calls, order.pass, order);
    var k, n := Count(calls, order.pass) as real, PieceCount(cfg.orders, order.side) as real;
    hide TotalQuantity;
    hide Count;
    hide PieceCount;
    hide AllAre;
    var unit := HalfUnit(Satoshi) * order.price;
    assert unit >= 0.0;
    hide HalfUnit;
    assert (n + 1.0) * unit >= 0.0;
    FewerPieces(k, n, order.quantity, order.price, cfg.orders.risk.maxOrderKrw + (n + 1.0) * unit);
  }

  /** Everything one pass submits, over all its pieces and in any interleaving, keeps to the single-order limit. */
  lemma SubmittedWithinLimit(cfg: Setup, actions: seq<Action>, i: nat)
    requires cfg.orders.risk.maxOrderKrw >= 0.0
    requires i < |Exec(cfg, actions).desk.calls| && Exec(cfg, actions).desk.calls[i].price > 0.0
    ensures SpendsWithinLimit(cfg, Exec(cfg, actions).desk.calls, Exec(cfg, actions).desk.calls[i])
  {
    var calls := Exec(cfg, actions).desk.calls;
    PassHolds(cfg, actions, calls[i].pass);
    hide Exec;
    hide SpendsWithinLimit;
    hide Sized;
    if Count(calls, calls[i].pass) == 0 { NoCalls(calls, calls[i].pass); }
    var order :| Planned(cfg, calls, calls[i].pass, order);
    assert order == calls[i];
    PlannedTotal(cfg, calls, order);
  }

  function CountBelow(calls: seq<Order>, bound: nat): nat {
    if |calls| == 0 then 0
    else CountBelow(calls[..|calls| - 1], bound) + if calls[|calls| - 1].pass < bound then 1 else 0
  }

  lemma {:induction false} CountBelowStep(calls: seq<Order>, bound: nat)
    ensures CountBelow(calls, bound + 1) == CountBelow(calls, bound) + Count(calls, bound)
    ensures CountBelow(calls, 0) == 0
  {
    if |calls| > 0 { CountBelowStep(calls[..|calls| - 1], bound); }
  }

  lemma {:induction false} AllBelow(calls: seq<Order>, bound: nat)
    requires forall i :: 0 <= i < |calls| ==> calls[i].pass < bound
    ensures CountBelow(calls, bound) == |calls|
  {
    if |calls| > 0 { AllBelow(calls[..|calls| - 1], bound); }
  }

  function Product(n: nat, k: nat): nat { n * k }

  lemma ProductStep(n: nat, k: nat)
    ensures Product(n, k + 1) == Product(n, k) + n && Product(n, 0) == 0
  {
  }

  lemma {:induction false} BelowWithin(cfg: Setup, actions: seq<Action>, bound: nat)
    ensures CountBelow(Exec(cfg, actions).desk.calls, bound) <= Product(Pieces(cfg.orders), bound)
  {
    var calls := Exec(cfg, actions).desk.calls;
    if bound == 0 {
      CountBelowStep(calls, 0);
    } else {
      BelowWithin(cfg, actions, bound - 1);
      CountBelowStep(calls, bound - 1);
      ProductStep(Pieces(cfg.orders), bound - 1);
      PassHolds(cfg, actions, bound - 1);
      hide Product;
      hide Exec;
      hide CountBelow;
      hide Count;
    }
  }

  /** The broker is called at most split-count times for every pass of the gate. */
  lemma SubmissionsWithinPasses(cfg: Setup, actions: seq<Action>)
    ensures var s := Exec(cfg, actions); |s.desk.calls| <= Pieces(cfg.orders) * |s.gate.passes|
  {
    var s := Exec(cfg, actions);
    forall i | 0 <= i < |s.desk.calls| ensures s.desk.calls[i].pass < |s.gate.passes| {
      PassHolds(cfg, actions, s.desk.calls[i].pass);
      if s.desk.calls[i].pass >= |s.gate.passes| { NoCalls(s.desk.calls, s.desk.calls[i].pass); }
    }
    AllBelow(s.desk.calls, |s.gate.passes|);
    BelowWithin(cfg, actions, |s.gate.passes|);
  }
}
