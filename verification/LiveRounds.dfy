/**
  Uninterrupted trades in the live system: a signal that passes the gate and the risk check and is executed takes
  six actions.  Put together they build concrete runs.
 */
module LiveRounds {
  import opened Options
  import opened Signals
  import opened Positions
  import opened Risk
  import opened Orders
  import opened Live

  /** The state after more actions. */
  function Continue(cfg: Setup, s: State, actions: seq<Action>): State {
    if |actions| == 0 then s
    else Step(cfg, Continue(cfg, s, actions[..|actions| - 1]), actions[|actions| - 1])
  }

  lemma {:induction false} ExecContinues(cfg: Setup, xs: seq<Action>, ys: seq<Action>)
    ensures Exec(cfg, xs + ys) == Continue(cfg, Exec(cfg, xs), ys)
  {
    hide Step;
    if |ys| == 0 {
      assert xs + ys == xs;
    } else {
      var n := |ys| - 1;
      assert (xs + ys)[..|xs| + n] == xs + ys[..n];
      ExecContinues(cfg, xs, ys[..n]);
    }
  }

  lemma {:induction false} ContinueOn(cfg: Setup, s: State, xs: seq<Action>, ys: seq<Action>)
    ensures Continue(cfg, s, xs + ys) == Continue(cfg, Continue(cfg, s, xs), ys)
  {
    hide Step;
    if |ys| == 0 {
      assert xs + ys == xs;
    } else {
      var n := |ys| - 1;
      assert (xs + ys)[..|xs| + n] == xs + ys[..n];
      ContinueOn(cfg, s, xs, ys[..n]);
    }
  }

  lemma OneAction(cfg: Setup, s: State, a: Action)
    ensures Continue(cfg, s, [a]) == Step(cfg, s, a)
  {
    assert [a][..0] == [];
    assert Continue(cfg, s, []) == s;
  }

  /** The cooldown passes, and the k-th signal goes through to an executed order. */
  function Round(cfg: Setup, k: nat, available: real, report: Report): seq<Action> {
    [Wait(cfg.orders.cooldownSec), SignalSaved(k), RiskChecked(k, available), BrokerAnswers(k, Some(report)),
     CommitEnds(k, true), HandlerRuns(k)]
  }

  /** After k such rounds, with these signals waiting to be saved. */
  ghost predicate RoundsDone(s: State, k: nat, recording: map<nat, Signal>) {
    && s.recording == recording && s.nextTask == k + |recording| && s.checking == map[]
    && |s.gate.passes| == k && s.desk.nextSubmit == k
    && forall symbol :: symbol in s.gate.lastOrder ==> s.gate.lastOrder[symbol] <= s.clock
  }

  /** The order of the k-th signal, once approved. */
  function OrderFor(cfg: Setup, k: nat, signal: Signal, approved: real): Order {
    Order(k, signal.symbol, OrderSide(signal.kind), PieceQuantity(cfg.orders, OrderSide(signal.kind), approved),
          signal.price)
  }

  ghost predicate Approves(cfg: Setup, s: State, signal: Signal, available: real, approved: real)
    requires signal.price != 0.0
  {
    Live.Verdict(cfg, s, Check(signal, Asked(cfg.orders, signal.price)), available) == Approved(approved)
  }

  /** What one round does. */
  ghost predicate RoundDone(cfg: Setup, s: State, t: State, k: nat, order: Order, report: Report) {
    && RoundsDone(t, k + 1, map[])
    && t.positions == s.positions[report.symbol := ApplyFill(PositionIn(s.positions, report.symbol), report.fill)]
    && t.desk.calls == s.desk.calls + [order]
    && t.desk.applied == s.desk.applied + [Row(k, report)]
    && k in t.desk.submits && t.desk.submits[k] == Submit(order, Handled(report), false)
    && t.monitor == s.monitor && t.dailyLoss == s.dailyLoss
  }

  lemma GatePart(cfg: Setup, s: State, k: nat, signal: Signal)
    requires RoundsDone(s, k, map[k := signal]) && signal.kind != HOLD && signal.price != 0.0
    requires cfg.orders.cooldownSec >= 0.0
    ensures var t := Step(cfg, Step(cfg, s, Wait(cfg.orders.cooldownSec)), SignalSaved(k));
      && t.recording == map[] && t.nextTask == k + 1
      && t.checking == map[k := Check(signal, Asked(cfg.orders, signal.price))]
      && |t.gate.passes| == k + 1 && t.desk == s.desk && t.positions == s.positions && t.monitor == s.monitor
      && t.dailyLoss == s.dailyLoss
      && forall symbol :: symbol in t.gate.lastOrder ==> t.gate.lastOrder[symbol] <= t.clock
  {
    hide Asked;
  }

  lemma RiskPart(cfg: Setup, s: State, k: nat, signal: Signal, available: real, approved: real)
    requires signal.price != 0.0 && s.checking == map[k := Check(signal, Asked(cfg.orders, signal.price))]
    requires s.desk.nextSubmit == k && !Split(cfg.orders, OrderSide(signal.kind))
    requires Approves(cfg, s, signal, available, approved)
    ensures var t := Step(cfg, s, RiskChecked(k, available));
      && t == s.(checking := map[], desk := StartSubmit(s.desk, OrderFor(cfg, k, signal, approved), false))
  {
    hide Live.Verdict;
    hide Asked;
    hide PieceQuantity;
    assert map[k := Check(signal, Asked(cfg.orders, signal.price))] - {k} == map[];
  }

  lemma BrokerPart(cfg: Setup, s: State, k: nat, order: Order, report: Report)
    requires k in s.desk.submits && s.desk.submits[k] == Submit(order, Placing, false)
    ensures var t := Step(cfg, Step(cfg, Step(cfg, s, BrokerAnswers(k, Some(report))), CommitEnds(k, true)),
                          HandlerRuns(k));
      && t.positions == s.positions[report.symbol := ApplyFill(PositionIn(s.positions, report.symbol), report.fill)]
      && t.desk.applied == s.desk.applied + [Row(k, report)] && t.desk.calls == s.desk.calls
      && t.desk.nextSubmit == s.desk.nextSubmit
      && k in t.desk.submits && t.desk.submits[k] == Submit(order, Handled(report), false)
      && t.recording == s.recording && t.nextTask == s.nextTask && t.checking == s.checking && t.gate == s.gate
      && t.clock == s.clock && t.monitor == s.monitor && t.dailyLoss == s.dailyLoss
  {
    hide ApplyFill;
    var s1 := Step(cfg, s, BrokerAnswers(k, Some(report)));
    assert s1.desk.applied == s.desk.applied && s1.desk.submits[k].stage == Committing(report);
    assert s1.positions == s.positions;
    var s2 := Step(cfg, s1, CommitEnds(k, true));
    assert s2.desk.applied == s.desk.applied && s2.desk.submits[k].stage == Announced(report);
    assert s2.positions == s.positions;
    var s3 := Step(cfg, s2, HandlerRuns(k));
    assert s3.desk.applied == s.desk.applied + [Row(k, report)];
    assert s3.desk.applied[|s.desk.applied|..] == [Row(k, report)];
  }

  /** One round from start to end. */
  lemma RoundRuns(cfg: Setup, s: State, k: nat, signal: Signal, available: real, approved: real, report: Report)
    requires RoundsDone(s, k, map[k := signal]) && signal.kind != HOLD && signal.price != 0.0
    requires cfg.orders.cooldownSec >= 0.0 && !Split(cfg.orders, OrderSide(signal.kind))
    requires Approves(cfg, s, signal, available, approved)
    ensures RoundDone(cfg, s, Continue(cfg, s, Round(cfg, k, available, report)), k,
                      OrderFor(cfg, k, signal, approved), report)
  {
    hide ApplyFill;
    hide Asked;
    hide PieceQuantity;
    hide Judge;
    var order := OrderFor(cfg, k, signal, approved);
    var gated := Step(cfg, Step(cfg, s, Wait(cfg.orders.cooldownSec)), SignalSaved(k));
    var placed := Step(cfg, gated, RiskChecked(k, available));
    GatePart(cfg, s, k, signal);
    RiskPart(cfg, gated, k, signal, available, approved);
    BrokerPart(cfg, placed, k, order, report);
    SixActions(cfg, s, Wait(cfg.orders.cooldownSec), SignalSaved(k), RiskChecked(k, available),
               BrokerAnswers(k, Some(report)), CommitEnds(k, true), HandlerRuns(k));
    hide Step;
    hide Continue;
  }

  lemma SixActions(cfg: Setup, s: State, a: Action, b: Action, c: Action, d: Action, e: Action, f: Action)
    ensures Continue(cfg, s, [a, b, c, d, e, f])
         == Step(cfg, Step(cfg, Step(cfg, Step(cfg, Step(cfg, Step(cfg, s, a), b), c), d), e), f)
  {
    hide Step;
    hide Continue;
    AddAction(cfg, s, [a, b, c, d, e], f);
    AddAction(cfg, s, [a, b, c, d], e);
    AddAction(cfg, s, [a, b, c], d);
    AddAction(cfg, s, [a, b], c);
    AddAction(cfg, s, [a], b);
    OneAction(cfg, s, a);
    assert [a] + [b] == [a, b] && [a, b] + [c] == [a, b, c] && [a, b, c] + [d] == [a, b, c, d];
    assert [a, b, c, d] + [e] == [a, b, c, d, e] && [a, b, c, d, e] + [f] == [a, b, c, d, e, f];
  }

  lemma AddAction(cfg: Setup, s: State, xs: seq<Action>, a: Action)
    ensures Continue(cfg, s, xs + [a]) == Step(cfg, Continue(cfg, s, xs), a)
  {
    assert (xs + [a])[..|xs|] == xs;
  }

  /** A signal arrives and goes through its round. */
  function Deal(cfg: Setup, k: nat, signal: Signal, available: real, report: Report): seq<Action> {
    [Arrive(signal)] + Round(cfg, k, available, report)
  }

  lemma ArrivalApproves(cfg: Setup, s: State, signal: Signal, available: real, approved: real)
    requires signal.price != 0.0 && Approves(cfg, s, signal, available, approved)
    ensures Approves(cfg, Step(cfg, s, Arrive(signal)), signal, available, approved)
  {
    hide Judge;
    hide Asked;
  }

  lemma DealRuns(cfg: Setup, s: State, k: nat, signal: Signal, available: real, approved: real, report: Report)
    requires RoundsDone(s, k, map[]) && signal.kind != HOLD && signal.price != 0.0
    requires cfg.orders.cooldownSec >= 0.0 && !Split(cfg.orders, OrderSide(signal.kind))
    requires Approves(cfg, s, signal, available, approved)
    ensures RoundDone(cfg, s, Continue(cfg, s, Deal(cfg, k, signal, available, report)), k,
                      OrderFor(cfg, k, signal, approved), report)
  {
    var arrived := Step(cfg, s, Arrive(signal));
    ArrivalApproves(cfg, s, signal, available, approved);
    assert RoundsDone(arrived, k, map[k := signal]);
    assert arrived.positions == s.positions && arrived.desk == s.desk && arrived.monitor == s.monitor;
    assert arrived.dailyLoss == s.dailyLoss;
    hide Step;
    hide Continue;
    hide Approves;
    hide Round;
    hide ApplyFill;
    RoundRuns(cfg, arrived, k, signal, available, approved, report);
    OneAction(cfg, s, Arrive(signal));
    ContinueOn(cfg, s, [Arrive(signal)], Round(cfg, k, available, report));
  }
}
