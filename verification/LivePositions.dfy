/**
  What positions, the stop-loss monitor and the daily loss counter hold in every reachable state, and how the
  position book relates to the trade table.
 */
module LivePositions {
  import opened Options
  import opened Signals
  import opened Ledger
  import opened Positions
  import opened Risk
  import opened StopLoss
  import opened Orders
  import opened Live
  import opened LiveProtocol

  /** The executions of one symbol among these rows. */
  function FillsFor(rows: seq<Row>, symbol: string): seq<Fill> {
    if |rows| == 0 then []
    else
      var r := rows[|rows| - 1].report;
      FillsFor(rows[..|rows| - 1], symbol) + if r.symbol == symbol then [r.fill] else []
  }

  lemma FillsAppend(rows: seq<Row>, row: Row, symbol: string)
    ensures FillsFor(rows + [row], symbol)
         == FillsFor(rows, symbol) + if row.report.symbol == symbol then [row.report.fill] else []
  {
    assert (rows + [row])[..|rows|] == rows;
  }

  lemma AfterOneMore(fills: seq<Fill>, f: Fill)
    ensures After(fills + [f]) == ApplyFill(After(fills), f)
  {
    assert (fills + [f])[..|fills|] == fills;
  }

  ghost predicate Current(s: State, symbol: string) {
    PositionIn(s.positions, symbol) == After(FillsFor(s.desk.applied, symbol))
  }

  lemma DeliverKeepsCurrent(s: State, d: Desk, fills: seq<Row>, symbol: string)
    requires Current(s, symbol) && d.applied == s.desk.applied + fills && |fills| <= 1
    ensures Current(s.(desk := d, positions := Deliver(s.positions, fills)), symbol)
  {
    hide ApplyFill;
    hide After;
    if |fills| == 0 {
      assert d.applied == s.desk.applied;
    } else {
      assert fills == [fills[0]];
      FillsAppend(s.desk.applied, fills[0], symbol);
      AfterOneMore(FillsFor(s.desk.applied, symbol), fills[0].report.fill);
      assert FillsFor(s.desk.applied, symbol) + [] == FillsFor(s.desk.applied, symbol);
      hide FillsFor;
    }
  }

  lemma ResumeAppliesOne(d: Desk, a: Action)
    requires OfSubmit(a)
    ensures |d.applied| <= |Resume(d, a).applied| <= |d.applied| + 1
    ensures Resume(d, a).applied == d.applied + Resume(d, a).applied[|d.applied|..]
  {
    hide NextStage;
    hide Release;
  }

  lemma ResumeKeepsCurrent(s: State, a: Action, symbol: string)
    requires OfSubmit(a) && Current(s, symbol)
    ensures var d := Resume(s.desk, a);
      |d.applied| >= |s.desk.applied|
      && Current(s.(desk := d, positions := Deliver(s.positions, d.applied[|s.desk.applied|..])), symbol)
  {
    hide Resume;
    hide Deliver;
    hide Current;
    ResumeAppliesOne(s.desk, a);
    var d := Resume(s.desk, a);
    DeliverKeepsCurrent(s, d, d.applied[|s.desk.applied|..], symbol);
  }

  /** Only a resumed submission touches positions or the applied fills. */
  lemma OnlySubmitsFill(cfg: Setup, s: State, a: Action)
    requires !OfSubmit(a)
    ensures Step(cfg, s, a).positions == s.positions && Step(cfg, s, a).desk.applied == s.desk.applied
  {
    DeskAfter(cfg, s, a);
    hide OnTick;
    hide Allowed;
    hide Live.Verdict;
    hide Pieces;
  }

  /**
    In every reachable state each position is the fold of its symbol's applied fills, in the order they were
    applied.
   */
  lemma {:induction false} PositionsAreCurrent(cfg: Setup, actions: seq<Action>, symbol: string)
    ensures Current(Exec(cfg, actions), symbol)
  {
    hide ApplyFill;
    if |actions| > 0 {
      var n := |actions| - 1;
      PositionsAreCurrent(cfg, actions[..n], symbol);
      var s, a := Exec(cfg, actions[..n]), actions[n];
      if OfSubmit(a) { ResumeKeepsCurrent(s, a, symbol); } else { OnlySubmitsFill(cfg, s, a); }
      hide Resume;
      hide Deliver;
      hide HandlePrice;
      hide PassGate;
      hide CheckRisk;
      hide NextPiece;
      if !OfSubmit(a) { hide Step; }
    }
  }

  // ---- positions against the trade table ----

  function Signed(row: Row, symbol: string): real {
    if row.report.symbol == symbol then Moved(row.report.fill) else 0.0
  }

  /** Bought less sold, as one would sum it from the trade table. */
  function Traded(rows: seq<Row>, symbol: string): real {
    if |rows| == 0 then 0.0 else Traded(rows[..|rows| - 1], symbol) + Signed(rows[|rows| - 1], symbol)
  }

  lemma NetOneMore(fills: seq<Fill>, f: Fill)
    ensures Net(fills + [f]) == Net(fills) + Moved(f)
  {
    assert (fills + [f])[..|fills|] == fills;
  }

  lemma {:induction false} TradedIsNet(rows: seq<Row>, symbol: string)
    ensures Traded(rows, symbol) == Net(FillsFor(rows, symbol))
  {
    hide Net;
    hide Moved;
    if |rows| > 0 {
      var n := |rows| - 1;
      TradedIsNet(rows[..n], symbol);
      var before := FillsFor(rows[..n], symbol);
      NetOneMore(before, rows[n].report.fill);
      assert before + [] == before;
    } else {
      EmptyNet();
    }
  }

  lemma EmptyNet()
    ensures Net([]) == 0.0
  {
  }

  lemma {:induction false} TradedSplits(left: seq<Row>, right: seq<Row>, symbol: string)
    ensures Traded(left + right, symbol) == Traded(left, symbol) + Traded(right, symbol)
  {
    hide Signed;
    if |right| == 0 {
      assert left + right == left;
    } else {
      var n := |right| - 1;
      assert (left + right)[..|left| + n] == left + right[..n];
      TradedSplits(left, right[..n], symbol);
    }
  }

  lemma RemoveRow(rows: seq<Row>, i: nat, symbol: string)
    requires i < |rows|
    ensures Traded(rows, symbol) == Traded(rows[..i] + rows[i + 1..], symbol) + Signed(rows[i], symbol)
    ensures multiset(rows) == multiset(rows[..i] + rows[i + 1..]) + multiset{rows[i]}
  {
    hide Signed;
    var left, right := rows[..i], rows[i + 1..];
    TradedSplits(left, right, symbol);
    assert rows[..i + 1][..i] == left;
    TradedSplits(rows[..i + 1], right, symbol);
    assert rows == rows[..i + 1] + right;
    assert rows[..i + 1] == left + [rows[i]];
  }

  lemma CancelRow(a: multiset<Row>, b: multiset<Row>, row: Row)
    requires a + multiset{row} == b + multiset{row}
    ensures a == b
  {
    forall r ensures a[r] == b[r] {
      assert (a + multiset{row})[r] == (b + multiset{row})[r];
    }
  }

  /** The order of the rows does not matter to their sum. */
  lemma {:induction false} TradedPermutes(xs: seq<Row>, ys: seq<Row>, symbol: string)
    requires multiset(xs) == multiset(ys)
    ensures Traded(xs, symbol) == Traded(ys, symbol)
    decreases |xs|
  {
    hide Signed;
    if |xs| == 0 {
      assert |multiset(ys)| == 0;
    } else {
      var n := |xs| - 1;
      assert xs[n] in multiset(ys);
      var i :| 0 <= i < |ys| && ys[i] == xs[n];
      var rest := ys[..i] + ys[i + 1..];
      RemoveRow(ys, i, symbol);
      assert xs == xs[..n] + [xs[n]];
      assert multiset(xs) == multiset(xs[..n]) + multiset{xs[n]};
      CancelRow(multiset(xs[..n]), multiset(rest), xs[n]);
      TradedPermutes(xs[..n], rest, symbol);
    }
  }

  /**
    With no position update outstanding and no negative executions, a position's quantity is what the trade table
    sums to, plus whatever was sold beyond the holding: it never falls short of the table, and equals it exactly
    when no applied sale went below zero.
   */
  lemma QuiescentPosition(cfg: Setup, actions: seq<Action>, symbol: string)
    requires Quiescent(Exec(cfg, actions).desk)
    requires Sensible(FillsFor(Exec(cfg, actions).desk.applied, symbol))
    ensures var s := Exec(cfg, actions);
      var oversold := -Lowest(FillsFor(s.desk.applied, symbol));
      && PositionIn(s.positions, symbol).quantity == Traded(s.desk.rows, symbol) + oversold
      && oversold >= 0.0
  {
    var s := Exec(cfg, actions);
    QuiescentBooksAgree(cfg, actions);
    PositionsAreCurrent(cfg, actions, symbol);
    var fills := FillsFor(s.desk.applied, symbol);
    Reflection(fills);
    LowestIsLeast(fills);
    assert fills[..0] == [];
    assert Net(fills[..0]) == 0.0;
    TradedIsNet(s.desk.applied, symbol);
    TradedPermutes(s.desk.rows, s.desk.applied, symbol);
    hide Exec;
    hide Traded;
    hide FillsFor;
    hide Lowest;
  }

  // ---- the monitor ----

  lemma OnlyPricesTick(cfg: Setup, s: State, a: Action)
    requires !a.PriceEvent?
    ensures Step(cfg, s, a).monitor == s.monitor
  {
    hide Resume;
    hide NextPiece;
    hide Accept;
    hide Deliver;
    hide Live.Verdict;
  }

  /**
    One price event: the monitor sees the position as all fills applied so far leave it, and a signal task starts
    exactly when this tick is one that sells.
   */
  lemma PriceEventSells(cfg: Setup, actions: seq<Action>, symbol: string, price: Option<real>)
    ensures var s := Exec(cfg, actions);
      var t := Step(cfg, s, PriceEvent(symbol, price));
      var n := |s.monitor.ticks|;
      && t.monitor.ticks == s.monitor.ticks + [Tick(symbol, price, After(FillsFor(s.desk.applied, symbol)))]
      && (SellsAt(cfg.stop, t.monitor.ticks, n) ==>
            price.Some? && t.recording == s.recording[s.nextTask := Signal(symbol, SELL, price.value)])
      && (!SellsAt(cfg.stop, t.monitor.ticks, n) ==> t.recording == s.recording)
  {
    var s := Exec(cfg, actions);
    var t := Step(cfg, s, PriceEvent(symbol, price));
    PositionsAreCurrent(cfg, actions, symbol);
    MonitorWatches(cfg, actions);
    var n := |s.monitor.ticks|;
    SellsAtIs(cfg.stop, t.monitor.ticks, n);
    assert t.monitor.ticks[..n] == s.monitor.ticks;
    hide Exec;
    hide SellsAt;
    hide Watch;
    hide Crosses;
    hide After;
  }

  /** Under every interleaving the monitor's memory is the fold of the ticks it handled, so the tick laws apply. */
  lemma {:induction false} MonitorWatches(cfg: Setup, actions: seq<Action>)
    ensures var s := Exec(cfg, actions); s.monitor.triggered == Watch(cfg.stop, s.monitor.ticks).0
  {
    hide OnTick;
    if |actions| > 0 {
      var n := |actions| - 1;
      MonitorWatches(cfg, actions[..n]);
      var s, a := Exec(cfg, actions[..n]), actions[n];
      if a.PriceEvent? {
        var tick := Tick(a.symbol, a.price, PositionIn(s.positions, a.symbol));
        assert (s.monitor.ticks + [tick])[..|s.monitor.ticks|] == s.monitor.ticks;
      } else {
        OnlyPricesTick(cfg, s, a);
        hide Step;
      }
    }
  }

  lemma TriggeredWhilePending(cfg: Setup, actions: seq<Action>, symbol: string)
    ensures var s := Exec(cfg, actions); symbol in s.monitor.triggered <==> Pending(cfg.stop, s.monitor.ticks, symbol)
  {
    MonitorWatches(cfg, actions);
    TriggeredIsPending(cfg.stop, Exec(cfg, actions).monitor.ticks, symbol);
    hide Exec;
    hide Watch;
    hide Pending;
  }

  // ---- the daily loss counter ----

  lemma {:induction false} NoLossIsRecorded(cfg: Setup, actions: seq<Action>)
    ensures Exec(cfg, actions).dailyLoss == 0.0
  {
    if |actions| > 0 {
      NoLossIsRecorded(cfg, actions[..|actions| - 1]);
      hide OnTick;
      hide Resume;
      hide NextPiece;
      hide Accept;
      hide Deliver;
      hide Live.Verdict;
    }
  }

  /**
    Nothing ever adds to the counter, so the daily limit never accumulates: a sale is refused exactly when the
    loss open on the position at that moment exceeds the whole limit by itself.
   */
  lemma LossLimitIsPerSale(cfg: Setup, actions: seq<Action>, pass: nat, available: real)
    requires var s := Exec(cfg, actions); pass in s.checking && s.checking[pass].signal.price != 0.0
    ensures var s := Exec(cfg, actions);
      var c := s.checking[pass];
      var position := PositionIn(s.positions, c.signal.symbol);
      Live.Verdict(cfg, s, c, available) == LossLimit
      <==> c.signal.kind != BUY && position.IsOpen() && position.UnrealizedPnl(c.signal.price) < 0.0
           && -position.UnrealizedPnl(c.signal.price) > cfg.orders.risk.maxDailyLossKrw
  {
    NoLossIsRecorded(cfg, actions);
    hide Exec;
    hide Clamp;
    hide Value;
  }
}
