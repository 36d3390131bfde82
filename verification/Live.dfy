/**
  Live execution as an interleaved transition system.  Every coroutine is a record of where it is suspended;
  one action resumes one coroutine and runs it to its next await.  What the broker and the database answer
  is part of the action, so a run is any sequence of actions.  An action that resumes nothing changes
  nothing.
 */
module Live {
  import opened Options
  import opened Signals
  import opened Ledger
  import opened Positions
  import opened Risk
  import opened StopLoss
  import opened Orders

  datatype Setup = Setup(orders: Orders.Settings, stop: StopConfig)

  datatype Signal = Signal(symbol: string, kind: SignalType, price: real)

  /** One order handed to the broker, and the gate pass it belongs to. */
  datatype Order = Order(pass: nat, symbol: string, side: Side, quantity: real, price: real)

  /** What the broker says was executed. */
  datatype Report = Report(symbol: string, fill: Fill)

  /** Where a call of _submit is suspended, or how it ended. */
  datatype Stage =
    | Placing                      // await broker.place_order
    | Committing(report: Report)   // await the commit of the order and trade rows
    | Announced(report: Report)    // ORDER_FILLED published, the position handler not yet started
    | Handled(report: Report)      // the position is updated, publish has not returned
    | Settled(report: Report)
    | RecordingFailure             // await the write of the failed order
    | FailureAnnounced             // ORDER_FAILED published
    | Failed
    | Lost                         // that write failed too: the error leaves _submit

  datatype Submit = Submit(order: Order, stage: Stage, split: bool)

  /** A split order's coroutine: the pieces it has submitted, and whether it is awaiting one of them. */
  datatype Dca = Dca(order: Order, started: nat, busy: bool)

  /** A signal past the gate, awaiting the risk check. */
  datatype Check = Check(signal: Signal, asked: real)

  datatype Pass = Pass(signal: Signal, time: real)
  datatype Row = Row(submit: nat, report: Report)
  datatype Event = OrderFilled(submit: nat, report: Report) | OrderFailed(submit: nat)

  /** The cooldown gate: the manager's memory, and every pass in order. */
  datatype Gate = Gate(lastOrder: map<string, real>, passes: seq<Pass>)

  /** Order submission: split orders by gate pass, calls of _submit, and what they have left behind. */
  datatype Desk = Desk(
    dca: map<nat, Dca>,
    submits: map<nat, Submit>,
    nextSubmit: nat,
    calls: seq<Order>,             // broker submissions
    rows: seq<Row>,                // committed trade rows
    applied: seq<Row>,             // fills applied to positions
    events: seq<Event>)

  /** The stop-loss monitor: the price events it handled, and its triggered set. */
  datatype Monitor = Monitor(ticks: seq<Tick>, triggered: set<string>)

  datatype State = State(
    clock: real,
    gate: Gate,
    recording: map<nat, Signal>,   // on_signal coroutines saving their signal
    checking: map<nat, Check>,     // ... and awaiting the risk check, by gate pass
    nextTask: nat,
    desk: Desk,
    positions: map<string, Position>,
    monitor: Monitor,
    dailyLoss: real)

  datatype Action =
    | Wait(seconds: real)
    | Arrive(signal: Signal)                            // a strategy publishes
    | PriceEvent(symbol: string, price: Option<real>)
    | SignalSaved(task: nat)                            // whether or not the write worked
    | RiskChecked(pass: nat, available: real)
    | PieceDue(pass: nat)                               // a split order starts, or its interval ends
    | BrokerAnswers(submit: nat, answer: Option<Report>)
    | CommitEnds(submit: nat, ok: bool)
    | HandlerRuns(submit: nat)
    | PublishReturns(submit: nat)
    | FailureWritten(submit: nat, ok: bool)
    | DayStarts

  const START := State(0.0, Gate(map[], []), map[], map[], 0, Desk(map[], map[], 0, [], [], [], []), map[],
                       Monitor([], {}), 0.0)

  function PositionIn(positions: map<string, Position>, symbol: string): Position {
    if symbol in positions then positions[symbol] else FLAT
  }

  function Spawn(s: State, signal: Signal): State {
    s.(recording := s.recording[s.nextTask := signal], nextTask := s.nextTask + 1)
  }

  // ---- the gate ----

  predicate Passes(cfg: Setup, g: Gate, signal: Signal, now: real) {
    signal.kind != HOLD && GateOpen(cfg.orders, g.lastOrder, signal.symbol, now)
  }

  function RecordPass(g: Gate, signal: Signal, now: real): Gate {
    Gate(g.lastOrder[signal.symbol := now], g.passes + [Pass(signal, now)])
  }

  /** HOLD test, gate test, gate write and sizing: no suspension point between them. */
  function PassGate(cfg: Setup, s: State, task: nat): State
    requires task in s.recording
  {
    var signal := s.recording[task];
    var rest := s.(recording := s.recording - {task});
    if !Passes(cfg, s.gate, signal, s.clock) then rest
    else
      rest.(gate := RecordPass(s.gate, signal, s.clock),
            checking := if signal.price == 0.0 then s.checking
                        else s.checking[|s.gate.passes| := Check(signal, Asked(cfg.orders, signal.price))])
  }

  // ---- the desk ----

  /** _submit runs to its first await: the broker is called. */
  function StartSubmit(d: Desk, order: Order, split: bool): Desk {
    d.(submits := d.submits[d.nextSubmit := Submit(order, Placing, split)],
       nextSubmit := d.nextSubmit + 1,
       calls := d.calls + [order])
  }

  /** What follows an approval up to the next await: one submission, or the start of a split order's coroutine. */
  function Accept(cfg: Setup, d: Desk, pass: nat, signal: Signal, approved: real): Desk {
    var side := OrderSide(signal.kind);
    var order := Order(pass, signal.symbol, side, PieceQuantity(cfg.orders, side, approved), signal.price);
    if Split(cfg.orders, side) then d.(dca := d.dca[pass := Dca(order, 0, false)])
    else StartSubmit(d, order, false)
  }

  function Verdict(cfg: Setup, s: State, c: Check, available: real): Risk.Verdict
    requires c.signal.price != 0.0
  {
    Judge(cfg.orders.risk, s.dailyLoss, PositionIn(s.positions, c.signal.symbol), available,
          OrderSide(c.signal.kind), c.asked, c.signal.price)
  }

  function CheckRisk(cfg: Setup, s: State, pass: nat, available: real): State
    requires pass in s.checking
  {
    var c := s.checking[pass];
    var rest := s.(checking := s.checking - {pass});
    if c.signal.price == 0.0 then rest
    else
      match Verdict(cfg, s, c, available)
      case Approved(approved) => rest.(desk := Accept(cfg, s.desk, pass, c.signal, approved))
      case _ => rest
  }

  function NextPiece(cfg: Setup, d: Desk, pass: nat): Desk {
    if pass !in d.dca || d.dca[pass].busy || d.dca[pass].started >= Pieces(cfg.orders) then d
    else
      var due := d.dca[pass];
      StartSubmit(d.(dca := d.dca[pass := Dca(due.order, due.started + 1, true)]), due.order, true)
  }

  /** The stage a resumed submission moves to. */
  function NextStage(stage: Stage, a: Action): Stage {
    match (a, stage)
    case (BrokerAnswers(_, Some(report)), Placing) => Committing(report)
    case (BrokerAnswers(_, None), Placing) => RecordingFailure
    case (CommitEnds(_, true), Committing(report)) => Announced(report)
    case (CommitEnds(_, false), Committing(_)) => RecordingFailure
    case (HandlerRuns(_), Announced(report)) => Handled(report)
    case (PublishReturns(_), Handled(report)) => Settled(report)
    case (FailureWritten(_, true), RecordingFailure) => FailureAnnounced
    case (FailureWritten(_, false), RecordingFailure) => Lost
    case (PublishReturns(_), FailureAnnounced) => Failed
    case _ => stage
  }

  /** A finished piece lets its split order go on to the next interval; a lost one ends it. */
  function Release(dca: map<nat, Dca>, u: Submit, now: Stage): map<nat, Dca> {
    if !u.split || u.stage == now || u.order.pass !in dca then dca
    else if now.Lost? then dca - {u.order.pass}
    else if now.Settled? || now.Failed? then dca[u.order.pass := dca[u.order.pass].(busy := false)]
    else dca
  }

  /** The move of one submission: a commit adds the trade row and publishes, the handler applies the fill. */
  function Resume(d: Desk, a: Action): Desk
    requires OfSubmit(a)
  {
    if a.submit !in d.submits then d
    else
      var u := d.submits[a.submit];
      var now := NextStage(u.stage, a);
      var moved := u.stage != now;
      Desk(Release(d.dca, u, now),
           d.submits[a.submit := u.(stage := now)],
           d.nextSubmit,
           d.calls,
           if moved && now.Announced? then d.rows + [Row(a.submit, now.report)] else d.rows,
           if moved && now.Handled? then d.applied + [Row(a.submit, now.report)] else d.applied,
           if moved && now.Announced? then d.events + [OrderFilled(a.submit, now.report)]
           else if moved && now.FailureAnnounced? then d.events + [OrderFailed(a.submit)]
           else d.events)
  }

  predicate OfSubmit(a: Action) {
    a.BrokerAnswers? || a.CommitEnds? || a.HandlerRuns? || a.PublishReturns? || a.FailureWritten?
  }

  /** The fills the position handler has applied in this step. */
  function Deliver(positions: map<string, Position>, fills: seq<Row>): map<string, Position> {
    if |fills| == 0 then positions
    else
      var r := fills[0].report;
      positions[r.symbol := ApplyFill(PositionIn(positions, r.symbol), r.fill)]
  }

  // ---- the monitor ----

  function HandlePrice(cfg: Setup, s: State, symbol: string, price: Option<real>): State {
    var tick := Tick(symbol, price, PositionIn(s.positions, symbol));
    var (triggered, sell) := OnTick(cfg.stop, s.monitor.triggered, tick);
    var seen := s.(monitor := Monitor(s.monitor.ticks + [tick], triggered));
    if sell && price.Some? then Spawn(seen, Signal(symbol, SELL, price.value)) else seen
  }

  function Step(cfg: Setup, s: State, a: Action): State {
    match a
    case Wait(seconds) => if seconds >= 0.0 then s.(clock := s.clock + seconds) else s
    case Arrive(signal) => Spawn(s, signal)
    case PriceEvent(symbol, price) => HandlePrice(cfg, s, symbol, price)
    case SignalSaved(task) => if task in s.recording then PassGate(cfg, s, task) else s
    case RiskChecked(pass, available) => if pass in s.checking then CheckRisk(cfg, s, pass, available) else s
    case PieceDue(pass) => s.(desk := NextPiece(cfg, s.desk, pass))
    case DayStarts => s.(dailyLoss := 0.0)
    case _ =>
      var d := Resume(s.desk, a);
      s.(desk := d, positions := Deliver(s.positions, d.applied[|s.desk.applied|..]))
  }

  /** The state after a run of actions. */
  function Exec(cfg: Setup, actions: seq<Action>): State {
    if |actions| == 0 then START else Step(cfg, Exec(cfg, actions[..|actions| - 1]), actions[|actions| - 1])
  }
}
