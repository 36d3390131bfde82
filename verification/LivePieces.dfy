/**
  The course of one submission and of a split order: how each ends, that pieces go one at a time, and that all of
  them go when none is lost.
 */
module LivePieces {
  import opened Options
  import opened Orders
  import opened Live
  import opened LiveProtocol
  import opened LiveOrders

  // ---- how a submission ends ----

  /** What the actions on one submission leave of the desk. */
  ghost predicate Ends(d: Desk, e: Desk, id: nat, stage: Stage, rows: seq<Row>, applied: seq<Row>, events: seq<Event>) {
    && id in d.submits && e.submits == d.submits[id := d.submits[id].(stage := stage)]
    && e.rows == d.rows + rows && e.applied == d.applied + applied && e.events == d.events + events
    && e.calls == d.calls && e.nextSubmit == d.nextSubmit
  }

  lemma StepEnds(d: Desk, a: Action)
    requires OfSubmit(a) && a.submit in d.submits
    ensures var stage := d.submits[a.submit].stage;
      var now := NextStage(stage, a);
      Ends(d, Resume(d, a), a.submit, now,
           if stage != now && now.Announced? then [Row(a.submit, now.report)] else [],
           if stage != now && now.Handled? then [Row(a.submit, now.report)] else [],
           if stage != now && now.Announced? then [OrderFilled(a.submit, now.report)]
           else if stage != now && now.FailureAnnounced? then [OrderFailed(a.submit)] else [])
  {
    hide NextStage;
    hide Release;
  }

  lemma EndsTwice(d: Desk, e: Desk, f: Desk, id: nat, stage: Stage, rows: seq<Row>, applied: seq<Row>,
                  events: seq<Event>, last: Stage, moreRows: seq<Row>, moreApplied: seq<Row>, moreEvents: seq<Event>)
    requires Ends(d, e, id, stage, rows, applied, events) && Ends(e, f, id, last, moreRows, moreApplied, moreEvents)
    ensures Ends(d, f, id, last, rows + moreRows, applied + moreApplied, events + moreEvents)
  {
  }

  lemma CommittedPart(d: Desk, id: nat, report: Report)
    requires id in d.submits && d.submits[id].stage == Placing
    ensures var e := Resume(Resume(d, BrokerAnswers(id, Some(report))), CommitEnds(id, true));
      Ends(d, e, id, Announced(report), [Row(id, report)], [], [OrderFilled(id, report)])
  {
    var d1 := Resume(d, BrokerAnswers(id, Some(report)));
    var row, event := Row(id, report), OrderFilled(id, report);
    StepEnds(d, BrokerAnswers(id, Some(report)));
    hide Resume;
    StepEnds(d1, CommitEnds(id, true));
    EndsTwice(d, d1, Resume(d1, CommitEnds(id, true)), id, Committing(report), [], [], [],
              Announced(report), [row], [], [event]);
    assert [] + [row] == [row] && [] + [event] == [event];
  }

  lemma AppliedPart(d: Desk, id: nat, report: Report)
    requires id in d.submits && d.submits[id].stage == Announced(report)
    ensures var e := Resume(Resume(d, HandlerRuns(id)), PublishReturns(id));
      Ends(d, e, id, Settled(report), [], [Row(id, report)], [])
  {
    var d1 := Resume(d, HandlerRuns(id));
    var row := Row(id, report);
    StepEnds(d, HandlerRuns(id));
    hide Resume;
    StepEnds(d1, PublishReturns(id));
    EndsTwice(d, d1, Resume(d1, PublishReturns(id)), id, Handled(report), [], [row], [], Settled(report), [], [], []);
    assert [row] + [] == [row];
  }

  /** Executed and committed: one row, one event, one applied fill. */
  lemma ExecutedSubmission(d: Desk, id: nat, report: Report)
    requires id in d.submits && d.submits[id].stage == Placing
    ensures var committed := Resume(Resume(d, BrokerAnswers(id, Some(report))), CommitEnds(id, true));
      var e := Resume(Resume(committed, HandlerRuns(id)), PublishReturns(id));
      Ends(d, e, id, Settled(report), [Row(id, report)], [Row(id, report)], [OrderFilled(id, report)])
  {
    var committed := Resume(Resume(d, BrokerAnswers(id, Some(report))), CommitEnds(id, true));
    var row, event := Row(id, report), OrderFilled(id, report);
    CommittedPart(d, id, report);
    hide Resume;
    AppliedPart(committed, id, report);
    EndsTwice(d, committed, Resume(Resume(committed, HandlerRuns(id)), PublishReturns(id)), id,
              Announced(report), [row], [], [event], Settled(report), [], [row], []);
    assert [row] + [] == [row] && [] + [row] == [row] && [event] + [] == [event];
  }

  /**
    Refused by the broker, or not committed: no row and no fill; the failure is published once it is recorded, and
    if that fails too nothing is.
   */
  lemma FailedSubmission(d: Desk, id: nat, report: Option<Report>, recorded: bool)
    requires id in d.submits && d.submits[id].stage == (if report.Some? then Committing(report.value) else Placing)
    ensures var failing := if report.Some? then CommitEnds(id, false) else BrokerAnswers(id, None);
      var e := Resume(Resume(Resume(d, failing), FailureWritten(id, recorded)), PublishReturns(id));
      Ends(d, e, id, if recorded then Failed else Lost, [], [], if recorded then [OrderFailed(id)] else [])
  {
    var failing := if report.Some? then CommitEnds(id, false) else BrokerAnswers(id, None);
    var d1 := Resume(d, failing);
    var d2 := Resume(d1, FailureWritten(id, recorded));
    var d3 := Resume(d2, PublishReturns(id));
    var now := if recorded then FailureAnnounced else Lost;
    var events := if recorded then [OrderFailed(id)] else [];
    StepEnds(d, failing);
    hide Resume;
    StepEnds(d1, FailureWritten(id, recorded));
    EndsTwice(d, d1, d2, id, RecordingFailure, [], [], [], now, [], [], events);
    assert [] + events == events && events + [] == events;
    StepEnds(d2, PublishReturns(id));
    EndsTwice(d, d2, d3, id, now, [], [], events, if recorded then Failed else Lost, [], [], []);
  }

  // ---- one piece at a time ----

  predicate Finished(stage: Stage) { stage.Settled? || stage.Failed? || stage.Lost? }

  /** The pieces of this pass that are under way. */
  function UnderWay(submits: map<nat, Submit>, pass: nat): (ids: set<nat>)
    ensures forall id :: id in ids <==>
      id in submits && submits[id].split && submits[id].order.pass == pass && !Finished(submits[id].stage)
  {
    set id | id in submits && submits[id].split && submits[id].order.pass == pass && !Finished(submits[id].stage)
  }

  predicate Busy(d: Desk, pass: nat) { pass in d.dca && d.dca[pass].busy }

  /** A split order waits for exactly the one piece under way, if any. */
  ghost predicate PieceByPiece(d: Desk, pass: nat) {
    && (!Busy(d, pass) ==> UnderWay(d.submits, pass) == {})
    && (Busy(d, pass) ==> exists id :: UnderWay(d.submits, pass) == {id})
    && (pass in d.dca ==> d.dca[pass].order.pass == pass)
  }

  lemma StartUnsplit(d: Desk, order: Order, pass: nat)
    requires PieceByPiece(d, pass) && Numbered(d)
    ensures PieceByPiece(StartSubmit(d, order, false), pass)
  {
    assert d.nextSubmit !in d.submits;
    assert UnderWay(StartSubmit(d, order, false).submits, pass) == UnderWay(d.submits, pass);
  }

  lemma AcceptKeepsPieces(cfg: Setup, d: Desk, p: nat, signal: Signal, approved: real, pass: nat)
    requires PieceByPiece(d, pass) && Numbered(d) && p !in d.dca
    ensures PieceByPiece(Accept(cfg, d, p, signal, approved), pass)
  {
    var side := OrderSide(signal.kind);
    var order := Order(p, signal.symbol, side, PieceQuantity(cfg.orders, side, approved), signal.price);
    StartUnsplit(d, order, pass);
    hide PieceQuantity;
    hide UnderWay;
  }

  lemma NextKeepsPieces(cfg: Setup, d: Desk, p: nat, pass: nat)
    requires PieceByPiece(d, pass) && PieceByPiece(d, p) && Numbered(d)
    ensures PieceByPiece(NextPiece(cfg, d, p), pass)
  {
    var e := NextPiece(cfg, d, p);
    assert d.nextSubmit !in d.submits;
    if e != d {
      assert UnderWay(e.submits, pass) == UnderWay(d.submits, pass) + if pass == p then {d.nextSubmit} else {};
    }
  }

  lemma StageFinishes(stage: Stage, a: Action)
    ensures Finished(stage) ==> NextStage(stage, a) == stage
  {
  }

  lemma ResumeKeepsPieces(d: Desk, a: Action, pass: nat)
    requires OfSubmit(a) && PieceByPiece(d, pass)
    ensures PieceByPiece(Resume(d, a), pass)
  {
    var e := Resume(d, a);
    if a.submit in d.submits {
      var u := d.submits[a.submit];
      var now := NextStage(u.stage, a);
      StageFinishes(u.stage, a);
      hide NextStage;
      var ends := u.split && u.order.pass == pass && !Finished(u.stage) && Finished(now);
      assert UnderWay(e.submits, pass) == UnderWay(d.submits, pass) - if ends then {a.submit} else {};
      if ends { assert a.submit in UnderWay(d.submits, pass); }
    }
  }

  lemma {:induction false} PiecesGoOneByOne(cfg: Setup, actions: seq<Action>, pass: nat)
    ensures PieceByPiece(Exec(cfg, actions).desk, pass)
    decreases |actions|
  {
    if |actions| == 0 {
      assert UnderWay(map[], pass) == {};
    } else {
      var n := |actions| - 1;
      var s, a := Exec(cfg, actions[..n]), actions[n];
      PiecesGoOneByOne(cfg, actions[..n], pass);
      ProtocolHolds(cfg, actions[..n]);
      DeskAfter(cfg, s, a);
      hide Step;
      hide PieceByPiece;
      hide EventsOk;
      hide RowsOk;
      if a.RiskChecked? {
        PassHolds(cfg, actions[..n], a.pass);
        hide Live.Verdict;
        var allowed := Allowed(cfg, s, a.pass, a.available);
        if allowed.Some? {
          AcceptKeepsPieces(cfg, s.desk, a.pass, s.checking[a.pass].signal, allowed.value, pass);
        }
      } else if a.PieceDue? {
        PiecesGoOneByOne(cfg, actions[..n], a.pass);
        NextKeepsPieces(cfg, s.desk, a.pass, pass);
      } else if OfSubmit(a) {
        ResumeKeepsPieces(s.desk, a, pass);
      }
      hide Accept;
      hide NextPiece;
      hide Resume;
    }
  }

  /** In every run at most one piece of a split order is under way, and its coroutine waits exactly while one is. */
  lemma OnePieceUnderWay(cfg: Setup, actions: seq<Action>, pass: nat)
    ensures var d := Exec(cfg, actions).desk;
      |UnderWay(d.submits, pass)| <= 1 && (Busy(d, pass) <==> UnderWay(d.submits, pass) != {})
  {
    PiecesGoOneByOne(cfg, actions, pass);
    hide Exec;
  }

  // ---- all pieces ----

  /** A piece falls due, is submitted and executed. */
  function Piece(d: Desk, cfg: Setup, pass: nat, id: nat, report: Report): Desk {
    var placed := NextPiece(cfg, d, pass);
    Resume(Resume(Resume(Resume(placed, BrokerAnswers(id, Some(report))), CommitEnds(id, true)), HandlerRuns(id)),
           PublishReturns(id))
  }

  lemma PieceRuns(d: Desk, cfg: Setup, pass: nat, order: Order, k: nat, report: Report)
    requires Numbered(d) && order.pass == pass && pass in d.dca && d.dca[pass] == Dca(order, k, false)
    requires k < Pieces(cfg.orders)
    ensures var e := Piece(d, cfg, pass, d.nextSubmit, report);
      && Numbered(e) && e.calls == d.calls + [order]
      && pass in e.dca && e.dca[pass] == Dca(order, k + 1, false)
  {
    var id := d.nextSubmit;
    var placed := NextPiece(cfg, d, pass);
    assert id in placed.submits && placed.submits[id] == Submit(order, Placing, true);
    assert placed.dca[pass] == Dca(order, k + 1, true) && placed.calls == d.calls + [order];
    assert Numbered(placed);
    ExecutedSubmission(placed, id, report);
    hide NextPiece;
    ReleasedAtTheEnd(placed, id, report);
  }

  /** Only the last of these steps frees the coroutine. */
  lemma ReleasedAtTheEnd(d: Desk, id: nat, report: Report)
    requires id in d.submits && d.submits[id].stage == Placing && d.submits[id].split
    requires d.submits[id].order.pass in d.dca
    ensures var pass := d.submits[id].order.pass;
      var e := Resume(Resume(Resume(Resume(d, BrokerAnswers(id, Some(report))), CommitEnds(id, true)), HandlerRuns(id)),
                      PublishReturns(id));
      e.dca == d.dca[pass := d.dca[pass].(busy := false)]
  {
    var d1 := Resume(d, BrokerAnswers(id, Some(report)));
    assert d1.dca == d.dca && d1.submits[id] == d.submits[id].(stage := Committing(report));
    var d2 := Resume(d1, CommitEnds(id, true));
    assert d2.dca == d.dca && d2.submits[id] == d.submits[id].(stage := Announced(report));
    var d3 := Resume(d2, HandlerRuns(id));
    assert d3.dca == d.dca && d3.submits[id] == d.submits[id].(stage := Handled(report));
  }

  /** One executed piece after the other. */
  function AllPieces(d: Desk, cfg: Setup, pass: nat, reports: seq<Report>): Desk {
    if |reports| == 0 then d
    else
      var before := AllPieces(d, cfg, pass, reports[..|reports| - 1]);
      Piece(before, cfg, pass, before.nextSubmit, reports[|reports| - 1])
  }

  function Copies(order: Order, n: nat): (calls: seq<Order>)
    ensures |calls| == n
  {
    seq(n, i requires 0 <= i < n => order)
  }

  /**
    From the start of a split order, with every piece executed, exactly the split count of equal orders goes to the
    broker, and no further piece after them.
   */
  lemma {:induction false} AllPiecesAreSubmitted(d: Desk, cfg: Setup, pass: nat, order: Order, reports: seq<Report>)
    requires Numbered(d) && order.pass == pass && pass in d.dca && d.dca[pass] == Dca(order, 0, false)
    requires |reports| <= Pieces(cfg.orders)
    ensures var e := AllPieces(d, cfg, pass, reports);
      && Numbered(e) && e.calls == d.calls + Copies(order, |reports|)
      && pass in e.dca && e.dca[pass] == Dca(order, |reports|, false)
      && (|reports| == Pieces(cfg.orders) ==> NextPiece(cfg, e, pass) == e)
  {
    hide Piece;
    if |reports| > 0 {
      var n := |reports| - 1;
      AllPiecesAreSubmitted(d, cfg, pass, order, reports[..n]);
      PieceRuns(AllPieces(d, cfg, pass, reports[..n]), cfg, pass, order, n, reports[n]);
      assert Copies(order, n) + [order] == Copies(order, n + 1);
    } else {
      assert d.calls + Copies(order, 0) == d.calls;
    }
  }
}
