/**
  The submission protocol under every interleaving and every broker and database outcome: what each
  submission publishes, and how trade rows and applied fills correspond.
 */
module LiveProtocol {
  import opened Options
  import opened StopLoss
  import opened Orders
  import opened Live

  predicate HasRow(stage: Stage) { stage.Announced? || stage.Handled? || stage.Settled? }
  predicate IsApplied(stage: Stage) { stage.Handled? || stage.Settled? }

  function FilledCount(events: seq<Event>, submit: nat): nat {
    if |events| == 0 then 0
    else
      var e := events[|events| - 1];
      FilledCount(events[..|events| - 1], submit) + if e.OrderFilled? && e.submit == submit then 1 else 0
  }

  function FailedCount(events: seq<Event>, submit: nat): nat {
    if |events| == 0 then 0
    else
      var e := events[|events| - 1];
      FailedCount(events[..|events| - 1], submit) + if e.OrderFailed? && e.submit == submit then 1 else 0
  }

  lemma CountAppend(events: seq<Event>, e: Event, submit: nat)
    ensures FilledCount(events + [e], submit)
         == FilledCount(events, submit) + if e.OrderFilled? && e.submit == submit then 1 else 0
    ensures FailedCount(events + [e], submit)
         == FailedCount(events, submit) + if e.OrderFailed? && e.submit == submit then 1 else 0
  {
    assert (events + [e])[..|events|] == events;
  }

  /** The trade rows of the submissions that have one. */
  function CommittedRows(submits: map<nat, Submit>): (rows: set<Row>)
    ensures forall r :: r in rows <==>
      r.submit in submits && HasRow(submits[r.submit].stage) && r.report == submits[r.submit].stage.report
  {
    set id | id in submits && HasRow(submits[id].stage) :: Row(id, submits[id].stage.report)
  }

  function AppliedRows(submits: map<nat, Submit>): (rows: set<Row>)
    ensures forall r :: r in rows <==>
      r.submit in submits && IsApplied(submits[r.submit].stage) && r.report == submits[r.submit].stage.report
  {
    set id | id in submits && IsApplied(submits[id].stage) :: Row(id, submits[id].stage.report)
  }

  /** Committed, its event published, its position update still to come. */
  function InFlight(submits: map<nat, Submit>): (rows: set<Row>)
    ensures forall r :: r in rows <==>
      r.submit in submits && submits[r.submit].stage.Announced? && r.report == submits[r.submit].stage.report
  {
    set id | id in submits && submits[id].stage.Announced? :: Row(id, submits[id].stage.report)
  }

  /** How many outcome events of each kind a stage has behind it. */
  function FilledAt(submits: map<nat, Submit>, id: nat): nat {
    if id in submits && HasRow(submits[id].stage) then 1 else 0
  }

  function FailedAt(submits: map<nat, Submit>, id: nat): nat {
    if id in submits && (submits[id].stage.FailureAnnounced? || submits[id].stage.Failed?) then 1 else 0
  }

  ghost predicate Numbered(d: Desk) {
    forall id: nat :: id in d.submits <==> id < d.nextSubmit
  }

  /** What a submission has published is what its stage says. */
  ghost predicate Matched(d: Desk, id: nat) {
    FilledCount(d.events, id) == FilledAt(d.submits, id) && FailedCount(d.events, id) == FailedAt(d.submits, id)
  }

  ghost predicate EventsOk(d: Desk) {
    forall id: nat :: Matched(d, id)
  }

  ghost predicate RowsOk(d: Desk) {
    && multiset(d.rows) == multiset(CommittedRows(d.submits))
    && multiset(d.applied) == multiset(AppliedRows(d.submits))
  }

  ghost predicate DeskOk(d: Desk) {
    Numbered(d) && EventsOk(d) && RowsOk(d)
  }

  // ---- a new submission ----

  lemma StartKeepsDesk(d: Desk, order: Order, split: bool)
    requires DeskOk(d)
    ensures DeskOk(StartSubmit(d, order, split))
  {
    var e := StartSubmit(d, order, split);
    assert d.nextSubmit !in d.submits;
    forall id | id in d.submits ensures id in e.submits && e.submits[id] == d.submits[id] { }
    assert CommittedRows(e.submits) == CommittedRows(d.submits);
    assert AppliedRows(e.submits) == AppliedRows(d.submits);
    forall id: nat ensures Matched(e, id) { assert Matched(d, id); }
  }

  lemma DcaIrrelevant(d: Desk, dca: map<nat, Dca>)
    requires DeskOk(d)
    ensures DeskOk(d.(dca := dca))
  {
    forall id: nat ensures Matched(d.(dca := dca), id) { assert Matched(d, id); }
  }

  lemma AcceptKeepsDesk(cfg: Setup, d: Desk, pass: nat, signal: Signal, approved: real)
    requires DeskOk(d)
    ensures DeskOk(Accept(cfg, d, pass, signal, approved))
  {
    hide DeskOk;
    hide PieceQuantity;
    var order := Order(pass, signal.symbol, OrderSide(signal.kind),
                       PieceQuantity(cfg.orders, OrderSide(signal.kind), approved), signal.price);
    StartKeepsDesk(d, order, false);
    DcaIrrelevant(d, d.dca[pass := Dca(order, 0, false)]);
    hide StartSubmit;
  }

  lemma PieceKeepsDesk(cfg: Setup, d: Desk, pass: nat)
    requires DeskOk(d)
    ensures DeskOk(NextPiece(cfg, d, pass))
  {
    hide DeskOk;
    if pass in d.dca {
      var due := d.dca[pass];
      var busy := d.dca[pass := Dca(due.order, due.started + 1, true)];
      DcaIrrelevant(d, busy);
      StartKeepsDesk(d.(dca := busy), due.order, true);
    }
    hide StartSubmit;
  }

  // ---- a resumed submission ----

  /** A stage only moves along the protocol, and keeps its report once it has a row. */
  lemma StagesMove(stage: Stage, a: Action)
    ensures var now := NextStage(stage, a);
      && (HasRow(stage) ==> HasRow(now) && now.report == stage.report)
      && (IsApplied(stage) ==> IsApplied(now))
      && (stage != now && now.Announced? <==> HasRow(now) && !HasRow(stage))
      && (stage != now && now.Handled? <==> IsApplied(now) && !IsApplied(stage))
      && (stage != now && now.FailureAnnounced?
          <==> (now.FailureAnnounced? || now.Failed?) && !(stage.FailureAnnounced? || stage.Failed?))
      && (stage.FailureAnnounced? || stage.Failed? ==> now.FailureAnnounced? || now.Failed?)
  {
  }

  lemma ResumeKeepsMatched(d: Desk, a: Action, id: nat)
    requires OfSubmit(a) && a.submit in d.submits && Matched(d, id)
    ensures Matched(Resume(d, a), id)
  {
    hide NextStage;
    hide Release;
    hide FilledCount;
    hide FailedCount;
    var stage := d.submits[a.submit].stage;
    var now := NextStage(stage, a);
    StagesMove(stage, a);
    if stage != now {
      if now.Announced? { CountAppend(d.events, OrderFilled(a.submit, now.report), id); }
      if now.FailureAnnounced? { CountAppend(d.events, OrderFailed(a.submit), id); }
    }
  }

  lemma ResumeKeepsEvents(d: Desk, a: Action)
    requires OfSubmit(a) && a.submit in d.submits && EventsOk(d)
    ensures EventsOk(Resume(d, a))
  {
    forall id: nat ensures Matched(Resume(d, a), id) {
      assert Matched(d, id);
      ResumeKeepsMatched(d, a, id);
    }
    hide Resume;
  }

  lemma AddRow(before: set<Row>, after: set<Row>, row: Row)
    requires row !in before && forall r :: r in after <==> r in before || r == row
    ensures multiset(after) == multiset(before) + multiset{row}
  {
    assert after == before + {row};
  }

  lemma CommittedMove(submits: map<nat, Submit>, id: nat, now: Stage)
    requires id in submits
    requires HasRow(submits[id].stage) ==> HasRow(now) && now.report == submits[id].stage.report
    ensures multiset(CommittedRows(submits[id := submits[id].(stage := now)])) == multiset(CommittedRows(submits))
         + if HasRow(now) && !HasRow(submits[id].stage) then multiset{Row(id, now.report)} else multiset{}
  {
    var after := submits[id := submits[id].(stage := now)];
    forall other | other != id ensures other in after <==> other in submits { }
    if HasRow(now) && !HasRow(submits[id].stage) {
      AddRow(CommittedRows(submits), CommittedRows(after), Row(id, now.report));
    } else {
      assert CommittedRows(after) == CommittedRows(submits);
    }
  }

  lemma AppliedMove(submits: map<nat, Submit>, id: nat, now: Stage)
    requires id in submits
    requires IsApplied(submits[id].stage) ==> IsApplied(now) && now.report == submits[id].stage.report
    ensures multiset(AppliedRows(submits[id := submits[id].(stage := now)])) == multiset(AppliedRows(submits))
         + if IsApplied(now) && !IsApplied(submits[id].stage) then multiset{Row(id, now.report)} else multiset{}
  {
    var after := submits[id := submits[id].(stage := now)];
    forall other | other != id ensures other in after <==> other in submits { }
    if IsApplied(now) && !IsApplied(submits[id].stage) {
      AddRow(AppliedRows(submits), AppliedRows(after), Row(id, now.report));
    } else {
      assert AppliedRows(after) == AppliedRows(submits);
    }
  }

  lemma ResumeKeepsRows(d: Desk, a: Action)
    requires OfSubmit(a) && a.submit in d.submits && RowsOk(d)
    ensures RowsOk(Resume(d, a))
  {
    var stage := d.submits[a.submit].stage;
    var now := NextStage(stage, a);
    StagesMove(stage, a);
    CommittedMove(d.submits, a.submit, now);
    AppliedMove(d.submits, a.submit, now);
    hide NextStage;
    hide Release;
    hide CommittedRows;
    hide AppliedRows;
  }

  lemma ResumeKeepsDesk(d: Desk, a: Action)
    requires OfSubmit(a) && DeskOk(d)
    ensures DeskOk(Resume(d, a))
  {
    if a.submit in d.submits {
      ResumeKeepsEvents(d, a);
      ResumeKeepsRows(d, a);
      hide EventsOk;
      hide RowsOk;
      hide NextStage;
      hide Release;
    }
  }

  /** The quantity the risk check lets through, if it does. */
  function Allowed(cfg: Setup, s: State, pass: nat, available: real): Option<real> {
    if pass !in s.checking || s.checking[pass].signal.price == 0.0 then None
    else
      match Verdict(cfg, s, s.checking[pass], available)
      case Approved(quantity) => Some(quantity)
      case _ => None
  }

  /** The desk changes in three ways only: an approval, the next piece of a split order, a resumed submission. */
  lemma DeskAfter(cfg: Setup, s: State, a: Action)
    ensures Step(cfg, s, a).desk ==
      match a
      case RiskChecked(pass, available) =>
        (match Allowed(cfg, s, pass, available)
         case Some(quantity) => Accept(cfg, s.desk, pass, s.checking[pass].signal, quantity)
         case None => s.desk)
      case PieceDue(pass) => NextPiece(cfg, s.desk, pass)
      case _ => if OfSubmit(a) then Resume(s.desk, a) else s.desk
  {
    hide OnTick;
    hide Resume;
    hide NextPiece;
    hide Accept;
    hide Deliver;
    hide Verdict;
  }

  lemma {:induction false} ProtocolHolds(cfg: Setup, actions: seq<Action>)
    ensures DeskOk(Exec(cfg, actions).desk)
  {
    if |actions| == 0 {
      assert CommittedRows(map[]) == {} && AppliedRows(map[]) == {};
    } else {
      hide Step;
      hide DeskOk;
      var n := |actions| - 1;
      ProtocolHolds(cfg, actions[..n]);
      var s, a := Exec(cfg, actions[..n]), actions[n];
      DeskAfter(cfg, s, a);
      if a.RiskChecked? {
        hide Verdict;
        var allowed := Allowed(cfg, s, a.pass, a.available);
        if allowed.Some? {
          AcceptKeepsDesk(cfg, s.desk, a.pass, s.checking[a.pass].signal, allowed.value);
        }
      } else if a.PieceDue? {
        PieceKeepsDesk(cfg, s.desk, a.pass);
      } else if OfSubmit(a) {
        ResumeKeepsDesk(s.desk, a);
      }
      hide Accept;
      hide NextPiece;
      hide Resume;
    }
  }

  // ---- the protocol's promises ----

  /**
    No submission ever publishes two outcomes.  One that has finished published exactly one, unless the write of
    the failed order failed as well, and then none.
   */
  lemma OneOutcomeEach(cfg: Setup, actions: seq<Action>, id: nat)
    ensures var s := Exec(cfg, actions).desk;
      var published := FilledCount(s.events, id) + FailedCount(s.events, id);
      && published <= 1
      && (id in s.submits ==>
            (s.submits[id].stage.Settled? || s.submits[id].stage.Failed? ==> published == 1)
            && (s.submits[id].stage.Lost? ==> published == 0))
  {
    ProtocolHolds(cfg, actions);
    hide Exec;
    assert Matched(Exec(cfg, actions).desk, id);
  }

  /** Trade rows are the applied fills and the in-flight ones, each exactly once. */
  lemma RowsAreFills(cfg: Setup, actions: seq<Action>)
    ensures var s := Exec(cfg, actions).desk;
      && multiset(s.rows) == multiset(s.applied) + multiset(InFlight(s.submits))
      && forall row :: multiset(s.rows)[row] <= 1 && multiset(s.applied)[row] <= multiset(s.rows)[row]
  {
    ProtocolHolds(cfg, actions);
    hide Exec;
    var s := Exec(cfg, actions).desk;
    assert CommittedRows(s.submits) == AppliedRows(s.submits) + InFlight(s.submits);
    assert AppliedRows(s.submits) !! InFlight(s.submits);
  }

  ghost predicate Quiescent(s: Desk) {
    forall id :: id in s.submits ==> !s.submits[id].stage.Announced?
  }

  /** When no position update is outstanding, positions have seen exactly the committed trades. */
  lemma QuiescentBooksAgree(cfg: Setup, actions: seq<Action>)
    requires Quiescent(Exec(cfg, actions).desk)
    ensures multiset(Exec(cfg, actions).desk.rows) == multiset(Exec(cfg, actions).desk.applied)
  {
    RowsAreFills(cfg, actions);
    assert InFlight(Exec(cfg, actions).desk.submits) == {};
  }
}
