/**
  The position handler among the other handlers of ORDER_FILLED: the steps of one publication, seen from the
  submission that published, are the steps Live takes for it.
 */
module LiveFanOut {
  import opened Events
  import opened Live

  /** The stage of the submission when its event goes to these handlers, the k-th of which keeps the positions. */
  function StageOf<Handler>(p: Publication<Handler>, k: nat, report: Report): Stage {
    if p.returned then Settled(report) else if k < p.started then Handled(report) else Announced(report)
  }

  /** What one move of the fan-out is in Live.  The position is updated in the first segment of its handler. */
  function AsActions<Handler>(p: Publication<Handler>, k: nat, id: nat, m: Move): seq<Action> {
    if p.returned then []
    else
      match m
      case Start => if p.started == k < |p.handlers| then [HandlerRuns(id)] else []
      case Finish(_, _) => []
      case Return => if AllFinished(p) then [PublishReturns(id)] else []
  }

  function Follow(stage: Stage, actions: seq<Action>): Stage {
    if |actions| == 0 then stage else NextStage(Follow(stage, actions[..|actions| - 1]), actions[|actions| - 1])
  }

  lemma MoveIsSteps<Handler>(p: Publication<Handler>, k: nat, id: nat, report: Report, m: Move)
    requires Consistent(p) && k < |p.handlers|
    ensures StageOf(Advance(p, m), k, report) == Follow(StageOf(p, k, report), AsActions(p, k, id, m))
  {
    if m.Return? && AllFinished(p) { assert k in p.finished; }
    var actions := AsActions(p, k, id, m);
    if |actions| == 1 { assert actions[..0] == []; }
  }

  /** The Live actions of a whole fan-out. */
  function RunAsActions<Handler>(handlers: seq<Handler>, k: nat, id: nat, moves: seq<Move>): seq<Action> {
    if |moves| == 0 then []
    else
      var n := |moves| - 1;
      RunAsActions(handlers, k, id, moves[..n]) + AsActions(Fanned(handlers, moves[..n]), k, id, moves[n])
  }

  lemma FollowAppend(stage: Stage, xs: seq<Action>, ys: seq<Action>)
    requires |ys| <= 1
    ensures Follow(stage, xs + ys) == Follow(Follow(stage, xs), ys)
  {
    if |ys| == 0 {
      assert xs + ys == xs;
    } else {
      assert (xs + ys)[..|xs|] == xs && ys[..0] == [];
    }
  }

  /**
    Every fan-out, with any handlers beside the position manager's, raising and finishing in any order, takes the
    submission through the stages Live gives it; in particular it settles only after the position was updated.
   */
  lemma {:induction false} FanOutIsLive<Handler>(handlers: seq<Handler>, k: nat, id: nat, report: Report,
                                                 moves: seq<Move>)
    requires k < |handlers|
    ensures StageOf(Fanned(handlers, moves), k, report)
         == Follow(Announced(report), RunAsActions(handlers, k, id, moves))
    ensures Fanned(handlers, moves).returned ==> HandlerRuns(id) in RunAsActions(handlers, k, id, moves)
  {
    FailuresAreLogged(handlers, moves);
    UpdatedWhenStarted(handlers, k, id, moves);
    if |moves| > 0 {
      var n := |moves| - 1;
      var p := Fanned(handlers, moves[..n]);
      FailuresAreLogged(handlers, moves[..n]);
      FanOutIsLive(handlers, k, id, report, moves[..n]);
      MoveIsSteps(p, k, id, report, moves[n]);
      FollowAppend(Announced(report), RunAsActions(handlers, k, id, moves[..n]), AsActions(p, k, id, moves[n]));
      hide Follow;
      hide Consistent;
      hide NextStage;
    }
    if Fanned(handlers, moves).returned { ReturnedIsStarted(Fanned(handlers, moves), k); }
  }

  lemma {:induction false} UpdatedWhenStarted<Handler>(handlers: seq<Handler>, k: nat, id: nat, moves: seq<Move>)
    requires k < |handlers|
    ensures k < Fanned(handlers, moves).started ==> HandlerRuns(id) in RunAsActions(handlers, k, id, moves)
  {
    if |moves| > 0 {
      var n := |moves| - 1;
      FailuresAreLogged(handlers, moves[..n]);
      UpdatedWhenStarted(handlers, k, id, moves[..n]);
      var p := Fanned(handlers, moves[..n]);
      if p.returned { ReturnedIsStarted(p, k); }
    }
  }
}
