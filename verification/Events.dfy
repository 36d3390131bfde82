/**
  Event fan-out (core/event.py).  One publication starts a coroutine for each subscribed handler and returns when
  all of them have finished; between those points they interleave in any way, and each may raise.
 */
module Events {

  datatype EventType = PriceUpdated | CandleClosed | SignalGenerated | OrderRequested | OrderFilled | OrderFailed
                     | PositionChanged | RiskTriggered | SystemError

  /**
    A publication under way: how many handlers have been started, which have finished and whether they raised,
    the failures logged so far, by position, and whether publish has returned.
   */
  datatype Publication<Handler> = Publication(handlers: seq<Handler>, started: nat, finished: map<nat, bool>,
                                              log: seq<nat>, returned: bool)

  /** Tasks are started in subscription order; they finish in any order, normally or with an exception. */
  datatype Move = Start | Finish(handler: nat, raises: bool) | Return

  function Begin<Handler>(handlers: seq<Handler>): Publication<Handler> {
    Publication(handlers, 0, map[], [], false)
  }

  predicate AllFinished<Handler>(p: Publication<Handler>) {
    forall i :: 0 <= i < |p.handlers| ==> i in p.finished
  }

  function Advance<Handler>(p: Publication<Handler>, m: Move): Publication<Handler> {
    match m
    case Start => if p.started < |p.handlers| then p.(started := p.started + 1) else p
    case Finish(i, raises) =>
      if i < p.started && i !in p.finished then
        p.(finished := p.finished[i := raises], log := if raises then p.log + [i] else p.log)
      else p
    case Return => if AllFinished(p) then p.(returned := true) else p
  }

  function Fanned<Handler>(handlers: seq<Handler>, moves: seq<Move>): Publication<Handler> {
    if |moves| == 0 then Begin(handlers)
    else Advance(Fanned(handlers, moves[..|moves| - 1]), moves[|moves| - 1])
  }

  class EventBus<Handler> {
    var handlers: map<EventType, seq<Handler>>

    constructor ()
      ensures handlers == map[]
    {
      handlers := map[];
    }

    function Subscribed(t: EventType): seq<Handler>
      reads this
    {
      if t in handlers then handlers[t] else []
    }

    method Subscribe(t: EventType, handler: Handler)
      modifies this
      ensures Subscribed(t) == old(Subscribed(t)) + [handler]
      ensures forall u :: u != t ==> Subscribed(u) == old(Subscribed(u))
    {
      handlers := handlers[t := Subscribed(t) + [handler]];
    }

    /** Up to the await of the handlers; with none subscribed it returns at once. */
    method Publish(t: EventType) returns (p: Publication<Handler>)
      ensures p == Fanned(Subscribed(t), if Subscribed(t) == [] then [Return] else [])
    {
      var hs := if t in handlers then handlers[t] else [];
      p := Begin(hs);
      if |hs| == 0 {
        assert [Return][..0] == [];
        p := p.(returned := true);
      }
    }
  }

  // ---- whichever handlers raise, and in whatever order they finish ----

  function Raised(finished: map<nat, bool>): set<nat> {
    set i | i in finished && finished[i]
  }

  ghost predicate Consistent<Handler>(p: Publication<Handler>) {
    && p.started <= |p.handlers|
    && (forall i :: i in p.finished ==> i < p.started)
    && multiset(p.log) == multiset(Raised(p.finished))
    && (p.returned ==> AllFinished(p))
  }

  lemma FinishIsConsistent<Handler>(p: Publication<Handler>, i: nat, raises: bool)
    requires Consistent(p)
    ensures Consistent(Advance(p, Finish(i, raises)))
  {
    if i < p.started && i !in p.finished {
      assert Raised(p.finished[i := raises]) == if raises then Raised(p.finished) + {i} else Raised(p.finished);
      assert i !in Raised(p.finished);
    }
  }

  /**
    Every run of the fan-out logs exactly the handlers that raised, each once, in the order they did, and publish
    returns only after every handler has finished.
   */
  lemma {:induction false} FailuresAreLogged<Handler>(handlers: seq<Handler>, moves: seq<Move>)
    ensures Consistent(Fanned(handlers, moves)) && Fanned(handlers, moves).handlers == handlers
  {
    if |moves| == 0 {
      assert Raised(map[]) == {};
    } else {
      var n := |moves| - 1;
      FailuresAreLogged(handlers, moves[..n]);
      if moves[n].Finish? {
        FinishIsConsistent(Fanned(handlers, moves[..n]), moves[n].handler, moves[n].raises);
        hide Consistent;
      }
    }
  }

  lemma ReturnedIsStarted<Handler>(p: Publication<Handler>, k: nat)
    requires Consistent(p) && p.returned && k < |p.handlers|
    ensures k < p.started
  {
    assert k in p.finished;
  }

  /** The same run with other handlers raising. */
  predicate SameMoves(xs: seq<Move>, ys: seq<Move>) {
    |xs| == |ys| && forall i :: 0 <= i < |xs| ==>
      (xs[i] == ys[i] || (xs[i].Finish? && ys[i].Finish? && xs[i].handler == ys[i].handler))
  }

  /**
    Isolation: which handlers raise makes no difference to which have started or finished, nor to when publish
    returns.
   */
  lemma {:induction false} FailuresAreIsolated<Handler>(handlers: seq<Handler>, xs: seq<Move>, ys: seq<Move>)
    requires SameMoves(xs, ys)
    ensures var p, q := Fanned(handlers, xs), Fanned(handlers, ys);
      && p.handlers == q.handlers && p.started == q.started
      && p.finished.Keys == q.finished.Keys && p.returned == q.returned
  {
    if |xs| > 0 { FailuresAreIsolated(handlers, xs[..|xs| - 1], ys[..|ys| - 1]); }
  }
}
