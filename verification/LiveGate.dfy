/** The cooldown gate under every interleaving of any number of on_signal coroutines. */
module LiveGate {
  import opened StopLoss
  import opened Signals
  import opened Orders
  import opened Live

  /** When one symbol passed the gate, in order. */
  function PassTimes(passes: seq<Pass>, symbol: string): seq<real> {
    if |passes| == 0 then []
    else
      var n := |passes| - 1;
      PassTimes(passes[..n], symbol) + if passes[n].signal.symbol == symbol then [passes[n].time] else []
  }

  ghost predicate Spaced(times: seq<real>, gap: real) {
    forall i :: 0 < i < |times| ==> times[i] - times[i - 1] >= gap
  }

  /** One symbol's gate: its passes are spaced, not in the future, and the last one is what the manager remembers. */
  ghost predicate GateOk(cfg: Setup, s: State, symbol: string) {
    var times := PassTimes(s.gate.passes, symbol);
    && Spaced(times, cfg.orders.cooldownSec)
    && (symbol in s.gate.lastOrder <==> |times| > 0)
    && (|times| > 0 ==> s.gate.lastOrder[symbol] == times[|times| - 1])
    && 0.0 <= s.clock && forall i :: 0 <= i < |times| ==> 0.0 <= times[i] <= s.clock
  }

  ghost predicate SameGate(s: State, t: State) {
    s.gate == t.gate && s.clock <= t.clock
  }

  /** The pass is recorded before the risk check: whatever its verdict, the symbol stays shut for the cooldown. */
  lemma VerdictKeepsTheCooldown(cfg: Setup, s: State, pass: nat, available: real)
    requires pass in s.checking
    ensures SameGate(s, CheckRisk(cfg, s, pass, available))
  {
  }

  /** Only a resumed on_signal touches the gate; the clock only moves forward. */
  lemma OnlySignalsTouchTheGate(cfg: Setup, s: State, a: Action)
    requires !a.SignalSaved?
    ensures SameGate(s, Step(cfg, s, a))
  {
    hide OnTick;
    hide Resume;
    hide NextPiece;
    hide Deliver;
    if a.RiskChecked? && a.pass in s.checking { VerdictKeepsTheCooldown(cfg, s, a.pass, a.available); }
    hide CheckRisk;
  }

  lemma OneMoreTime(passes: seq<Pass>, p: Pass, symbol: string)
    ensures PassTimes(passes + [p], symbol)
         == PassTimes(passes, symbol) + if p.signal.symbol == symbol then [p.time] else []
  {
    assert (passes + [p])[..|passes|] == passes;
  }

  lemma SpacedOneMore(times: seq<real>, now: real, gap: real)
    requires Spaced(times, gap) && (|times| > 0 ==> now - times[|times| - 1] >= gap)
    ensures Spaced(times + [now], gap)
  {
  }

  lemma RecordKeepsGate(cfg: Setup, s: State, symbol: string, signal: Signal)
    requires GateOk(cfg, s, symbol) && GateOpen(cfg.orders, s.gate.lastOrder, signal.symbol, s.clock)
    ensures GateOk(cfg, s.(gate := RecordPass(s.gate, signal, s.clock)), symbol)
  {
    var times := PassTimes(s.gate.passes, symbol);
    OneMoreTime(s.gate.passes, Pass(signal, s.clock), symbol);
    if signal.symbol == symbol {
      SpacedOneMore(times, s.clock, cfg.orders.cooldownSec);
    } else {
      assert times + [] == times;
    }
    hide PassTimes;
    hide Spaced;
  }

  lemma {:induction false} GateHolds(cfg: Setup, actions: seq<Action>, symbol: string)
    ensures GateOk(cfg, Exec(cfg, actions), symbol)
  {
    if |actions| > 0 {
      var n := |actions| - 1;
      GateHolds(cfg, actions[..n], symbol);
      var s, a := Exec(cfg, actions[..n]), actions[n];
      hide RecordPass;
      hide PassTimes;
      hide Asked;
      if a.SignalSaved? {
        if a.task in s.recording && Passes(cfg, s.gate, s.recording[a.task], s.clock) {
          RecordKeepsGate(cfg, s, symbol, s.recording[a.task]);
        }
      } else {
        OnlySignalsTouchTheGate(cfg, s, a);
        hide Step;
      }
    }
  }

  /**
    Exactly when a resumed signal passes: it is no HOLD, and its symbol has not passed yet or did so at least the
    cooldown ago.
   */
  lemma PassesWhen(cfg: Setup, actions: seq<Action>, task: nat)
    requires task in Exec(cfg, actions).recording
    ensures var s := Exec(cfg, actions);
      var signal := s.recording[task];
      var times := PassTimes(s.gate.passes, signal.symbol);
      var t := Step(cfg, s, SignalSaved(task));
      if signal.kind != SignalType.HOLD && (|times| == 0 || s.clock - times[|times| - 1] >= cfg.orders.cooldownSec)
      then t.gate.passes == s.gate.passes + [Pass(signal, s.clock)]
      else t.gate.passes == s.gate.passes
  {
    GateHolds(cfg, actions, Exec(cfg, actions).recording[task].symbol);
    hide Exec;
    hide PassTimes;
    hide Asked;
  }

  /**
    No race: however many coroutines are in flight and however they interleave, two successive passes of one
    symbol are at least the cooldown apart.
   */
  lemma PassesAreSpaced(cfg: Setup, actions: seq<Action>, symbol: string)
    ensures Spaced(PassTimes(Exec(cfg, actions).gate.passes, symbol), cfg.orders.cooldownSec)
  {
    GateHolds(cfg, actions, symbol);
  }

  // ---- how many passes fit in a window ----

  function Gaps(n: int, gap: real): real { n as real * gap }

  lemma OneMoreGap(n: int, gap: real)
    ensures Gaps(n + 1, gap) == Gaps(n, gap) + gap
  {
  }

  lemma NoGap(gap: real)
    ensures Gaps(0, gap) == 0.0
  {
  }

  function CountWithin(times: seq<real>, from: real, to: real): nat {
    if |times| == 0 then 0
    else CountWithin(times[..|times| - 1], from, to) + if from <= times[|times| - 1] <= to then 1 else 0
  }

  lemma {:induction false} SpacedCount(times: seq<real>, gap: real, from: real, to: real)
    requires Spaced(times, gap) && gap >= 0.0
    ensures var k := CountWithin(times, from, to);
      k > 0 ==> |times| > 0 && from + Gaps(k - 1, gap) <= times[|times| - 1] && from + Gaps(k - 1, gap) <= to
  {
    hide Gaps;
    if |times| > 0 {
      var n := |times| - 1;
      assert Spaced(times[..n], gap);
      SpacedCount(times[..n], gap, from, to);
      var k := CountWithin(times[..n], from, to);
      NoGap(gap);
      if k > 0 { OneMoreGap(k - 1, gap); }
    }
  }

  /** A window of length w sees k passes of a symbol only if (k - 1) * cooldown <= w. */
  lemma PassesInWindow(cfg: Setup, actions: seq<Action>, symbol: string, from: real, w: real)
    requires cfg.orders.cooldownSec >= 0.0
    ensures var k := CountWithin(PassTimes(Exec(cfg, actions).gate.passes, symbol), from, from + w);
      k > 0 ==> (k - 1) as real * cfg.orders.cooldownSec <= w
  {
    PassesAreSpaced(cfg, actions, symbol);
    SpacedCount(PassTimes(Exec(cfg, actions).gate.passes, symbol), cfg.orders.cooldownSec, from, from + w);
  }
}
