/** Largest peak-to-trough fall of an equity history (SimulatedPortfolio.max_drawdown). */
module Drawdown {

  function Max(x: real, y: real): real { if x < y then y else x }

  function Fall(peak: real, equity: real): real
    requires peak != 0.0
  {
    (peak - equity) / peak
  }

  /** The one-pass computation: the running peak and the worst fall below it so far. */
  function Scan(history: seq<real>): (r: (real, real))
    requires |history| > 0
    ensures forall i :: 0 <= i < |history| ==> history[i] <= r.0
    ensures exists i :: 0 <= i < |history| && history[i] == r.0
    ensures r.1 >= 0.0
  {
    var n := |history| - 1;
    var equity := history[n];
    var (peak0, worst) := if n == 0 then (equity, 0.0) else Scan(history[..n]);
    var peak := Max(peak0, equity);
    assert n > 0 ==> history[..n][0] == history[0];
    (peak, if peak > 0.0 then Max(worst, Fall(peak, equity)) else worst)
  }

  function MaxDrawdown(history: seq<real>): real {
    if |history| < 2 then 0.0 else Scan(history).1
  }

  /**
    The quadratic definition: no fall from a positive equity to a later one exceeds dd, and dd is such a fall or
    zero.
   */
  ghost predicate IsLargestFall(history: seq<real>, dd: real) {
    && (forall i, j :: 0 <= i <= j < |history| && history[i] > 0.0 ==> Fall(history[i], history[j]) <= dd)
    && (dd == 0.0 || exists i, j :: 0 <= i <= j < |history| && history[i] > 0.0 && Fall(history[i], history[j]) == dd)
  }

  /** What is left of a peak after the fall: (1 - fall) * peak == equity. */
  lemma Remainder(peak: real, equity: real)
    requires peak > 0.0
    ensures (1.0 - Fall(peak, equity)) * peak == equity
  {
    assert Fall(peak, equity) * peak == peak - equity;
  }

  lemma RemainderOrder(x: real, low: real, y: real, high: real)
    requires 0.0 < low <= high && x * low == y * high && y * high >= 0.0
    ensures x >= y >= 0.0
  {
    assert y >= 0.0;
    assert y * low <= y * high;
    assert (x - y) * low >= 0.0;
  }

  /** A higher peak makes a fall to a non-negative equity no smaller. */
  lemma FallFromHigher(low: real, high: real, equity: real)
    requires 0.0 < low <= high && equity >= 0.0
    ensures Fall(low, equity) <= Fall(high, equity) <= 1.0
  {
    Remainder(low, equity);
    Remainder(high, equity);
    hide Fall;
    RemainderOrder(1.0 - Fall(low, equity), low, 1.0 - Fall(high, equity), high);
  }

  /** Equity is never negative once it has been positive; a history of non-negative equities is one such. */
  ghost predicate Solvent(history: seq<real>) {
    forall i, j :: 0 <= i <= j < |history| && history[i] > 0.0 ==> history[j] >= 0.0
  }

  /** One more equity, below a peak that bounds all: the worst fall is the old one or the fall from the peak. */
  lemma WorstOneMore(earlier: seq<real>, equity: real, peak: real, before: real, dd: real)
    requires Solvent(earlier + [equity]) && 0.0 <= before <= 1.0 && IsLargestFall(earlier, before)
    requires forall i :: 0 <= i < |earlier + [equity]| ==> (earlier + [equity])[i] <= peak
    requires exists i :: 0 <= i < |earlier + [equity]| && (earlier + [equity])[i] == peak
    requires dd == if peak > 0.0 then Max(before, Fall(peak, equity)) else before
    ensures 0.0 <= dd <= 1.0 && IsLargestFall(earlier + [equity], dd)
  {
    hide Fall;
    var all, n := earlier + [equity], |earlier|;
    var top :| 0 <= top < |all| && all[top] == peak;
    if peak > 0.0 {
      assert all[n] >= 0.0;
      FallFromHigher(peak, peak, equity);
    }
    forall i, j | 0 <= i <= j < |all| && all[i] > 0.0 ensures Fall(all[i], all[j]) <= dd {
      if j == n { FallFromHigher(all[i], peak, equity); } else { assert Fall(earlier[i], earlier[j]) <= before; }
    }
    if dd != 0.0 {
      if peak > 0.0 && dd == Fall(peak, equity) {
        assert Fall(all[top], all[n]) == dd;
      } else {
        var i, j :| 0 <= i <= j < |earlier| && earlier[i] > 0.0 && Fall(earlier[i], earlier[j]) == before;
        assert Fall(all[i], all[j]) == dd;
      }
    }
  }

  lemma {:induction false} ScanIsLargestFall(history: seq<real>)
    requires |history| > 0 && Solvent(history)
    ensures 0.0 <= Scan(history).1 <= 1.0
    ensures IsLargestFall(history, Scan(history).1)
  {
    var n := |history| - 1;
    var earlier := history[..n];
    assert history == earlier + [history[n]];
    if n > 0 { ScanIsLargestFall(earlier); }
    var before := if n == 0 then 0.0 else Scan(earlier).1;
    var (peak, dd) := Scan(history);
    assert IsLargestFall(earlier, before);
    hide IsLargestFall;
    hide Fall;
    WorstOneMore(earlier, history[n], peak, before, dd);
  }

  lemma MoreThanAll(peak: real, equity: real)
    requires peak > 0.0 > equity
    ensures Fall(peak, equity) > 1.0
  {
    assert Fall(peak, equity) * peak == peak - equity;
  }

  lemma {:induction false} InsolventFallsBelowAll(history: seq<real>, i: int, j: int)
    requires 0 <= i <= j < |history| && history[i] > 0.0 > history[j]
    ensures Scan(history).1 > 1.0
  {
    hide Fall;
    var n := |history| - 1;
    if j < n {
      InsolventFallsBelowAll(history[..n], i, j);
    } else {
      MoreThanAll(Scan(history).0, history[n]);
    }
  }

  /**
    One pass finds the largest fall, a number from 0 to 1, while equity stays non-negative once positive; and
    it is more than 1 exactly when it does not.
   */
  lemma MaxDrawdownIsLargestFall(history: seq<real>)
    ensures Solvent(history) ==> IsLargestFall(history, MaxDrawdown(history))
    ensures 0.0 <= MaxDrawdown(history)
    ensures MaxDrawdown(history) <= 1.0 <==> Solvent(history)
  {
    if Solvent(history) {
      if |history| > 0 { ScanIsLargestFall(history); }
    } else {
      var i, j :| 0 <= i <= j < |history| && history[i] > 0.0 && history[j] < 0.0;
      InsolventFallsBelowAll(history, i, j);
    }
    hide IsLargestFall;
  }

  /** Recording one more equity never lowers it. */
  lemma DrawdownNeverFalls(history: seq<real>, equity: real)
    ensures MaxDrawdown(history) <= MaxDrawdown(history + [equity])
  {
    assert (history + [equity])[..|history|] == history;
  }
}
