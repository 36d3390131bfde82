/** Stop-loss and take-profit monitoring (execution/stop_loss.py). */
module StopLoss {
  import opened Options
  import opened Ledger
  import opened Positions

  datatype StopConfig = StopConfig(stopLossPct: real, takeProfitPct: real)

  /** One price event together with the position the monitor read when it handled it. */
  datatype Tick = Tick(symbol: string, price: Option<real>, position: Position)

  predicate WellFormed(t: Tick) {
    t.symbol != "" && t.price.Some?
  }

  /** The event shows the symbol without an open position. */
  predicate SeesClosed(t: Tick, symbol: string) {
    WellFormed(t) && t.symbol == symbol && !t.position.IsOpen()
  }

  /** The unrealised return is at or beyond one of the two thresholds; a zero cost has no return. */
  predicate Crosses(cfg: StopConfig, t: Tick)
    requires WellFormed(t)
  {
    var cost := Value(t.position.quantity, t.position.avgPrice);
    cost != 0.0 &&
    var pct := t.position.UnrealizedPnl(t.price.value) / cost;
    pct <= -cfg.stopLossPct || pct >= cfg.takeProfitPct
  }

  /** What one event does to the triggered set, and whether a sell goes out. */
  function OnTick(cfg: StopConfig, triggered: set<string>, t: Tick): (set<string>, bool) {
    if !WellFormed(t) then (triggered, false)
    else if !t.position.IsOpen() then (triggered - {t.symbol}, false)
    else if t.symbol in triggered || !Crosses(cfg, t) then (triggered, false)
    else (triggered + {t.symbol}, true)
  }

  /**
    The price is at or beyond a threshold of a position bought at this average price; a negative one turns them
    round.
   */
  predicate AtThreshold(cfg: StopConfig, average: real, price: real) {
    if average > 0.0
    then price <= average * (1.0 - cfg.stopLossPct) || price >= average * (1.0 + cfg.takeProfitPct)
    else average < 0.0
         && (price >= average * (1.0 - cfg.stopLossPct) || price <= average * (1.0 + cfg.takeProfitPct))
  }

  lemma ProductZero(x: real, y: real)
    ensures x * y == 0.0 <==> x == 0.0 || y == 0.0
  {
    if x != 0.0 && x * y == 0.0 { assert y == x * y / x; }
  }

  lemma Fraction(q: real, a: real, p: real)
    requires q > 0.0 && a != 0.0
    ensures q * a != 0.0 && (q * (p - a)) / (q * a) * a == p - a
  {
    var cost := q * a;
    ProductZero(q, a);
    var pct := (q * (p - a)) / cost;
    assert pct * cost == q * (p - a);
    assert q * (pct * a) == q * (p - a);
    Cancelled(q, pct * a, p - a);
  }

  lemma Cancelled(q: real, x: real, y: real)
    requires q > 0.0 && q * x == q * y
    ensures x == y
  {
    assert x == q * x / q && y == q * y / q;
  }

  lemma Against(pct: real, a: real, rest: real, level: real)
    requires pct * a == rest
    ensures a > 0.0 ==> (pct <= level <==> rest <= level * a)
    ensures a < 0.0 ==> (pct <= level <==> rest >= level * a)
    ensures a > 0.0 ==> (pct >= level <==> rest >= level * a)
    ensures a < 0.0 ==> (pct >= level <==> rest <= level * a)
  {
    assert (pct - level) * a == rest - level * a;
    if pct > level && a > 0.0 { assert (pct - level) * a > 0.0; }
    if pct < level && a > 0.0 { assert (level - pct) * a > 0.0; }
    if pct > level && a < 0.0 { assert (pct - level) * -a > 0.0; }
    if pct < level && a < 0.0 { assert (level - pct) * -a > 0.0; }
  }

  /** For an open position the test on the return is one on the price. */
  lemma CrossesAtThreshold(cfg: StopConfig, t: Tick)
    requires WellFormed(t) && t.position.IsOpen()
    ensures Crosses(cfg, t) <==> AtThreshold(cfg, t.position.avgPrice, t.price.value)
  {
    var q, a, p := t.position.quantity, t.position.avgPrice, t.price.value;
    if a != 0.0 {
      Fraction(q, a, p);
      var pct := (q * (p - a)) / (q * a);
      assert t.position.UnrealizedPnl(p) == q * (p - a) && Value(q, a) == q * a;
      Against(pct, a, p - a, -cfg.stopLossPct);
      Against(pct, a, p - a, cfg.takeProfitPct);
      Expand(a, cfg.stopLossPct, cfg.takeProfitPct);
      hide Value;
    } else {
      assert Value(q, a) == 0.0;
    }
  }

  lemma Expand(a: real, x: real, y: real)
    ensures a * (1.0 - x) == a + -x * a && a * (1.0 + y) == a + y * a
  {
  }

  class StopLossMonitor {
    const cfg: StopConfig
    var triggered: set<string>

    constructor (cfg: StopConfig)
      ensures this.cfg == cfg && triggered == {}
    {
      this.cfg, triggered := cfg, {};
    }

    /** Up to the publication of the sell, which is the first point where the handler can be suspended. */
    method OnPriceUpdated(symbol: string, price: Option<real>, positions: PositionManager) returns (sell: bool)
      modifies this
      ensures (triggered, sell) == OnTick(cfg, old(triggered), Tick(symbol, price, positions.GetPosition(symbol)))
      ensures sell <==>
        && symbol != "" && price.Some? && symbol !in old(triggered) && positions.GetPosition(symbol).quantity > 0.0
        && AtThreshold(cfg, positions.GetPosition(symbol).avgPrice, price.value)
      ensures sell ==> triggered == old(triggered) + {symbol}
    {
      ghost var tick := Tick(symbol, price, positions.GetPosition(symbol));
      if WellFormed(tick) && tick.position.IsOpen() { CrossesAtThreshold(cfg, tick); }
      hide AtThreshold;
      hide Value;
      sell := false;
      if symbol == "" || price == None {
        return;
      }
      var position := positions.GetPosition(symbol);
      if !position.IsOpen() {
        triggered := triggered - {symbol};
        return;
      }
      if symbol in triggered {
        return;
      }
      var pnl := position.UnrealizedPnl(price.value);
      var cost := Value(position.quantity, position.avgPrice);
      if cost == 0.0 {
        return;
      }
      var pct := pnl / cost;
      if pct <= -cfg.stopLossPct {
        triggered, sell := triggered + {symbol}, true;
      } else if pct >= cfg.takeProfitPct {
        triggered, sell := triggered + {symbol}, true;
      }
    }
  }

  // ---- whole tick sequences, positions changing in any way between them ----

  /** The triggered set after the ticks, and at which of them a sell went out. */
  function Watch(cfg: StopConfig, ticks: seq<Tick>): (w: (set<string>, seq<bool>))
    ensures |w.1| == |ticks|
  {
    if |ticks| == 0 then ({}, [])
    else
      var (triggered, sold) := Watch(cfg, ticks[..|ticks| - 1]);
      var (next, sell) := OnTick(cfg, triggered, ticks[|ticks| - 1]);
      (next, sold + [sell])
  }

  predicate SellsAt(cfg: StopConfig, ticks: seq<Tick>, i: nat)
    requires i < |ticks|
  {
    Watch(cfg, ticks).1[i]
  }

  /** A sell for the symbol went out and no later tick has seen it closed. */
  ghost predicate Pending(cfg: StopConfig, ticks: seq<Tick>, symbol: string) {
    exists i :: 0 <= i < |ticks| && SellsAt(cfg, ticks, i) && ticks[i].symbol == symbol
      && forall j :: i < j < |ticks| ==> !SeesClosed(ticks[j], symbol)
  }

  lemma {:induction false} SellsAtPrefix(cfg: StopConfig, ticks: seq<Tick>, n: nat, i: nat)
    requires i < n <= |ticks|
    ensures SellsAt(cfg, ticks, i) == SellsAt(cfg, ticks[..n], i)
    decreases |ticks|
  {
    hide OnTick;
    if n < |ticks| {
      var m := |ticks| - 1;
      SellsAtPrefix(cfg, ticks[..m], n, i);
      assert ticks[..m][..n] == ticks[..n];
    } else {
      assert ticks[..n] == ticks;
    }
  }

  lemma SellsAtIs(cfg: StopConfig, ticks: seq<Tick>, i: nat)
    requires i < |ticks|
    ensures SellsAt(cfg, ticks, i) == OnTick(cfg, Watch(cfg, ticks[..i]).0, ticks[i]).1
  {
    hide OnTick;
    SellsAtPrefix(cfg, ticks, i + 1, i);
    assert ticks[..i + 1][..i] == ticks[..i];
  }

  lemma PendingStep(cfg: StopConfig, ticks: seq<Tick>, symbol: string)
    requires |ticks| > 0
    ensures var n := |ticks| - 1;
      Pending(cfg, ticks, symbol)
      <==> (SellsAt(cfg, ticks, n) && ticks[n].symbol == symbol)
           || (Pending(cfg, ticks[..n], symbol) && !SeesClosed(ticks[n], symbol))
  {
    var n := |ticks| - 1;
    hide Watch;
    hide SellsAt;
    hide SeesClosed;
    forall i | 0 <= i < n ensures SellsAt(cfg, ticks, i) == SellsAt(cfg, ticks[..n], i) {
      SellsAtPrefix(cfg, ticks, n, i);
    }
    if Pending(cfg, ticks[..n], symbol) && !SeesClosed(ticks[n], symbol) {
      var i :| 0 <= i < n && SellsAt(cfg, ticks[..n], i) && ticks[..n][i].symbol == symbol
        && forall j :: i < j < n ==> !SeesClosed(ticks[..n][j], symbol);
      forall j | i < j < |ticks| ensures !SeesClosed(ticks[j], symbol) {
        if j < n { assert ticks[..n][j] == ticks[j]; }
      }
      assert SellsAt(cfg, ticks, i);
    }
    if Pending(cfg, ticks, symbol) && !(SellsAt(cfg, ticks, n) && ticks[n].symbol == symbol) {
      var i :| 0 <= i < |ticks| && SellsAt(cfg, ticks, i) && ticks[i].symbol == symbol
        && forall j :: i < j < |ticks| ==> !SeesClosed(ticks[j], symbol);
      assert SellsAt(cfg, ticks[..n], i) && ticks[..n][i].symbol == symbol;
      forall j | i < j < n ensures !SeesClosed(ticks[..n][j], symbol) {
        assert ticks[..n][j] == ticks[j];
      }
    }
  }

  /** The triggered set is exactly the symbols with a sell out and no closed observation since. */
  lemma {:induction false} TriggeredIsPending(cfg: StopConfig, ticks: seq<Tick>, symbol: string)
    ensures symbol in Watch(cfg, ticks).0 <==> Pending(cfg, ticks, symbol)
  {
    hide Crosses;
    if |ticks| > 0 {
      var n := |ticks| - 1;
      TriggeredIsPending(cfg, ticks[..n], symbol);
      PendingStep(cfg, ticks, symbol);
      hide Pending;
    }
  }

  /**
    A sell goes out exactly at a tick that shows an open position across a threshold while no earlier sell for
    the symbol is pending.
   */
  lemma SellsExactlyWhen(cfg: StopConfig, ticks: seq<Tick>, i: nat)
    requires i < |ticks|
    ensures var t := ticks[i];
      SellsAt(cfg, ticks, i)
      <==> WellFormed(t) && t.position.IsOpen() && Crosses(cfg, t) && !Pending(cfg, ticks[..i], t.symbol)
  {
    hide Crosses;
    hide SellsAt;
    SellsAtIs(cfg, ticks, i);
    TriggeredIsPending(cfg, ticks[..i], ticks[i].symbol);
    hide Pending;
    hide Watch;
  }

  /** Between two sells for one symbol some tick saw it closed. */
  lemma ClosedBetweenSells(cfg: StopConfig, ticks: seq<Tick>, i: nat, j: nat)
    requires i < j < |ticks| && SellsAt(cfg, ticks, i) && SellsAt(cfg, ticks, j) && ticks[i].symbol == ticks[j].symbol
    ensures exists k :: i < k < j && SeesClosed(ticks[k], ticks[i].symbol)
  {
    hide Crosses;
    hide SeesClosed;
    var symbol := ticks[i].symbol;
    SellsExactlyWhen(cfg, ticks, j);
    SellsAtPrefix(cfg, ticks, j, i);
    hide SellsAt;
    var earlier := ticks[..j];
    assert earlier[i].symbol == symbol;
    var k :| i < k < |earlier| && SeesClosed(earlier[k], symbol);
    assert SeesClosed(ticks[k], symbol);
  }
}
