/** The in-memory market state of market/snapshot.py. */
module Market {
  import opened Options

  datatype Tick = Tick(symbol: string, price: real, volume: real, timestamp: int)

  datatype Candle = Candle(symbol: string, interval: string, open: real, high: real, low: real, close: real,
                           volume: real, timestamp: int)

  /** The slice `s[-limit:]`: the last `limit` items, all of them for 0, and for a negative limit all but the first. */
  function LastN<T>(s: seq<T>, limit: int): seq<T> {
    if limit > 0 then (if |s| <= limit then s else s[|s| - limit..])
    else if -limit <= |s| then s[-limit..]
    else []
  }

  /** The candles of one symbol, in arrival order. */
  function History(candles: seq<Candle>, symbol: string): seq<Candle> {
    if |candles| == 0 then []
    else
      var n := |candles| - 1;
      History(candles[..n], symbol) + if candles[n].symbol == symbol then [candles[n]] else []
  }

  lemma HistoryAppend(candles: seq<Candle>, c: Candle, symbol: string)
    ensures History(candles + [c], symbol) == History(candles, symbol) + if c.symbol == symbol then [c] else []
  {
    assert (candles + [c])[..|candles|] == candles;
  }

  /** The last tick received for the symbol. */
  function LatestTick(received: seq<Tick>, symbol: string): Option<Tick> {
    if |received| == 0 then None
    else
      var n := |received| - 1;
      if received[n].symbol == symbol then Some(received[n]) else LatestTick(received[..n], symbol)
  }

  ghost predicate IsLastFor(received: seq<Tick>, symbol: string, i: int) {
    && 0 <= i < |received| && received[i].symbol == symbol
    && forall j :: i < j < |received| ==> received[j].symbol != symbol
  }

  /** ... which is one of its ticks with none of them after it, or none was received. */
  lemma {:induction false} LatestTickIsLast(received: seq<Tick>, symbol: string)
    ensures match LatestTick(received, symbol)
      case None => forall i :: 0 <= i < |received| ==> received[i].symbol != symbol
      case Some(t) => exists i :: IsLastFor(received, symbol, i) && received[i] == t
  {
    if |received| > 0 {
      var n := |received| - 1;
      var earlier := received[..n];
      if received[n].symbol == symbol {
        assert IsLastFor(received, symbol, n);
      } else {
        LatestTickIsLast(earlier, symbol);
        if LatestTick(earlier, symbol).Some? {
          var i :| IsLastFor(earlier, symbol, i) && earlier[i] == LatestTick(earlier, symbol).value;
          LastForLonger(earlier, received[n], symbol, i);
          assert received == earlier + [received[n]];
        } else {
          forall i | 0 <= i < |received| ensures received[i].symbol != symbol {
            if i < n { assert earlier[i].symbol != symbol; }
          }
        }
      }
    }
  }

  lemma LastForLonger(received: seq<Tick>, t: Tick, symbol: string, i: int)
    requires IsLastFor(received, symbol, i) && t.symbol != symbol
    ensures IsLastFor(received + [t], symbol, i)
  {
  }

  class MarketSnapshot {
    var ticks: map<string, Tick>
    var candles: map<string, seq<Candle>>

    constructor ()
      ensures HoldsTicks([]) && Holds([])
      ensures ticks == map[] && candles == map[]
    {
      ticks, candles := map[], map[];
    }

    function Log(symbol: string): seq<Candle>
      reads this
    {
      if symbol in candles then candles[symbol] else []
    }

    function Quote(symbol: string): Option<Tick>
      reads this
    {
      if symbol in ticks then Some(ticks[symbol]) else None
    }

    /** The ticks kept are the latest of those received. */
    ghost predicate HoldsTicks(received: seq<Tick>)
      reads this
    {
      forall symbol :: Quote(symbol) == LatestTick(received, symbol)
    }

    /** Every log holds exactly the candles of its symbol among those received. */
    ghost predicate Holds(received: seq<Candle>)
      reads this
    {
      forall symbol :: Log(symbol) == History(received, symbol)
    }

    method UpdateTick(tick: Tick, ghost received: seq<Tick>)
      requires HoldsTicks(received)
      modifies this`ticks
      ensures HoldsTicks(received + [tick])
    {
      ticks := ticks[tick.symbol := tick];
      forall symbol ensures Quote(symbol) == LatestTick(received + [tick], symbol) {
        assert old(Quote(symbol)) == LatestTick(received, symbol);
        assert (received + [tick])[..|received|] == received;
      }
    }

    method UpdateCandle(candle: Candle, ghost received: seq<Candle>)
      requires Holds(received)
      modifies this`candles
      ensures candles == old(candles)[candle.symbol := old(Log(candle.symbol)) + [candle]]
      ensures Holds(received + [candle])
    {
      var log := if candle.symbol in candles then candles[candle.symbol] else [];
      candles := candles[candle.symbol := log + [candle]];
      forall symbol ensures Log(symbol) == History(received + [candle], symbol) {
        assert old(Log(symbol)) == History(received, symbol);
        HistoryAppend(received, candle, symbol);
      }
    }

    method GetCandles(symbol: string, limit: int) returns (window: seq<Candle>)
      ensures window == LastN(Log(symbol), limit)
    {
      window := LastN(if symbol in candles then candles[symbol] else [], limit);
    }

    method GetTick(symbol: string, ghost received: seq<Tick>) returns (tick: Option<Tick>)
      requires HoldsTicks(received)
      ensures tick == LatestTick(received, symbol)
    {
      tick := Quote(symbol);
    }

    method GetPrice(symbol: string, ghost received: seq<Tick>) returns (price: Option<real>)
      requires HoldsTicks(received)
      ensures price == match LatestTick(received, symbol) case None => None case Some(t) => Some(t.price)
    {
      var tick := Quote(symbol);
      price := if tick.Some? then Some(tick.value.price) else None;
    }
  }
}
