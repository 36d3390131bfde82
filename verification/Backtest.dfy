/** A backtest: candles in time order, one strategy, one paper portfolio (BacktestRunner.run). */
module Backtest {
  import opened Options
  import opened Signals
  import opened Market
  import opened Indicators
  import opened FeatureBuilding
  import opened Strategies
  import opened Ledger
  import opened Portfolio

  // ---- time order ----

  /** Into a sorted list, after every candle that is not later. */
  function Insert(c: Candle, sorted: seq<Candle>): (r: seq<Candle>)
    ensures |r| == |sorted| + 1
  {
    if |sorted| == 0 then [c]
    else
      var n := |sorted| - 1;
      if sorted[n].timestamp <= c.timestamp then sorted + [c] else Insert(c, sorted[..n]) + [sorted[n]]
  }

  /** The stable sort by timestamp. */
  function SortByTime(candles: seq<Candle>): (r: seq<Candle>)
    ensures |r| == |candles|
  {
    if |candles| == 0 then [] else Insert(candles[|candles| - 1], SortByTime(candles[..|candles| - 1]))
  }

  // ---- what the strategy says at each candle ----

  /** The closes the strategy sees after these candles. */
  function Visible(r: Rules, symbol: string, candles: seq<Candle>): seq<real> {
    Closes(LastN(History(candles, symbol), Limit(BuilderFor(r))))
  }

  /** One evaluation on the visible closes; nothing happens while there are too few. */
  function React(r: Rules, root: Root, symbol: string, memory: Memory, closes: seq<real>)
    : (Memory, Option<SignalType>)
  {
    match FeaturesOf(BuilderFor(r), symbol, closes)
    case None => (memory, None)
    case Some(f) => Evaluate(r, root, memory, f)
  }

  /** The memory after the candles and the signal at each of them. */
  function Process(r: Rules, root: Root, symbol: string, memory: Memory, candles: seq<Candle>)
    : (p: (Memory, seq<Option<SignalType>>))
    ensures |p.1| == |candles|
  {
    if |candles| == 0 then (memory, [])
    else
      var (before, signals) := Process(r, root, symbol, memory, candles[..|candles| - 1]);
      var (after, signal) := React(r, root, symbol, before, Visible(r, symbol, candles));
      (after, signals + [signal])
  }

  function BarsOf(candles: seq<Candle>, signals: seq<Option<SignalType>>): (bars: seq<Bar>)
    requires |signals| == |candles|
    ensures |bars| == |candles|
  {
    seq(|candles|, i requires 0 <= i < |candles| => Bar(candles[i].close, candles[i].timestamp, signals[i]))
  }

  /** The bars of a run that starts from this strategy memory. */
  function Replay(r: Rules, root: Root, symbol: string, memory: Memory, candles: seq<Candle>): (bars: seq<Bar>)
    ensures |bars| == |candles|
  {
    BarsOf(candles, Process(r, root, symbol, memory, candles).1)
  }

  datatype BacktestResult = BacktestResult(symbol: string, periodStart: int, periodEnd: int,
                                           initialBalance: real, finalBalance: real, trades: seq<Trade>)

  /** The result of a run over candles already in time order. */
  function ResultOf(cfg: Config, r: Rules, root: Root, symbol: string, memory: Memory, initial: real,
                    candles: seq<Candle>)
    : BacktestResult
    requires |candles| > 0
  {
    var book := RunLedger(cfg, symbol, initial, Replay(r, root, symbol, memory, candles));
    BacktestResult(symbol, candles[0].timestamp, candles[|candles| - 1].timestamp, initial, book.account.balance,
                   book.trades)
  }

  lemma InsertKeeps(c: Candle, sorted: seq<Candle>)
    ensures multiset(Insert(c, sorted)) == multiset(sorted) + multiset{c}
  {
    if |sorted| > 0 {
      var n := |sorted| - 1;
      assert sorted == sorted[..n] + [sorted[n]];
      if sorted[n].timestamp > c.timestamp { InsertKeeps(c, sorted[..n]); }
    }
  }

  lemma {:induction false} SortKeeps(candles: seq<Candle>)
    ensures multiset(SortByTime(candles)) == multiset(candles)
  {
    if |candles| > 0 {
      var n := |candles| - 1;
      assert candles == candles[..n] + [candles[n]];
      SortKeeps(candles[..n]);
      InsertKeeps(candles[n], SortByTime(candles[..n]));
    }
  }

  // ---- the runner object ----

  datatype AnyStrategy =
    | UseMa(ma: MACrossoverStrategy)
    | UseRsi(rsi: RsiStrategy)
    | UseBollinger(bollinger: BollingerStrategy)
    | UseMacd(macd: MacdStrategy)
  {
    function Object(): object {
      match this
      case UseMa(s) => s
      case UseRsi(s) => s
      case UseBollinger(s) => s
      case UseMacd(s) => s
    }

    function CurrentRules(): Rules
      reads Object()
    {
      match this
      case UseMa(s) => s.rules
      case UseRsi(s) => s.rules
      case UseBollinger(s) => s.rules
      case UseMacd(s) => s.rules
    }

    function CurrentMemory(): Memory
      reads Object()
    {
      match this
      case UseMa(s) => s.prevCross
      case UseRsi(s) => s.prevZone
      case UseBollinger(s) => s.prevZone
      case UseMacd(s) => s.prevPosition
    }

    ghost predicate Valid(root: Root)
      reads Object()
    {
      match this
      case UseMa(s) => s.rules.MaRules?
      case UseRsi(s) => s.rules.RsiRules?
      case UseBollinger(s) => s.rules.BollingerRules? && s.root == root
      case UseMacd(s) => s.rules.MacdRules?
    }

    method EvaluateFeatures(f: Features, ghost root: Root) returns (signal: Option<SignalType>)
      requires Valid(root)
      modifies Object()
      ensures Valid(root) && CurrentRules() == old(CurrentRules())
      ensures (CurrentMemory(), signal) == Evaluate(CurrentRules(), root, old(CurrentMemory()), f)
    {
      match this
      case UseMa(s) => signal := s.EvaluateFeatures(f, root);
      case UseRsi(s) => signal := s.EvaluateFeatures(f, root);
      case UseBollinger(s) => signal := s.EvaluateFeatures(f);
      case UseMacd(s) => signal := s.EvaluateFeatures(f, root);
    }
  }

  /** A strategy as its constructor leaves it: no memory of any symbol. */
  method NewStrategy(rules: Rules, root: Root) returns (strategy: AnyStrategy)
    ensures fresh(strategy.Object()) && strategy.Valid(root)
    ensures strategy.CurrentRules() == rules && strategy.CurrentMemory() == map[]
  {
    match rules
    case MaRules(_, _, _) => var s := new MACrossoverStrategy(rules); strategy := UseMa(s);
    case RsiRules(_, _, _) => var s := new RsiStrategy(rules); strategy := UseRsi(s);
    case BollingerRules(_, _) => var s := new BollingerStrategy(rules, root); strategy := UseBollinger(s);
    case MacdRules(_) => var s := new MacdStrategy(rules); strategy := UseMacd(s);
  }

  lemma ProcessStep(r: Rules, root: Root, symbol: string, memory: Memory, candles: seq<Candle>, i: nat)
    requires i < |candles|
    ensures var before := Process(r, root, symbol, memory, candles[..i]);
      var after := Process(r, root, symbol, memory, candles[..i + 1]);
      var now := React(r, root, symbol, before.0, Visible(r, symbol, candles[..i + 1]));
      after == (now.0, before.1 + [now.1])
  {
    assert candles[..i + 1][..i] == candles[..i];
  }

  lemma ReplayStep(r: Rules, root: Root, symbol: string, memory: Memory, candles: seq<Candle>, i: nat)
    requires i < |candles|
    ensures var now := React(r, root, symbol, Process(r, root, symbol, memory, candles[..i]).0,
                             Visible(r, symbol, candles[..i + 1]));
      Replay(r, root, symbol, memory, candles[..i + 1])
      == Replay(r, root, symbol, memory, candles[..i]) + [Bar(candles[i].close, candles[i].timestamp, now.1)]
  {
    hide React;
    hide Visible;
    ProcessStep(r, root, symbol, memory, candles, i);
    hide Process;
  }

  /** What one more candle adds to the book, and when it raises. */
  lemma OneMoreBar(cfg: Config, symbol: string, initial: real, bars: seq<Bar>, bar: Bar)
    ensures Play(cfg, symbol, initial, bars + [bar]) == StepBook(cfg, symbol, Play(cfg, symbol, initial, bars), bar)
    ensures RunRaises(cfg, symbol, initial, bars + [bar])
       <==> RunRaises(cfg, symbol, initial, bars) || BarRaises(cfg, Play(cfg, symbol, initial, bars).account, bar)
    ensures Reached(cfg, symbol, initial, bars + [bar])
         == if RunRaises(cfg, symbol, initial, bars) then Reached(cfg, symbol, initial, bars) else |bars| + 1
  {
    assert (bars + [bar])[..|bars|] == bars;
  }

  /** A run that has raised takes up no further candle. */
  lemma {:induction false} RaisedForGood(cfg: Config, r: Rules, root: Root, symbol: string, memory: Memory,
                                         initial: real, candles: seq<Candle>, i: nat)
    requires i <= |candles| && RunRaises(cfg, symbol, initial, Replay(r, root, symbol, memory, candles[..i]))
    ensures var bars := Replay(r, root, symbol, memory, candles);
      && RunRaises(cfg, symbol, initial, bars)
      && Reached(cfg, symbol, initial, bars)
         == Reached(cfg, symbol, initial, Replay(r, root, symbol, memory, candles[..i]))
    decreases |candles|
  {
    hide Replay;
    hide RunRaises;
    hide Reached;
    hide Play;
    hide React;
    hide Visible;
    if i < |candles| {
      var n := |candles| - 1;
      assert candles[..n][..i] == candles[..i];
      RaisedForGood(cfg, r, root, symbol, memory, initial, candles[..n], i);
      ReplayStep(r, root, symbol, memory, candles, n);
      assert candles[..n + 1] == candles;
      OneMoreBar(cfg, symbol, initial, Replay(r, root, symbol, memory, candles[..n]),
                 Replay(r, root, symbol, memory, candles)[n]);
    } else {
      assert candles[..i] == candles;
    }
  }

  /** Where a run stands after i of its candles, none of which raised. */
  ghost predicate StandsAt(cfg: Config, r: Rules, root: Root, symbol: string, memory: Memory, initial: real,
                           candles: seq<Candle>, i: nat, now: Memory, book: Book)
    requires i <= |candles|
  {
    var bars := Replay(r, root, symbol, memory, candles[..i]);
    && now == Process(r, root, symbol, memory, candles[..i]).0
    && !RunRaises(cfg, symbol, initial, bars)
    && Reached(cfg, symbol, initial, bars) == i
    && book == Play(cfg, symbol, initial, bars)
  }

  lemma StandsOn(cfg: Config, r: Rules, root: Root, symbol: string, memory: Memory, initial: real,
                 candles: seq<Candle>, i: nat, now: Memory, book: Book, next: Memory, signal: Option<SignalType>)
    requires i < |candles| && StandsAt(cfg, r, root, symbol, memory, initial, candles, i, now, book)
    requires (next, signal) == React(r, root, symbol, now, Visible(r, symbol, candles[..i + 1]))
    ensures var bar := Bar(candles[i].close, candles[i].timestamp, signal);
      var bars := Replay(r, root, symbol, memory, candles);
      if BarRaises(cfg, book.account, bar) then
        && RunRaises(cfg, symbol, initial, bars) && Reached(cfg, symbol, initial, bars) == i + 1
        && next == Process(r, root, symbol, memory, candles[..i + 1]).0
      else
        var (account, trades) := Execute(cfg, symbol, book.account, bar);
        StandsAt(cfg, r, root, symbol, memory, initial, candles, i + 1, next,
                 Book(account, book.trades + trades, book.equity + [Equity(book.account, bar.close)]))
  {
    hide React;
    hide Visible;
    hide BarRaises;
    hide Execute;
    hide Equity;
    var bar := Bar(candles[i].close, candles[i].timestamp, signal);
    ProcessStep(r, root, symbol, memory, candles, i);
    ReplayStep(r, root, symbol, memory, candles, i);
    OneMoreBar(cfg, symbol, initial, Replay(r, root, symbol, memory, candles[..i]), bar);
    hide Replay;
    hide Process;
    hide Play;
    hide RunRaises;
    hide Reached;
    if BarRaises(cfg, book.account, bar) {
      RaisedForGood(cfg, r, root, symbol, memory, initial, candles, i + 1);
    }
  }

  lemma StandsAtStart(cfg: Config, r: Rules, root: Root, symbol: string, memory: Memory, initial: real,
                      candles: seq<Candle>)
    ensures StandsAt(cfg, r, root, symbol, memory, initial, candles, 0, memory, Opening(initial))
  {
    assert Replay(r, root, symbol, memory, candles[..0]) == [];
  }

  lemma StandsAtEnd(cfg: Config, r: Rules, root: Root, symbol: string, memory: Memory, initial: real,
                    candles: seq<Candle>, now: Memory, book: Book)
    requires StandsAt(cfg, r, root, symbol, memory, initial, candles, |candles|, now, book)
    ensures var bars := Replay(r, root, symbol, memory, candles);
      && !RunRaises(cfg, symbol, initial, bars)
      && now == Process(r, root, symbol, memory, candles[..Reached(cfg, symbol, initial, bars)]).0
      && book == Play(cfg, symbol, initial, bars)
  {
    assert candles[..|candles|] == candles;
  }

  class BacktestRunner {
    const strategy: AnyStrategy
    const symbol: string
    const initialBalance: real
    const cfg: Config
    var candles: seq<Candle>

    /** An explicitly empty candle list is an error in the program, raised here. */
    constructor (strategy: AnyStrategy, symbol: string, initialBalance: real, cfg: Config, candles: Option<seq<Candle>>)
      requires candles != Some([])
      ensures this.strategy == strategy && this.symbol == symbol
      ensures this.initialBalance == initialBalance && this.cfg == cfg
      ensures this.candles == if candles == None then [] else SortByTime(candles.value)
    {
      this.strategy, this.symbol, this.initialBalance, this.cfg := strategy, symbol, initialBalance, cfg;
      this.candles := if candles == None then [] else SortByTime(candles.value);
    }

    /** The bars of a run from the present candles and this memory. */
    ghost function Bars(memory: Memory, root: Root): seq<Bar>
      reads this, strategy.Object()
    {
      Replay(strategy.CurrentRules(), root, symbol, memory, candles)
    }

    /**
      The run keeps the strategy's memory as it finds it.  No result stands for an error: there is no candle at
      all, or a purchase raises, and then the strategy has seen the candles up to that one.
     */
    method Run(given: Option<seq<Candle>>, ghost root: Root) returns (result: Option<BacktestResult>)
      requires strategy.Valid(root) && strategy.Object() != this
      modifies this`candles, strategy.Object()
      ensures candles == if given.Some? then SortByTime(given.value) else old(candles)
      ensures strategy.Valid(root) && strategy.CurrentRules() == old(strategy.CurrentRules())
      ensures var bars := Bars(old(strategy.CurrentMemory()), root);
        && result == (if candles == [] || RunRaises(cfg, symbol, initialBalance, bars) then None else
                      Some(ResultOf(cfg, strategy.CurrentRules(), root, symbol, old(strategy.CurrentMemory()),
                                    initialBalance, candles)))
        && strategy.CurrentMemory()
           == Process(strategy.CurrentRules(), root, symbol, old(strategy.CurrentMemory()),
                      candles[..Reached(cfg, symbol, initialBalance, bars)]).0
    {
      if given.Some? {
        candles := SortByTime(given.value);
      }
      if candles == [] {
        return None;
      }
      hide Process;
      hide ResultOf;
      hide Replay;
      result := RunCandles(root);
    }

    /** All candles, then the forced close of what is still held. */
    method RunCandles(ghost root: Root) returns (result: Option<BacktestResult>)
      requires strategy.Valid(root) && strategy.Object() != this
      requires |candles| > 0
      modifies strategy.Object()
      ensures strategy.Valid(root) && strategy.CurrentRules() == old(strategy.CurrentRules())
      ensures var bars := Bars(old(strategy.CurrentMemory()), root);
        && result == (if RunRaises(cfg, symbol, initialBalance, bars) then None else
                      Some(ResultOf(cfg, strategy.CurrentRules(), root, symbol, old(strategy.CurrentMemory()),
                                    initialBalance, candles)))
        && strategy.CurrentMemory()
           == Process(strategy.CurrentRules(), root, symbol, old(strategy.CurrentMemory()),
                      candles[..Reached(cfg, symbol, initialBalance, bars)]).0
    {
      hide Play;
      hide Process;
      hide RunRaises;
      hide Reached;
      hide SellTrade;
      hide Fee;
      hide Value;
      ghost var memory := strategy.CurrentMemory();
      var portfolio, trades, raised := PlayCandles(root);
      if raised {
        return None;
      }
      var last := candles[|candles| - 1];
      ghost var bars := Replay(strategy.CurrentRules(), root, symbol, memory, candles);
      assert bars[|bars| - 1].close == last.close && bars[|bars| - 1].timestamp == last.timestamp;
      var finalSell := portfolio.Sell(symbol, last.close, last.timestamp);
      if finalSell.Some? {
        trades := trades + [finalSell.value.(side := ForceClose)];
      }
      ghost var book := RunLedger(cfg, symbol, initialBalance, bars);
      assert trades == book.trades;
      assert portfolio.balance == book.account.balance;
      result := Some(BacktestResult(symbol, candles[0].timestamp, last.timestamp, initialBalance, portfolio.balance,
                                    trades));
    }

    /** The loop over the candles, left at the first purchase that raises. */
    method PlayCandles(ghost root: Root) returns (portfolio: SimulatedPortfolio, trades: seq<Trade>, raised: bool)
      requires strategy.Valid(root) && strategy.Object() != this
      modifies strategy.Object()
      ensures strategy.Valid(root) && strategy.CurrentRules() == old(strategy.CurrentRules())
      ensures fresh(portfolio) && portfolio.cfg == cfg
      ensures var bars := Bars(old(strategy.CurrentMemory()), root);
        && raised == RunRaises(cfg, symbol, initialBalance, bars)
        && strategy.CurrentMemory()
           == Process(strategy.CurrentRules(), root, symbol, old(strategy.CurrentMemory()),
                      candles[..Reached(cfg, symbol, initialBalance, bars)]).0
        && (!raised ==>
              var book := Play(cfg, symbol, initialBalance, bars);
              portfolio.Slot(symbol) == book.account && trades == book.trades && portfolio.equityHistory == book.equity)
    {
      hide StandsAt;
      hide MarketSnapshot.Holds;
      hide History;
      hide StepBook;
      hide Equity;
      hide React;
      hide Execute;
      hide BarRaises;
      hide Visible;
      hide Replay;
      hide Process;
      hide Play;
      hide RunRaises;
      hide Reached;
      var snapshot := new MarketSnapshot();
      portfolio := new SimulatedPortfolio(initialBalance, cfg.feeRate, cfg.orderRatio);
      trades, raised := [], false;
      ghost var r, memory := strategy.CurrentRules(), strategy.CurrentMemory();
      StandsAtStart(cfg, r, root, symbol, memory, initialBalance, candles);
      assert candles[..0] == [];
      for i := 0 to |candles|
        invariant fresh(snapshot) && fresh(portfolio) && snapshot.Holds(candles[..i]) && portfolio.cfg == cfg
        invariant strategy.Valid(root) && strategy.CurrentRules() == r && !raised
        invariant portfolio.holdings.Keys <= {symbol}
        invariant StandsAt(cfg, r, root, symbol, memory, initialBalance, candles, i, strategy.CurrentMemory(),
                           Book(portfolio.Slot(symbol), trades, portfolio.equityHistory))
      {
        assert candles[..i + 1] == candles[..i] + [candles[i]];
        ghost var now, book := strategy.CurrentMemory(), Book(portfolio.Slot(symbol), trades, portfolio.equityHistory);
        var signal, traded;
        signal, traded, raised := OneCandle(candles[i], candles[..i], snapshot, portfolio, root);
        StandsOn(cfg, r, root, symbol, memory, initialBalance, candles, i, now, book, strategy.CurrentMemory(), signal);
        if raised {
          return;
        }
        trades := trades + traded;
      }
      StandsAtEnd(cfg, r, root, symbol, memory, initialBalance, candles, strategy.CurrentMemory(),
                  Book(portfolio.Slot(symbol), trades, portfolio.equityHistory));
    }

    /** One pass of the loop: record, evaluate, trade. */
    method OneCandle(candle: Candle, ghost received: seq<Candle>, snapshot: MarketSnapshot,
                     portfolio: SimulatedPortfolio, ghost root: Root)
      returns (signal: Option<SignalType>, traded: seq<Trade>, raised: bool)
      requires strategy.Valid(root) && portfolio.cfg == cfg
      requires strategy.Object() != this && strategy.Object() != snapshot && strategy.Object() != portfolio
      requires snapshot.Holds(received) && portfolio.holdings.Keys <= {symbol}
      modifies strategy.Object(), snapshot, portfolio
      ensures snapshot.Holds(received + [candle]) && portfolio.holdings.Keys <= {symbol}
      ensures strategy.Valid(root) && strategy.CurrentRules() == old(strategy.CurrentRules())
      ensures (strategy.CurrentMemory(), signal)
           == React(strategy.CurrentRules(), root, symbol, old(strategy.CurrentMemory()),
                    Visible(strategy.CurrentRules(), symbol, received + [candle]))
      ensures portfolio.equityHistory
           == old(portfolio.equityHistory) + [Equity(old(portfolio.Slot(symbol)), candle.close)]
      ensures raised == BarRaises(cfg, old(portfolio.Slot(symbol)), Bar(candle.close, candle.timestamp, signal))
      ensures (portfolio.Slot(symbol), traded)
           == Execute(cfg, symbol, old(portfolio.Slot(symbol)), Bar(candle.close, candle.timestamp, signal))
    {
      hide React;
      hide Visible;
      hide Execute;
      hide BarRaises;
      hide Value;
      hide HoldingsValue;
      hide History;
      hide MarketSnapshot.Holds;
      snapshot.UpdateCandle(candle, received);
      SingleHolding(portfolio.holdings, symbol, candle.close);
      portfolio.RecordEquity(map[symbol := candle.close]);
      signal := EvaluateSnapshot(snapshot, received + [candle], root);
      traded, raised := ActOn(signal, candle, portfolio);
    }

    /** No features, no evaluation. */
    method EvaluateSnapshot(snapshot: MarketSnapshot, ghost received: seq<Candle>, ghost root: Root)
      returns (signal: Option<SignalType>)
      requires strategy.Valid(root) && strategy.Object() != this && strategy.Object() != snapshot
      requires snapshot.Holds(received)
      modifies strategy.Object()
      ensures strategy.Valid(root) && strategy.CurrentRules() == old(strategy.CurrentRules())
      ensures (strategy.CurrentMemory(), signal)
           == React(strategy.CurrentRules(), root, symbol, old(strategy.CurrentMemory()),
                    Visible(strategy.CurrentRules(), symbol, received))
    {
      hide Evaluate;
      hide FeaturesOf;
      var builder := BuilderFor(strategy.CurrentRules());
      var window := snapshot.GetCandles(symbol, Limit(builder));
      var features := Build(builder, symbol, window);
      signal := None;
      if features.Some? {
        signal := strategy.EvaluateFeatures(features.value, root);
      }
    }

    method ActOn(signal: Option<SignalType>, candle: Candle, portfolio: SimulatedPortfolio)
      returns (traded: seq<Trade>, raised: bool)
      requires portfolio.cfg == cfg && portfolio.holdings.Keys <= {symbol}
      modifies portfolio`balance, portfolio`holdings
      ensures portfolio.holdings.Keys <= {symbol}
      ensures raised == BarRaises(cfg, old(portfolio.Slot(symbol)), Bar(candle.close, candle.timestamp, signal))
      ensures (portfolio.Slot(symbol), traded)
           == Execute(cfg, symbol, old(portfolio.Slot(symbol)), Bar(candle.close, candle.timestamp, signal))
    {
      hide Cost;
      hide Pool;
      hide BuyTrade;
      hide BuyGoesThrough;
      hide Value;
      hide SellTrade;
      var trade := None;
      raised := false;
      if signal == Some(BUY) {
        trade, raised := portfolio.Buy(symbol, candle.close, candle.timestamp);
        assert portfolio.holdings.Keys <= (portfolio.holdings - {symbol}).Keys + {symbol};
      } else if signal == Some(SELL) {
        trade := portfolio.Sell(symbol, candle.close, candle.timestamp);
      }
      traded := if trade.Some? then [trade.value] else [];
    }
  }

  /** With no other holding the portfolio's equity is the ledger's. */
  lemma SingleHolding(holdings: map<string, Holding>, symbol: string, price: real)
    requires holdings.Keys <= {symbol}
    ensures HoldingsValue(holdings, map[symbol := price])
         == Value(if symbol in holdings then holdings[symbol].quantity else 0.0, price)
  {
    if symbol in holdings {
      HoldingsValueSplit(holdings, symbol, map[symbol := price]);
      assert holdings - {symbol} == map[];
    } else {
      assert holdings == map[];
    }
  }
}
