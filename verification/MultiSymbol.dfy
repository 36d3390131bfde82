/** Independent backtests of several symbols and their sum (MultiSymbolBacktestRunner). */
module MultiSymbol {
  import opened Options
  import opened Market
  import opened FeatureBuilding
  import opened Indicators
  import opened Strategies
  import opened Ledger
  import opened LedgerLaws
  import opened Backtest
  import opened Results

  datatype Series = Series(symbol: string, prices: seq<real>)

  const MINUTE := 60

  /** Minute candles around a list of closes. */
  function FromPrices(series: Series, start: int): (candles: seq<Candle>)
    ensures |candles| == |series.prices|
  {
    seq(|series.prices|, i requires 0 <= i < |series.prices| =>
      var p := series.prices[i];
      Candle(series.symbol, "1m", p, p * 1.01, p * 0.99, p, 1.0, start + MINUTE * i))
  }

  /** The i-th candle closes at the i-th price, a minute after the one before, with its extremes a hundredth away. */
  lemma FromPricesAre(series: Series, start: int, i: nat)
    requires i < |series.prices|
    ensures var c, p := FromPrices(series, start)[i], series.prices[i];
      && c.symbol == series.symbol && c.timestamp == start + i * 60 && c.close == p && c.open == p
      && 100.0 * c.high == 101.0 * p && 100.0 * c.low == 99.0 * p && c.volume == 1.0
    ensures Closes(FromPrices(series, start)) == series.prices
  {
  }

  /** Generated candles are in time order already. */
  lemma {:induction false} FromPricesInOrder(series: Series, start: int)
    ensures SortByTime(FromPrices(series, start)) == FromPrices(series, start)
    decreases |series.prices|
  {
    var candles := FromPrices(series, start);
    if |candles| > 0 {
      var n := |candles| - 1;
      var shorter := Series(series.symbol, series.prices[..n]);
      assert candles[..n] == FromPrices(shorter, start);
      FromPricesInOrder(shorter, start);
    }
  }

  /** What every symbol's backtest has in common; the strategy factory is a function of the symbol. */
  datatype Plan = Plan(rulesOf: string -> Rules, root: Root, initialBalance: real, cfg: Config, baseTime: int)

  datatype MultiResult = MultiResult(results: map<string, BacktestResult>, initialBalance: real, finalBalance: real)

  /** The balance is split evenly. */
  function Share(plan: Plan, n: nat): real
    requires n > 0
  {
    plan.initialBalance / n as real
  }

  predicate Raises(plan: Plan, n: nat, series: Series)
    requires n > 0
  {
    RunRaises(plan.cfg, series.symbol, Share(plan, n),
              Replay(plan.rulesOf(series.symbol), plan.root, series.symbol, map[], FromPrices(series, plan.baseTime)))
  }

  function ResultFor(plan: Plan, n: nat, series: Series): BacktestResult
    requires n > 0 && |series.prices| > 0
  {
    ResultOf(plan.cfg, plan.rulesOf(series.symbol), plan.root, series.symbol, map[], Share(plan, n),
             FromPrices(series, plan.baseTime))
  }

  ghost predicate Runnable(data: seq<Series>) {
    forall i :: 0 <= i < |data| ==> |data[i].prices| > 0
  }

  /** The results of the first k symbols when the balance is split n ways. */
  function ResultsOf(plan: Plan, n: nat, data: seq<Series>): (results: seq<BacktestResult>)
    requires n > 0 && Runnable(data)
    ensures |results| == |data|
  {
    seq(|data|, i requires 0 <= i < |data| => ResultFor(plan, n, data[i]))
  }

  function TotalFinal(results: seq<BacktestResult>): real {
    if |results| == 0 then 0.0 else TotalFinal(results[..|results| - 1]) + results[|results| - 1].finalBalance
  }

  ghost predicate DistinctSymbols(data: seq<Series>) {
    forall i, j :: 0 <= i < j < |data| ==> data[i].symbol != data[j].symbol
  }

  class MultiSymbolBacktestRunner {
    const plan: Plan
    const data: seq<Series>

    /** An empty table of prices is an error raised here. */
    constructor (plan: Plan, data: seq<Series>)
      requires |data| > 0
      ensures this.plan == plan && this.data == data
    {
      this.plan, this.data := plan, data;
    }

    /** No result stands for an error: a symbol without prices, or a backtest that raises. */
    method Run() returns (r: Option<MultiResult>)
      requires |data| > 0 && DistinctSymbols(data)
      ensures r == None <==> exists i :: 0 <= i < |data| && (data[i].prices == [] || Raises(plan, |data|, data[i]))
      ensures r.Some? ==>
        && Runnable(data)
        && r.value.initialBalance == plan.initialBalance
        && r.value.finalBalance == TotalFinal(ResultsOf(plan, |data|, data))
        && (forall i :: 0 <= i < |data| ==>
              data[i].symbol in r.value.results && r.value.results[data[i].symbol] == ResultFor(plan, |data|, data[i]))
        && (forall symbol :: symbol in r.value.results ==> exists i :: 0 <= i < |data| && data[i].symbol == symbol)
    {
      hide ResultFor;
      hide Raises;
      hide TotalFinal;
      hide ResultsOf;
      NothingTotal(plan, |data|);
      var n := |data|;
      var share := plan.initialBalance / n as real;
      var results: map<string, BacktestResult>, total := map[], 0.0;
      for i := 0 to n
        invariant Runnable(data[..i]) && forall j :: 0 <= j < i ==> !Raises(plan, n, data[j])
        invariant total == TotalFinal(ResultsOf(plan, n, data[..i]))
        invariant forall j :: 0 <= j < i ==> data[j].symbol in results
        invariant forall j :: 0 <= j < i ==> results[data[j].symbol] == ResultFor(plan, n, data[j])
        invariant forall symbol :: symbol in results ==> exists j :: 0 <= j < i && data[j].symbol == symbol
      {
        if |data[i].prices| == 0 {
          return None;
        }
        var completed := RunOne(data[i], share);
        if completed == None {
          return None;
        }
        var result := completed.value;
        assert data[..i + 1] == data[..i] + [data[i]];
        TotalOneMore(plan, n, data[..i], data[i]);
        total := total + result.finalBalance;
        results := results[data[i].symbol := result];
      }
      assert data[..n] == data;
      r := Some(MultiResult(results, plan.initialBalance, total));
    }

    method RunOne(series: Series, share: real) returns (result: Option<BacktestResult>)
      requires |data| > 0 && |series.prices| > 0 && share == Share(plan, |data|)
      ensures result == if Raises(plan, |data|, series) then None else Some(ResultFor(plan, |data|, series))
    {
      hide ResultOf;
      hide Process;
      hide SortByTime;
      hide RunRaises;
      hide Replay;
      var candles := FromPrices(series, plan.baseTime);
      FromPricesInOrder(series, plan.baseTime);
      var strategy := NewStrategy(plan.rulesOf(series.symbol), plan.root);
      var runner := new BacktestRunner(strategy, series.symbol, share, plan.cfg, Some(candles));
      result := runner.Run(None, plan.root);
    }
  }

  lemma NothingTotal(plan: Plan, n: nat)
    requires n > 0
    ensures TotalFinal(ResultsOf(plan, n, [])) == 0.0
  {
  }

  lemma TotalOneMore(plan: Plan, n: nat, data: seq<Series>, series: Series)
    requires n > 0 && Runnable(data) && |series.prices| > 0
    ensures Runnable(data + [series])
    ensures TotalFinal(ResultsOf(plan, n, data + [series]))
         == TotalFinal(ResultsOf(plan, n, data)) + ResultFor(plan, n, series).finalBalance
  {
    hide ResultFor;
    assert ResultsOf(plan, n, data + [series])[..|data|] == ResultsOf(plan, n, data);
  }

  // ---- what the total says ----

  function SumOfReturns(results: seq<BacktestResult>): real {
    if |results| == 0 then 0.0
    else
      var last := results[|results| - 1];
      SumOfReturns(results[..|results| - 1]) + (last.finalBalance - last.initialBalance)
  }

  function SumOfPercentages(results: seq<BacktestResult>): real {
    if |results| == 0 then 0.0
    else
      var last := results[|results| - 1];
      SumOfPercentages(results[..|results| - 1]) + ReturnPct(last.initialBalance, last.finalBalance)
  }

  function SumOfPnl(results: seq<BacktestResult>): real {
    if |results| == 0 then 0.0 else SumOfPnl(results[..|results| - 1]) + TotalPnl(results[|results| - 1].trades)
  }

  function TradeCount(results: seq<BacktestResult>): nat {
    if |results| == 0 then 0 else TradeCount(results[..|results| - 1]) + |results[|results| - 1].trades|
  }

  ghost predicate AllStartWith(results: seq<BacktestResult>, share: real) {
    forall i :: 0 <= i < |results| ==> results[i].initialBalance == share
  }

  function Times(k: nat, share: real): real { k as real * share }

  lemma OneMoreShare(k: nat, share: real)
    ensures Times(k + 1, share) == Times(k, share) + share && Times(0, share) == 0.0
  {
  }

  lemma {:induction false} ReturnsAddUp(results: seq<BacktestResult>, share: real)
    requires AllStartWith(results, share)
    ensures SumOfReturns(results) == TotalFinal(results) - Times(|results|, share)
  {
    hide Times;
    OneMoreShare(0, share);
    if |results| > 0 {
      var n := |results| - 1;
      ReturnsAddUp(results[..n], share);
      OneMoreShare(n, share);
    }
  }

  function Percent(gain: real, share: real): real
    requires share != 0.0
  {
    gain / share * 100.0
  }

  lemma PercentOfSum(x: real, y: real, share: real)
    requires share != 0.0
    ensures Percent(x, share) + Percent(y, share) == Percent(x + y, share) && Percent(0.0, share) == 0.0
  {
    assert x / share + y / share == (x + y) / share;
  }

  lemma {:induction false} PercentagesAddUp(results: seq<BacktestResult>, share: real)
    requires AllStartWith(results, share) && share != 0.0
    ensures SumOfPercentages(results) == Percent(SumOfReturns(results), share)
  {
    if |results| == 0 {
      PercentOfSum(0.0, 0.0, share);
    } else {
      var n := |results| - 1;
      PercentagesAddUp(results[..n], share);
      PercentOfSum(SumOfReturns(results[..n]), results[n].finalBalance - results[n].initialBalance, share);
      assert ReturnPct(results[n].initialBalance, results[n].finalBalance)
          == Percent(results[n].finalBalance - results[n].initialBalance, share);
      hide Percent;
      hide ReturnPct;
    }
  }

  lemma {:induction false} NoPercentages(results: seq<BacktestResult>)
    requires AllStartWith(results, 0.0)
    ensures SumOfPercentages(results) == 0.0
  {
    if |results| > 0 { NoPercentages(results[..|results| - 1]); }
  }

  lemma PercentSplits(gain: real, initial: real, n: real)
    requires initial != 0.0 && n > 0.0
    ensures initial / n != 0.0 && Percent(gain, initial / n) == n * Percent(gain, initial)
  {
    var share := initial / n;
    assert share * n == initial;
    var q := gain / initial;
    assert q * initial == gain;
    assert q * n * share == gain;
    assert gain / share == q * n;
  }

  /** The total return is the sum of the results' returns, and its percentage the mean of their percentages. */
  predicate Aggregates(results: seq<BacktestResult>, initial: real) {
    && TotalFinal(results) - initial == SumOfReturns(results)
    && |results| as real * ReturnPct(initial, TotalFinal(results)) == SumOfPercentages(results)
  }

  lemma MeanOfResults(results: seq<BacktestResult>, initial: real)
    requires |results| > 0 && AllStartWith(results, initial / |results| as real)
    ensures Aggregates(results, initial)
  {
    hide TotalFinal;
    hide SumOfReturns;
    hide SumOfPercentages;
    var n := |results|;
    var share := initial / n as real;
    ReturnsAddUp(results, share);
    assert Times(n, share) == initial;
    hide Times;
    hide AllStartWith;
    if initial == 0.0 {
      assert share == 0.0;
      NoPercentages(results);
    } else {
      PercentSplits(SumOfReturns(results), initial, n as real);
      PercentagesAddUp(results, share);
      assert ReturnPct(initial, TotalFinal(results)) == Percent(SumOfReturns(results), initial);
    }
    hide Percent;
  }

  lemma SharesAreEven(plan: Plan, data: seq<Series>)
    requires |data| > 0 && Runnable(data)
    ensures AllStartWith(ResultsOf(plan, |data|, data), plan.initialBalance / |data| as real)
  {
    hide RunLedger;
    hide Replay;
    hide FromPrices;
  }

  lemma TotalIsMeanOfSymbols(plan: Plan, data: seq<Series>)
    requires |data| > 0 && Runnable(data)
    ensures Aggregates(ResultsOf(plan, |data|, data), plan.initialBalance)
  {
    SharesAreEven(plan, data);
    hide ResultsOf;
    hide AllStartWith;
    hide Aggregates;
    MeanOfResults(ResultsOf(plan, |data|, data), plan.initialBalance);
  }

  predicate Reconciles(r: BacktestResult) {
    Abs(TotalPnl(r.trades) - (r.finalBalance - r.initialBalance)) <= 0.005 * |r.trades| as real
  }

  /** The reported profits add up to this gain, up to half a cent a trade. */
  predicate Explained(results: seq<BacktestResult>, gain: real) {
    Abs(SumOfPnl(results) - gain) <= 0.005 * TradeCount(results) as real
  }

  lemma {:induction false} PnlAddsUp(results: seq<BacktestResult>)
    requires forall i :: 0 <= i < |results| ==> Reconciles(results[i])
    ensures Explained(results, SumOfReturns(results))
  {
    hide TotalPnl;
    if |results| > 0 { PnlAddsUp(results[..|results| - 1]); }
  }

  lemma ResultReconciles(plan: Plan, n: nat, series: Series)
    requires n > 0 && |series.prices| > 0
    ensures Reconciles(ResultFor(plan, n, series))
  {
    hide RunLedger;
    hide Replay;
    hide TotalPnl;
    PnlMatchesCash(plan.cfg, series.symbol, Share(plan, n),
                   Replay(plan.rulesOf(series.symbol), plan.root, series.symbol, map[],
                          FromPrices(series, plan.baseTime)));
  }

  /** Over all symbols together the reported profits explain the total return. */
  lemma TotalPnlMatchesReturn(plan: Plan, data: seq<Series>)
    requires |data| > 0 && Runnable(data)
    ensures var results := ResultsOf(plan, |data|, data);
      Explained(results, TotalFinal(results) - plan.initialBalance)
  {
    var results := ResultsOf(plan, |data|, data);
    hide ResultFor;
    hide Reconciles;
    hide Explained;
    hide SumOfReturns;
    hide TotalFinal;
    hide SumOfPercentages;
    hide ReturnPct;
    forall i | 0 <= i < |results| ensures Reconciles(results[i]) {
      ResultReconciles(plan, |data|, data[i]);
    }
    PnlAddsUp(results);
    TotalIsMeanOfSymbols(plan, data);
    hide ResultsOf;
  }
}
