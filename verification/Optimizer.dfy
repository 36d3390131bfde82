/** Grid search over strategy parameters (backtest/optimizer.py). */
module Optimizer {
  import opened Options
  import opened Market
  import opened Indicators
  import opened Strategies
  import opened Ledger
  import opened Backtest
  import opened Results
  import opened Grid
  import opened RunLaws

  datatype Metric = ByReturn | ByWinRate | ByProfitFactor

  /** An infinite profit factor scores 999. */
  function Score(metric: Metric, result: BacktestResult): real {
    match metric
    case ByReturn => ReturnPct(result.initialBalance, result.finalBalance)
    case ByWinRate => WinRate(result.trades)
    case ByProfitFactor =>
      match ProfitFactor(result.trades)
      case None => 999.0
      case Some(f) => f
  }

  /**
    What is maximised: the return in percent of the initial balance, the share of winners among the sales, or the
    winners' profit over the losers' loss, with 999 for an infinite one.
   */
  lemma ScoreIs(metric: Metric, result: BacktestResult)
    ensures match metric
      case ByReturn =>
        if result.initialBalance == 0.0 then Score(metric, result) == 0.0
        else Score(metric, result) * result.initialBalance == (result.finalBalance - result.initialBalance) * 100.0
      case ByWinRate =>
        && Score(metric, result) * |SellTrades(result.trades)| as real == |WinningTrades(result.trades)| as real
        && (SellTrades(result.trades) == [] ==> Score(metric, result) == 0.0)
      case ByProfitFactor =>
        var profit, loss := TotalPnl(WinningTrades(result.trades)), -TotalPnl(LosingTrades(result.trades));
        if loss == 0.0 then Score(metric, result) == if profit > 0.0 then 999.0 else 0.0
        else Score(metric, result) * loss == profit
  {
    ReturnPctIs(result.initialBalance, result.finalBalance);
    WinRateIs(result.trades);
    ProfitFactorIs(result.trades);
    hide TotalPnl;
    hide ReturnPct;
    hide WinRate;
    hide ProfitFactor;
    hide SellTrades;
    hide WinningTrades;
    hide LosingTrades;
  }

  /** Everything that stays fixed during a search: the strategy class, and what each backtest is given. */
  datatype Search<!V> = Search(strategyOf: map<string, V> -> Rules, root: Root, symbol: string, candles: seq<Candle>,
                               metric: Metric, initialBalance: real, cfg: Config)

  datatype Evaluation<V> = Evaluation(params: map<string, V>, score: real, result: BacktestResult)

  /** The best score starts at minus infinity, written None. */
  datatype OptimizationResult<V> = Optimum(bestParams: map<string, V>, bestScore: Option<real>, all: seq<Evaluation<V>>)

  /** One combination: a backtest of a fresh strategy. */
  function EvaluateOne<V>(s: Search<V>, params: map<string, V>): Evaluation<V>
    requires |s.candles| > 0
  {
    var result := ResultOf(s.cfg, s.strategyOf(params), s.root, s.symbol, map[], s.initialBalance,
                           SortByTime(s.candles));
    Evaluation(params, Score(s.metric, result), result)
  }

  /** The backtest of this combination raises, without a candle or at a purchase, and the search with it. */
  predicate Raises<V>(s: Search<V>, params: map<string, V>) {
    s.candles == [] ||
    RunRaises(s.cfg, s.symbol, s.initialBalance,
              Replay(s.strategyOf(params), s.root, s.symbol, map[], SortByTime(s.candles)))
  }

  function EvaluateAll<V>(s: Search<V>, combos: seq<map<string, V>>): (all: seq<Evaluation<V>>)
    requires |s.candles| > 0
    ensures |all| == |combos|
  {
    seq(|combos|, k requires 0 <= k < |combos| => EvaluateOne(s, combos[k]))
  }

  /** The first of the evaluations with the greatest score; of none, no parameters at minus infinity. */
  ghost predicate FirstBest<V>(all: seq<Evaluation<V>>, bestParams: map<string, V>, bestScore: Option<real>) {
    if all == [] then bestParams == map[] && bestScore == None
    else
      exists k :: 0 <= k < |all| && IsFirstBest(all, k) && IsBest(all[k], bestParams, bestScore)
  }

  ghost predicate IsBest<V>(e: Evaluation<V>, bestParams: map<string, V>, bestScore: Option<real>) {
    e.params == bestParams && bestScore == Some(e.score)
  }

  ghost predicate IsFirstBest<V>(all: seq<Evaluation<V>>, k: nat)
    requires k < |all|
  {
    && (forall j :: 0 <= j < k ==> all[j].score < all[k].score)
    && (forall j :: k < j < |all| ==> all[j].score <= all[k].score)
  }

  lemma FirstBestOneMore<V>(all: seq<Evaluation<V>>, k: nat, e: Evaluation<V>)
    requires k < |all| && IsFirstBest(all, k)
    ensures IsFirstBest(all + [e], if e.score > all[k].score then |all| else k)
  {
  }

  lemma BestOneMore<V>(all: seq<Evaluation<V>>, params: map<string, V>, score: Option<real>, e: Evaluation<V>)
    requires FirstBest(all, params, score)
    ensures if score == None || e.score > score.value then FirstBest(all + [e], e.params, Some(e.score))
            else FirstBest(all + [e], params, score)
  {
    var more := all + [e];
    if all == [] {
      assert IsFirstBest(more, 0) && IsBest(more[0], e.params, Some(e.score));
    } else {
      hide IsFirstBest;
      var k :| 0 <= k < |all| && IsFirstBest(all, k) && IsBest(all[k], params, score);
      FirstBestOneMore(all, k, e);
      assert more[k] == all[k] && more[|all|] == e;
      assert IsBest(e, e.params, Some(e.score));
    }
  }

  class StrategyOptimizer<!V> {
    const s: Search<V>
    const grid: seq<Axis<V>>

    constructor (s: Search<V>, grid: seq<Axis<V>>)
      ensures this.s == s && this.grid == grid
    {
      this.s, this.grid := s, grid;
    }

    method RunOne(params: map<string, V>) returns (e: Option<Evaluation<V>>)
      requires |s.candles| > 0
      ensures e == if Raises(s, params) then None else Some(EvaluateOne(s, params))
    {
      hide ResultOf;
      hide Score;
      hide Process;
      hide SortByTime;
      hide Replay;
      hide RunRaises;
      var strategy := NewStrategy(s.strategyOf(params), s.root);
      var runner := new BacktestRunner(strategy, s.symbol, s.initialBalance, s.cfg, Some(s.candles));
      var result := runner.Run(None, s.root);
      if result == None {
        return None;
      }
      e := Some(Evaluation(params, Score(s.metric, result.value), result.value));
    }

    /** No result stands for an error: a backtest that raises, as the first one does when there is no candle. */
    method Run() returns (best: Option<OptimizationResult<V>>)
      requires DistinctKeys(grid)
      ensures var combos := AllCombinations(grid);
        best == None <==> exists k :: 0 <= k < |combos| && Raises(s, combos[k])
      ensures best.Some? && s.candles != [] ==> best.value.all == EvaluateAll(s, AllCombinations(grid))
      ensures best.Some? ==> FirstBest(best.value.all, best.value.bestParams, best.value.bestScore)
    {
      hide AllCombinations;
      hide EvaluateOne;
      hide Raises;
      hide FirstBest;
      var combos := AllCombinations(grid);
      var all: seq<Evaluation<V>> := [];
      var bestScore: Option<real>, bestParams: map<string, V> := None, map[];
      NothingBest<V>();
      for i := 0 to |combos|
        invariant forall k :: 0 <= k < i ==> !Raises(s, combos[k])
        invariant i > 0 ==> s.candles != []
        invariant |all| == i && (s.candles != [] ==> all == EvaluateAll(s, combos[..i]))
        invariant FirstBest(all, bestParams, bestScore)
      {
        if |s.candles| == 0 {
          NoCandleRaises(s, combos[i]);
          return None;
        }
        var evaluated := RunOne(combos[i]);
        if evaluated == None {
          return None;
        }
        var e := evaluated.value;
        BestOneMore(all, bestParams, bestScore, e);
        all := all + [e];
        if bestScore == None || e.score > bestScore.value {
          bestScore, bestParams := Some(e.score), e.params;
        }
      }
      assert combos[..|combos|] == combos;
      best := Some(Optimum(bestParams, bestScore, all));
    }
  }

  lemma NoCandleRaises<V>(s: Search<V>, params: map<string, V>)
    requires s.candles == []
    ensures Raises(s, params)
  {
  }

  lemma NothingBest<V>()
    ensures FirstBest<V>([], map[], None)
  {
  }

  /** With distinct timestamps the order of the candles cannot change any evaluation, nor so the optimum. */
  lemma SearchIgnoresCandleOrder<V>(s: Search<V>, shuffled: seq<Candle>, combos: seq<map<string, V>>)
    requires |s.candles| > 0 && DistinctTimes(s.candles)
    requires multiset(s.candles) == multiset(shuffled)
    ensures |shuffled| > 0
    ensures EvaluateAll(s, combos) == EvaluateAll(s.(candles := shuffled), combos)
  {
    OrderDoesNotMatter(s.candles, shuffled);
    assert |multiset(shuffled)| > 0;
    hide ResultOf;
    hide Score;
    hide SortByTime;
    var t := s.(candles := shuffled);
    forall k | 0 <= k < |combos| ensures EvaluateOne(s, combos[k]) == EvaluateOne(t, combos[k]) { }
  }

  ghost predicate NoneBefore<V>(s: Search<V>, grid: seq<Axis<V>>, k: nat, score: real)
    requires |s.candles| > 0 && k <= |AllCombinations(grid)|
  {
    forall j :: 0 <= j < k ==> EvaluateOne(s, AllCombinations(grid)[j]).score < score
  }

  lemma BestIsMaximum<V>(s: Search<V>, grid: seq<Axis<V>>, k: nat, params: map<string, V>)
    requires |s.candles| > 0 && DistinctKeys(grid) && k < |AllCombinations(grid)|
    requires IsFirstBest(EvaluateAll(s, AllCombinations(grid)), k) && Fits(grid, params)
    ensures EvaluateOne(s, params).score <= EvaluateOne(s, AllCombinations(grid)[k]).score
  {
    hide EvaluateOne;
    FittingIsCombination(grid, params);
    hide AllCombinations;
    var combos := AllCombinations(grid);
    var j :| 0 <= j < |combos| && combos[j] == params;
    var all := EvaluateAll(s, combos);
    assert all[j] == EvaluateOne(s, params);
  }

  lemma BestIsFirst<V>(s: Search<V>, grid: seq<Axis<V>>, k: nat)
    requires |s.candles| > 0 && k < |AllCombinations(grid)|
    requires IsFirstBest(EvaluateAll(s, AllCombinations(grid)), k)
    ensures NoneBefore(s, grid, k, EvaluateOne(s, AllCombinations(grid)[k]).score)
  {
    hide EvaluateOne;
    hide AllCombinations;
    var combos := AllCombinations(grid);
    var all := EvaluateAll(s, combos);
    forall j | 0 <= j < k ensures EvaluateOne(s, combos[j]).score < EvaluateOne(s, combos[k]).score {
      assert all[j].score < all[k].score;
    }
  }

  /**
    The optimum: some listed combination, none scores higher, and among those that score as high it is the
    first in product order.
   */
  lemma OptimumIsFirstMaximum<V>(s: Search<V>, grid: seq<Axis<V>>, bestParams: map<string, V>, bestScore: Option<real>)
    requires |s.candles| > 0 && DistinctKeys(grid) && AllCombinations(grid) != []
    requires FirstBest(EvaluateAll(s, AllCombinations(grid)), bestParams, bestScore)
    ensures Fits(grid, bestParams) && bestScore == Some(EvaluateOne(s, bestParams).score)
    ensures forall params :: Fits(grid, params) ==> EvaluateOne(s, params).score <= bestScore.value
    ensures var combos := AllCombinations(grid);
      exists k :: 0 <= k < |combos| && combos[k] == bestParams && NoneBefore(s, grid, k, bestScore.value)
  {
    hide EvaluateOne;
    hide AllCombinations;
    hide IsFirstBest;
    hide NoneBefore;
    hide Fits;
    var combos := AllCombinations(grid);
    var all := EvaluateAll(s, combos);
    ParamsOf(s, combos);
    var k :| 0 <= k < |all| && IsFirstBest(all, k) && all[k].params == bestParams && Some(all[k].score) == bestScore;
    assert all[k] == EvaluateOne(s, combos[k]);
    CombinationFits(grid, k);
    BestIsFirst(s, grid, k);
    forall params | Fits(grid, params) ensures EvaluateOne(s, params).score <= bestScore.value {
      BestIsMaximum(s, grid, k, params);
    }
  }

  lemma ParamsOf<V>(s: Search<V>, combos: seq<map<string, V>>)
    requires |s.candles| > 0
    ensures forall k :: 0 <= k < |combos| ==> EvaluateAll(s, combos)[k].params == combos[k]
  {
  }
}
