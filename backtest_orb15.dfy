/**
 * backtest-orb15.js `runBacktest`: the engine of breakout_symbols.js for the one symbol
 * `Usa500`. Its `simulateTrade`, bias, M15 scan, entry, stop and 2R target are line for
 * line those of breakout_symbols.js, so the H1 bar step is shared; what differs is that
 * the series are read without a missing-file check and the totals are printed rather
 * than returned.
 */
module BacktestOrb15 {
  import opened Candles
  import opened FixedRR
  import opened Stats
  import BreakoutSymbols

  /**
   * `runBacktest()`: the total number of orders (OPEN included), the TP and SL counts and
   * the win rate that the script prints.
   */
  method RunBacktest(h1: seq<Candle>, m15: seq<Candle>, m5: seq<Candle>)
    returns (totalTrades: nat, winningTrades: nat, losingTrades: nat, winrate: Option<real>)
    ensures var rs := BreakoutSymbols.Results(h1, m15, m5, |h1|);
      && totalTrades == |rs| && winningTrades == CountTP(rs) && losingTrades == CountSL(rs)
      && winrate == WinRate(totalTrades, winningTrades)
    ensures winningTrades + losingTrades <= totalTrades
    ensures winrate.Some? ==> 0.0 <= winrate.value <= 100.0
  {
    totalTrades, winningTrades, losingTrades := 0, 0, 0;

    var i := 2;
    ghost var rs: seq<Outcome> := [];
    while i < |h1|
      invariant 2 <= i && (i <= |h1| || |h1| < 2)
      invariant rs == BreakoutSymbols.Results(h1, m15, m5, if i <= |h1| then i else |h1|)
      invariant totalTrades == |rs| && winningTrades == CountTP(rs) && losingTrades == CountSL(rs)
    {
      BreakoutSymbols.ResultsStep(h1, m15, m5, i);
      var tradeResult := BreakoutSymbols.TradeOfBar(h1, m15, m5, i);
      if tradeResult.None? {
        assert rs + [] == rs;
        i := i + 1;
        continue;
      }
      totalTrades, winningTrades, losingTrades := CountOutcome(totalTrades, winningTrades, losingTrades, rs, tradeResult.value);
      rs := rs + [tradeResult.value];
      i := i + 1;
    }
    OutcomeCounts(rs);
    winrate := WinRate(totalTrades, winningTrades);
  }
}
