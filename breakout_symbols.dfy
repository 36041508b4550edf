/**
 * breakout_symbols.js `runBacktestForSymbol`: H1 bias with `else if` (LONG first), then the
 * M15 breaks after the H1 bar in turn. The entry is the raw close of the first M5 bar after
 * the break, the stop is that bar's low or high, the target is 2 risks away and the replay
 * is `simulateTrade` (SL checked first). A missing entry or a risk <= 0 moves on to the next
 * break; the first order placed ends the scan and is counted whatever its outcome, OPEN
 * included.
 */
module BreakoutSymbols {
  import opened Candles
  import opened FixedRR
  import opened Stats
  import BreakoutTest

  const RiskRewardRatio: real := 2.0

  /** The order for a break at `bosTs`, or None when there is no M5 bar after it or risk <= 0. */
  function Candidate(m5: seq<Candle>, bosTs: int, dir: Direction): Option<Order> {
    match FirstAfter(m5, bosTs)
    case None => None
    case Some(k) =>
      var e := m5[k];
      if dir == Long then
        var risk := e.close - e.low;
        if risk <= 0.0 then None else Some(Order(e.time, Long, e.close, e.low, e.close + RiskRewardRatio * risk))
      else
        var risk := e.high - e.close;
        if risk <= 0.0 then None else Some(Order(e.time, Short, e.close, e.high, e.close - RiskRewardRatio * risk))
  }

  /** What M15 bar j yields: the SL-first replay of its order, or None to go on scanning. */
  function TradeFor(m15: seq<Candle>, m5: seq<Candle>, h1Time: int, dir: Direction, j: nat): Option<Outcome>
    requires 1 <= j < |m15|
  {
    if !IsBos(m15, j, h1Time, dir) then None
    else match Candidate(m5, m15[j].time, dir)
      case None => None
      case Some(o) => Some(SlFirst(m5, o.time, dir, o.sl, o.tp))
  }

  /** The inner M15 loop from j on: the first break that places an order. */
  function ScanFrom(m15: seq<Candle>, m5: seq<Candle>, h1Time: int, dir: Direction, j: nat): Option<Outcome>
    requires j >= 1
    decreases |m15| - j
  {
    if j >= |m15| then None
    else
      var here := TradeFor(m15, m5, h1Time, dir, j);
      if here.Some? then here else ScanFrom(m15, m5, h1Time, dir, j + 1)
  }

  /**
   * The scan's verdict is that of the first M15 bar from j on that places an order, and
   * None exactly when no bar does.
   */
  lemma {:induction false} ScanIsFirstOrder(m15: seq<Candle>, m5: seq<Candle>, h1Time: int, dir: Direction, j: nat)
    requires j >= 1
    decreases |m15| - j
    ensures var r := ScanFrom(m15, m5, h1Time, dir, j);
      && (r.Some? ==> exists q :: j <= q < |m15| && TradeFor(m15, m5, h1Time, dir, q) == r
                                  && forall p :: j <= p < q ==> TradeFor(m15, m5, h1Time, dir, p).None?)
      && (r.None? ==> forall p :: j <= p < |m15| ==> TradeFor(m15, m5, h1Time, dir, p).None?)
  {
    if j < |m15| && TradeFor(m15, m5, h1Time, dir, j).None? {
      ScanIsFirstOrder(m15, m5, h1Time, dir, j + 1);
    }
  }

  /** The counted trade of H1 bar i. */
  function TradeAt(h1: seq<Candle>, m15: seq<Candle>, m5: seq<Candle>, i: nat): Option<Outcome>
    requires 1 <= i < |h1|
  {
    match BiasLongFirst(h1[i], h1[i - 1])
    case None => None
    case Some(dir) => ScanFrom(m15, m5, h1[i].time, dir, 1)
  }

  /** The outcomes of the orders of H1 bars 2 .. n-1, in order, OPEN included. */
  function Results(h1: seq<Candle>, m15: seq<Candle>, m5: seq<Candle>, n: nat): seq<Outcome>
    requires n <= |h1|
  {
    if n <= 2 then []
    else Results(h1, m15, m5, n - 1) + AsList(TradeAt(h1, m15, m5, n - 1))
  }

  lemma ResultsStep(h1: seq<Candle>, m15: seq<Candle>, m5: seq<Candle>, i: nat)
    requires 2 <= i < |h1|
    ensures Results(h1, m15, m5, i + 1) == Results(h1, m15, m5, i) + AsList(TradeAt(h1, m15, m5, i))
  {
  }

  /** An order has stop < entry < target (LONG, mirrored for SHORT) and a reward of exactly 2 risks. */
  lemma CandidateShape(m5: seq<Candle>, bosTs: int, dir: Direction)
    ensures var c := Candidate(m5, bosTs, dir);
      c.Some? ==>
        && FirstAfter(m5, bosTs).Some?
        && var e := m5[FirstAfter(m5, bosTs).value];
        && c.value.time == e.time && c.value.dir == dir && c.value.entry == e.close
        && (dir == Long ==> c.value.sl == e.low && c.value.sl < c.value.entry < c.value.tp
                            && c.value.tp - c.value.entry == RiskRewardRatio * (c.value.entry - c.value.sl))
        && (dir == Short ==> c.value.sl == e.high && c.value.tp < c.value.entry < c.value.sl
                             && c.value.entry - c.value.tp == RiskRewardRatio * (c.value.sl - c.value.entry))
    ensures FirstAfter(m5, bosTs).Some? ==>
      var e := m5[FirstAfter(m5, bosTs).value];
      Candidate(m5, bosTs, dir).None? <==> (if dir == Long then e.close <= e.low else e.high <= e.close)
  {
  }

  /** At most one order per H1 bar. */
  lemma {:induction false} ResultsAtMostOnePerH1(h1: seq<Candle>, m15: seq<Candle>, m5: seq<Candle>, n: nat)
    requires n <= |h1|
    ensures |Results(h1, m15, m5, n)| <= if n <= 2 then 0 else n - 2
  {
    if n > 2 {
      ResultsAtMostOnePerH1(h1, m15, m5, n - 1);
    }
  }

  /**
   * OPEN trades are counted in totalTrades but in neither wins nor losses, so
   * wins + losses + (OPEN trades) == totalTrades, and wins + losses <= totalTrades.
   */
  lemma ReportCounts(h1: seq<Candle>, m15: seq<Candle>, m5: seq<Candle>)
    ensures var rs := Results(h1, m15, m5, |h1|);
      && CountTP(rs) + CountSL(rs) + CountOpen(rs) == |rs|
      && CountTP(rs) + CountSL(rs) <= |rs|
      && (WinRate(|rs|, CountTP(rs)).Some? ==> 0.0 <= WinRate(|rs|, CountTP(rs)).value <= 100.0)
  {
    OutcomeCounts(Results(h1, m15, m5, |h1|));
  }

  /**
   * With no spread the two scripts build the same order for a break (breakout-test.js
   * widens the stop by the spread, here there is none), and, as the SL-first and realistic
   * replays agree, a break whose trade is decided here is decided the same way there.
   */
  lemma CandidateAgreesWithBreakoutTest(m15: seq<Candle>, m5: seq<Candle>, h1Time: int, dir: Direction, j: nat)
    requires 1 <= j < |m15|
    ensures Candidate(m5, m15[j].time, dir) == BreakoutTest.Candidate(m5, m15[j].time, dir, 0.0)
    ensures TradeFor(m15, m5, h1Time, dir, j).Some? && TradeFor(m15, m5, h1Time, dir, j).value != Open ==>
      BreakoutTest.TradeFor(m15, m5, h1Time, dir, 0.0, j) == TradeFor(m15, m5, h1Time, dir, j)
    ensures TradeFor(m15, m5, h1Time, dir, j) == Some(Open) ==> BreakoutTest.TradeFor(m15, m5, h1Time, dir, 0.0, j).None?
    ensures TradeFor(m15, m5, h1Time, dir, j).None? ==> BreakoutTest.TradeFor(m15, m5, h1Time, dir, 0.0, j).None?
  {
    var c := Candidate(m5, m15[j].time, dir);
    if c.Some? {
      RealisticEqualsSlFirst(m5, c.value.time, dir, c.value.sl, c.value.tp);
    }
  }

  /**
   * Where this script's first order for an H1 bar is decided (not OPEN), breakout-test.js
   * with no spread counts the very same outcome for that bar; they differ only where this
   * script counts an OPEN trade and breakout-test.js moves on to a later break.
   */
  lemma {:induction false} ScanAgreesWithBreakoutTest(m15: seq<Candle>, m5: seq<Candle>, h1Time: int, dir: Direction, j: nat)
    requires j >= 1
    decreases |m15| - j
    ensures ScanFrom(m15, m5, h1Time, dir, j).Some? && ScanFrom(m15, m5, h1Time, dir, j).value != Open ==>
      BreakoutTest.ScanFrom(m15, m5, h1Time, dir, 0.0, j) == ScanFrom(m15, m5, h1Time, dir, j)
  {
    if j < |m15| {
      CandidateAgreesWithBreakoutTest(m15, m5, h1Time, dir, j);
      if TradeFor(m15, m5, h1Time, dir, j).None? {
        ScanAgreesWithBreakoutTest(m15, m5, h1Time, dir, j + 1);
      }
    }
  }

  /** The inner `for (m15Index = 1; ...)` loop, up to its `break`. */
  method ScanM15(m15: seq<Candle>, m5: seq<Candle>, h1Time: int, dir: Direction) returns (r: Option<Outcome>)
    ensures r == ScanFrom(m15, m5, h1Time, dir, 1)
  {
    var j := 1;
    while j < |m15|
      invariant 1 <= j
      invariant ScanFrom(m15, m5, h1Time, dir, j) == ScanFrom(m15, m5, h1Time, dir, 1)
    {
      var previousM15 := m15[j - 1];
      var currentM15 := m15[j];
      if currentM15.time <= h1Time {
        j := j + 1;
        continue;
      }
      var hasStructureBreak := false;
      if dir == Long && currentM15.close > previousM15.high { hasStructureBreak := true; }
      if dir == Short && currentM15.close < previousM15.low { hasStructureBreak := true; }
      if !hasStructureBreak {
        j := j + 1;
        continue;
      }
      var k := FindFirstAfter(m5, currentM15.time);
      if k.None? {
        j := j + 1;
        continue;
      }
      var entryM5 := m5[k.value];
      var entryPrice := entryM5.close;
      var tradeResult;
      if dir == Long {
        var stopLoss := entryM5.low;
        var risk := entryPrice - stopLoss;
        if risk <= 0.0 {
          j := j + 1;
          continue;
        }
        var takeProfit := entryPrice + RiskRewardRatio * risk;
        assert Candidate(m5, currentM15.time, dir) == Some(Order(entryM5.time, Long, entryPrice, stopLoss, takeProfit));
        tradeResult := SimulateTrade(m5, entryM5.time, Long, stopLoss, takeProfit);
      } else {
        var stopLoss := entryM5.high;
        var risk := stopLoss - entryPrice;
        if risk <= 0.0 {
          j := j + 1;
          continue;
        }
        var takeProfit := entryPrice - RiskRewardRatio * risk;
        assert Candidate(m5, currentM15.time, dir) == Some(Order(entryM5.time, Short, entryPrice, stopLoss, takeProfit));
        tradeResult := SimulateTrade(m5, entryM5.time, Short, stopLoss, takeProfit);
      }
      return Some(tradeResult);
    }
    return None;
  }

  /** H1 bar i: the `if / else if` bias (`if (!marketBias) continue`), then the M15 scan. */
  method TradeOfBar(h1: seq<Candle>, m15: seq<Candle>, m5: seq<Candle>, i: nat) returns (result: Option<Outcome>)
    requires 1 <= i < |h1|
    ensures result == TradeAt(h1, m15, m5, i)
  {
    var previousH1 := h1[i - 1];
    var currentH1 := h1[i];
    var marketBias: Option<Direction> := None;
    if currentH1.close > previousH1.high {
      marketBias := Some(Long);
    } else if currentH1.close < previousH1.low {
      marketBias := Some(Short);
    }
    if marketBias.None? {
      return None;
    }
    result := ScanM15(m15, m5, currentH1.time, marketBias.value);
  }

  /**
   * `runBacktestForSymbol(symbol)`: None when a series is missing; otherwise the number of
   * orders (OPEN included), the TP and SL counts among them and the win rate.
   */
  method RunBacktestForSymbol(symbol: string, h1o: Option<seq<Candle>>, m15o: Option<seq<Candle>>, m5o: Option<seq<Candle>>)
    returns (res: Option<Report>)
    ensures (h1o.None? || m15o.None? || m5o.None?) <==> res.None?
    ensures h1o.Some? && m15o.Some? && m5o.Some? ==>
      var rs := Results(h1o.value, m15o.value, m5o.value, |h1o.value|);
      res == Some(Report(symbol, |rs|, CountTP(rs), CountSL(rs), WinRate(|rs|, CountTP(rs))))
  {
    if h1o.None? || m15o.None? || m5o.None? {
      return None;
    }
    var h1, m15, m5 := h1o.value, m15o.value, m5o.value;
    var totalTrades, winningTrades, losingTrades := 0, 0, 0;

    var i := 2;
    ghost var rs: seq<Outcome> := [];
    while i < |h1|
      invariant 2 <= i && (i <= |h1| || |h1| < 2)
      invariant rs == Results(h1, m15, m5, if i <= |h1| then i else |h1|)
      invariant totalTrades == |rs| && winningTrades == CountTP(rs) && losingTrades == CountSL(rs)
    {
      var tradeResult := TradeOfBar(h1, m15, m5, i);
      ResultsStep(h1, m15, m5, i);
      if tradeResult.None? {
        assert rs + [] == rs;
        i := i + 1;
        continue;
      }
      totalTrades, winningTrades, losingTrades := CountOutcome(totalTrades, winningTrades, losingTrades, rs, tradeResult.value);
      rs := rs + [tradeResult.value];
      i := i + 1;
    }

    res := Some(Report(symbol, totalTrades, winningTrades, losingTrades, WinRate(totalTrades, winningTrades)));
  }
}
