/**
 * breakout-test.js `runBacktestForSymbol`: H1 bias (two independent `if`s), then every
 * M15 break after the H1 bar in turn. The entry is the raw close of the first M5 bar after
 * the break, and the spread widens the stop. The replay is `simulateTradeRealistic` with
 * RR = 2. A missing entry, a risk <= 0 or an OPEN replay moves on to the next break; the
 * first counted trade ends the scan for that H1 bar.
 */
module BreakoutTest {
  import opened Candles
  import opened FixedRR
  import opened Stats

  /** `SPREADS` of breakout-test.js, looked up with `?? 0`. */
  const Spreads: map<string, real> := map["GOLD" := 0.15, "Usa500" := 0.8, "GOOGLE.US" := 0.05,
    "MSFT.US" := 0.05, "NFLX.US" := 0.05, "TESLA.US" := 0.05, "NVDA.OQ" := 0.05]

  const RR: real := 2.0

  /**
   * The order for a break at `bosTs`: the first M5 bar after it, entry at its close, stop
   * one spread beyond its low (LONG) or high (SHORT), target RR risks away; None when there
   * is no such bar or the risk is not positive.
   */
  function Candidate(m5: seq<Candle>, bosTs: int, dir: Direction, spread: real): Option<Order> {
    match FirstAfter(m5, bosTs)
    case None => None
    case Some(k) =>
      var e := m5[k];
      if dir == Long then
        var sl := e.low - spread;
        var risk := e.close - sl;
        if risk <= 0.0 then None else Some(Order(e.time, Long, e.close, sl, e.close + RR * risk))
      else
        var sl := e.high + spread;
        var risk := sl - e.close;
        if risk <= 0.0 then None else Some(Order(e.time, Short, e.close, sl, e.close - RR * risk))
  }

  /** What M15 bar j yields for the H1 bar: a decided replay of its order, or None to go on. */
  function TradeFor(m15: seq<Candle>, m5: seq<Candle>, h1Time: int, dir: Direction, spread: real, j: nat): Option<Outcome>
    requires 1 <= j < |m15|
  {
    if !IsBos(m15, j, h1Time, dir) then None
    else match Candidate(m5, m15[j].time, dir, spread)
      case None => None
      case Some(o) =>
        var out := Realistic(m5, o.time, dir, o.sl, o.tp);
        if out == Open then None else Some(out)
  }

  /** The inner M15 loop from j on: the first break that yields a decided trade. */
  function ScanFrom(m15: seq<Candle>, m5: seq<Candle>, h1Time: int, dir: Direction, spread: real, j: nat): (r: Option<Outcome>)
    requires j >= 1
    decreases |m15| - j
    ensures r.Some? ==> r.value != Open
  {
    if j >= |m15| then None
    else
      var here := TradeFor(m15, m5, h1Time, dir, spread, j);
      if here.Some? then here else ScanFrom(m15, m5, h1Time, dir, spread, j + 1)
  }

  /**
   * The scan's verdict is that of the first M15 bar from j on that yields a decided trade,
   * and None exactly when no bar does.
   */
  lemma {:induction false} ScanIsFirstDecided(m15: seq<Candle>, m5: seq<Candle>, h1Time: int, dir: Direction, spread: real, j: nat)
    requires j >= 1
    decreases |m15| - j
    ensures var r := ScanFrom(m15, m5, h1Time, dir, spread, j);
      && (r.Some? ==> exists q :: j <= q < |m15| && TradeFor(m15, m5, h1Time, dir, spread, q) == r
                                  && forall p :: j <= p < q ==> TradeFor(m15, m5, h1Time, dir, spread, p).None?)
      && (r.None? ==> forall p :: j <= p < |m15| ==> TradeFor(m15, m5, h1Time, dir, spread, p).None?)
  {
    if j < |m15| && TradeFor(m15, m5, h1Time, dir, spread, j).None? {
      ScanIsFirstDecided(m15, m5, h1Time, dir, spread, j + 1);
    }
  }

  /** The counted trade of H1 bar i. */
  function TradeAt(h1: seq<Candle>, m15: seq<Candle>, m5: seq<Candle>, i: nat, spread: real): Option<Outcome>
    requires 1 <= i < |h1|
  {
    match BiasOverwrite(h1[i], h1[i - 1])
    case None => None
    case Some(dir) => ScanFrom(m15, m5, h1[i].time, dir, spread, 1)
  }

  /** The counted outcomes of H1 bars 2 .. n-1, in order. */
  function Results(h1: seq<Candle>, m15: seq<Candle>, m5: seq<Candle>, spread: real, n: nat): seq<Outcome>
    requires n <= |h1|
  {
    if n <= 2 then []
    else Results(h1, m15, m5, spread, n - 1) + AsList(TradeAt(h1, m15, m5, n - 1, spread))
  }

  lemma ResultsStep(h1: seq<Candle>, m15: seq<Candle>, m5: seq<Candle>, spread: real, i: nat)
    requires 2 <= i < |h1|
    ensures Results(h1, m15, m5, spread, i + 1) == Results(h1, m15, m5, spread, i) + AsList(TradeAt(h1, m15, m5, i, spread))
  {
  }

  /**
   * An order is strictly ordered stop / entry / target, the stop is a spread beyond the bar's
   * extreme and the reward is exactly RR times the risk.
   */
  lemma CandidateShape(m5: seq<Candle>, bosTs: int, dir: Direction, spread: real)
    ensures var c := Candidate(m5, bosTs, dir, spread);
      c.Some? ==>
        && FirstAfter(m5, bosTs).Some?
        && var e := m5[FirstAfter(m5, bosTs).value];
        && c.value.time == e.time && c.value.dir == dir && c.value.entry == e.close
        && (dir == Long ==> c.value.sl == e.low - spread && c.value.sl < c.value.entry < c.value.tp
                            && c.value.tp - c.value.entry == RR * (c.value.entry - c.value.sl))
        && (dir == Short ==> c.value.sl == e.high + spread && c.value.tp < c.value.entry < c.value.sl
                             && c.value.entry - c.value.tp == RR * (c.value.sl - c.value.entry))
    ensures FirstAfter(m5, bosTs).Some? ==>
      var e := m5[FirstAfter(m5, bosTs).value];
      Candidate(m5, bosTs, dir, spread).None? <==>
        (if dir == Long then e.close - (e.low - spread) <= 0.0 else (e.high + spread) - e.close <= 0.0)
  {
  }

  /**
   * With the script's own table every spread is non-negative, so the stop lies at or beyond
   * the entry bar's low (LONG) or high (SHORT): the spread only widens it.
   */
  lemma TableCandidateStop(m5: seq<Candle>, bosTs: int, dir: Direction, symbol: string)
    ensures 0.0 <= LookupOrZero(Spreads, symbol) <= 0.8
    ensures var c := Candidate(m5, bosTs, dir, LookupOrZero(Spreads, symbol));
      c.Some? ==>
        && FirstAfter(m5, bosTs).Some?
        && var e := m5[FirstAfter(m5, bosTs).value];
        && (dir == Long ==> c.value.sl <= e.low)
        && (dir == Short ==> c.value.sl >= e.high)
  {
    CandidateShape(m5, bosTs, dir, LookupOrZero(Spreads, symbol));
  }

  /** No counted outcome is OPEN, so every counted trade is a win or a loss. */
  lemma {:induction false} ResultsDecided(h1: seq<Candle>, m15: seq<Candle>, m5: seq<Candle>, spread: real, n: nat)
    requires n <= |h1|
    ensures forall k :: 0 <= k < |Results(h1, m15, m5, spread, n)| ==> Results(h1, m15, m5, spread, n)[k] != Open
    ensures |Results(h1, m15, m5, spread, n)| <= if n <= 2 then 0 else n - 2
  {
    if n > 2 {
      ResultsDecided(h1, m15, m5, spread, n - 1);
    }
  }

  /** trades == wins + losses, and the win rate is in [0, 100] whenever it is defined. */
  lemma ReportBalanced(h1: seq<Candle>, m15: seq<Candle>, m5: seq<Candle>, spread: real)
    ensures var rs := Results(h1, m15, m5, spread, |h1|);
      && |rs| == CountTP(rs) + CountSL(rs)
      && (WinRate(|rs|, CountTP(rs)).Some? ==> 0.0 <= WinRate(|rs|, CountTP(rs)).value <= 100.0)
  {
    var rs := Results(h1, m15, m5, spread, |h1|);
    ResultsDecided(h1, m15, m5, spread, |h1|);
    OutcomeCounts(rs);
  }

  /** The inner `for (j = 1; j < M15.length; j++)` loop, up to its `break`. */
  method ScanM15(m15: seq<Candle>, m5: seq<Candle>, h1Time: int, dir: Direction, spread: real)
    returns (r: Option<Outcome>)
    ensures r == ScanFrom(m15, m5, h1Time, dir, spread, 1)
  {
    var j := 1;
    while j < |m15|
      invariant 1 <= j
      invariant ScanFrom(m15, m5, h1Time, dir, spread, j) == ScanFrom(m15, m5, h1Time, dir, spread, 1)
    {
      var prevM15 := m15[j - 1];
      var curM15 := m15[j];
      if curM15.time <= h1Time {
        j := j + 1;
        continue;
      }
      var structure := false;
      if dir == Long && curM15.close > prevM15.high { structure := true; }
      if dir == Short && curM15.close < prevM15.low { structure := true; }
      if !structure {
        j := j + 1;
        continue;
      }
      var k := FindFirstAfter(m5, curM15.time);
      if k.None? {
        j := j + 1;
        continue;
      }
      var entryM5 := m5[k.value];
      var entry := entryM5.close;
      var sl, tp;
      if dir == Long {
        sl := entryM5.low - spread;
        var risk := entry - sl;
        if risk <= 0.0 {
          j := j + 1;
          continue;
        }
        tp := entry + RR * risk;
      } else {
        sl := entryM5.high + spread;
        var risk := sl - entry;
        if risk <= 0.0 {
          j := j + 1;
          continue;
        }
        tp := entry - RR * risk;
      }
      assert Candidate(m5, curM15.time, dir, spread) == Some(Order(entryM5.time, dir, entry, sl, tp));
      var result := SimulateTradeRealistic(m5, entryM5.time, dir, sl, tp);
      if result == Open {
        j := j + 1;
        continue;
      }
      return Some(result);
    }
    return None;
  }

  /** H1 bar i: the two bias `if`s (`if (!bias) continue`), then the M15 scan. */
  method TradeOfBar(h1: seq<Candle>, m15: seq<Candle>, m5: seq<Candle>, i: nat, spread: real)
    returns (result: Option<Outcome>)
    requires 1 <= i < |h1|
    ensures result == TradeAt(h1, m15, m5, i, spread)
  {
    var prevH1 := h1[i - 1];
    var curH1 := h1[i];
    var bias: Option<Direction> := None;
    if curH1.close > prevH1.high { bias := Some(Long); }
    if curH1.close < prevH1.low { bias := Some(Short); }
    if bias.None? {
      return None;
    }
    result := ScanM15(m15, m5, curH1.time, bias.value, spread);
  }

  /** The H1 loop of `runBacktestForSymbol`: its three counters over the counted outcomes. */
  method CountResults(h1: seq<Candle>, m15: seq<Candle>, m5: seq<Candle>, spread: real)
    returns (trades: nat, wins: nat, losses: nat)
    ensures var rs := Results(h1, m15, m5, spread, |h1|);
      trades == |rs| && wins == CountTP(rs) && losses == CountSL(rs)
  {
    trades, wins, losses := 0, 0, 0;

    var i := 2;
    ghost var rs: seq<Outcome> := [];
    while i < |h1|
      invariant 2 <= i && (i <= |h1| || |h1| < 2)
      invariant rs == Results(h1, m15, m5, spread, if i <= |h1| then i else |h1|)
      invariant trades == |rs| && wins == CountTP(rs) && losses == CountSL(rs)
    {
      ResultsStep(h1, m15, m5, spread, i);
      var result := TradeOfBar(h1, m15, m5, i, spread);
      if result.None? {
        assert rs + [] == rs;
        i := i + 1;
        continue;
      }
      trades, wins, losses := CountOutcome(trades, wins, losses, rs, result.value);
      rs := rs + [result.value];
      i := i + 1;
    }
  }

  /**
   * `runBacktestForSymbol(symbol)`: None when a series is missing; otherwise the number of
   * counted trades, the TP and SL counts among them and the win rate.
   */
  method RunBacktestForSymbol(symbol: string, h1o: Option<seq<Candle>>, m15o: Option<seq<Candle>>, m5o: Option<seq<Candle>>)
    returns (res: Option<Report>)
    ensures (h1o.None? || m15o.None? || m5o.None?) <==> res.None?
    ensures h1o.Some? && m15o.Some? && m5o.Some? ==>
      var rs := Results(h1o.value, m15o.value, m5o.value, LookupOrZero(Spreads, symbol), |h1o.value|);
      res == Some(Report(symbol, |rs|, CountTP(rs), CountSL(rs), WinRate(|rs|, CountTP(rs))))
  {
    if h1o.None? || m15o.None? || m5o.None? {
      return None;
    }
    var trades, wins, losses := CountResults(h1o.value, m15o.value, m5o.value, LookupOrZero(Spreads, symbol));
    res := Some(Report(symbol, trades, wins, losses, WinRate(trades, wins)));
  }
}
