/**
 * asd.js `runBacktest`: H1 bias (two independent `if`s), first M15 break after the H1 bar,
 * first M5 bar after the break as entry (close +- spread, stop at the bar's far extreme,
 * rejected below the symbol's minimum M5 range), the 1R ladder with a 10R cap, then the
 * counters and the shared R histogram.
 */
module Asd {
  import opened Candles
  import opened TrailingLadder
  import opened Stats

  /** `SPREADS` and `MIN_M5_RANGE` of asd.js, looked up with `?? 0` (LookupOrZero). */
  const Spreads: map<string, real> := map["GOLD" := 0.15, "Usa500" := 0.8, "GOOGLE.US" := 0.05,
    "MSFT.US" := 0.05, "NFLX.US" := 0.05, "TESLA.US" := 0.05, "NVDA.OQ" := 0.05]

  const MinM5Range: map<string, real> := map["GOLD" := 0.5, "Usa500" := 2.0, "GOOGLE.US" := 0.3,
    "MSFT.US" := 0.3, "NFLX.US" := 0.6, "TESLA.US" := 0.6, "NVDA.OQ" := 0.3]

  const StepR: nat := 1
  const CapR: nat := 10

  /** A trade about to be replayed: the entry bar's time, the side, the entry and the stop. */
  datatype Setup = Setup(time: int, dir: Direction, entry: real, sl: real)

  /** `Math.abs(entry - sl)`. */
  function Risk(s: Setup): real {
    if s.entry >= s.sl then s.entry - s.sl else s.sl - s.entry
  }

  /** The candidate of H1 bar i, or None for every `continue` before the replay. */
  function SetupAt(h1: seq<Candle>, m15: seq<Candle>, m5: seq<Candle>, i: nat, spread: real, minRange: real): Option<Setup>
    requires 1 <= i < |h1|
  {
    match BiasOverwrite(h1[i], h1[i - 1])
    case None => None
    case Some(dir) =>
      match FirstBos(m15, h1[i].time, dir)
      case None => None
      case Some(j) =>
        var bosTs := m15[j].time;
        if bosTs == 0 then None
        else
          match FirstAfter(m5, bosTs)
          case None => None
          case Some(k) =>
            var e := m5[k];
            if e.high - e.low < minRange then None
            else if dir == Long then
              if e.close + spread <= e.low then None else Some(Setup(e.time, Long, e.close + spread, e.low))
            else
              if e.close - spread >= e.high then None else Some(Setup(e.time, Short, e.close - spread, e.high))
  }

  /** The ladder configuration of a candidate: step 1R, cap 10R. */
  function ConfigOf(s: Setup): Config {
    Config(s.time, s.dir, s.entry, Risk(s), StepR, CapR)
  }

  /** The counted trade of H1 bar i: None when there is no candidate or the replay is OPEN. */
  function TradeAt(h1: seq<Candle>, m15: seq<Candle>, m5: seq<Candle>, i: nat, spread: real, minRange: real): Option<Trail>
    requires 1 <= i < |h1|
  {
    match SetupAt(h1, m15, m5, i, spread, minRange)
    case None => None
    case Some(s) =>
      // a candidate's entry is strictly beyond its stop, so its risk is positive
      SetupAtSpec(h1, m15, m5, i, spread, minRange);
      Ladder(m5, ConfigOf(s), s.sl)
  }

  /** The counted trades of H1 bars 2 .. n-1, in order. */
  function Results(h1: seq<Candle>, m15: seq<Candle>, m5: seq<Candle>, spread: real, minRange: real, n: nat): seq<Trail>
    requires n <= |h1|
  {
    if n <= 2 then []
    else
      Results(h1, m15, m5, spread, minRange, n - 1)
        + AsList(TradeAt(h1, m15, m5, n - 1, spread, minRange))
  }

  /**
   * What a candidate is: its side is the H1 bias, it is the first M5 bar after the first
   * M15 break (a break at time 0 is taken as none), the bar's range is at least the
   * minimum, and the entry is strictly beyond the stop, which is the bar's far extreme.
   */
  lemma SetupAtSpec(h1: seq<Candle>, m15: seq<Candle>, m5: seq<Candle>, i: nat, spread: real, minRange: real)
    requires 1 <= i < |h1|
    ensures var s := SetupAt(h1, m15, m5, i, spread, minRange);
      s.Some? ==>
        && BiasOverwrite(h1[i], h1[i - 1]) == Some(s.value.dir)
        && FirstBos(m15, h1[i].time, s.value.dir).Some?
        && (var bosTs := m15[FirstBos(m15, h1[i].time, s.value.dir).value].time;
            && bosTs != 0
            && FirstAfter(m5, bosTs).Some?
            && var e := m5[FirstAfter(m5, bosTs).value];
               && s.value.time == e.time
               && e.high - e.low >= minRange
               && (s.value.dir == Long ==> s.value.sl == e.low && s.value.entry == e.close + spread && s.value.entry > s.value.sl)
               && (s.value.dir == Short ==> s.value.sl == e.high && s.value.entry == e.close - spread && s.value.entry < s.value.sl))
  {
  }

  /**
   * The script's own tables: every spread and every minimum range is non-negative, and a
   * symbol is range-filtered exactly when it is listed in `MIN_M5_RANGE`.
   */
  lemma SymbolTables(symbol: string)
    ensures 0.0 <= LookupOrZero(Spreads, symbol) <= 0.8
    ensures 0.0 <= LookupOrZero(MinM5Range, symbol) <= 2.0
    ensures LookupOrZero(MinM5Range, symbol) > 0.0 <==> symbol in MinM5Range
  {
  }

  /**
   * With the script's own tables the spread only worsens the fill: a LONG is bought at or
   * above the entry bar's close and a SHORT sold at or below it, and the entry bar that
   * passes the range filter is well formed (low <= high).
   */
  lemma TableSetupAt(h1: seq<Candle>, m15: seq<Candle>, m5: seq<Candle>, i: nat, symbol: string)
    requires 1 <= i < |h1|
    ensures var s := SetupAt(h1, m15, m5, i, LookupOrZero(Spreads, symbol), LookupOrZero(MinM5Range, symbol));
      s.Some? ==>
        exists k :: 0 <= k < |m5| && m5[k].time == s.value.time && m5[k].low <= m5[k].high
          && (s.value.dir == Long ==> m5[k].close <= s.value.entry && s.value.sl == m5[k].low)
          && (s.value.dir == Short ==> s.value.entry <= m5[k].close && s.value.sl == m5[k].high)
  {
    var spread, minRange := LookupOrZero(Spreads, symbol), LookupOrZero(MinM5Range, symbol);
    SymbolTables(symbol);
    SetupAtSpec(h1, m15, m5, i, spread, minRange);
    var s := SetupAt(h1, m15, m5, i, spread, minRange);
    if s.Some? {
      var j := FirstBos(m15, h1[i].time, s.value.dir).value;
      var k := FirstAfter(m5, m15[j].time).value;
      assert 0 <= k < |m5| && m5[k].time == s.value.time && m5[k].low <= m5[k].high;
    }
  }

  /** Every counted trade realizes -1, a whole 0 .. 8 or the cap 10; the cap iff maxRR is 10. */
  lemma {:induction false} ResultsOutcomes(h1: seq<Candle>, m15: seq<Candle>, m5: seq<Candle>, spread: real, minRange: real, n: nat)
    requires n <= |h1|
    ensures forall t :: t in Results(h1, m15, m5, spread, minRange, n) ==>
      && (t.realizedR == -1.0 || t.realizedR == 10.0 || (t.realizedR.Floor as real == t.realizedR && 0.0 <= t.realizedR <= 8.0))
      && (t.realizedR == 10.0 <==> t.maxRR == 10.0)
  {
    if n > 2 {
      ResultsOutcomes(h1, m15, m5, spread, minRange, n - 1);
      var tr := TradeAt(h1, m15, m5, n - 1, spread, minRange);
      if tr.Some? {
        var s := SetupAt(h1, m15, m5, n - 1, spread, minRange).value;
        SetupAtSpec(h1, m15, m5, n - 1, spread, minRange);
        assert InitialStop(ConfigOf(s)) == s.sl;
        Ladder1ROutcomes(m5, s.time, s.dir, s.entry, Risk(s));
      }
    }
  }

  /** At most one counted trade per H1 bar. */
  lemma {:induction false} ResultsAtMostOnePerH1(h1: seq<Candle>, m15: seq<Candle>, m5: seq<Candle>, spread: real, minRange: real, n: nat)
    requires n <= |h1|
    ensures |Results(h1, m15, m5, spread, minRange, n)| <= if n <= 2 then 0 else n - 2
  {
    if n > 2 {
      ResultsAtMostOnePerH1(h1, m15, m5, spread, minRange, n - 1);
    }
  }

  /**
   * The part of the H1 loop body of `runBacktest` that picks the candidate: the two bias
   * `if`s, the M15 scan, the `!bosTs` test, the M5 `find`, the range filter and the entry.
   */
  method FindSetup(h1: seq<Candle>, m15: seq<Candle>, m5: seq<Candle>, i: nat, spread: real, minRange: real)
    returns (setup: Option<Setup>)
    requires 1 <= i < |h1|
    ensures setup == SetupAt(h1, m15, m5, i, spread, minRange)
    ensures setup.Some? ==> Risk(setup.value) > 0.0
  {
    var prevH1 := h1[i - 1];
    var curH1 := h1[i];
    var bias: Option<Direction> := None;
    if curH1.close > prevH1.high { bias := Some(Long); }
    if curH1.close < prevH1.low { bias := Some(Short); }
    if bias.None? {
      return None;
    }
    var dir := bias.value;

    var bos := FindFirstBos(m15, curH1.time, dir);
    if bos.None? || m15[bos.value].time == 0 {
      return None;
    }
    var bosTs := m15[bos.value].time;

    var k := FindFirstAfter(m5, bosTs);
    if k.None? {
      return None;
    }
    var entryM5 := m5[k.value];

    var m5Range := entryM5.high - entryM5.low;
    if m5Range < minRange {
      return None;
    }

    if dir == Long {
      var entry := entryM5.close + spread;
      var sl := entryM5.low;
      if entry <= sl {
        return None;
      }
      return Some(Setup(entryM5.time, Long, entry, sl));
    } else {
      var entry := entryM5.close - spread;
      var sl := entryM5.high;
      if entry >= sl {
        return None;
      }
      return Some(Setup(entryM5.time, Short, entry, sl));
    }
  }

  /** H1 bar i up to the replay: the candidate, then the ladder (OPEN counts as no trade). */
  method TradeOfBar(h1: seq<Candle>, m15: seq<Candle>, m5: seq<Candle>, i: nat, spread: real, minRange: real)
    returns (result: Option<Trail>)
    requires 1 <= i < |h1|
    ensures result == TradeAt(h1, m15, m5, i, spread, minRange)
  {
    var setup := FindSetup(h1, m15, m5, i, spread, minRange);
    if setup.None? {
      return None;
    }
    var s := setup.value;
    result := SimulateLadder(m5, s.time, s.dir, s.entry, s.sl, StepR, CapR);
  }

  /**
   * `runBacktest(symbol, R_BUCKETS)`: None when a series is missing; otherwise the summary
   * of the counted trades, each of which was also added to the shared histogram.
   */
  method RunBacktest(symbol: string, h1o: Option<seq<Candle>>, m15o: Option<seq<Candle>>, m5o: Option<seq<Candle>>, buckets: RBuckets)
    returns (res: Option<Summary>)
    requires buckets.Valid()
    modifies buckets
    ensures buckets.Valid()
    ensures (h1o.None? || m15o.None? || m5o.None?) ==> res.None? && buckets.counts == old(buckets.counts)
    ensures h1o.Some? && m15o.Some? && m5o.Some? ==>
      var rs := Results(h1o.value, m15o.value, m5o.value, LookupOrZero(Spreads, symbol), LookupOrZero(MinM5Range, symbol), |h1o.value|);
      && res == Some(Summarize(symbol, TallyOf(rs)))
      && buckets.counts == BumpAll(old(buckets.counts), rs)
  {
    if h1o.None? || m15o.None? || m5o.None? {
      return None;
    }
    var h1, m15, m5 := h1o.value, m15o.value, m5o.value;
    var spread := LookupOrZero(Spreads, symbol);
    var minRange := LookupOrZero(MinM5Range, symbol);
    ghost var counts0 := buckets.counts;

    var trades, wins, losses, bes := 0, 0, 0, 0;
    var sumR, sumWinR, maxRR := 0.0, 0.0, 0.0;

    var i := 2;
    ghost var rs: seq<Trail> := [];
    while i < |h1|
      invariant 2 <= i && (i <= |h1| || |h1| < 2)
      invariant rs == Results(h1, m15, m5, spread, minRange, if i <= |h1| then i else |h1|)
      invariant buckets.Valid()
      invariant Tally(trades, wins, bes, losses, sumR, sumWinR, maxRR) == TallyOf(rs)
      invariant buckets.counts == BumpAll(counts0, rs)
    {
      assert Results(h1, m15, m5, spread, minRange, i + 1)
        == rs + AsList(TradeAt(h1, m15, m5, i, spread, minRange));

      var result := TradeOfBar(h1, m15, m5, i, spread, minRange);
      if result.None? {
        assert rs + [] == rs;
        i := i + 1;
        continue;
      }
      var r := result.value.realizedR;

      TallyOfSnoc(rs, result.value);
      BumpAllSnoc(counts0, rs, result.value);
      trades, wins, bes, losses, sumR, sumWinR, maxRR :=
        CountTrade(trades, wins, bes, losses, sumR, sumWinR, maxRR, result.value);
      buckets.Add(r);
      rs := rs + [result.value];
      i := i + 1;
    }

    res := Some(Summarize(symbol, Tally(trades, wins, bes, losses, sumR, sumWinR, maxRR)));
  }
}
