/**
 * orb5min-test.js `runBacktest`: the asd.js pipeline without the M5 range filter and with
 * the 2R step ladder (`simulateTrailing2RCap10`, STEP_R = 2, CAP_R = 10). The counters
 * are the same; there is no R histogram.
 */
module Orb5MinTest {
  import opened Candles
  import opened TrailingLadder
  import opened Stats
  import Asd

  /** `SPREADS` of orb5min-test.js, looked up with `?? 0`. */
  const Spreads: map<string, real> := map["GOLD" := 0.15, "Usa500" := 0.8, "GOOGLE.US" := 0.05,
    "MSFT.US" := 0.05, "NFLX.US" := 0.05, "TESLA.US" := 0.05, "NVDA.OQ" := 0.05]

  const StepR: nat := 2
  const CapR: nat := 10

  /** The candidate of H1 bar i: bias, first break (0 taken as none), M5 entry, side check. */
  function SetupAt(h1: seq<Candle>, m15: seq<Candle>, m5: seq<Candle>, i: nat, spread: real): Option<Asd.Setup>
    requires 1 <= i < |h1|
  {
    match BiasOverwrite(h1[i], h1[i - 1])
    case None => None
    case Some(dir) =>
      match FirstBos(m15, h1[i].time, dir)
      case None => None
      case Some(j) =>
        var bosTs := m15[j].time;
        if bosTs == 0 then None
        else
          match FirstAfter(m5, bosTs)
          case None => None
          case Some(k) =>
            var e := m5[k];
            if dir == Long then
              if e.close + spread <= e.low then None else Some(Asd.Setup(e.time, Long, e.close + spread, e.low))
            else
              if e.close - spread >= e.high then None else Some(Asd.Setup(e.time, Short, e.close - spread, e.high))
  }

  /** The ladder configuration of a candidate: step 2R, cap 10R. */
  function ConfigOf(s: Asd.Setup): Config {
    Config(s.time, s.dir, s.entry, Asd.Risk(s), StepR, CapR)
  }

  /** The counted trade of H1 bar i: None when there is no candidate or the replay is OPEN. */
  function TradeAt(h1: seq<Candle>, m15: seq<Candle>, m5: seq<Candle>, i: nat, spread: real): Option<Trail>
    requires 1 <= i < |h1|
  {
    match SetupAt(h1, m15, m5, i, spread)
    case None => None
    case Some(s) =>
      // a candidate's entry is strictly beyond its stop, so its risk is positive
      SetupAtStop(h1, m15, m5, i, spread);
      Ladder(m5, ConfigOf(s), s.sl)
  }

  /** The counted trades of H1 bars 2 .. n-1, in order. */
  function Results(h1: seq<Candle>, m15: seq<Candle>, m5: seq<Candle>, spread: real, n: nat): seq<Trail>
    requires n <= |h1|
  {
    if n <= 2 then []
    else Results(h1, m15, m5, spread, n - 1) + AsList(TradeAt(h1, m15, m5, n - 1, spread))
  }

  /**
   * A candidate's entry is strictly beyond its stop, which is the entry bar's low (LONG)
   * or high (SHORT), so the configuration handed to the ladder is valid and starts at
   * the initial stop one risk away.
   */
  lemma SetupAtStop(h1: seq<Candle>, m15: seq<Candle>, m5: seq<Candle>, i: nat, spread: real)
    requires 1 <= i < |h1|
    ensures var s := SetupAt(h1, m15, m5, i, spread);
      s.Some? ==>
        && (s.value.dir == Long ==> s.value.entry > s.value.sl)
        && (s.value.dir == Short ==> s.value.entry < s.value.sl)
        && ValidConfig(ConfigOf(s.value))
        && InitialStop(ConfigOf(s.value)) == s.value.sl
  {
  }

  /**
   * The two scripts pick the same candidates apart from the range filter: whatever asd.js
   * accepts, orb5min-test.js accepts as well with the same entry and stop, and with no
   * minimum range (and well-formed M5 bars) the two agree everywhere.
   */
  lemma SetupAgreesWithAsd(h1: seq<Candle>, m15: seq<Candle>, m5: seq<Candle>, i: nat, spread: real, minRange: real)
    requires 1 <= i < |h1|
    ensures Asd.SetupAt(h1, m15, m5, i, spread, minRange).Some? ==>
      Asd.SetupAt(h1, m15, m5, i, spread, minRange) == SetupAt(h1, m15, m5, i, spread)
    ensures minRange <= 0.0 && (forall k :: 0 <= k < |m5| ==> m5[k].low <= m5[k].high) ==>
      Asd.SetupAt(h1, m15, m5, i, spread, minRange) == SetupAt(h1, m15, m5, i, spread)
  {
  }

  /**
   * The spread table is the one asd.js and breakout-test.js use, so every spread is
   * non-negative and a LONG is bought at or above the entry bar's close, a SHORT sold at
   * or below it.
   */
  lemma TableSetupAt(h1: seq<Candle>, m15: seq<Candle>, m5: seq<Candle>, i: nat, symbol: string)
    requires 1 <= i < |h1|
    ensures Spreads == Asd.Spreads
    ensures 0.0 <= LookupOrZero(Spreads, symbol) <= 0.8
    ensures var s := SetupAt(h1, m15, m5, i, LookupOrZero(Spreads, symbol));
      s.Some? ==>
        exists k :: 0 <= k < |m5| && m5[k].time == s.value.time
          && (s.value.dir == Long ==> m5[k].close <= s.value.entry && s.value.sl == m5[k].low)
          && (s.value.dir == Short ==> s.value.entry <= m5[k].close && s.value.sl == m5[k].high)
  {
    var spread := LookupOrZero(Spreads, symbol);
    Asd.SymbolTables(symbol);
    SetupAgreesWithAsd(h1, m15, m5, i, spread, 0.0);
    var s := SetupAt(h1, m15, m5, i, spread);
    if s.Some? {
      var dir := BiasOverwrite(h1[i], h1[i - 1]).value;
      var j := FirstBos(m15, h1[i].time, dir).value;
      var k := FirstAfter(m5, m15[j].time).value;
      assert 0 <= k < |m5| && m5[k].time == s.value.time;
    }
  }

  /**
   * Every counted trade realizes one of -1, 0, 2, 4, 6 or 10 and reports a maxRR of
   * 0, 2, 4, 6, 8 or 10; realizedR is the cap exactly when maxRR is.
   */
  lemma {:induction false} ResultsOutcomes(h1: seq<Candle>, m15: seq<Candle>, m5: seq<Candle>, spread: real, n: nat)
    requires n <= |h1|
    ensures forall t :: t in Results(h1, m15, m5, spread, n) ==>
      && t.realizedR in {-1.0, 0.0, 2.0, 4.0, 6.0, 10.0}
      && t.maxRR in {0.0, 2.0, 4.0, 6.0, 8.0, 10.0}
      && (t.realizedR == 10.0 <==> t.maxRR == 10.0)
  {
    if n > 2 {
      ResultsOutcomes(h1, m15, m5, spread, n - 1);
      var tr := TradeAt(h1, m15, m5, n - 1, spread);
      if tr.Some? {
        var s := SetupAt(h1, m15, m5, n - 1, spread).value;
        SetupAtStop(h1, m15, m5, n - 1, spread);
        Ladder2ROutcomes(m5, s.time, s.dir, s.entry, Asd.Risk(s));
      }
    }
  }

  /** At most one counted trade per H1 bar. */
  lemma {:induction false} ResultsAtMostOnePerH1(h1: seq<Candle>, m15: seq<Candle>, m5: seq<Candle>, spread: real, n: nat)
    requires n <= |h1|
    ensures |Results(h1, m15, m5, spread, n)| <= if n <= 2 then 0 else n - 2
  {
    if n > 2 {
      ResultsAtMostOnePerH1(h1, m15, m5, spread, n - 1);
    }
  }

  /** The H1 loop body up to the entry: the bias `if`s, the M15 scan, `!m15BosTs`, the M5 `find`. */
  method FindSetup(h1: seq<Candle>, m15: seq<Candle>, m5: seq<Candle>, i: nat, spread: real)
    returns (setup: Option<Asd.Setup>)
    requires 1 <= i < |h1|
    ensures setup == SetupAt(h1, m15, m5, i, spread)
    ensures setup.Some? ==> Asd.Risk(setup.value) > 0.0
  {
    var prevH1 := h1[i - 1];
    var curH1 := h1[i];
    var bias: Option<Direction> := None;
    if curH1.close > prevH1.high { bias := Some(Long); }
    if curH1.close < prevH1.low { bias := Some(Short); }
    if bias.None? {
      return None;
    }
    var dir := bias.value;

    var bos := FindFirstBos(m15, curH1.time, dir);
    if bos.None? || m15[bos.value].time == 0 {
      return None;
    }
    var m15BosTs := m15[bos.value].time;

    var k := FindFirstAfter(m5, m15BosTs);
    if k.None? {
      return None;
    }
    var entryM5 := m5[k.value];

    if dir == Long {
      var entry := entryM5.close + spread;
      var sl := entryM5.low;
      if entry <= sl {
        return None;
      }
      return Some(Asd.Setup(entryM5.time, Long, entry, sl));
    } else {
      var entry := entryM5.close - spread;
      var sl := entryM5.high;
      if entry >= sl {
        return None;
      }
      return Some(Asd.Setup(entryM5.time, Short, entry, sl));
    }
  }

  /** H1 bar i up to the replay: the candidate, then the 2R ladder (OPEN counts as no trade). */
  method TradeOfBar(h1: seq<Candle>, m15: seq<Candle>, m5: seq<Candle>, i: nat, spread: real)
    returns (result: Option<Trail>)
    requires 1 <= i < |h1|
    ensures result == TradeAt(h1, m15, m5, i, spread)
  {
    var setup := FindSetup(h1, m15, m5, i, spread);
    if setup.None? {
      return None;
    }
    var s := setup.value;
    result := SimulateLadder(m5, s.time, s.dir, s.entry, s.sl, StepR, CapR);
  }

  /** `runBacktest(symbol)`: None when a series is missing, else the summary of the counted trades. */
  method RunBacktest(symbol: string, h1o: Option<seq<Candle>>, m15o: Option<seq<Candle>>, m5o: Option<seq<Candle>>)
    returns (res: Option<Summary>)
    ensures (h1o.None? || m15o.None? || m5o.None?) <==> res.None?
    ensures h1o.Some? && m15o.Some? && m5o.Some? ==>
      res == Some(Summarize(symbol, TallyOf(Results(h1o.value, m15o.value, m5o.value,
                                                    LookupOrZero(Spreads, symbol), |h1o.value|))))
  {
    if h1o.None? || m15o.None? || m5o.None? {
      return None;
    }
    var h1, m15, m5 := h1o.value, m15o.value, m5o.value;
    var spread := LookupOrZero(Spreads, symbol);

    var trades, wins, losses, bes := 0, 0, 0, 0;
    var sumR, sumWinR, maxRR := 0.0, 0.0, 0.0;

    var i := 2;
    ghost var rs: seq<Trail> := [];
    while i < |h1|
      invariant 2 <= i && (i <= |h1| || |h1| < 2)
      invariant rs == Results(h1, m15, m5, spread, if i <= |h1| then i else |h1|)
      invariant Tally(trades, wins, bes, losses, sumR, sumWinR, maxRR) == TallyOf(rs)
    {
      assert Results(h1, m15, m5, spread, i + 1) == rs + AsList(TradeAt(h1, m15, m5, i, spread));
      var result := TradeOfBar(h1, m15, m5, i, spread);
      if result.None? {
        assert rs + [] == rs;
        i := i + 1;
        continue;
      }
      TallyOfSnoc(rs, result.value);
      trades, wins, bes, losses, sumR, sumWinR, maxRR :=
        CountTrade(trades, wins, bes, losses, sumR, sumWinR, maxRR, result.value);
      rs := rs + [result.value];
      i := i + 1;
    }

    res := Some(Summarize(symbol, Tally(trades, wins, bes, losses, sumR, sumWinR, maxRR)));
  }
}
