/**
 * h1filter.js `run`: the breakout engine with an H1 body filter. An H1 bar whose body is
 * less than half its range is skipped; otherwise the bias (two independent `if`s) picks a
 * side and only the FIRST M15 break after the H1 bar is looked at. A missing entry, an
 * entry not beyond the stop, an OPEN replay and a counted trade all end the M15 loop.
 */
module H1Filter {
  import opened Candles
  import opened FixedRR
  import opened Stats
  import BreakoutSymbols

  const RR: real := 2.0
  const H1BodyMin: real := 0.5

  /** The `{ symbol, trades, winrate }` record `run` returns. */
  datatype FilterReport = FilterReport(symbol: string, trades: nat, winrate: Option<real>)

  /** `bodyRatio(c)`: |close - open| / (high - low), or 0 when the range is not positive. */
  function BodyRatio(c: Candle): (r: real)
    ensures r >= 0.0
    ensures c.high - c.low <= 0.0 ==> r == 0.0
    ensures c.high - c.low > 0.0 ==> r * (c.high - c.low) == (if c.close >= c.open then c.close - c.open else c.open - c.close)
    ensures WellFormed(c) ==> r <= 1.0
  {
    var body := if c.close >= c.open then c.close - c.open else c.open - c.close;
    var range := c.high - c.low;
    if range <= 0.0 then 0.0
    else
      QuotientAtMostOne(body, range, c);
      body / range
  }

  lemma QuotientAtMostOne(body: real, range: real, c: Candle)
    requires range > 0.0 && range == c.high - c.low
    requires body == (if c.close >= c.open then c.close - c.open else c.open - c.close)
    ensures WellFormed(c) ==> body / range <= 1.0
  {
    if WellFormed(c) {
      assert body <= range;
      assert body / range * range == body;
    }
  }

  /**
   * The counted trade of H1 bar i: the filter, the bias, the first break only, its M5
   * entry, the stop check, the SL-first replay; OPEN is not counted.
   */
  function TradeAt(h1: seq<Candle>, m15: seq<Candle>, m5: seq<Candle>, i: nat): Option<Outcome>
    requires 1 <= i < |h1|
  {
    if BodyRatio(h1[i]) < H1BodyMin then None
    else match BiasOverwrite(h1[i], h1[i - 1])
      case None => None
      case Some(dir) =>
        match FirstBos(m15, h1[i].time, dir)
        case None => None
        case Some(j) =>
          match FirstAfter(m5, m15[j].time)
          case None => None
          case Some(k) =>
            var e := m5[k];
            var entry := e.close;
            var sl := if dir == Long then e.low else e.high;
            if (dir == Long && entry <= sl) || (dir == Short && entry >= sl) then None
            else
              var tp := if dir == Long then entry + RR * (entry - sl) else entry - RR * (sl - entry);
              var r := SlFirst(m5, e.time, dir, sl, tp);
              if r == Open then None else Some(r)
  }

  /** The counted outcomes of H1 bars 2 .. n-1, in order. */
  function Results(h1: seq<Candle>, m15: seq<Candle>, m5: seq<Candle>, n: nat): seq<Outcome>
    requires n <= |h1|
  {
    if n <= 2 then []
    else Results(h1, m15, m5, n - 1) + AsList(TradeAt(h1, m15, m5, n - 1))
  }

  lemma ResultsStep(h1: seq<Candle>, m15: seq<Candle>, m5: seq<Candle>, i: nat)
    requires 2 <= i < |h1|
    ensures Results(h1, m15, m5, i + 1) == Results(h1, m15, m5, i) + AsList(TradeAt(h1, m15, m5, i))
  {
  }

  /** Every counted trade is TP or SL, so t == w + l; at most one per H1 bar. */
  lemma {:induction false} ResultsDecided(h1: seq<Candle>, m15: seq<Candle>, m5: seq<Candle>, n: nat)
    requires n <= |h1|
    ensures forall k :: 0 <= k < |Results(h1, m15, m5, n)| ==> Results(h1, m15, m5, n)[k] != Open
    ensures CountTP(Results(h1, m15, m5, n)) + CountSL(Results(h1, m15, m5, n)) == |Results(h1, m15, m5, n)|
    ensures |Results(h1, m15, m5, n)| <= if n <= 2 then 0 else n - 2
  {
    if n > 2 {
      ResultsDecided(h1, m15, m5, n - 1);
    }
    OutcomeCounts(Results(h1, m15, m5, n));
  }

  /**
   * The scan of breakout_symbols.js from any j up to the first break q reaches q, and
   * places q's order when q has one.
   */
  lemma {:induction false} ScanReachesFirstBos(m15: seq<Candle>, m5: seq<Candle>, h1Time: int, dir: Direction, j: nat, q: nat)
    requires 1 <= j <= q < |m15|
    requires forall p :: j <= p < q ==> !IsBos(m15, p, h1Time, dir)
    requires BreakoutSymbols.TradeFor(m15, m5, h1Time, dir, q).Some?
    ensures BreakoutSymbols.ScanFrom(m15, m5, h1Time, dir, j) == BreakoutSymbols.TradeFor(m15, m5, h1Time, dir, q)
    decreases q - j
  {
    if j < q {
      ScanReachesFirstBos(m15, m5, h1Time, dir, j + 1, q);
    }
  }

  /**
   * Where the body filter lets an H1 bar through and its first break yields a counted
   * trade, breakout_symbols.js (whose bias agrees when the previous bar has low <= high)
   * places the very same order on the very same break and gets the same outcome; the
   * scripts differ where the first break fails and breakout_symbols.js tries later ones.
   */
  lemma AgreesWithBreakoutSymbols(h1: seq<Candle>, m15: seq<Candle>, m5: seq<Candle>, i: nat)
    requires 1 <= i < |h1|
    requires h1[i - 1].low <= h1[i - 1].high
    ensures TradeAt(h1, m15, m5, i).Some? ==> BreakoutSymbols.TradeAt(h1, m15, m5, i) == TradeAt(h1, m15, m5, i)
  {
    BiasVariantsAgree(h1[i], h1[i - 1]);
    if TradeAt(h1, m15, m5, i).Some? {
      var dir := BiasOverwrite(h1[i], h1[i - 1]).value;
      var q := FirstBos(m15, h1[i].time, dir).value;
      assert BreakoutSymbols.TradeFor(m15, m5, h1[i].time, dir, q) == TradeAt(h1, m15, m5, i);
      ScanReachesFirstBos(m15, m5, h1[i].time, dir, 1, q);
    }
  }

  /** One pass of the H1 loop: the filter, the bias, and the M15 loop up to its first break. */
  method TradeOfBar(h1: seq<Candle>, m15: seq<Candle>, m5: seq<Candle>, i: nat) returns (r: Option<Outcome>)
    requires 1 <= i < |h1|
    ensures r == TradeAt(h1, m15, m5, i)
  {
    var prev, cur := h1[i - 1], h1[i];
    if BodyRatio(cur) < H1BodyMin {
      return None;
    }
    var bias: Option<Direction> := None;
    if cur.close > prev.high { bias := Some(Long); }
    if cur.close < prev.low { bias := Some(Short); }
    if bias.None? {
      return None;
    }
    var dir := bias.value;
    var j := FindFirstBos(m15, cur.time, dir);
    if j.None? {
      return None;
    }
    var k := FindFirstAfter(m5, m15[j.value].time);
    if k.None? {
      return None;
    }
    var e := m5[k.value];
    var entry := e.close;
    var sl, tp;
    if dir == Long {
      sl := e.low;
      if entry <= sl {
        return None;
      }
      tp := entry + RR * (entry - sl);
    } else {
      sl := e.high;
      if entry >= sl {
        return None;
      }
      tp := entry - RR * (sl - entry);
    }
    var outcome := SimulateTrade(m5, e.time, dir, sl, tp);
    if outcome != Open {
      return Some(outcome);
    }
    return None;
  }

  /** `run(symbol)`: None when a series is missing, else the trade count and the win rate. */
  method Run(symbol: string, h1o: Option<seq<Candle>>, m15o: Option<seq<Candle>>, m5o: Option<seq<Candle>>)
    returns (res: Option<FilterReport>)
    ensures (h1o.None? || m15o.None? || m5o.None?) <==> res.None?
    ensures h1o.Some? && m15o.Some? && m5o.Some? ==>
      var rs := Results(h1o.value, m15o.value, m5o.value, |h1o.value|);
      res == Some(FilterReport(symbol, |rs|, WinRate(|rs|, CountTP(rs))))
  {
    if h1o.None? || m15o.None? || m5o.None? {
      return None;
    }
    var h1, m15, m5 := h1o.value, m15o.value, m5o.value;
    var t, w, l := 0, 0, 0;

    var i := 2;
    ghost var rs: seq<Outcome> := [];
    while i < |h1|
      invariant 2 <= i && (i <= |h1| || |h1| < 2)
      invariant rs == Results(h1, m15, m5, if i <= |h1| then i else |h1|)
      invariant t == |rs| && w == CountTP(rs) && l == CountSL(rs)
      invariant t == w + l
    {
      ResultsStep(h1, m15, m5, i);
      ResultsDecided(h1, m15, m5, i + 1);
      var r := TradeOfBar(h1, m15, m5, i);
      if r.None? {
        assert rs + [] == rs;
        i := i + 1;
        continue;
      }
      CountsSnoc(rs, r.value);
      t := t + 1;
      if r.value == TP { w := w + 1; } else { l := l + 1; }
      rs := rs + [r.value];
      i := i + 1;
    }

    res := Some(FilterReport(symbol, t, WinRate(t, w)));
  }
}
