/**
 * Fixed reward-to-risk exits: a stop and a target that never move. Two replay loops
 * exist in the scripts: the SL-first one (breakout_symbols.js `simulateTrade`, copied
 * verbatim as backtest-orb15.js `simulateTrade` and h1filter.js `simulate`) and the
 * "realistic" one of breakout-test.js with its explicit both-hit rule.
 */
module FixedRR {
  import opened Candles

  datatype Outcome = TP | SL | Open

  /** A fixed-RR order: the entry bar's time, the side, the entry, the stop and the target. */
  datatype Order = Order(time: int, dir: Direction, entry: real, sl: real, tp: real)

  /** The bar reaches the stop: low <= sl for LONG, high >= sl for SHORT. */
  predicate HitsStop(c: Candle, dir: Direction, sl: real) {
    if dir == Long then c.low <= sl else c.high >= sl
  }

  /** The bar reaches the target: high >= tp for LONG, low <= tp for SHORT. */
  predicate HitsTarget(c: Candle, dir: Direction, tp: real) {
    if dir == Long then c.high >= tp else c.low <= tp
  }

  /** The target for a reward-to-risk ratio `rr` and a positive `risk`. */
  function Target(dir: Direction, entry: real, risk: real, rr: real): real {
    if dir == Long then entry + rr * risk else entry - rr * risk
  }

  /** Replay of `simulateTrade`: bars up to `entryTime` are skipped, then SL is tested first. */
  function SlFirstFrom(m5: seq<Candle>, entryTime: int, dir: Direction, sl: real, tp: real, i: nat): Outcome
    requires i <= |m5|
    decreases |m5| - i
  {
    if i == |m5| then Open
    else if m5[i].time <= entryTime then SlFirstFrom(m5, entryTime, dir, sl, tp, i + 1)
    else if HitsStop(m5[i], dir, sl) then SL
    else if HitsTarget(m5[i], dir, tp) then TP
    else SlFirstFrom(m5, entryTime, dir, sl, tp, i + 1)
  }

  function SlFirst(m5: seq<Candle>, entryTime: int, dir: Direction, sl: real, tp: real): Outcome {
    SlFirstFrom(m5, entryTime, dir, sl, tp, 0)
  }

  /** Replay of `simulateTradeRealistic`: both-hit first, then SL-only, then TP-only. */
  function RealisticFrom(m5: seq<Candle>, entryTime: int, dir: Direction, sl: real, tp: real, i: nat): Outcome
    requires i <= |m5|
    decreases |m5| - i
  {
    if i == |m5| then Open
    else if m5[i].time <= entryTime then RealisticFrom(m5, entryTime, dir, sl, tp, i + 1)
    else
      var hitSL := HitsStop(m5[i], dir, sl);
      var hitTP := HitsTarget(m5[i], dir, tp);
      if hitSL && hitTP then SL
      else if hitSL then SL
      else if hitTP then TP
      else RealisticFrom(m5, entryTime, dir, sl, tp, i + 1)
  }

  function Realistic(m5: seq<Candle>, entryTime: int, dir: Direction, sl: real, tp: real): Outcome {
    RealisticFrom(m5, entryTime, dir, sl, tp, 0)
  }

  /* ---------------- a reference definition: the first bar after entry that touches a level */

  predicate Touches(c: Candle, dir: Direction, sl: real, tp: real) {
    HitsStop(c, dir, sl) || HitsTarget(c, dir, tp)
  }

  /** Index of the first bar at or after `i`, later than `entryTime`, that touches SL or TP. */
  function FirstTouchFrom(m5: seq<Candle>, entryTime: int, dir: Direction, sl: real, tp: real, i: nat): (k: Option<nat>)
    requires i <= |m5|
    decreases |m5| - i
    ensures k.Some? ==> i <= k.value < |m5| && m5[k.value].time > entryTime && Touches(m5[k.value], dir, sl, tp)
    ensures k.Some? ==> forall j :: i <= j < k.value && m5[j].time > entryTime ==> !Touches(m5[j], dir, sl, tp)
    ensures k.None? ==> forall j :: i <= j < |m5| && m5[j].time > entryTime ==> !Touches(m5[j], dir, sl, tp)
  {
    if i == |m5| then None
    else if m5[i].time > entryTime && Touches(m5[i], dir, sl, tp) then Some(i)
    else FirstTouchFrom(m5, entryTime, dir, sl, tp, i + 1)
  }

  /** What the first touching bar decides when a SL-and-TP bar counts as a loss. */
  function Decide(m5: seq<Candle>, k: Option<nat>, dir: Direction, sl: real): Outcome
    requires k.Some? ==> k.value < |m5|
  {
    match k
    case None => Open
    case Some(j) => if HitsStop(m5[j], dir, sl) then SL else TP
  }

  /**
   * The SL-first replay returns the verdict of the first bar after entry that touches
   * either level, and OPEN exactly when no such bar exists.
   */
  lemma {:induction false} SlFirstIsFirstTouch(m5: seq<Candle>, entryTime: int, dir: Direction, sl: real, tp: real, i: nat)
    requires i <= |m5|
    ensures SlFirstFrom(m5, entryTime, dir, sl, tp, i) == Decide(m5, FirstTouchFrom(m5, entryTime, dir, sl, tp, i), dir, sl)
    decreases |m5| - i
  {
    if i < |m5| {
      SlFirstIsFirstTouch(m5, entryTime, dir, sl, tp, i + 1);
    }
  }

  /** The realistic replay is governed by the very same first touching bar. */
  lemma {:induction false} RealisticIsFirstTouch(m5: seq<Candle>, entryTime: int, dir: Direction, sl: real, tp: real, i: nat)
    requires i <= |m5|
    ensures RealisticFrom(m5, entryTime, dir, sl, tp, i) == Decide(m5, FirstTouchFrom(m5, entryTime, dir, sl, tp, i), dir, sl)
    decreases |m5| - i
  {
    if i < |m5| {
      RealisticIsFirstTouch(m5, entryTime, dir, sl, tp, i + 1);
    }
  }

  /**
   * On identical inputs the realistic replay of breakout-test.js and the SL-first replay
   * of breakout_symbols.js give the same result: checking SL first already resolves a
   * both-hit bar to SL, so the explicit tie rule changes nothing.
   */
  lemma RealisticEqualsSlFirst(m5: seq<Candle>, entryTime: int, dir: Direction, sl: real, tp: real)
    ensures Realistic(m5, entryTime, dir, sl, tp) == SlFirst(m5, entryTime, dir, sl, tp)
  {
    SlFirstIsFirstTouch(m5, entryTime, dir, sl, tp, 0);
    RealisticIsFirstTouch(m5, entryTime, dir, sl, tp, 0);
  }

  /**
   * A bar that reaches both the stop and the target, when it is the first bar after entry
   * to reach either, ends the trade as SL under both replays.
   */
  lemma BothHitIsLoss(m5: seq<Candle>, entryTime: int, dir: Direction, sl: real, tp: real, k: nat)
    requires k < |m5| && m5[k].time > entryTime
    requires HitsStop(m5[k], dir, sl) && HitsTarget(m5[k], dir, tp)
    requires forall j :: 0 <= j < k && m5[j].time > entryTime ==> !Touches(m5[j], dir, sl, tp)
    ensures Realistic(m5, entryTime, dir, sl, tp) == SL
    ensures SlFirst(m5, entryTime, dir, sl, tp) == SL
  {
    assert FirstTouchFrom(m5, entryTime, dir, sl, tp, 0) == Some(k);
    SlFirstIsFirstTouch(m5, entryTime, dir, sl, tp, 0);
    RealisticIsFirstTouch(m5, entryTime, dir, sl, tp, 0);
  }

  /** `simulateTrade` of breakout_symbols.js (and its copies): a scanning loop with early returns. */
  method SimulateTrade(m5: seq<Candle>, entryTime: int, dir: Direction, sl: real, tp: real) returns (r: Outcome)
    ensures r == SlFirst(m5, entryTime, dir, sl, tp)
  {
    var i := 0;
    while i < |m5|
      invariant 0 <= i <= |m5|
      invariant SlFirstFrom(m5, entryTime, dir, sl, tp, i) == SlFirst(m5, entryTime, dir, sl, tp)
    {
      var c := m5[i];
      if c.time <= entryTime {
        i := i + 1;
        continue;
      }
      if dir == Long {
        if c.low <= sl { return SL; }
        if c.high >= tp { return TP; }
      } else {
        if c.high >= sl { return SL; }
        if c.low <= tp { return TP; }
      }
      i := i + 1;
    }
    return Open;
  }

  /** `simulateTradeRealistic` of breakout-test.js. */
  method SimulateTradeRealistic(m5: seq<Candle>, entryTime: int, dir: Direction, sl: real, tp: real) returns (r: Outcome)
    ensures r == Realistic(m5, entryTime, dir, sl, tp)
  {
    var i := 0;
    while i < |m5|
      invariant 0 <= i <= |m5|
      invariant RealisticFrom(m5, entryTime, dir, sl, tp, i) == Realistic(m5, entryTime, dir, sl, tp)
    {
      var c := m5[i];
      if c.time <= entryTime {
        i := i + 1;
        continue;
      }
      var hitSL := if dir == Long then c.low <= sl else c.high >= sl;
      var hitTP := if dir == Long then c.high >= tp else c.low <= tp;
      if hitSL && hitTP { return SL; }
      if hitSL { return SL; }
      if hitTP { return TP; }
      i := i + 1;
    }
    return Open;
  }

  /**
   * A SHORT trade with entry 200, stop 210 and target 180 whose first later bar spans
   * 179 to 205 ends at the target: the bar never reaches the stop.
   */
  lemma ShortTargetExample()
    ensures SlFirst([Candle(1, 200.0, 200.0, 200.0, 200.0), Candle(2, 200.0, 205.0, 179.0, 190.0)], 1, Short, 210.0, 180.0) == TP
    ensures Realistic([Candle(1, 200.0, 200.0, 200.0, 200.0), Candle(2, 200.0, 205.0, 179.0, 190.0)], 1, Short, 210.0, 180.0) == TP
  {
  }
}
