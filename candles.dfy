/**
 * Candle series shared by every backtest script: the `[time, open, high, low, close]`
 * rows, the trade direction, and the three signal steps that all engines repeat
 * (H1 bias, first M15 structure break, first M5 bar after a timestamp).
 */
module Candles {

  datatype Option<T> = None | Some(value: T)

  /** Some(x) as the one-element list [x], None as the empty list. */
  function AsList<T>(o: Option<T>): (s: seq<T>)
    ensures o.None? <==> s == []
    ensures o.Some? ==> s == [o.value]
  {
    match o
    case None => []
    case Some(x) => [x]
  }

  /** `table[symbol] ?? 0`. */
  function LookupOrZero(table: map<string, real>, symbol: string): real {
    if symbol in table then table[symbol] else 0.0
  }

  /** One OHLC bar; `time` is POSIX seconds. Prices are exact reals. */
  datatype Candle = Candle(time: int, open: real, high: real, low: real, close: real)

  datatype Direction = Long | Short

  /** A live quote `{ time, bid, ask }` (server seconds). */
  datatype Tick = Tick(time: int, bid: real, ask: real)

  /** The candle invariant of a loaded series: low <= open, close <= high. */
  predicate WellFormed(c: Candle) {
    c.low <= c.open <= c.high && c.low <= c.close <= c.high
  }

  /** `cur` closes above the high of `prev`. */
  predicate BreaksUp(cur: Candle, prev: Candle) {
    cur.close > prev.high
  }

  /** `cur` closes below the low of `prev`. */
  predicate BreaksDown(cur: Candle, prev: Candle) {
    cur.close < prev.low
  }

  /** The direction-gated two-bar break used for bias and for structure breaks. */
  predicate Breaks(cur: Candle, prev: Candle, dir: Direction) {
    if dir == Long then BreaksUp(cur, prev) else BreaksDown(cur, prev)
  }

  /**
   * Bias written as two independent `if`s (asd.js, orb5min-test.js, breakout-test.js,
   * h1filter.js): the SHORT assignment runs second, so it wins when both hold.
   */
  function BiasOverwrite(cur: Candle, prev: Candle): (b: Option<Direction>)
    ensures b == Some(Short) <==> BreaksDown(cur, prev)
    ensures b == Some(Long) <==> BreaksUp(cur, prev) && !BreaksDown(cur, prev)
    ensures b == None <==> !BreaksUp(cur, prev) && !BreaksDown(cur, prev)
  {
    var afterLong := if BreaksUp(cur, prev) then Some(Long) else None;
    if BreaksDown(cur, prev) then Some(Short) else afterLong
  }

  /** Bias written with `else if` (breakout_symbols.js, backtest-orb15.js): LONG wins. */
  function BiasLongFirst(cur: Candle, prev: Candle): (b: Option<Direction>)
    ensures b == Some(Long) <==> BreaksUp(cur, prev)
    ensures b == Some(Short) <==> BreaksDown(cur, prev) && !BreaksUp(cur, prev)
    ensures b == None <==> !BreaksUp(cur, prev) && !BreaksDown(cur, prev)
  {
    if BreaksUp(cur, prev) then Some(Long)
    else if BreaksDown(cur, prev) then Some(Short)
    else None
  }

  /** Whatever bias a bar produces, it is a break of the previous bar in that direction. */
  lemma BiasIsBreak(cur: Candle, prev: Candle)
    ensures BiasOverwrite(cur, prev).Some? ==> Breaks(cur, prev, BiasOverwrite(cur, prev).value)
    ensures BiasLongFirst(cur, prev).Some? ==> Breaks(cur, prev, BiasLongFirst(cur, prev).value)
  {
  }

  /**
   * When the previous bar is well formed (low <= high) at most one break direction holds,
   * so the two ways of writing the bias agree; they differ only on a bar with low > high.
   */
  lemma BiasVariantsAgree(cur: Candle, prev: Candle)
    ensures prev.low <= prev.high ==> !(BreaksUp(cur, prev) && BreaksDown(cur, prev))
    ensures prev.low <= prev.high ==> BiasOverwrite(cur, prev) == BiasLongFirst(cur, prev)
    ensures BiasOverwrite(cur, prev) != BiasLongFirst(cur, prev) <==> BreaksUp(cur, prev) && BreaksDown(cur, prev)
  {
  }

  /* ---------------- first bar after a timestamp (`series.find(c => c[0] > ts)`) */

  /** Index of the first bar at or after `i` whose time is strictly after `ts`. */
  function FirstAfterFrom(s: seq<Candle>, ts: int, i: nat): (k: Option<nat>)
    requires i <= |s|
    decreases |s| - i
    ensures k.Some? ==> i <= k.value < |s| && s[k.value].time > ts
    ensures k.Some? ==> forall j :: i <= j < k.value ==> s[j].time <= ts
    ensures k.None? ==> forall j :: i <= j < |s| ==> s[j].time <= ts
  {
    if i == |s| then None
    else if s[i].time > ts then Some(i)
    else FirstAfterFrom(s, ts, i + 1)
  }

  function FirstAfter(s: seq<Candle>, ts: int): Option<nat> {
    FirstAfterFrom(s, ts, 0)
  }

  /** `Array.prototype.find` over the series: a front-to-back scan. */
  method FindFirstAfter(s: seq<Candle>, ts: int) returns (k: Option<nat>)
    ensures k == FirstAfter(s, ts)
  {
    var i := 0;
    while i < |s|
      invariant 0 <= i <= |s|
      invariant FirstAfterFrom(s, ts, i) == FirstAfter(s, ts)
    {
      if s[i].time > ts {
        return Some(i);
      }
      i := i + 1;
    }
    return None;
  }

  /* ---------------- first structure break on M15 after an H1 bar */

  /** M15 bar `j` (with predecessor `j-1`) is after `h1Time` and breaks in `dir`. */
  predicate IsBos(m15: seq<Candle>, j: nat, h1Time: int, dir: Direction)
    requires 1 <= j < |m15|
  {
    m15[j].time > h1Time && Breaks(m15[j], m15[j - 1], dir)
  }

  /** The scan `for (j = start; j < M15.length; j++)` that stops at the first break. */
  function FirstBosFrom(m15: seq<Candle>, h1Time: int, dir: Direction, j: nat): (k: Option<nat>)
    requires j >= 1
    decreases |m15| - j
    ensures k.Some? ==> j <= k.value < |m15| && IsBos(m15, k.value, h1Time, dir)
    ensures k.Some? ==> forall q :: j <= q < k.value ==> !IsBos(m15, q, h1Time, dir)
    ensures k.None? ==> forall q :: j <= q < |m15| ==> !IsBos(m15, q, h1Time, dir)
  {
    if j >= |m15| then None
    else if IsBos(m15, j, h1Time, dir) then Some(j)
    else FirstBosFrom(m15, h1Time, dir, j + 1)
  }

  /** The scan always restarts at j = 1, whatever earlier H1 bars found. */
  function FirstBos(m15: seq<Candle>, h1Time: int, dir: Direction): Option<nat> {
    FirstBosFrom(m15, h1Time, dir, 1)
  }

  /** The M15 loop of asd.js / orb5min-test.js / h1filter.js: skip, test, break on the first. */
  method FindFirstBos(m15: seq<Candle>, h1Time: int, dir: Direction) returns (k: Option<nat>)
    ensures k == FirstBos(m15, h1Time, dir)
  {
    var j := 1;
    while j < |m15|
      invariant 1 <= j
      invariant FirstBosFrom(m15, h1Time, dir, j) == FirstBos(m15, h1Time, dir)
    {
      var prev := m15[j - 1];
      var cur := m15[j];
      if cur.time <= h1Time {
        j := j + 1;
        continue;
      }
      if (dir == Long && cur.close > prev.high) || (dir == Short && cur.close < prev.low) {
        return Some(j);
      }
      j := j + 1;
    }
    return None;
  }

  /**
   * The scan does not depend on earlier H1 bars: two H1 bars whose times fall between the
   * same two M15 bars, with the same bias, claim the very same break.
   */
  lemma {:induction false} FirstBosSharedAcrossH1(m15: seq<Candle>, t1: int, t2: int, dir: Direction, j: nat)
    requires j >= 1
    requires t1 <= t2
    requires forall q :: j <= q < |m15| ==> (m15[q].time > t1 <==> m15[q].time > t2)
    ensures FirstBosFrom(m15, t1, dir, j) == FirstBosFrom(m15, t2, dir, j)
    decreases |m15| - j
  {
    if j < |m15| {
      FirstBosSharedAcrossH1(m15, t1, t2, dir, j + 1);
    }
  }
}
