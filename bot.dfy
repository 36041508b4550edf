/**
 * bot.js: the pure helpers of the live ORB5 + FVG retest bot on M1/M5 rates. Rate arrays
 * arrive newest first; a session searches for two hours after its opening time.
 */
module Bot {
  import opened Candles

  const RR: real := 3.0
  const MaxSpreadPoints: int := 60
  const SearchWindowMin: int := 120

  /** The per-session record `newSessionState` creates; `null` fields are None. */
  datatype SessionState = SessionState(
    openTs: int, endTs: int,
    orbReady: bool, orbHigh: Option<real>, orbLow: Option<real>,
    fvgFound: bool, waitingRetest: bool,
    zoneTop: Option<real>, zoneBottom: Option<real>,
    dir: Option<Direction>, sl: Option<real>, traded: bool)

  /** `newSessionState(openTs)`. */
  function NewSessionState(openTs: int): (st: SessionState)
    ensures st.openTs == openTs && st.endTs == openTs + 7200
    ensures !st.orbReady && !st.fvgFound && !st.waitingRetest && !st.traded
    ensures st.orbHigh.None? && st.orbLow.None? && st.zoneTop.None? && st.zoneBottom.None?
    ensures st.dir.None? && st.sl.None?
  {
    SessionState(openTs, openTs + SearchWindowMin * 60, false, None, None, false, false, None, None, None, None, false)
  }

  /** `spreadOkFromRates(spread)`: an absent spread passes, otherwise spread <= 60. */
  predicate SpreadOkFromRates(spread: Option<int>) {
    spread.None? || spread.value <= MaxSpreadPoints
  }

  lemma SpreadOkFromRatesSpec(spread: Option<int>)
    ensures spread.None? ==> SpreadOkFromRates(spread)
    ensures spread.Some? ==> (SpreadOkFromRates(spread) <==> spread.value <= 60)
  {
  }

  /* ---------------- the opening M5 bar (bot.js:95-107) */

  /** The M5 bar opens in [openTs, openTs + 300). */
  predicate InOpenWindow(t: int, openTs: int) {
    openTs <= t < openTs + 5 * 60
  }

  /** The first index from i on whose time is exactly openTs. */
  function ExactFrom(s: seq<Candle>, openTs: int, i: nat): (k: Option<nat>)
    requires i <= |s|
    decreases |s| - i
    ensures k.Some? ==> i <= k.value < |s| && s[k.value].time == openTs
  {
    if i == |s| then None
    else if s[i].time == openTs then Some(i)
    else ExactFrom(s, openTs, i + 1)
  }

  /** The first index from i on whose time lies in the opening window. */
  function WindowFrom(s: seq<Candle>, openTs: int, i: nat): (k: Option<nat>)
    requires i <= |s|
    decreases |s| - i
    ensures k.Some? ==> i <= k.value < |s| && InOpenWindow(s[k.value].time, openTs)
  {
    if i == |s| then None
    else if InOpenWindow(s[i].time, openTs) then Some(i)
    else WindowFrom(s, openTs, i + 1)
  }

  /** The bar `findFirstM5BarAtOpen` returns: an exact match first, else the first in the window. */
  function BarAtOpen(s: seq<Candle>, openTs: int): Option<Candle> {
    match ExactFrom(s, openTs, 0)
    case Some(k) => Some(s[k])
    case None =>
      match WindowFrom(s, openTs, 0)
      case Some(k) => Some(s[k])
      case None => None
  }

  lemma {:induction false} ExactFromNone(s: seq<Candle>, openTs: int, i: nat)
    requires i <= |s|
    decreases |s| - i
    ensures ExactFrom(s, openTs, i).None? <==> forall k :: i <= k < |s| ==> s[k].time != openTs
    ensures ExactFrom(s, openTs, i).Some? ==> forall k :: i <= k < ExactFrom(s, openTs, i).value ==> s[k].time != openTs
  {
    if i < |s| {
      ExactFromNone(s, openTs, i + 1);
    }
  }

  lemma {:induction false} WindowFromNone(s: seq<Candle>, openTs: int, i: nat)
    requires i <= |s|
    decreases |s| - i
    ensures WindowFrom(s, openTs, i).None? <==> forall k :: i <= k < |s| ==> !InOpenWindow(s[k].time, openTs)
    ensures WindowFrom(s, openTs, i).Some? ==> forall k :: i <= k < WindowFrom(s, openTs, i).value ==> !InOpenWindow(s[k].time, openTs)
  {
    if i < |s| {
      WindowFromNone(s, openTs, i + 1);
    }
  }

  /**
   * None exactly when no bar lies in the window; a returned bar is one of the rates and in
   * the window; when some bar has time == openTs, the first such bar is returned, and
   * otherwise the first bar in the window.
   */
  lemma BarAtOpenSpec(s: seq<Candle>, openTs: int)
    ensures BarAtOpen(s, openTs).None? <==> forall k :: 0 <= k < |s| ==> !InOpenWindow(s[k].time, openTs)
    ensures BarAtOpen(s, openTs).Some? ==> BarAtOpen(s, openTs).value in s && InOpenWindow(BarAtOpen(s, openTs).value.time, openTs)
    ensures (exists k :: 0 <= k < |s| && s[k].time == openTs) ==>
      exists k :: 0 <= k < |s| && BarAtOpen(s, openTs) == Some(s[k]) && s[k].time == openTs
                  && forall p :: 0 <= p < k ==> s[p].time != openTs
    ensures (forall k :: 0 <= k < |s| ==> s[k].time != openTs) && BarAtOpen(s, openTs).Some? ==>
      exists k :: 0 <= k < |s| && BarAtOpen(s, openTs) == Some(s[k])
                  && forall p :: 0 <= p < k ==> !InOpenWindow(s[p].time, openTs)
  {
    ExactFromNone(s, openTs, 0);
    WindowFromNone(s, openTs, 0);
    match ExactFrom(s, openTs, 0)
    case Some(k) =>
      assert InOpenWindow(s[k].time, openTs);
    case None =>
      match WindowFrom(s, openTs, 0)
      case Some(k) =>
      case None =>
  }

  /** `findFirstM5BarAtOpen(m5Rates, openTs)`: the two `for … of` loops. */
  method FindFirstM5BarAtOpen(m5Rates: seq<Candle>, openTs: int) returns (r: Option<Candle>)
    ensures r == BarAtOpen(m5Rates, openTs)
  {
    var i := 0;
    while i < |m5Rates|
      invariant 0 <= i <= |m5Rates|
      invariant ExactFrom(m5Rates, openTs, i) == ExactFrom(m5Rates, openTs, 0)
    {
      if m5Rates[i].time == openTs {
        return Some(m5Rates[i]);
      }
      i := i + 1;
    }
    i := 0;
    while i < |m5Rates|
      invariant 0 <= i <= |m5Rates|
      invariant WindowFrom(m5Rates, openTs, i) == WindowFrom(m5Rates, openTs, 0)
    {
      var t := m5Rates[i].time;
      if t >= openTs && t < openTs + 5 * 60 {
        return Some(m5Rates[i]);
      }
      i := i + 1;
    }
    return None;
  }

  /* ---------------- FVG, zone and order (bot.js:114-177) */

  /** `{ dir, bottom, top, slRef }` of `detectFVG`. */
  datatype Fvg = Fvg(dir: Direction, bottom: real, top: real, slRef: real)

  /**
   * `detectFVG(m1Rates)` on the last three closed M1 bars, bar0 = rates[1] (newest closed)
   * and bar2 = rates[3]: a gap between bar2's high and bar0's low is bullish, checked first;
   * a gap between bar0's high and bar2's low is bearish. A null array or fewer than five
   * rates gives none.
   */
  function DetectFvg(m1Rates: Option<seq<Candle>>): Option<Fvg> {
    if m1Rates.None? || |m1Rates.value| < 5 then None
    else
      var bar0, bar2 := m1Rates.value[1], m1Rates.value[3];
      if bar2.high < bar0.low then Some(Fvg(Long, bar2.high, bar0.low, bar0.low))
      else if bar2.low > bar0.high then Some(Fvg(Short, bar0.high, bar2.low, bar0.high))
      else None
  }

  lemma DetectFvgSpec(m1Rates: Option<seq<Candle>>)
    ensures var f := DetectFvg(m1Rates);
      && (m1Rates.None? || |m1Rates.value| < 5 ==> f.None?)
      && (f.Some? ==> f.value.bottom < f.value.top)
      && (m1Rates.Some? && |m1Rates.value| >= 5 ==>
            var bar0, bar2 := m1Rates.value[1], m1Rates.value[3];
            && (f.Some? && f.value.dir == Long <==> bar2.high < bar0.low)
            && (f.Some? && f.value.dir == Long ==> f.value.bottom == bar2.high && f.value.top == bar0.low && f.value.slRef == bar0.low)
            && (f.Some? && f.value.dir == Short <==> !(bar2.high < bar0.low) && bar2.low > bar0.high)
            && (f.Some? && f.value.dir == Short ==> f.value.bottom == bar0.high && f.value.top == bar2.low && f.value.slRef == bar0.high))
  {
  }

  /** `fvgInsideORB(fvg, orbHigh, orbLow)`. */
  predicate FvgInsideOrb(fvg: Fvg, orbHigh: real, orbLow: real) {
    fvg.bottom >= orbLow && fvg.top <= orbHigh
  }

  /** The zone lies inside the opening range: [bottom, top] is within [orbLow, orbHigh]. */
  lemma FvgInsideOrbSpec(fvg: Fvg, orbHigh: real, orbLow: real)
    ensures FvgInsideOrb(fvg, orbHigh, orbLow) <==> orbLow <= fvg.bottom && fvg.top <= orbHigh
    ensures FvgInsideOrb(fvg, orbHigh, orbLow) && fvg.bottom < fvg.top ==> orbLow < orbHigh
  {
  }

  /** `touchedZone(dir, bid, ask, bottom, top)`: bid for LONG, ask for SHORT, bounds inclusive. */
  predicate TouchedZone(dir: Option<Direction>, bid: real, ask: real, bottom: real, top: real) {
    if dir == Some(Long) then bid >= bottom && bid <= top
    else if dir == Some(Short) then ask >= bottom && ask <= top
    else false
  }

  lemma TouchedZoneSpec(dir: Option<Direction>, bid: real, ask: real, bottom: real, top: real)
    ensures dir.None? ==> !TouchedZone(dir, bid, ask, bottom, top)
    ensures dir == Some(Long) ==> (TouchedZone(dir, bid, ask, bottom, top) <==> bottom <= bid <= top)
    ensures dir == Some(Short) ==> (TouchedZone(dir, bid, ask, bottom, top) <==> bottom <= ask <= top)
    ensures bottom > top ==> !TouchedZone(dir, bid, ask, bottom, top)
  {
  }

  /** `{ entry, sl, tp }` of `calcOrder`. */
  datatype BotOrder = BotOrder(entry: real, sl: real, tp: real)

  /** `calcOrder(dir, tick, bottom, top, slRef)`: the zone bounds are not used. */
  function CalcOrder(dir: Direction, tick: Tick, bottom: real, top: real, slRef: real): Option<BotOrder> {
    var entry := if dir == Long then tick.ask else tick.bid;
    var sl := slRef;
    var riskDist := if dir == Long then entry - sl else sl - entry;
    if riskDist <= 0.0 then None
    else Some(BotOrder(entry, sl, if dir == Long then entry + RR * riskDist else entry - RR * riskDist))
  }

  /**
   * No order when the risk is not positive; otherwise the stop is slRef, the entry is ask
   * (LONG) or bid (SHORT), the levels are ordered and the reward is three times the risk.
   */
  lemma CalcOrderSpec(dir: Direction, tick: Tick, bottom: real, top: real, slRef: real)
    ensures var o := CalcOrder(dir, tick, bottom, top, slRef);
      && (o.None? <==> (if dir == Long then tick.ask <= slRef else tick.bid >= slRef))
      && (o.Some? ==> o.value.sl == slRef)
      && (o.Some? && dir == Long ==>
            o.value.entry == tick.ask && o.value.sl < o.value.entry < o.value.tp
            && o.value.tp - o.value.entry == RR * (o.value.entry - o.value.sl))
      && (o.Some? && dir == Short ==>
            o.value.entry == tick.bid && o.value.tp < o.value.entry < o.value.sl
            && o.value.entry - o.value.tp == RR * (o.value.sl - o.value.entry))
  {
  }

  /**
   * For the zone a detected gap gives, an order off its slRef sits on the zone's far edge:
   * LONG stops at the zone top, SHORT at the zone bottom.
   */
  lemma CalcOrderFromFvg(m1Rates: Option<seq<Candle>>, tick: Tick)
    requires DetectFvg(m1Rates).Some?
    ensures var f := DetectFvg(m1Rates).value;
      var o := CalcOrder(f.dir, tick, f.bottom, f.top, f.slRef);
      o.Some? ==> o.value.sl == (if f.dir == Long then f.top else f.bottom)
  {
  }
}
