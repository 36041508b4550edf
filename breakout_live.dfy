/**
 * breakout-live.js: the pure decisions of the live H1 > M15 > M5 breakout bot for one
 * symbol. Rate arrays arrive newest first, so index 0 is the bar still forming, index 1 the
 * last closed bar and index 2 the one before it. Sizing risks RISK_PERCENT of the balance.
 */
module BreakoutLive {
  import opened Candles

  const RiskPercent: real := 1.0
  const RR: real := 2.0
  const MaxSpreadPoints: int := 60

  /** An M1 rate row: the bar and its `spread` field (`lastM1[6]`), which may be absent. */
  datatype M1Bar = M1Bar(bar: Candle, spread: Option<int>)

  /** `{ dir, ts }` of `detectH1Bias`. */
  datatype Bias = Bias(dir: Direction, ts: int)

  /** `{ entry, sl, tp, barTs }` of `buildOrderFromM5`. */
  datatype LiveOrder = LiveOrder(entry: real, sl: real, tp: real, barTs: int)

  /** The fields of `symbol_info` that `calcLot` reads. */
  datatype SymbolInfo = SymbolInfo(tickValue: real, tickSize: real, volumeMin: real, volumeStep: real, volumeMax: real)

  /** `spreadOk(lastM1)`: no bar, or no spread field, passes; otherwise spread <= 60. */
  predicate SpreadOk(lastM1: Option<M1Bar>) {
    lastM1.None? || lastM1.value.spread.None? || lastM1.value.spread.value <= MaxSpreadPoints
  }

  lemma SpreadOkSpec(lastM1: Option<M1Bar>)
    ensures lastM1.None? ==> SpreadOk(lastM1)
    ensures lastM1.Some? && lastM1.value.spread.None? ==> SpreadOk(lastM1)
    ensures lastM1.Some? && lastM1.value.spread.Some? ==> (SpreadOk(lastM1) <==> lastM1.value.spread.value <= 60)
  {
  }

  /* ---------------- position sizing (breakout-live.js:76-96) */

  /** `Math.floor(value / step) * step`. */
  function RoundToStep(value: real, step: real): (r: real)
    requires step > 0.0
    ensures r <= value < r + step
    ensures (r / step).Floor as real == r / step
  {
    var n := (value / step).Floor;
    FloorBounds(value, step);
    WholeSteps(n, step);
    (n as real) * step
  }

  lemma FloorBounds(value: real, step: real)
    requires step > 0.0
    ensures var lo := (value / step).Floor as real; lo * step <= value && value < lo * step + step
  {
    var q := value / step;
    var lo := (q.Floor) as real;
    var hi := lo + 1.0;
    assert lo <= q < hi;
    assert q * step == value;
    MulMonotone(lo, q, step);
    MulMonotone(q, hi, step);
    assert q * step < hi * step;
    assert hi * step == lo * step + step;
    assert value < lo * step + step;
  }

  lemma WholeSteps(n: int, step: real)
    requires step > 0.0
    ensures ((n as real) * step / step).Floor as real == (n as real) * step / step
  {
    MulDivCancel(n as real, step);
    assert (n as real).Floor == n;
  }

  lemma MulDivCancel(a: real, b: real)
    requires b != 0.0
    ensures a * b / b == a
  {
    var x := a * b / b;
    assert x * b == a * b;
    assert (x - a) * b == 0.0;
  }

  lemma MulMonotone(a: real, b: real, c: real)
    requires a <= b && c > 0.0
    ensures a * c <= b * c
    ensures a < b ==> a * c < b * c
  {
  }

  /** The contract divides by `tick_size` and by the step: both are positive for a real symbol. */
  predicate ValidInfo(info: SymbolInfo) {
    info.tickValue > 0.0 && info.tickSize > 0.0 && info.volumeStep > 0.0
  }

  /** riskMoney / (dist * valuePerPrice): the lot that loses exactly the risk money at the stop. */
  function RawLot(balance: real, dist: real, info: SymbolInfo): real
    requires ValidInfo(info) && dist > 0.0
  {
    var riskMoney := balance * (RiskPercent / 100.0);
    var valuePerPrice := info.tickValue / info.tickSize;
    riskMoney / (dist * valuePerPrice)
  }

  /** `calcLot(balance, entry, sl, symbolInfo)`. */
  function CalcLot(balance: real, entry: real, sl: real, info: SymbolInfo): (lot: Option<real>)
    requires ValidInfo(info)
  {
    var dist := if entry - sl >= 0.0 then entry - sl else sl - entry;
    if dist <= 0.0 then None
    else
      var rounded := RoundToStep(RawLot(balance, dist, info), info.volumeStep);
      if rounded < info.volumeMin then None
      else if rounded > info.volumeMax then Some(info.volumeMax)
      else Some(rounded)
  }

  /**
   * No lot when entry == sl or the rounded lot is below the minimum. Otherwise the lot is at
   * most the maximum, at least the minimum (when the minimum does not exceed the maximum),
   * and a whole number of steps unless it was clamped. Rounding down and clamping only
   * shrink it, so the money lost at the stop never exceeds 1% of the balance.
   */
  lemma CalcLotSpec(balance: real, entry: real, sl: real, info: SymbolInfo)
    requires ValidInfo(info)
    ensures var lot := CalcLot(balance, entry, sl, info);
      && (entry == sl ==> lot.None?)
      && (entry != sl ==>
            var dist := if entry - sl >= 0.0 then entry - sl else sl - entry;
            lot.None? <==> RoundToStep(RawLot(balance, dist, info), info.volumeStep) < info.volumeMin)
      && (lot.Some? ==> lot.value <= info.volumeMax)
      && (lot.Some? && info.volumeMin <= info.volumeMax ==> lot.value >= info.volumeMin)
      && (lot.Some? && lot.value < info.volumeMax ==> (lot.value / info.volumeStep).Floor as real == lot.value / info.volumeStep)
      && (lot.Some? ==>
            var dist := if entry - sl >= 0.0 then entry - sl else sl - entry;
            lot.value * dist * (info.tickValue / info.tickSize) <= balance * (RiskPercent / 100.0))
  {
    var lot := CalcLot(balance, entry, sl, info);
    if lot.Some? {
      var dist := if entry - sl >= 0.0 then entry - sl else sl - entry;
      var raw := RawLot(balance, dist, info);
      var vpp := info.tickValue / info.tickSize;
      assert lot.value <= raw;
      assert raw * (dist * vpp) == balance * (RiskPercent / 100.0);
      MulMonotone(lot.value, raw, dist * vpp);
    }
  }

  /* ---------------- strategy logic (breakout-live.js:102-146) */

  /** `detectH1Bias(h1)`: the last closed H1 bar against the one before it, LONG first. */
  function DetectH1Bias(h1: seq<Candle>): Option<Bias> {
    if |h1| < 3 then None
    else if h1[1].close > h1[2].high then Some(Bias(Long, h1[1].time))
    else if h1[1].close < h1[2].low then Some(Bias(Short, h1[1].time))
    else None
  }

  /**
   * The bias is the `else if` bias of the backtests applied to the last two closed bars,
   * stamped with the newer bar's time; fewer than three bars give none.
   */
  lemma DetectH1BiasSpec(h1: seq<Candle>)
    ensures |h1| < 3 ==> DetectH1Bias(h1).None?
    ensures |h1| >= 3 ==>
      (DetectH1Bias(h1).None? <==> BiasLongFirst(h1[1], h1[2]).None?)
      && (DetectH1Bias(h1).Some? ==>
            DetectH1Bias(h1).value == Bias(BiasLongFirst(h1[1], h1[2]).value, h1[1].time)
            && Breaks(h1[1], h1[2], DetectH1Bias(h1).value.dir))
  {
  }

  /** `detectM15Bos(m15, bias)`: the last closed M15 bar breaks the one before in the bias direction. */
  function DetectM15Bos(m15: seq<Candle>, bias: Direction): Option<int> {
    if |m15| < 3 then None
    else if bias == Long && m15[1].close > m15[2].high then Some(m15[1].time)
    else if bias == Short && m15[1].close < m15[2].low then Some(m15[1].time)
    else None
  }

  lemma DetectM15BosSpec(m15: seq<Candle>, bias: Direction)
    ensures DetectM15Bos(m15, bias).Some? <==> |m15| >= 3 && Breaks(m15[1], m15[2], bias)
    ensures DetectM15Bos(m15, bias).Some? ==> DetectM15Bos(m15, bias).value == m15[1].time
  {
  }

  /** `buildOrderFromM5(m5, bias, tick)`: entry at the quote, stop at the last closed M5 bar's extreme. */
  function BuildOrderFromM5(m5: seq<Candle>, bias: Direction, tick: Tick): Option<LiveOrder> {
    if |m5| < 2 then None
    else
      var bar := m5[1];
      if bias == Long then
        var entry, sl := tick.ask, bar.low;
        if entry <= sl then None else Some(LiveOrder(entry, sl, entry + RR * (entry - sl), bar.time))
      else
        var entry, sl := tick.bid, bar.high;
        if entry >= sl then None else Some(LiveOrder(entry, sl, entry - RR * (sl - entry), bar.time))
  }

  /**
   * An order exists exactly when there are two M5 bars and the quote (ask for LONG, bid for
   * SHORT) is strictly beyond the last closed bar's low (high); then the levels are ordered
   * and the reward is RR times the risk.
   */
  lemma BuildOrderSpec(m5: seq<Candle>, bias: Direction, tick: Tick)
    ensures var o := BuildOrderFromM5(m5, bias, tick);
      && (o.Some? <==> |m5| >= 2 && (if bias == Long then tick.ask > m5[1].low else tick.bid < m5[1].high))
      && (o.Some? ==> o.value.barTs == m5[1].time)
      && (o.Some? && bias == Long ==>
            o.value.entry == tick.ask && o.value.sl == m5[1].low
            && o.value.sl < o.value.entry < o.value.tp && o.value.tp - o.value.entry == RR * (o.value.entry - o.value.sl))
      && (o.Some? && bias == Short ==>
            o.value.entry == tick.bid && o.value.sl == m5[1].high
            && o.value.tp < o.value.entry < o.value.sl && o.value.entry - o.value.tp == RR * (o.value.sl - o.value.entry))
  {
  }
}
