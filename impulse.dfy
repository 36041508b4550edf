/**
 * What the two multi-symbol live scripts share: the symbol list, the per-symbol
 * "one trade per H1 impulse" record, the market order they send and the outcome of one
 * `onM5Close` event. Both read bars oldest first, so the last element is the newest.
 */
module Impulse {
  import opened Candles

  const Symbols: seq<string> := ["GOLD", "Usa500", "GOOGLE.US", "MSFT.US", "NFLX.US", "TESLA.US", "NVDA.OQ"]
  const RR: real := 2.0

  /** `state[symbol]`: the H1 bar of the current impulse and whether it has been traded. */
  datatype SymbolState = SymbolState(lastH1Time: Option<int>, tradedThisImpulse: bool)

  /** `{ symbol, direction, volume, sl, tp }` passed to `placeMarketOrder`. */
  datatype MarketOrder = MarketOrder(symbol: string, direction: Direction, volume: real, sl: real, tp: real)

  /**
   * What one event does besides updating the state: nothing, one order, or a TypeError
   * (reading a field of `undefined`) that aborts it after any updates already made.
   */
  datatype Effect = Idle | Placed(order: MarketOrder) | Crash

  /** The state after one event together with its effect. */
  datatype Transition = Transition(state: map<string, SymbolState>, effect: Effect)

  /** The loop `for (const s of SYMBOLS) state[s] = { lastH1Time: null, tradedThisImpulse: false }`. */
  function InitialState(): (st: map<string, SymbolState>)
    ensures forall s :: s in st <==> s in Symbols
    ensures forall s :: s in st ==> st[s] == SymbolState(None, false)
  {
    map s | s in Symbols :: SymbolState(None, false)
  }

  /** The new-impulse update: a different last H1 time is recorded and clears the flag. */
  function Refresh(st: map<string, SymbolState>, symbol: string, h1Time: int): (st': map<string, SymbolState>)
    requires symbol in st
    ensures symbol in st' && st'.Keys == st.Keys
    ensures st'[symbol].lastH1Time == Some(h1Time)
    ensures st[symbol].lastH1Time != Some(h1Time) ==> !st'[symbol].tradedThisImpulse
    ensures st[symbol].lastH1Time == Some(h1Time) ==> st' == st
    ensures forall s :: s in st && s != symbol ==> st'[s] == st[s]
  {
    if st[symbol].lastH1Time != Some(h1Time) then st[symbol := SymbolState(Some(h1Time), false)] else st
  }

  /**
   * Stop and target off the entry price: the last M5 bar's low (LONG) or high (SHORT)
   * strictly beyond which the entry must be, and RR risks away; None otherwise.
   */
  function Levels(dir: Direction, entry: real, lastM5: Candle): (r: Option<(real, real)>)
    ensures r.Some? <==> (if dir == Long then entry > lastM5.low else entry < lastM5.high)
    ensures r.Some? && dir == Long ==>
      r.value.0 == lastM5.low && r.value.0 < entry < r.value.1 && r.value.1 - entry == RR * (entry - r.value.0)
    ensures r.Some? && dir == Short ==>
      r.value.0 == lastM5.high && r.value.1 < entry < r.value.0 && entry - r.value.1 == RR * (r.value.0 - entry)
  {
    if dir == Long then
      var sl := lastM5.low;
      if entry <= sl then None else Some((sl, entry + RR * (entry - sl)))
    else
      var sl := lastM5.high;
      if entry >= sl then None else Some((sl, entry - RR * (sl - entry)))
  }

  /** Apart from `state[symbol]` nothing changes, and no symbol is added or removed. */
  predicate OnlySymbolChanged(st: map<string, SymbolState>, st': map<string, SymbolState>, symbol: string) {
    st'.Keys == st.Keys && forall s :: s in st && s != symbol ==> st'[s] == st[s]
  }
}
