/**
 * brakeout_live_multi_02.js `onM5Close(symbol, candles)`: the backtest-faithful live
 * version. Series shorter than two bars are ignored; the H1 bias (two independent `if`s)
 * opens a new impulse when the last H1 bar changes, and one M5-close market order per
 * impulse is placed on an M15 break in the bias direction. The market price and the lot
 * returned by the broker placeholders are inputs.
 */
module LiveMulti02 {
  import opened Candles
  import opened Impulse

  const AccountBalance: real := 10000.0
  const RiskPercent: real := 1.0

  /** The state transition of one `onM5Close` call, `entryPrice` and `lotSize` given. */
  function Step(st: map<string, SymbolState>, symbol: string, m5: seq<Candle>, m15: seq<Candle>, h1: seq<Candle>,
                entryPrice: real, lotSize: real): Transition
  {
    if |m5| < 2 || |m15| < 2 || |h1| < 2 then Transition(st, Idle)
    else
      var lastM5, lastM15, prevM15 := m5[|m5| - 1], m15[|m15| - 1], m15[|m15| - 2];
      var lastH1, prevH1 := h1[|h1| - 1], h1[|h1| - 2];
      match BiasOverwrite(lastH1, prevH1)
      case None => Transition(st, Idle)
      case Some(bias) =>
        if symbol !in st then Transition(st, Crash)
        else
          var st1 := Refresh(st, symbol, lastH1.time);
          if st1[symbol].tradedThisImpulse || !Breaks(lastM15, prevM15, bias) then Transition(st1, Idle)
          else match Levels(bias, entryPrice, lastM5)
            case None => Transition(st1, Idle)
            case Some((sl, tp)) =>
              var stopDistance := if entryPrice - sl >= 0.0 then entryPrice - sl else sl - entryPrice;
              if stopDistance <= 0.0 || lotSize <= 0.0 then Transition(st1, Idle)
              else Transition(st1[symbol := st1[symbol].(tradedThisImpulse := true)],
                              Placed(MarketOrder(symbol, bias, lotSize, sl, tp)))
  }

  /** A series with fewer than two bars, or no H1 bias, leaves the state alone and sends nothing. */
  lemma GuardsLeaveStateAlone(st: map<string, SymbolState>, symbol: string, m5: seq<Candle>, m15: seq<Candle>,
                              h1: seq<Candle>, entryPrice: real, lotSize: real)
    ensures |m5| < 2 || |m15| < 2 || |h1| < 2 ==> Step(st, symbol, m5, m15, h1, entryPrice, lotSize) == Transition(st, Idle)
    ensures |h1| >= 2 && BiasOverwrite(h1[|h1| - 1], h1[|h1| - 2]).None? ==>
      Step(st, symbol, m5, m15, h1, entryPrice, lotSize) == Transition(st, Idle)
  {
  }

  /**
   * Only `state[symbol]` ever changes; it crashes only for a symbol it has no state for;
   * whenever the event gets past the guards and the bias, `lastH1Time` becomes the last H1
   * bar's time, and the flag is set exactly when an order is placed or it was already set
   * for that same bar.
   */
  lemma StepFrame(st: map<string, SymbolState>, symbol: string, m5: seq<Candle>, m15: seq<Candle>,
                  h1: seq<Candle>, entryPrice: real, lotSize: real)
    ensures var t := Step(st, symbol, m5, m15, h1, entryPrice, lotSize);
      && OnlySymbolChanged(st, t.state, symbol)
      && (t.effect == Crash <==> symbol !in st && |m5| >= 2 && |m15| >= 2 && |h1| >= 2
                                 && BiasOverwrite(h1[|h1| - 1], h1[|h1| - 2]).Some?)
      && (symbol in st && |m5| >= 2 && |m15| >= 2 && |h1| >= 2 && BiasOverwrite(h1[|h1| - 1], h1[|h1| - 2]).Some? ==>
            && t.state[symbol].lastH1Time == Some(h1[|h1| - 1].time)
            && (t.state[symbol].tradedThisImpulse <==>
                  t.effect.Placed? || (st[symbol].tradedThisImpulse && st[symbol].lastH1Time == Some(h1[|h1| - 1].time))))
  {
  }

  /**
   * An order is placed only for a bias, an M15 break in its direction, an entry strictly
   * beyond the last M5 bar's extreme on the stop side, a positive lot, and an impulse not yet
   * traded; its target is RR risks away, and afterwards the impulse is marked as traded.
   */
  lemma PlacedOrderSpec(st: map<string, SymbolState>, symbol: string, m5: seq<Candle>, m15: seq<Candle>,
                        h1: seq<Candle>, entryPrice: real, lotSize: real)
    requires Step(st, symbol, m5, m15, h1, entryPrice, lotSize).effect.Placed?
    ensures |m5| >= 2 && |m15| >= 2 && |h1| >= 2 && symbol in st && lotSize > 0.0
    ensures var t := Step(st, symbol, m5, m15, h1, entryPrice, lotSize);
      var o := t.effect.order;
      && BiasOverwrite(h1[|h1| - 1], h1[|h1| - 2]) == Some(o.direction)
      && Breaks(m15[|m15| - 1], m15[|m15| - 2], o.direction)
      && !(st[symbol].tradedThisImpulse && st[symbol].lastH1Time == Some(h1[|h1| - 1].time))
      && o.symbol == symbol && o.volume == lotSize
      && (o.direction == Long ==> o.sl == m5[|m5| - 1].low && o.sl < entryPrice < o.tp && o.tp - entryPrice == RR * (entryPrice - o.sl))
      && (o.direction == Short ==> o.sl == m5[|m5| - 1].high && o.tp < entryPrice < o.sl && entryPrice - o.tp == RR * (o.sl - entryPrice))
      && t.state[symbol] == SymbolState(Some(h1[|h1| - 1].time), true)
  {
  }

  /** With a lot that is not positive no order is placed and the impulse is not marked. */
  lemma NoLotNoOrder(st: map<string, SymbolState>, symbol: string, m5: seq<Candle>, m15: seq<Candle>,
                     h1: seq<Candle>, entryPrice: real, lotSize: real)
    requires lotSize <= 0.0
    ensures var t := Step(st, symbol, m5, m15, h1, entryPrice, lotSize);
      && !t.effect.Placed?
      && (symbol in st && symbol in t.state && t.state[symbol].tradedThisImpulse ==> st[symbol].tradedThisImpulse)
  {
    StepFrame(st, symbol, m5, m15, h1, entryPrice, lotSize);
  }

  /**
   * One trade per impulse: after an order, any later event whose last H1 bar is the same
   * places none, whatever the other bars, the price and the lot.
   */
  lemma OneOrderPerImpulse(st: map<string, SymbolState>, symbol: string,
                           m5: seq<Candle>, m15: seq<Candle>, h1: seq<Candle>, entryPrice: real, lotSize: real,
                           m5b: seq<Candle>, m15b: seq<Candle>, h1b: seq<Candle>, entryPriceB: real, lotSizeB: real)
    requires Step(st, symbol, m5, m15, h1, entryPrice, lotSize).effect.Placed?
    requires |h1b| >= 2 && |h1| >= 2 && h1b[|h1b| - 1].time == h1[|h1| - 1].time
    ensures var st1 := Step(st, symbol, m5, m15, h1, entryPrice, lotSize).state;
      var t2 := Step(st1, symbol, m5b, m15b, h1b, entryPriceB, lotSizeB);
      !t2.effect.Placed? && t2.state == st1
  {
    PlacedOrderSpec(st, symbol, m5, m15, h1, entryPrice, lotSize);
  }

  /** The live engine: `state` is the per-symbol map the script keeps at module level. */
  class Engine {
    var state: map<string, SymbolState>

    constructor()
      ensures state == InitialState()
    {
      state := map s | s in Symbols :: SymbolState(None, false);
    }

    /** `onM5Close(symbol, { m5, m15, h1 })`, the awaited price and lot passed in. */
    method OnM5Close(symbol: string, m5: seq<Candle>, m15: seq<Candle>, h1: seq<Candle>, entryPrice: real, lotSize: real)
      returns (effect: Effect)
      modifies this
      ensures Transition(state, effect) == Step(old(state), symbol, m5, m15, h1, entryPrice, lotSize)
    {
      if |m5| < 2 || |m15| < 2 || |h1| < 2 {
        return Idle;
      }
      var lastM5 := m5[|m5| - 1];
      var lastM15, prevM15 := m15[|m15| - 1], m15[|m15| - 2];
      var lastH1, prevH1 := h1[|h1| - 1], h1[|h1| - 2];

      var bias: Option<Direction> := None;
      if lastH1.close > prevH1.high { bias := Some(Long); }
      if lastH1.close < prevH1.low { bias := Some(Short); }
      if bias.None? {
        return Idle;
      }

      if symbol !in state {
        return Crash;
      }
      if state[symbol].lastH1Time != Some(lastH1.time) {
        state := state[symbol := state[symbol].(lastH1Time := Some(lastH1.time))];
        state := state[symbol := state[symbol].(tradedThisImpulse := false)];
      }
      assert state == Refresh(old(state), symbol, lastH1.time);
      if state[symbol].tradedThisImpulse {
        return Idle;
      }

      var structureBreak := false;
      if bias == Some(Long) && lastM15.close > prevM15.high { structureBreak := true; }
      if bias == Some(Short) && lastM15.close < prevM15.low { structureBreak := true; }
      assert structureBreak == Breaks(lastM15, prevM15, bias.value);
      if !structureBreak {
        return Idle;
      }

      var sl, tp;
      if bias == Some(Long) {
        sl := lastM5.low;
        if entryPrice <= sl {
          return Idle;
        }
        tp := entryPrice + RR * (entryPrice - sl);
      } else {
        sl := lastM5.high;
        if entryPrice >= sl {
          return Idle;
        }
        tp := entryPrice - RR * (sl - entryPrice);
      }

      assert Levels(bias.value, entryPrice, lastM5) == Some((sl, tp));
      var stopDistance := if entryPrice - sl >= 0.0 then entryPrice - sl else sl - entryPrice;
      if stopDistance <= 0.0 {
        return Idle;
      }
      if lotSize <= 0.0 {
        return Idle;
      }
      effect := Placed(MarketOrder(symbol, bias.value, lotSize, sl, tp));
      state := state[symbol := state[symbol].(tradedThisImpulse := true)];
    }
  }
}
