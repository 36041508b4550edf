/**
 * breakout_live_multi.js `onM5Close(symbol, candles)`: the first live skeleton. It has no
 * length guards — `at(-1)` and `at(-2)` of a too short series are `undefined`, and reading
 * a field of one throws — and no lot guard: the lot from the sizing placeholder is sent as
 * it is. The market price and that lot are inputs.
 */
module LiveMulti {
  import opened Candles
  import opened Impulse
  import LiveMulti02

  const RiskPercent: real := 0.25

  /**
   * The state transition of one call. A throw keeps the updates made before it: with fewer
   * than two H1 bars nothing has changed yet, with fewer than two M15 bars (or no M5 bar)
   * the new-impulse update has already happened.
   */
  function Step(st: map<string, SymbolState>, symbol: string, m5: seq<Candle>, m15: seq<Candle>, h1: seq<Candle>,
                entryPrice: real, lot: real): Transition
  {
    if |h1| < 2 then Transition(st, Crash)
    else
      match BiasOverwrite(h1[|h1| - 1], h1[|h1| - 2])
      case None => Transition(st, Idle)
      case Some(bias) =>
        if symbol !in st then Transition(st, Crash)
        else
          var st1 := Refresh(st, symbol, h1[|h1| - 1].time);
          if st1[symbol].tradedThisImpulse then Transition(st1, Idle)
          else if |m15| < 2 then Transition(st1, Crash)
          else if !Breaks(m15[|m15| - 1], m15[|m15| - 2], bias) then Transition(st1, Idle)
          else if |m5| == 0 then Transition(st1, Crash)
          else match Levels(bias, entryPrice, m5[|m5| - 1])
            case None => Transition(st1, Idle)
            case Some((sl, tp)) =>
              Transition(st1[symbol := st1[symbol].(tradedThisImpulse := true)],
                         Placed(MarketOrder(symbol, bias, lot, sl, tp)))
  }

  /**
   * When it throws: with fewer than two H1 bars before any update; for an unknown symbol
   * once there is a bias; with fewer than two M15 bars only after the new-impulse update;
   * with no M5 bar after that update too, and only for an untraded impulse whose last M15
   * bar breaks. Only `state[symbol]` changes in every case.
   */
  lemma CrashCases(st: map<string, SymbolState>, symbol: string, m5: seq<Candle>, m15: seq<Candle>,
                   h1: seq<Candle>, entryPrice: real, lot: real)
    ensures var t := Step(st, symbol, m5, m15, h1, entryPrice, lot);
      && OnlySymbolChanged(st, t.state, symbol)
      && (|h1| < 2 ==> t == Transition(st, Crash))
      && (|h1| >= 2 && BiasOverwrite(h1[|h1| - 1], h1[|h1| - 2]).Some? && symbol !in st ==> t == Transition(st, Crash))
      && (|h1| >= 2 && BiasOverwrite(h1[|h1| - 1], h1[|h1| - 2]).Some? && symbol in st && |m15| < 2 ==>
            t.effect == (if Refresh(st, symbol, h1[|h1| - 1].time)[symbol].tradedThisImpulse then Idle else Crash)
            && t.state == Refresh(st, symbol, h1[|h1| - 1].time))
      && (|h1| >= 2 && BiasOverwrite(h1[|h1| - 1], h1[|h1| - 2]).Some? && symbol in st && |m15| >= 2 && |m5| == 0 ==>
            t.state == Refresh(st, symbol, h1[|h1| - 1].time)
            && (t.effect == Crash <==>
                  && !Refresh(st, symbol, h1[|h1| - 1].time)[symbol].tradedThisImpulse
                  && Breaks(m15[|m15| - 1], m15[|m15| - 2], BiasOverwrite(h1[|h1| - 1], h1[|h1| - 2]).value)))
      && (t.effect == Crash ==> |h1| < 2 || symbol !in st || |m15| < 2 || |m5| == 0)
  {
  }

  /**
   * An order needs a bias, an M15 break in its direction, an untraded impulse and an entry
   * strictly beyond the last M5 bar's extreme; its target is RR risks away, it carries the
   * lot unchecked, and the impulse is then marked as traded.
   */
  lemma PlacedOrderSpec(st: map<string, SymbolState>, symbol: string, m5: seq<Candle>, m15: seq<Candle>,
                        h1: seq<Candle>, entryPrice: real, lot: real)
    requires Step(st, symbol, m5, m15, h1, entryPrice, lot).effect.Placed?
    ensures |m5| >= 1 && |m15| >= 2 && |h1| >= 2 && symbol in st
    ensures var t := Step(st, symbol, m5, m15, h1, entryPrice, lot);
      var o := t.effect.order;
      && BiasOverwrite(h1[|h1| - 1], h1[|h1| - 2]) == Some(o.direction)
      && Breaks(m15[|m15| - 1], m15[|m15| - 2], o.direction)
      && !(st[symbol].tradedThisImpulse && st[symbol].lastH1Time == Some(h1[|h1| - 1].time))
      && o.symbol == symbol && o.volume == lot
      && (o.direction == Long ==> o.sl == m5[|m5| - 1].low && o.sl < entryPrice < o.tp && o.tp - entryPrice == RR * (entryPrice - o.sl))
      && (o.direction == Short ==> o.sl == m5[|m5| - 1].high && o.tp < entryPrice < o.sl && entryPrice - o.tp == RR * (o.sl - entryPrice))
      && t.state[symbol] == SymbolState(Some(h1[|h1| - 1].time), true)
  {
  }

  /** The flag is set only by an order: no event marks an impulse without placing one. */
  lemma FlagOnlyAfterOrder(st: map<string, SymbolState>, symbol: string, m5: seq<Candle>, m15: seq<Candle>,
                           h1: seq<Candle>, entryPrice: real, lot: real)
    requires symbol in st
    ensures var t := Step(st, symbol, m5, m15, h1, entryPrice, lot);
      symbol in t.state && t.state[symbol].tradedThisImpulse && !st[symbol].tradedThisImpulse ==> t.effect.Placed?
  {
  }

  /** After an order, no later event with the same last H1 bar places another. */
  lemma OneOrderPerImpulse(st: map<string, SymbolState>, symbol: string,
                           m5: seq<Candle>, m15: seq<Candle>, h1: seq<Candle>, entryPrice: real, lot: real,
                           m5b: seq<Candle>, m15b: seq<Candle>, h1b: seq<Candle>, entryPriceB: real, lotB: real)
    requires Step(st, symbol, m5, m15, h1, entryPrice, lot).effect.Placed?
    requires |h1b| >= 2 && h1b[|h1b| - 1].time == h1[|h1| - 1].time
    ensures var st1 := Step(st, symbol, m5, m15, h1, entryPrice, lot).state;
      var t2 := Step(st1, symbol, m5b, m15b, h1b, entryPriceB, lotB);
      !t2.effect.Placed? && t2.state == st1
  {
    PlacedOrderSpec(st, symbol, m5, m15, h1, entryPrice, lot);
  }

  /**
   * Where neither script throws or guards — two bars of each series and a positive lot —
   * the skeleton and the backtest-faithful version make the same transition.
   */
  lemma AgreesWithMulti02(st: map<string, SymbolState>, symbol: string, m5: seq<Candle>, m15: seq<Candle>,
                          h1: seq<Candle>, entryPrice: real, lot: real)
    requires |m5| >= 2 && |m15| >= 2 && |h1| >= 2 && lot > 0.0
    ensures Step(st, symbol, m5, m15, h1, entryPrice, lot) == LiveMulti02.Step(st, symbol, m5, m15, h1, entryPrice, lot)
  {
  }

  /** The live skeleton's module-level `state`. */
  class Engine {
    var state: map<string, SymbolState>

    constructor()
      ensures state == InitialState()
    {
      state := map s | s in Symbols :: SymbolState(None, false);
    }

    /** `onM5Close(symbol, { m5, m15, h1 })`, the awaited price and the lot passed in. */
    method OnM5Close(symbol: string, m5: seq<Candle>, m15: seq<Candle>, h1: seq<Candle>, entryPrice: real, lot: real)
      returns (effect: Effect)
      modifies this
      ensures Transition(state, effect) == Step(old(state), symbol, m5, m15, h1, entryPrice, lot)
    {
      if |h1| < 2 {
        return Crash;
      }
      var lastH1, prevH1 := h1[|h1| - 1], h1[|h1| - 2];

      var bias: Option<Direction> := None;
      if lastH1.close > prevH1.high { bias := Some(Long); }
      if lastH1.close < prevH1.low { bias := Some(Short); }
      if bias.None? {
        return Idle;
      }

      if symbol !in state {
        return Crash;
      }
      if state[symbol].lastH1Time != Some(lastH1.time) {
        state := state[symbol := state[symbol].(lastH1Time := Some(lastH1.time))];
        state := state[symbol := state[symbol].(tradedThisImpulse := false)];
      }
      assert state == Refresh(old(state), symbol, lastH1.time);
      if state[symbol].tradedThisImpulse {
        return Idle;
      }

      if |m15| < 2 {
        return Crash;
      }
      var lastM15, prevM15 := m15[|m15| - 1], m15[|m15| - 2];
      var structureBreak := false;
      if bias == Some(Long) && lastM15.close > prevM15.high { structureBreak := true; }
      if bias == Some(Short) && lastM15.close < prevM15.low { structureBreak := true; }
      assert structureBreak == Breaks(lastM15, prevM15, bias.value);
      if !structureBreak {
        return Idle;
      }

      if |m5| == 0 {
        return Crash;
      }
      var lastM5 := m5[|m5| - 1];
      var sl, tp;
      if bias == Some(Long) {
        sl := lastM5.low;
        if entryPrice <= sl {
          return Idle;
        }
        tp := entryPrice + RR * (entryPrice - sl);
      } else {
        sl := lastM5.high;
        if entryPrice >= sl {
          return Idle;
        }
        tp := entryPrice - RR * (sl - entryPrice);
      }
      assert Levels(bias.value, entryPrice, lastM5) == Some((sl, tp));

      effect := Placed(MarketOrder(symbol, bias.value, lot, sl, tp));
      state := state[symbol := state[symbol].(tradedThisImpulse := true)];
    }
  }
}
