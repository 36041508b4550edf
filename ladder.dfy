/**
 * Ladder trailing stop with a hard cap, in the form shared by asd.js
 * (`simulateTrailing1RLadderCap10`, step 1R) and orb5min-test.js
 * (`simulateTrailing2RCap10`, step 2R). Both are this replay with `stepR` = 1 or 2
 * and `capR` = 10: asd.js's `(high - entry) / risk` is `/ (risk * 1)`, its
 * `(maxRReached - 1) * risk` is `(maxRReached - 1) * 1 * risk` and its reported
 * `maxRReached` is `maxRReached * 1`.
 */
module TrailingLadder {
  import opened Candles

  /** The `{ realizedR, maxRR }` record a finished trade returns. */
  datatype Trail = Trail(realizedR: real, maxRR: real)

  /** Fixed inputs of one replay; `risk` is `Math.abs(entry - sl)`. */
  datatype Config = Config(entryTime: int, dir: Direction, entry: real, risk: real, stepR: nat, capR: nat)

  /** The mutable part: `currentSL` and the best step level reached (`maxRReached`). */
  datatype State = State(stop: real, best: int)

  predicate ValidConfig(cfg: Config) {
    cfg.risk > 0.0 && cfg.stepR >= 1
  }

  /** The bar reaches entry +- capR * risk: the cap test, made before the stop test. */
  predicate CapHit(cfg: Config, c: Candle) {
    if cfg.dir == Long then c.high >= cfg.entry + (cfg.capR as real) * cfg.risk
    else c.low <= cfg.entry - (cfg.capR as real) * cfg.risk
  }

  /** Favourable distance of the bar's best price from the entry. */
  function Favourable(cfg: Config, c: Candle): real {
    if cfg.dir == Long then c.high - cfg.entry else cfg.entry - c.low
  }

  /** `Math.floor(distance / (risk * STEP_R))`: whole steps reached within the bar. */
  function Level(cfg: Config, c: Candle): int
    requires ValidConfig(cfg)
  {
    (Favourable(cfg, c) / (cfg.risk * (cfg.stepR as real))).Floor
  }

  /** The stop that protects step level n - 1: entry +- (n - 1) * stepR * risk. */
  function StopAt(cfg: Config, n: int): real {
    if cfg.dir == Long then cfg.entry + ((n - 1) as real) * (cfg.stepR as real) * cfg.risk
    else cfg.entry - ((n - 1) as real) * (cfg.stepR as real) * cfg.risk
  }

  /** The stop moves only when the bar's level beats the best so far, and then to StopAt. */
  function Ratchet(cfg: Config, st: State, c: Candle): State
    requires ValidConfig(cfg)
  {
    var lvl := Level(cfg, c);
    if lvl > st.best then State(if lvl >= 1 then StopAt(cfg, lvl) else st.stop, lvl)
    else st
  }

  predicate StopHit(cfg: Config, stop: real, c: Candle) {
    if cfg.dir == Long then c.low <= stop else c.high >= stop
  }

  /** `(currentSL - entry) / risk` for LONG, `(entry - currentSL) / risk` for SHORT. */
  function Realized(cfg: Config, stop: real): real
    requires ValidConfig(cfg)
  {
    if cfg.dir == Long then (stop - cfg.entry) / cfg.risk else (cfg.entry - stop) / cfg.risk
  }

  /** What one bar does to the replay: end it with a result, or carry a state to the next bar. */
  datatype Step = Exit(t: Trail) | Carry(st: State)

  /** One iteration of the bar loop: skip, cap test, ratchet, then stop test. */
  function BarStep(cfg: Config, st: State, c: Candle): Step
    requires ValidConfig(cfg)
  {
    if c.time <= cfg.entryTime then Carry(st)
    else if CapHit(cfg, c) then Exit(Trail(cfg.capR as real, cfg.capR as real))
    else
      var st' := Ratchet(cfg, st, c);
      if StopHit(cfg, st'.stop, c) then Exit(Trail(Realized(cfg, st'.stop), (st'.best as real) * (cfg.stepR as real)))
      else Carry(st')
  }

  /** The replay from bar `i` on, in state `st`; None is the `null` of an OPEN trade. */
  function LadderFrom(m5: seq<Candle>, cfg: Config, st: State, i: nat): Option<Trail>
    requires ValidConfig(cfg)
    requires i <= |m5|
    decreases |m5| - i
  {
    if i == |m5| then None
    else match BarStep(cfg, st, m5[i])
      case Exit(t) => Some(t)
      case Carry(st') => LadderFrom(m5, cfg, st', i + 1)
  }

  /** The replay as called: the stop starts at the entry bar's extreme, no level reached. */
  function Ladder(m5: seq<Candle>, cfg: Config, sl: real): Option<Trail>
    requires ValidConfig(cfg)
  {
    LadderFrom(m5, cfg, State(sl, 0), 0)
  }

  /* ---------------- invariants of the ladder state */

  /** The stop a caller hands in: the entry bar's low (LONG) or high (SHORT), one risk away. */
  function InitialStop(cfg: Config): real {
    if cfg.dir == Long then cfg.entry - cfg.risk else cfg.entry + cfg.risk
  }

  /**
   * What holds of `currentSL` and `maxRReached` between bars: the best level is below the
   * cap, and the stop is the initial stop until a level is reached, StopAt(best) after.
   */
  predicate StateOk(cfg: Config, st: State) {
    && st.best >= 0
    && (st.best as real) * (cfg.stepR as real) < cfg.capR as real
    && st.stop == (if st.best == 0 then InitialStop(cfg) else StopAt(cfg, st.best))
  }

  lemma MulLeft(a: real, b: real, u: real)
    requires a <= b && u > 0.0
    ensures a * u <= b * u
  {
  }

  /** A bar that does not reach the cap reaches a level strictly below it. */
  lemma LevelBelowCap(cfg: Config, c: Candle)
    requires ValidConfig(cfg) && !CapHit(cfg, c)
    ensures (Level(cfg, c) as real) * (cfg.stepR as real) < cfg.capR as real
  {
    var u := cfg.risk * (cfg.stepR as real);
    var d := Favourable(cfg, c);
    var lvl := Level(cfg, c);
    assert d < (cfg.capR as real) * cfg.risk;
    assert (lvl as real) <= d / u;
    MulLeft(lvl as real, d / u, u);
    assert d / u * u == d;
    assert (lvl as real) * u <= d;
    assert (lvl as real) * (cfg.stepR as real) * cfg.risk < (cfg.capR as real) * cfg.risk;
  }

  lemma StopAtGrows(cfg: Config, m: int, n: int)
    requires ValidConfig(cfg) && m < n
    ensures cfg.dir == Long ==> StopAt(cfg, m) < StopAt(cfg, n)
    ensures cfg.dir == Short ==> StopAt(cfg, m) > StopAt(cfg, n)
  {
    var s := cfg.stepR as real;
    assert ((n - 1) as real) * s * cfg.risk - ((m - 1) as real) * s * cfg.risk == ((n - m) as real) * (s * cfg.risk);
    assert ((n - m) as real) * (s * cfg.risk) > 0.0;
  }

  lemma StopAtOneOrMore(cfg: Config, n: int)
    requires ValidConfig(cfg) && n >= 1
    ensures cfg.dir == Long ==> StopAt(cfg, n) >= cfg.entry > InitialStop(cfg)
    ensures cfg.dir == Short ==> StopAt(cfg, n) <= cfg.entry < InitialStop(cfg)
  {
    var s := cfg.stepR as real;
    assert ((n - 1) as real) * s >= 0.0;
    MulLeft(0.0, ((n - 1) as real) * s, cfg.risk);
  }

  /**
   * One bar that does not reach the cap keeps the state invariant and ratchets the stop
   * only towards the trade: it never decreases for LONG and never increases for SHORT,
   * and it changes only when the bar's level beats the best level so far.
   */
  lemma RatchetMonotone(cfg: Config, st: State, c: Candle)
    requires ValidConfig(cfg) && StateOk(cfg, st) && !CapHit(cfg, c)
    ensures StateOk(cfg, Ratchet(cfg, st, c))
    ensures Ratchet(cfg, st, c).best >= st.best
    ensures cfg.dir == Long ==> Ratchet(cfg, st, c).stop >= st.stop
    ensures cfg.dir == Short ==> Ratchet(cfg, st, c).stop <= st.stop
    ensures Ratchet(cfg, st, c) != st ==> Level(cfg, c) > st.best && Ratchet(cfg, st, c).best == Level(cfg, c)
  {
    var lvl := Level(cfg, c);
    if lvl > st.best {
      LevelBelowCap(cfg, c);
      StopAtOneOrMore(cfg, lvl);
      if st.best >= 1 {
        StopAtGrows(cfg, st.best, lvl);
      }
    }
  }

  lemma RealizedAtInitialStop(cfg: Config)
    requires ValidConfig(cfg)
    ensures Realized(cfg, InitialStop(cfg)) == -1.0
  {
  }

  lemma RealizedAtStop(cfg: Config, n: int)
    requires ValidConfig(cfg)
    ensures Realized(cfg, StopAt(cfg, n)) == ((n - 1) as real) * (cfg.stepR as real)
  {
    var k := ((n - 1) as real) * (cfg.stepR as real);
    assert k * cfg.risk / cfg.risk == k;
  }

  lemma FloorOfMultiple(n: int, s: real, x: real)
    requires s > 0.0 && x == (n as real) * s
    ensures (x / s).Floor == n
  {
    assert x / s == n as real;
  }

  /** A capped exit: realizedR = maxRR = capR. */
  predicate CapExit(cfg: Config, t: Trail) {
    t.realizedR == cfg.capR as real && t.maxRR == cfg.capR as real
  }

  /**
   * A stop exit at level n: maxRR = n * stepR below the cap, and realizedR is the protected
   * level (n - 1) * stepR, or -1 when no whole step was ever reached.
   */
  predicate StopExitAt(cfg: Config, t: Trail, n: int) {
    && n >= 0
    && t.maxRR == (n as real) * (cfg.stepR as real)
    && t.maxRR < cfg.capR as real
    && t.realizedR == (if n == 0 then -1.0 else ((n - 1) as real) * (cfg.stepR as real))
  }

  /** Every finished replay is a cap exit, or a stop exit at the level its maxRR names. */
  predicate TrailOk(cfg: Config, t: Trail)
    requires ValidConfig(cfg)
  {
    CapExit(cfg, t) || StopExitAt(cfg, t, (t.maxRR / (cfg.stepR as real)).Floor)
  }

  /** Leaving by the stop from a state that satisfies the invariant is a stop exit at its best level. */
  lemma StopExitOk(cfg: Config, st: State)
    requires ValidConfig(cfg) && StateOk(cfg, st)
    ensures TrailOk(cfg, Trail(Realized(cfg, st.stop), (st.best as real) * (cfg.stepR as real)))
  {
    var t := Trail(Realized(cfg, st.stop), (st.best as real) * (cfg.stepR as real));
    FloorOfMultiple(st.best, cfg.stepR as real, t.maxRR);
    if st.best == 0 {
      RealizedAtInitialStop(cfg);
    } else {
      RealizedAtStop(cfg, st.best);
    }
    assert StopExitAt(cfg, t, st.best);
  }

  /** What a step of the replay leaves behind: a well-formed result or a well-formed state. */
  predicate StepOk(cfg: Config, s: Step)
    requires ValidConfig(cfg)
  {
    match s
    case Exit(t) => TrailOk(cfg, t)
    case Carry(st) => StateOk(cfg, st)
  }

  /** A bar after entry that does not reach the cap: the ratchet, then perhaps the stop. */
  lemma RatchetStepOk(cfg: Config, st: State, c: Candle)
    requires ValidConfig(cfg) && StateOk(cfg, st)
    requires c.time > cfg.entryTime && !CapHit(cfg, c)
    ensures StepOk(cfg, BarStep(cfg, st, c))
  {
    RatchetMonotone(cfg, st, c);
    var st' := Ratchet(cfg, st, c);
    if StopHit(cfg, st'.stop, c) {
      StopExitStep(cfg, st, c, st');
    } else {
      assert BarStep(cfg, st, c) == Carry(st');
    }
  }

  /** The stop-exit branch of RatchetStepOk, given the ratcheted state and its invariant. */
  lemma StopExitStep(cfg: Config, st: State, c: Candle, st': State)
    requires ValidConfig(cfg) && c.time > cfg.entryTime && !CapHit(cfg, c)
    requires st' == Ratchet(cfg, st, c) && StateOk(cfg, st') && StopHit(cfg, st'.stop, c)
    ensures StepOk(cfg, BarStep(cfg, st, c))
  {
    var t := Trail(Realized(cfg, st'.stop), (st'.best as real) * (cfg.stepR as real));
    StopExitOk(cfg, st');
    assert BarStep(cfg, st, c) == Exit(t);
  }

  /** One bar keeps the state invariant, or ends the trade in a cap exit or a stop exit. */
  lemma BarStepOk(cfg: Config, st: State, c: Candle)
    requires ValidConfig(cfg) && StateOk(cfg, st)
    ensures StepOk(cfg, BarStep(cfg, st, c))
  {
    if c.time <= cfg.entryTime {
      assert BarStep(cfg, st, c) == Carry(st);
    } else if CapHit(cfg, c) {
      assert BarStep(cfg, st, c) == Exit(Trail(cfg.capR as real, cfg.capR as real));
    } else {
      RatchetStepOk(cfg, st, c);
    }
  }

  /**
   * From any state satisfying the invariant, the replay ends OPEN, or in a cap exit, or
   * by the retrace to the stop of the best level reached, realizing exactly that level.
   */
  lemma {:induction false} LadderFromOk(m5: seq<Candle>, cfg: Config, st: State, i: nat)
    requires ValidConfig(cfg) && i <= |m5| && StateOk(cfg, st)
    ensures LadderFrom(m5, cfg, st, i).Some? ==> TrailOk(cfg, LadderFrom(m5, cfg, st, i).value)
    decreases |m5| - i
  {
    if i < |m5| {
      BarStepOk(cfg, st, m5[i]);
      assert StepOk(cfg, BarStep(cfg, st, m5[i]));
      if BarStep(cfg, st, m5[i]).Carry? {
        LadderFromOk(m5, cfg, BarStep(cfg, st, m5[i]).st, i + 1);
      }
    }
  }

  /**
   * Consequences for the caller: a trade never realizes more than the cap, realizes the cap
   * exactly when its maxRR is the cap, and its maxRR is never negative nor below realizedR.
   */
  lemma LadderBounds(m5: seq<Candle>, cfg: Config)
    requires ValidConfig(cfg) && cfg.capR >= 1
    ensures var r := Ladder(m5, cfg, InitialStop(cfg));
      r.Some? ==>
        && r.value.realizedR <= cfg.capR as real
        && (r.value.realizedR == cfg.capR as real <==> r.value.maxRR == cfg.capR as real)
        && 0.0 <= r.value.maxRR
        && r.value.realizedR <= r.value.maxRR
  {
    LadderFromOk(m5, cfg, State(InitialStop(cfg), 0), 0);
    var r := Ladder(m5, cfg, InitialStop(cfg));
    if r.Some? && !CapExit(cfg, r.value) {
      var n := (r.value.maxRR / (cfg.stepR as real)).Floor;
      if n >= 1 {
        MulLeft(((n - 1) as real), n as real, cfg.stepR as real);
      }
    }
  }

  /**
   * asd.js with step 1 and cap 10: realizedR is -1, a whole number from 0 to 8, or 10,
   * and maxRR is the best whole R reached (at most 9) or 10.
   */
  lemma Ladder1ROutcomes(m5: seq<Candle>, entryTime: int, dir: Direction, entry: real, risk: real)
    requires risk > 0.0
    ensures var cfg := Config(entryTime, dir, entry, risk, 1, 10);
      var r := Ladder(m5, cfg, InitialStop(cfg));
      r.Some? ==>
        && (r.value.realizedR == -1.0 || r.value.realizedR == 10.0
            || (r.value.realizedR.Floor as real == r.value.realizedR && 0.0 <= r.value.realizedR <= 8.0))
        && (r.value.realizedR == 10.0 <==> r.value.maxRR == 10.0)
        && (r.value.maxRR == 10.0 || (r.value.maxRR.Floor as real == r.value.maxRR && 0.0 <= r.value.maxRR <= 9.0))
  {
    var cfg := Config(entryTime, dir, entry, risk, 1, 10);
    LadderFromOk(m5, cfg, State(InitialStop(cfg), 0), 0);
    var r := Ladder(m5, cfg, InitialStop(cfg));
    if r.Some? && !CapExit(cfg, r.value) {
      var n := (r.value.maxRR / 1.0).Floor;
      assert StopExitAt(cfg, r.value, n);
      assert r.value.maxRR == n as real;
      assert 0 <= n <= 9;
      if n >= 1 {
        assert r.value.realizedR == (n - 1) as real;
        assert r.value.realizedR.Floor == n - 1;
      }
      assert r.value.maxRR.Floor == n;
    }
  }

  /**
   * orb5min-test.js with step 2 and cap 10: realizedR is one of -1, 0, 2, 4, 6 or 10 and the
   * reported maxRR is the step count times 2 (0, 2, 4, 6 or 8), or 10 for the cap.
   */
  lemma Ladder2ROutcomes(m5: seq<Candle>, entryTime: int, dir: Direction, entry: real, risk: real)
    requires risk > 0.0
    ensures var cfg := Config(entryTime, dir, entry, risk, 2, 10);
      var r := Ladder(m5, cfg, InitialStop(cfg));
      r.Some? ==>
        && r.value.realizedR in {-1.0, 0.0, 2.0, 4.0, 6.0, 10.0}
        && r.value.maxRR in {0.0, 2.0, 4.0, 6.0, 8.0, 10.0}
        && (r.value.realizedR == 10.0 <==> r.value.maxRR == 10.0)
  {
    var cfg := Config(entryTime, dir, entry, risk, 2, 10);
    LadderFromOk(m5, cfg, State(InitialStop(cfg), 0), 0);
    var r := Ladder(m5, cfg, InitialStop(cfg));
    if r.Some? && !CapExit(cfg, r.value) {
      var n := (r.value.maxRR / 2.0).Floor;
      assert 0 <= n <= 4;
    }
  }

  /** Bars at or before the entry time are skipped: putting such bars in front changes nothing. */
  lemma {:induction false} LadderSkipsEarlyBars(pre: seq<Candle>, m5: seq<Candle>, cfg: Config, st: State, i: nat)
    requires ValidConfig(cfg) && i <= |pre|
    requires forall j :: 0 <= j < |pre| ==> pre[j].time <= cfg.entryTime
    ensures LadderFrom(pre + m5, cfg, st, i) == LadderFrom(m5, cfg, st, 0)
    decreases |pre| - i
  {
    if i < |pre| {
      assert (pre + m5)[i] == pre[i];
      LadderSkipsEarlyBars(pre, m5, cfg, st, i + 1);
    } else {
      LadderShift(pre, m5, cfg, st, 0);
    }
  }

  lemma {:induction false} LadderShift(pre: seq<Candle>, m5: seq<Candle>, cfg: Config, st: State, k: nat)
    requires ValidConfig(cfg) && k <= |m5|
    ensures LadderFrom(pre + m5, cfg, st, |pre| + k) == LadderFrom(m5, cfg, st, k)
    decreases |m5| - k
  {
    if k < |m5| {
      assert (pre + m5)[|pre| + k] == m5[k];
      LadderShift(pre, m5, cfg, Ratchet(cfg, st, m5[k]), k + 1);
      LadderShift(pre, m5, cfg, st, k + 1);
    }
  }

  /** `simulateTrailing1RLadderCap10` / `simulateTrailing2RCap10`, with the step and cap as inputs. */
  method SimulateLadder(m5: seq<Candle>, entryTime: int, dir: Direction, entry: real, sl: real, stepR: nat, capR: nat)
    returns (r: Option<Trail>)
    requires entry != sl && stepR >= 1
    ensures var risk := if entry >= sl then entry - sl else sl - entry;
      r == Ladder(m5, Config(entryTime, dir, entry, risk, stepR, capR), sl)
  {
    var risk := if entry >= sl then entry - sl else sl - entry;
    var cfg := Config(entryTime, dir, entry, risk, stepR, capR);
    var currentSL := sl;
    var maxReached := 0;
    var i := 0;
    while i < |m5|
      invariant 0 <= i <= |m5|
      invariant LadderFrom(m5, cfg, State(currentSL, maxReached), i) == Ladder(m5, cfg, sl)
    {
      var c := m5[i];
      if c.time <= entryTime {
        i := i + 1;
        continue;
      }
      if CapHit(cfg, c) {
        return Some(Trail(capR as real, capR as real));
      }
      ghost var before := State(currentSL, maxReached);
      var currentR := Level(cfg, c);
      if currentR > maxReached {
        maxReached := currentR;
        if maxReached >= 1 {
          currentSL := StopAt(cfg, maxReached);
        }
      }
      assert State(currentSL, maxReached) == Ratchet(cfg, before, c);
      if StopHit(cfg, currentSL, c) {
        assert BarStep(cfg, before, c) == Exit(Trail(Realized(cfg, currentSL), (maxReached as real) * (stepR as real)));
        return Some(Trail(Realized(cfg, currentSL), (maxReached as real) * (stepR as real)));
      }
      i := i + 1;
    }
    return None;
  }

  /**
   * LONG, entry 100 with the stop at the entry bar's low of 95 (risk 5): later highs of
   * 106 and 112 ratchet the stop to 100 and then 105, and a high of 151 reaches the cap
   * (100 + 10 * 5 = 150), so the trade realizes 10R whatever comes after.
   */
  lemma Ladder1RCapExample()
    ensures Ladder([Candle(0, 98.0, 100.0, 95.0, 100.0), Candle(300, 100.0, 106.0, 101.0, 105.0),
                    Candle(600, 105.0, 112.0, 106.0, 111.0), Candle(900, 111.0, 151.0, 140.0, 150.0),
                    Candle(1200, 150.0, 150.0, 130.0, 131.0)],
                   Config(0, Long, 100.0, 5.0, 1, 10), 95.0) == Some(Trail(10.0, 10.0))
  {
  }
}
