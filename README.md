# Multi-timeframe breakout backtests and live helpers, in Dafny

This project models the core of a small trading-research repository written in JavaScript.
The main part is the H1 > M15 > M5 breakout engine, which the repository reimplements in
six scripts:

1. An H1 bar sets a bias: a close above the previous high is LONG, a close below the
   previous low is SHORT.
2. A scan finds the first M15 structure break after that H1 bar in the bias direction.
3. The entry is the first M5 bar after the break. Some scripts shift the entry or the stop
   by a spread.
4. The later M5 bars are replayed under one exit policy, and the outcomes are counted.

There are four exit policies: fixed reward-to-risk with SL tested first, fixed
reward-to-risk with an explicit "both hit is SL" rule, a 1R ladder trailing stop with a 10R
cap, and a 2R step ladder with a 10R cap. The model also covers:

- the daily opening-range script `orb1h.js`;
- the pure helpers of the two single-symbol live bots (`breakout-live.js`, `bot.js`);
- the per-symbol "one trade per H1 impulse" state machine of the two multi-symbol live
  scripts;
- the candle cleanup and chunk-window arithmetic of `download_history.js`.

Layout, one Dafny module per file:

- `candles.dfy` (`Candles`): the candle row, the two ways the scripts write the bias, and
  the two search loops every engine repeats (first M15 break, first M5 bar after a time).
- `fixed_rr.dfy` (`FixedRR`): the SL-first and the realistic fixed-RR replays, and the
  proof that they agree.
- `ladder.dfy` (`TrailingLadder`): one ladder replay with the step and the cap as inputs.
  `asd.js` runs it with step 1 and cap 10, `orb5min-test.js` with step 2 and cap 10.
- `stats.dfy` (`Stats`): the counters, averages and win rates. It also holds the R
  histogram, a class whose `counts` field is updated in place (the shared `R_BUCKETS`
  object).
- One module per script: `asd.dfy`, `orb5min_test.dfy`, `breakout_test.dfy`,
  `breakout_symbols.dfy`, `backtest_orb15.dfy`, `h1filter.dfy`, `orb1h.dfy`,
  `breakout_live.dfy`, `bot.dfy`, `live_multi_02.dfy`, `live_multi.dfy` and
  `download_history.dfy`. `impulse.dfy` holds what the two multi-symbol scripts share.

Each loop of the source is a `method` with a `while` loop and invariants. Its `ensures`
ties the result to a recursive specification function, and the properties are lemmas
about that function. For example, the ladder's `currentSL`/`maxRReached` loop is
`TrailingLadder.SimulateLadder` proved equal to `Ladder`, and the lemmas about `Ladder`
state stop monotonicity, the cap and the realized R. In the live scripts the
module-level `state` object is a class field of type `map`. Each `onM5Close` call is a
method proved equal to a transition function, and the properties are stated about that
function.

Prices are exact `real`s. Timestamps are `int` POSIX seconds. JavaScript's `null` and
`'n/a'` results are `Option` values.

Three behaviours of the code worth knowing:

- A SHORT with entry 200, stop 210 and target 180 whose next bar spans 179 .. 205 ends at
  TP, not SL: the bar's high of 205 never reaches the stop, while its low passes the
  target. `FixedRR.ShortTargetExample` states this.
- `asd.js` and `orb5min-test.js` test the BOS timestamp for truthiness (`if (!bosTs)
  continue` and `if (!m15BosTs) continue`). A break at timestamp 0 is therefore taken as no break, and the model keeps this.
- `breakout_live_multi.js` has no length guards. A series that is too short makes it read
  a field of `undefined` and throw, after any state updates already made. The model
  represents this as the `Crash` effect.

## Model

| member | source | states |
|---|---|---|
| Candles.BiasOverwrite | asd.js:141-144 | two independent `if`s: SHORT iff the close is below the previous low, LONG iff above the previous high and not below the low, none iff neither |
| Candles.BiasLongFirst | breakout_symbols.js:83-87 | `if / else if`: LONG iff the close is above the previous high, SHORT iff below the low and not above the high, none iff neither |
| Candles.BiasIsBreak | asd.js:141-144 | whatever bias either form returns is a break of the previous bar in that direction |
| Candles.BiasVariantsAgree | breakout_symbols.js:83-87 | when the previous bar has low <= high, at most one side breaks and both bias forms agree; they differ exactly when both sides break |
| Candles.FirstAfterFrom | asd.js:164-165 | the index found is the first bar from i on with time > ts; none means no bar from i on is later than ts |
| Candles.FindFirstAfter | asd.js:164-165 | the `find` loop returns the index of the first M5 bar later than the timestamp (FirstAfter) |
| Candles.FirstBosFrom | asd.js:148-160 | the scan's index is a break after the H1 time in the bias direction, and no earlier bar from j on is one; none means none is |
| Candles.FindFirstBos | asd.js:148-160 | the M15 loop from j = 1, skipping bars up to the H1 time and stopping at the first break, returns FirstBos |
| Candles.FirstBosSharedAcrossH1 | asd.js:148-160 | the scan restarts at j = 1: two H1 times not separated by any M15 bar time claim the same break |
| FixedRR.FirstTouchFrom | breakout_symbols.js:35-51 | the first bar from i on, later than the entry, that touches SL or TP; none means no later bar touches either |
| FixedRR.SlFirstIsFirstTouch | breakout_symbols.js:42-50 | the SL-first replay is decided by the first later bar touching either level (SL if it touches the stop), and is OPEN iff there is none |
| FixedRR.RealisticIsFirstTouch | breakout-test.js:51-71 | the realistic replay is decided by that same first touching bar, and is OPEN iff there is none |
| FixedRR.RealisticEqualsSlFirst | breakout-test.js:57-69 | on identical inputs the realistic replay and the SL-first replay return the same outcome |
| FixedRR.BothHitIsLoss | breakout-test.js:57-66 | a first touching bar that reaches both the stop and the target is SL under both replays |
| FixedRR.SimulateTrade | breakout_symbols.js:35-51 | the scanning loop with early returns computes the SL-first replay |
| FixedRR.SimulateTradeRealistic | breakout-test.js:50-72 | the scanning loop with its both / SL / TP tests computes the realistic replay |
| FixedRR.ShortTargetExample | breakout_symbols.js:46-48 | a SHORT with entry 200, stop 210 and target 180, whose next bar spans 179 to 205, is TP under both replays |
| TrailingLadder.LevelBelowCap | asd.js:73-84 | a bar that does not reach the cap has a whole-step level times the step strictly below the cap |
| TrailingLadder.StopAtGrows | asd.js:86-95 | the protective stop for a higher level is strictly higher for LONG and strictly lower for SHORT |
| TrailingLadder.StopAtOneOrMore | asd.js:86-95 | from level 1 on, the trailed stop is at or beyond the entry, and so beyond the initial stop |
| TrailingLadder.RatchetMonotone | asd.js:81-95 | one bar below the cap keeps the state invariant; the best level never falls; the LONG stop never decreases and the SHORT stop never increases; the state changes only when the bar's level beats the best so far, which it then becomes |
| TrailingLadder.RealizedAtInitialStop | asd.js:98-107 | an exit at the initial stop (one risk away) realizes -1R |
| TrailingLadder.RealizedAtStop | asd.js:98-107 | an exit at the stop of level n realizes (n - 1) * step R |
| TrailingLadder.StopExitOk | asd.js:98-107 | a stop exit from a valid state reports maxRR = best level * step below the cap, and realizes that level minus one step, or -1 at level 0 |
| TrailingLadder.RatchetStepOk | asd.js:81-107 | a later bar below the cap either leaves a valid state or ends in a well-formed stop exit |
| TrailingLadder.BarStepOk | asd.js:67-107 | every bar (skipped, cap, ratchet, stop) keeps the state invariant or ends in a cap exit or a well-formed stop exit |
| TrailingLadder.LadderFromOk | asd.js:61-111 | from a valid state the replay is OPEN, a cap exit (realizedR = maxRR = cap), or a stop exit at the level its maxRR names |
| TrailingLadder.LadderBounds | asd.js:61-111 | a finished trade realizes at most the cap, realizes the cap iff maxRR is the cap, and has 0 <= maxRR and realizedR <= maxRR |
| TrailingLadder.Ladder1ROutcomes | asd.js:62-107 | with step 1 and cap 10, realizedR is -1, a whole number 0..8, or 10 (iff maxRR is 10), and maxRR is a whole 0..9 or 10 |
| TrailingLadder.Ladder2ROutcomes | orb5min-test.js:65-113 | with step 2 and cap 10, realizedR is one of -1, 0, 2, 4, 6, 10 and the reported maxRR (steps times 2) one of 0, 2, 4, 6, 8, 10; the cap iff maxRR is 10 |
| TrailingLadder.LadderSkipsEarlyBars | asd.js:67 | bars at or before the entry time change nothing: prefixing them leaves the replay's result unchanged |
| TrailingLadder.SimulateLadder | asd.js:61-111 | the `for` loop over `currentSL` and `maxRReached`, with early returns for cap and stop, computes the ladder replay from the entry bar's stop |
| TrailingLadder.Ladder1RCapExample | asd.js:73-95 | LONG from 100 with risk 5: the stop trails to 100 and 105, then a high of 151 reaches the 150 cap and the trade realizes 10R |
| Stats.TallyOfSnoc | asd.js:194-205 | recording one more trade is one more step of the counter fold |
| Stats.TallyOfCounts | asd.js:194-205 | trades is the number of counted trades; wins, bes and losses count r > 0, r == 0, r < 0 and add up to trades; the sums are the sums of R; maxRR is 0 or the largest per-trade maxRR, and no trade's exceeds it |
| Stats.CountTrade | asd.js:194-205 | the inline counter updates of one trade produce Record of the previous counters |
| Stats.Summarize | asd.js:216-225 | the returned counts are the counters; avgR is `'n/a'` iff there are no trades and otherwise sumR / trades; avgWinR is `'n/a'` iff there are no wins and otherwise sumWinR / wins |
| Stats.CountOutcome | breakout_symbols.js:145-147 | counters that held the trade, TP and SL counts of a list of outcomes hold those of the list extended by one outcome |
| Stats.OutcomeCounts | breakout_symbols.js:145-147 | TP + SL + OPEN counts add up to the number of outcomes, and the OPEN count is 0 iff no outcome is OPEN |
| Stats.WinRate | breakout_symbols.js:153-161 | `'n/a'` iff trades is 0; otherwise rate * trades == 100 * wins, and the rate is in [0, 100] when wins <= trades |
| Stats.BucketOf | asd.js:207-213 | the `if / else if` chain maps r to exactly one of seven buckets: r < 0, r == 0, (0,1), [1,2), [2,4), [4,6), >= 6 |
| Stats.Bump | asd.js:207-213 | one increment adds one to r's bucket, leaves the others unchanged and adds one to the total |
| Stats.BumpAllCounts | asd.js:207-213 | after a run, each bucket holds its old count plus the trades whose R falls in it, and the total grows by the number of trades |
| Stats.RBuckets.constructor | asd.js:232-240 | all seven buckets start at 0 |
| Stats.RBuckets.Add | asd.js:207-213 | `R_BUCKETS[...]++` updates the shared counts in place to Bump of the old counts; the total grows by one |
| Asd.SymbolTables | asd.js:20-39 | every spread lies in [0, 0.8] and every minimum M5 range in [0, 2]; a symbol has a positive minimum range exactly when `MIN_M5_RANGE` lists it (`?? 0` otherwise) |
| Asd.TableSetupAt | asd.js:126-180 | with the script's own tables the spread only worsens the fill: a LONG is bought at or above the entry bar's close and a SHORT sold at or below it, the stop is the bar's low or high, and an accepted bar has low <= high |
| Asd.SetupAtSpec | asd.js:141-180 | a candidate's side is the H1 bias; its bar is the first M5 bar after the first M15 break (a break at time 0 counts as none); the bar's range is at least the minimum; the entry is close +- spread, strictly beyond the stop at the bar's far extreme |
| Asd.ResultsOutcomes | asd.js:182-205 | every counted trade realizes -1, a whole 0..8, or 10, and realizes 10 iff its maxRR is 10 |
| Asd.ResultsAtMostOnePerH1 | asd.js:137-190 | at most one counted trade per H1 bar |
| Asd.FindSetup | asd.js:141-180 | the bias `if`s, the M15 loop, the `!bosTs` test, the M5 `find`, the range filter and the entry compute SetupAt, and a candidate's risk is positive |
| Asd.TradeOfBar | asd.js:141-190 | one H1 iteration yields the ladder result of its candidate, and none when there is no candidate or the replay is OPEN |
| Asd.RunBacktest | asd.js:117-226 | none, with the shared histogram untouched, when a series is missing; otherwise the summary of the counted trades, with each counted trade added to the shared histogram |
| Orb5MinTest.TableSetupAt | orb5min-test.js:129-181 | the spread table is that of asd.js, so every spread lies in [0, 0.8], and a LONG is bought at or above the entry bar's close and a SHORT sold at or below it, with the stop at the bar's low or high |
| Orb5MinTest.SetupAtStop | orb5min-test.js:171-181 | a candidate's entry is strictly beyond its stop at the bar's low or high, so the ladder starts from a valid configuration one risk away |
| Orb5MinTest.SetupAgreesWithAsd | orb5min-test.js:144-181 | every candidate asd.js accepts, this script accepts with the same entry and stop; with no minimum range and well-formed bars the two agree everywhere |
| Orb5MinTest.ResultsOutcomes | orb5min-test.js:183-206 | every counted trade realizes one of -1, 0, 2, 4, 6, 10 and reports a maxRR of 0, 2, 4, 6, 8, 10, with the cap iff maxRR is 10 |
| Orb5MinTest.ResultsAtMostOnePerH1 | orb5min-test.js:183-191 | at most one counted trade per H1 bar |
| Orb5MinTest.FindSetup | orb5min-test.js:144-181 | the loop body up to the entry computes SetupAt, with positive risk |
| Orb5MinTest.TradeOfBar | orb5min-test.js:144-191 | one H1 iteration yields the 2R-ladder result of its candidate, and none when there is no candidate or the replay is OPEN |
| Orb5MinTest.RunBacktest | orb5min-test.js:120-219 | none iff a series is missing; otherwise the summary of the counted trades |
| BreakoutTest.ScanFrom | breakout-test.js:109-153 | a result of the M15 scan is never OPEN |
| BreakoutTest.ScanIsFirstDecided | breakout-test.js:109-153 | the scan's verdict is that of the first M15 bar yielding a decided trade, and none iff no bar does (OPEN moves the scan on) |
| BreakoutTest.TableCandidateStop | breakout-test.js:94-136 | with the script's own table every spread lies in [0, 0.8], so the stop lies at or below the entry bar's low (LONG) or at or above its high (SHORT) |
| BreakoutTest.CandidateShape | breakout-test.js:120-136 | an order sits on the first M5 bar after the break, with entry at its raw close and stop a spread beyond its extreme; sl < entry < tp (mirrored for SHORT) and reward = 2 * risk; there is no order iff risk <= 0 |
| BreakoutTest.ResultsDecided | breakout-test.js:146-152 | no counted outcome is OPEN, and there is at most one per H1 bar |
| BreakoutTest.ReportBalanced | breakout-test.js:148-161 | trades == wins + losses, and the win rate is in [0, 100] when defined |
| BreakoutTest.ScanM15 | breakout-test.js:109-153 | the inner loop with its `continue`s and the `break` on a counted trade computes the scan |
| BreakoutTest.TradeOfBar | breakout-test.js:100-153 | one H1 iteration: the bias `if`s, then the scan |
| BreakoutTest.CountResults | breakout-test.js:100-154 | the H1 loop's three counters are the number, the TP count and the SL count of the counted outcomes (Results) |
| BreakoutTest.RunBacktestForSymbol | breakout-test.js:78-163 | none iff a series is missing; otherwise the count of counted trades, their TP and SL counts and the win rate |
| BreakoutSymbols.ScanIsFirstOrder | breakout_symbols.js:91-150 | the scan's verdict is that of the first M15 bar that places an order, and none iff no bar does (a missing entry or risk <= 0 moves on) |
| BreakoutSymbols.CandidateShape | breakout_symbols.js:109-143 | entry at the raw close, stop at the bar's low or high, sl < entry < tp (mirrored for SHORT), reward = 2 * risk; no order iff risk <= 0 |
| BreakoutSymbols.ResultsAtMostOnePerH1 | breakout_symbols.js:77-150 | at most one order per H1 bar |
| BreakoutSymbols.ReportCounts | breakout_symbols.js:145-161 | OPEN results count in totalTrades but in neither wins nor losses: wins + losses + OPEN == totalTrades, and the win rate is in [0, 100] when defined |
| BreakoutSymbols.CandidateAgreesWithBreakoutTest | breakout_symbols.js:109-143 | with no spread both scripts build the same order for a break; a trade decided here is decided the same way by breakout-test.js, and an OPEN one makes it move on |
| BreakoutSymbols.ScanAgreesWithBreakoutTest | breakout_symbols.js:91-150 | where this script's first order for an H1 bar is decided, breakout-test.js with no spread counts the same outcome |
| BreakoutSymbols.ScanM15 | breakout_symbols.js:91-150 | the inner loop with its `continue`s and `break` computes the scan |
| BreakoutSymbols.TradeOfBar | breakout_symbols.js:77-150 | one H1 iteration: the `else if` bias, then the scan |
| BreakoutSymbols.RunBacktestForSymbol | breakout_symbols.js:57-162 | none iff a series is missing; otherwise totalTrades (OPEN included), the TP and SL counts and the win rate |
| BacktestOrb15.RunBacktest | backtest-orb15.js:55-171 | the totals the script prints are those of the breakout_symbols.js engine on its series, with wins + losses <= totalTrades, and the printed win rate is in [0, 100] when defined |
| H1Filter.BodyRatio | h1filter.js:25-30 | the ratio is >= 0; it is 0 when the range is not positive; otherwise ratio * range is the body; it is at most 1 for a well-formed bar |
| H1Filter.ResultsDecided | h1filter.js:93-97 | every counted result is TP or SL, so t == w + l; at most one per H1 bar |
| H1Filter.ScanReachesFirstBos | h1filter.js:74-91 | the breakout_symbols.js scan with no break before q reaches q and places q's order |
| H1Filter.AgreesWithBreakoutSymbols | h1filter.js:62-100 | where the body filter passes and the first break yields a counted trade, breakout_symbols.js counts the same outcome for that H1 bar |
| H1Filter.TradeOfBar | h1filter.js:57-100 | one H1 iteration: the body filter, the bias, only the first break, the entry check and the SL-first replay; OPEN is not counted |
| H1Filter.Run | h1filter.js:46-104 | none iff a series is missing; otherwise the count of counted trades and the win rate |
| Orb1h.UtcDecomposition | orb1h.js:17-19 | the UTC hour is in [0, 24) and a timestamp lies in its day and hour |
| Orb1h.DayKeysSpec | orb1h.js:26-31 | the day keys are distinct and are exactly the days with a bar; each day's list holds only that day's bars, and is empty for a non-key |
| Orb1h.DayKeysPrefix | orb1h.js:26-31 | days are listed in first-seen order: the keys of a prefix are a prefix of the keys |
| Orb1h.GroupStep | orb1h.js:29-30 | one `push` keeps the grouping |
| Orb1h.GroupedLookup | orb1h.js:33-34 | the list under the k-th key is that day's bars |
| Orb1h.GroupByDay | orb1h.js:26-31 | the grouping loop builds the keys and lists of DayKeys / DayBars |
| Orb1h.HourBarsSpec | orb1h.js:37-40 | the hour filter keeps exactly the bars of that hour, one bar for each index whose bar is of that hour |
| Orb1h.MaxHighSpec | orb1h.js:44 | ORH is at least every high of the range bars and equals one of them |
| Orb1h.MinLowSpec | orb1h.js:45 | ORL is at most every low of the range bars and equals one of them |
| Orb1h.RangeOrdered | orb1h.js:44-45 | ORL <= ORH once some range bar has low <= high |
| Orb1h.BreakoutShape | orb1h.js:58-70 | with ORL <= ORH at most one side breaks; an order exists iff the close is outside the range; LONG stops at ORL and SHORT at ORH, with risk > 0 and reward = 9 * risk |
| Orb1h.After | orb1h.js:75 | the filter keeps only later bars, and no more bars than there are |
| Orb1h.AfterSpec | orb1h.js:75 | the filter keeps exactly the later bars, one bar for each index whose bar is later than the time |
| Orb1h.FirstHitAfterIsSlFirst | orb1h.js:75-89 | replaying the filtered M5 bars from i equals the SL-first replay of the whole series from i |
| Orb1h.FirstHitAfterIsSlFirstAll | orb1h.js:75-89 | the day's replay is `simulateTrade` of breakout_symbols.js from the breakout bar's time |
| Orb1h.DayScanDecided | orb1h.js:50-98 | a day's breakout scan never yields an OPEN trade: a replay that ends OPEN abandons the day |
| Orb1h.FlattenDecided | orb1h.js:93-97 | days without an OPEN result flatten to decided trades |
| Orb1h.FlattenLength | orb1h.js:97 | at most one trade per day |
| Orb1h.DayResults | orb1h.js:33-99 | one result per day key |
| Orb1h.DayResultDecided | orb1h.js:42-98 | a day's result is never OPEN |
| Orb1h.DayResultsDecided | orb1h.js:33-99 | every counted trade is TP or SL, TP + SL is the trade count, and there are no more trades than days |
| Orb1h.ReplayM5 | orb1h.js:80-89 | the M5 loop with its `break`s computes the SL-first replay of the filtered bars |
| Orb1h.TradeOfDay | orb1h.js:34-98 | one day: the four-bar test, the range, and the breakout loop with its `traded` flag |
| Orb1h.Backtest | orb1h.js:23-111 | trades, wins and losses are the counts over the days in first-seen order, trades == wins + losses <= number of days, and the win rate is `'n/a'` iff there are no trades |
| BreakoutLive.SpreadOkSpec | breakout-live.js:68-70 | no bar or no spread field passes; otherwise it passes iff spread <= 60 |
| BreakoutLive.RoundToStep | breakout-live.js:76-78 | for step > 0 the result is a whole multiple of the step, at most the value, and within one step of it |
| BreakoutLive.CalcLotSpec | breakout-live.js:80-96 | no lot when entry == sl or when the rounded lot is below the minimum; otherwise the lot is at most the maximum, at least the minimum (if min <= max), a whole number of steps unless clamped, and loses at most 1% of the balance at the stop |
| BreakoutLive.DetectH1BiasSpec | breakout-live.js:102-112 | none for fewer than 3 bars; otherwise the `else if` bias of h1[1] against h1[2], stamped with h1[1]'s time |
| BreakoutLive.DetectM15BosSpec | breakout-live.js:114-124 | a timestamp iff there are 3 bars and m15[1] breaks m15[2] in the bias direction, and it is m15[1]'s time |
| BreakoutLive.BuildOrderSpec | breakout-live.js:126-146 | an order iff there are 2 bars and ask (LONG) / bid (SHORT) is strictly beyond m5[1]'s low / high; the stop is that extreme, sl < entry < tp (mirrored) and reward = 2 * risk |
| Bot.NewSessionState | bot.js:31-46 | endTs = openTs + 7200, all flags false, all levels null |
| Bot.SpreadOkFromRatesSpec | bot.js:86-89 | null passes; otherwise it passes iff spread <= 60 |
| Bot.ExactFrom | bot.js:98-101 | the index found from i on has time == openTs |
| Bot.WindowFrom | bot.js:102-105 | the index found from i on has its time in [openTs, openTs + 300) |
| Bot.ExactFromNone | bot.js:98-101 | none iff no bar from i on has time == openTs, and no earlier bar than the one found does |
| Bot.WindowFromNone | bot.js:102-105 | none iff no bar from i on lies in the window, and no earlier bar than the one found does |
| Bot.BarAtOpenSpec | bot.js:95-107 | null iff no bar lies in the window; a returned bar is in the rates and in the window; an exact match, when one exists, is preferred (the first), else the first bar in the window |
| Bot.FindFirstM5BarAtOpen | bot.js:95-107 | the two early-return loops compute BarAtOpen |
| Bot.DetectFvgSpec | bot.js:114-145 | none for a null array or fewer than 5 rates; bullish iff bar2.high < bar0.low, with zone [bar2.high, bar0.low] and slRef bar0.low; bearish iff not bullish and bar2.low > bar0.high, mirrored; bottom < top |
| Bot.FvgInsideOrbSpec | bot.js:147-149 | inside iff orbLow <= bottom and top <= orbHigh; a non-empty zone inside makes the range non-empty |
| Bot.TouchedZoneSpec | bot.js:152-156 | bid for LONG and ask for SHORT against the inclusive zone; no direction, or an empty zone, is never touched |
| Bot.CalcOrderSpec | bot.js:164-177 | no order iff the risk is not positive; otherwise sl = slRef, entry is ask (LONG) / bid (SHORT), the levels are ordered and reward = 3 * risk |
| Bot.CalcOrderFromFvg | bot.js:164-177 | an order off a detected gap stops at the zone top (LONG) or bottom (SHORT) |
| Impulse.InitialState | brakeout_live_multi_02.js:25-32 | the state has exactly the seven symbols, each with no H1 time and the flag cleared |
| Impulse.Refresh | brakeout_live_multi_02.js:65-68 | a new H1 time is recorded and clears the flag; the same time changes nothing; other symbols are untouched |
| Impulse.Levels | brakeout_live_multi_02.js:94-104 | stop and target exist iff the entry is strictly beyond the last M5 low (LONG) / high (SHORT); then sl < entry < tp (mirrored) and reward = 2 * risk |
| LiveMulti02.GuardsLeaveStateAlone | brakeout_live_multi_02.js:43-59 | a series shorter than 2 bars, or no H1 bias, leaves the state unchanged and sends nothing |
| LiveMulti02.StepFrame | brakeout_live_multi_02.js:38-132 | only `state[symbol]` changes; it crashes iff the symbol is unknown past the guards and the bias; past them lastH1Time becomes the last H1 time, and the flag is set iff an order is placed or it was already set for that bar |
| LiveMulti02.PlacedOrderSpec | brakeout_live_multi_02.js:76-131 | an order needs the bias, an M15 break in its direction, an untraded impulse, an entry strictly beyond the last M5 extreme and a positive lot; tp is 2 risks away and the impulse is then marked traded |
| LiveMulti02.NoLotNoOrder | brakeout_live_multi_02.js:115-117 | a lot <= 0 places no order and sets no flag |
| LiveMulti02.OneOrderPerImpulse | brakeout_live_multi_02.js:65-70 | after an order, any later event with the same last H1 time places none |
| LiveMulti02.Engine.constructor | brakeout_live_multi_02.js:25-32 | the module-level state starts as InitialState |
| LiveMulti02.Engine.OnM5Close | brakeout_live_multi_02.js:38-132 | one call updates the state in place and returns the effect of Step |
| LiveMulti.CrashCases | breakout_live_multi.js:36-73 | it throws with fewer than 2 H1 bars before any update, for an unknown symbol once there is a bias, and with fewer than 2 M15 bars only after the new-impulse update; with no M5 bar the state is the new-impulse update and it throws exactly when the impulse is untraded and the last M15 bar breaks; it throws in no other case; only `state[symbol]` changes |
| LiveMulti.PlacedOrderSpec | breakout_live_multi.js:36-95 | an order needs the bias, an M15 break in its direction, an untraded impulse and an entry strictly beyond the last M5 extreme; it carries the lot unchecked, tp is 2 risks away and the impulse is then marked traded |
| LiveMulti.FlagOnlyAfterOrder | breakout_live_multi.js:54-95 | the flag goes from clear to set only on an event that places an order |
| LiveMulti.OneOrderPerImpulse | breakout_live_multi.js:48-54 | after an order, any later event with the same last H1 time places none |
| LiveMulti.AgreesWithMulti02 | breakout_live_multi.js:36-96 | with two bars of each series and a positive lot, this script and brakeout_live_multi_02.js make the same transition |
| LiveMulti.Engine.constructor | breakout_live_multi.js:22-29 | the module-level state starts as InitialState |
| LiveMulti.Engine.OnM5Close | breakout_live_multi.js:36-96 | one call updates the state in place and returns the effect of Step |
| DownloadHistory.InsertPerm | download_history.js:67 | insertion adds exactly the one row: the multiset grows by it |
| DownloadHistory.InsertSorted | download_history.js:67 | inserting into a sorted list keeps it sorted |
| DownloadHistory.InsertStable | download_history.js:67 | after insertion the rows of each time are the old ones in their order, then the inserted row if it has that time |
| DownloadHistory.SortSpec | download_history.js:67 | the stable sort by time is sorted, a permutation of the input, and keeps the rows of each time in input order |
| DownloadHistory.SortIdentity | download_history.js:67 | sorting a sorted list changes nothing |
| DownloadHistory.DedupSubset | download_history.js:68-74 | the dedup keeps at most the input's rows, each one taken from the input |
| DownloadHistory.DedupTimes | download_history.js:68-74 | the dedup keeps exactly the input's set of times |
| DownloadHistory.DedupIncreasing | download_history.js:68-74 | on sorted rows the dedup's times strictly increase |
| DownloadHistory.DedupKeepsFirst | download_history.js:70-73 | each kept row is the first row with its time |
| DownloadHistory.DedupIdentity | download_history.js:68-74 | rows with strictly increasing times are left as they are |
| DownloadHistory.DedupAndSortSpec | download_history.js:66-75 | strictly increasing times; exactly the input's times, each once; for each time, the first input row with it; no longer than the input; applying it twice gives the same result |
| DownloadHistory.SortRows | download_history.js:67 | `rows.sort` leaves the array holding the stable sort by time of its old contents |
| DownloadHistory.DedupSorted | download_history.js:68-74 | the loop over `lastT` and `out.push` computes the dedup |
| DownloadHistory.DedupAndSort | download_history.js:66-75 | the array is sorted in place, and the returned rows are the dedup of the sorted rows |
| DownloadHistory.WindowsShape | download_history.js:83-89 | no windows iff from >= to; the first starts at from and the last ends at to; each is non-empty and at most one step long; consecutive windows meet |
| DownloadHistory.WindowsCover | download_history.js:83-89 | a timestamp is in some window iff from <= x < to |
| DownloadHistory.WindowsCount | download_history.js:83-89 | for from < to there are n windows with (n - 1) * step < to - from <= n * step |
| DownloadHistory.ChunkWindows | download_history.js:81-89 | the loop `t += step` from toTs - 730 days produces exactly those windows |

## Left out

- The Python gateway files (`mt5_connect_test.py`, `mt5_connect_backtest.py`) are Flask routes over the MetaTrader5 library, which means foreign calls and network I/O.
- File loading (`loadCandles`, `load`, `fs`) is left out. Each series is an input: an `Option` wherever the script checks for a missing file.
- `console.log` reporting and `toFixed` rounding are left out. Averages and win rates are exact, and `'n/a'` is `None`.
- The global roll-ups (asd.js:256-262, orb5min-test.js:239-244) rebuild sums from rounded strings with `parseFloat`. This is string and floating-point plumbing, and `parseFloat('n/a')` gives NaN.
- The polling loops are left out: bot.js `main`, which also reads the undefined `OneTradePerSession`, and breakout-live.js `main`. So are their axios calls (`connect`, `getTick`, `getRates`, `getAccount`, `getSymbolInfo`, `sendOrder`) and `sleep`.
- bot.js `ymdKeyFromUnix` and the `setHours` session opening times depend on JavaScript `Date` and the local time zone, so they are left out.
- The broker placeholders of the multi-symbol scripts are left out: `getMarketPrice`, `calculateLotSize`, `getValuePerPoint`, `calcLot` and `placeMarketOrder`. The price and the lot are inputs, and a placed order is the `Placed` effect.
- The download loop's `fetchChunk`, retries, `sleep`, `mkdir` and `writeFile` are network and file I/O. `nowUnix` reads the clock, so `toTs` is an input. Only the windows and `dedupAndSort` are modelled.
- IEEE doubles are left out: prices are exact reals. Identities such as realizedR = n - 1 hold exactly only over the reals.
- luxon is left out. The UTC day is ts div 86400 and the UTC hour is (ts mod 86400) div 3600.
- DownloadHistory.SortRows: models `Array.prototype.sort` by its contract, a stable sort by time written back into the array, and not by the engine's own algorithm.
- TrailingLadder.SimulateLadder: requires entry != sl. With entry == sl the scripts divide by a zero risk, and that floating-point case is not modelled.
- BreakoutLive.RoundToStep: requires step > 0, and `calcLot` requires a positive tick size and volume step (`ValidInfo`). Otherwise the source divides by zero.
- BreakoutLive.CalcLotSpec: requires a positive tick value as well (`ValidInfo`). With `tick_value` 0 the source's lot is a division by zero: Infinity, clamped to `volume_max`, or NaN for a zero balance. Reals have neither value.
- BreakoutLive.CalcLotSpec: the guard `dist <= 0` is the same as entry == sl once dist is an absolute value, so the lemma states it that way.
- LiveMulti02.Engine.OnM5Close: each call is one atomic step. In the source, the flag test (brakeout_live_multi_02.js:70) and the flag set (:131) are separated by `await getMarketPrice` and `await placeMarketOrder`. Interleaved calls for one symbol are not modelled.
- LiveMulti02.OneOrderPerImpulse: holds for calls run one after another. Two overlapping calls for the same symbol and H1 bar can both pass the flag test in the source and place two orders for one impulse.
- LiveMulti.Engine.OnM5Close: each call is one atomic step. In the source, the flag test (breakout_live_multi.js:54) and the flag set (:95) are separated by `await getMarketPrice` and `await placeMarketOrder`. Interleaved calls for one symbol are not modelled.
- LiveMulti.OneOrderPerImpulse: holds for calls run one after another. Two overlapping calls for the same symbol and H1 bar can both pass the flag test in the source and place two orders for one impulse.
- DownloadHistory.ChunkWindows: requires chunkDays > 0. With a step of 0 the source loop never ends.
