/**
 * orb1h.js: a daily opening-range breakout on M15 with an M5 replay. M15 bars are grouped
 * by UTC date; a day with at least four bars in UTC hour 7 has the opening range
 * [min low, max high] of those bars; the first M15 close outside the range within UTC
 * hours 8 to 17 opens a trade with the stop at the far side of the range and the target
 * 9 risks away, replayed on the later M5 bars. At most one trade per day; a replay that
 * reaches neither level abandons the day.
 */
module Orb1h {
  import opened Candles
  import opened FixedRR
  import opened Stats

  const RR: real := 9.0
  const SecondsPerDay: int := 86400

  /* ---------------- UTC calendar arithmetic (`DateTime.fromSeconds(ts, { zone: 'utc' })`) */

  /** The UTC date, as a day number: the key `toISODate()` stands for. */
  function UtcDay(ts: int): int {
    ts / SecondsPerDay
  }

  /** `.hour` in UTC. */
  function UtcHour(ts: int): int {
    (ts % SecondsPerDay) / 3600
  }

  /** A timestamp is its day's midnight plus whole hours plus under an hour, with 0 <= hour < 24. */
  lemma UtcDecomposition(ts: int)
    ensures 0 <= UtcHour(ts) < 24
    ensures UtcDay(ts) * SecondsPerDay + UtcHour(ts) * 3600 <= ts < UtcDay(ts) * SecondsPerDay + UtcHour(ts) * 3600 + 3600
    ensures UtcDay(ts) * SecondsPerDay <= ts < (UtcDay(ts) + 1) * SecondsPerDay
  {
  }

  /* ---------------- grouping by day (orb1h.js:25-31) */

  /** The keys of `days` in insertion order: each day when its first bar is seen. */
  function DayKeys(s: seq<Candle>): seq<int> {
    if |s| == 0 then []
    else
      var ks := DayKeys(s[..|s| - 1]);
      if UtcDay(s[|s| - 1].time) in ks then ks else ks + [UtcDay(s[|s| - 1].time)]
  }

  /** `days[d]`: the bars of day d, in the order they were pushed. */
  function DayBars(s: seq<Candle>, d: int): seq<Candle> {
    if |s| == 0 then []
    else DayBars(s[..|s| - 1], d) + (if UtcDay(s[|s| - 1].time) == d then [s[|s| - 1]] else [])
  }

  /**
   * The keys are distinct, they are exactly the days that have a bar, and each day's list
   * holds only that day's bars and is empty for a day that is not a key.
   */
  lemma {:induction false} DayKeysSpec(s: seq<Candle>)
    ensures forall a, b :: 0 <= a < b < |DayKeys(s)| ==> DayKeys(s)[a] != DayKeys(s)[b]
    ensures forall d :: d in DayKeys(s) <==> exists k :: 0 <= k < |s| && UtcDay(s[k].time) == d
    ensures forall d :: d !in DayKeys(s) ==> DayBars(s, d) == []
    ensures forall d, k :: 0 <= k < |DayBars(s, d)| ==> UtcDay(DayBars(s, d)[k].time) == d
  {
    if |s| > 0 {
      var init := s[..|s| - 1];
      DayKeysSpec(init);
      assert forall k :: 0 <= k < |init| ==> init[k] == s[k];
      forall d | d in DayKeys(s)
        ensures exists k :: 0 <= k < |s| && UtcDay(s[k].time) == d
      {
        if d in DayKeys(init) {
          var k :| 0 <= k < |init| && UtcDay(init[k].time) == d;
          assert UtcDay(s[k].time) == d;
        } else {
          assert UtcDay(s[|s| - 1].time) == d;
        }
      }
    }
  }

  /** Days are listed in first-seen order: the keys of a prefix are a prefix of the keys. */
  lemma {:induction false} DayKeysPrefix(s: seq<Candle>, n: nat)
    requires n <= |s|
    ensures DayKeys(s[..n]) <= DayKeys(s)
    decreases |s| - n
  {
    if n < |s| {
      DayKeysPrefix(s, n + 1);
      assert s[..n + 1][..n] == s[..n];
    } else {
      assert s[..n] == s;
    }
  }

  /** `keys` and `days` are the grouping of s: the state the grouping loop keeps. */
  ghost predicate Grouped(s: seq<Candle>, keys: seq<int>, days: map<int, seq<Candle>>) {
    && keys == DayKeys(s)
    && (forall d :: d in days <==> d in keys)
    && (forall d :: d in days ==> days[d] == DayBars(s, d))
    && (forall d :: d !in days ==> DayBars(s, d) == [])
  }

  /** One push keeps the grouping. */
  lemma GroupStep(m15: seq<Candle>, i: nat, keys: seq<int>, days: map<int, seq<Candle>>)
    requires i < |m15| && Grouped(m15[..i], keys, days)
    ensures var d := UtcDay(m15[i].time);
      var keys' := if d in days then keys else keys + [d];
      var started := if d in days then days else days[d := []];
      Grouped(m15[..i + 1], keys', started[d := started[d] + [m15[i]]])
  {
    var s, c := m15[..i], m15[i];
    var d := UtcDay(c.time);
    var s' := m15[..i + 1];
    assert s'[..i] == s && s'[i] == c && |s'| == i + 1;
    assert DayKeys(s') == if d in keys then keys else keys + [d];
    forall e
      ensures DayBars(s', e) == DayBars(s, e) + (if d == e then [c] else [])
    {
    }
  }

  /** The day list stored under the k-th key is that day's bars. */
  lemma GroupedLookup(m15: seq<Candle>, keys: seq<int>, days: map<int, seq<Candle>>, k: nat)
    requires Grouped(m15, keys, days) && k < |keys|
    ensures keys[k] in days && days[keys[k]] == DayBars(m15, keys[k])
  {
    var d := keys[k];
    assert d in keys;
    assert d in days <==> d in keys;
  }

  /** The grouping loop: `if (!days[d]) days[d] = []; days[d].push(c)`. */
  method GroupByDay(m15: seq<Candle>) returns (keys: seq<int>, days: map<int, seq<Candle>>)
    ensures Grouped(m15, keys, days)
  {
    keys, days := [], map[];
    var i := 0;
    while i < |m15|
      invariant 0 <= i <= |m15|
      invariant Grouped(m15[..i], keys, days)
    {
      var c := m15[i];
      var d := UtcDay(c.time);
      GroupStep(m15, i, keys, days);
      if d !in days {
        days := days[d := []];
        keys := keys + [d];
      }
      days := days[d := days[d] + [c]];
      i := i + 1;
    }
    assert m15[..i] == m15;
  }

  /* ---------------- the opening range (orb1h.js:36-45) */

  /** `d15.filter(c => utc(c[0]).hour === h)`. */
  function HourBars(s: seq<Candle>, h: int): seq<Candle> {
    if |s| == 0 then []
    else (if UtcHour(s[0].time) == h then [s[0]] else []) + HourBars(s[1..], h)
  }

  /** The filter keeps exactly the bars of hour h, one for each index whose bar is of hour h. */
  lemma {:induction false} HourBarsSpec(s: seq<Candle>, h: int)
    ensures |HourBars(s, h)| <= |s|
    ensures forall c :: c in HourBars(s, h) <==> c in s && UtcHour(c.time) == h
    ensures |HourBars(s, h)| == |set k | 0 <= k < |s| && UtcHour(s[k].time) == h|
  {
    HourBarsCount(s, h);
    if |s| > 0 {
      HourBarsSpec(s[1..], h);
      assert s == [s[0]] + s[1..];
    }
  }

  lemma {:induction false} HourBarsAppend(a: seq<Candle>, b: seq<Candle>, h: int)
    ensures HourBars(a + b, h) == HourBars(a, h) + HourBars(b, h)
  {
    if |a| == 0 {
      assert a + b == b;
    } else {
      assert (a + b)[0] == a[0] && (a + b)[1..] == a[1..] + b;
      HourBarsAppend(a[1..], b, h);
    }
  }

  lemma {:induction false} HourBarsCount(s: seq<Candle>, h: int)
    ensures |HourBars(s, h)| == |set k | 0 <= k < |s| && UtcHour(s[k].time) == h|
  {
    if |s| > 0 {
      var n := |s| - 1;
      var init := s[..n];
      HourBarsCount(init, h);
      assert s == init + [s[n]];
      HourBarsAppend(init, [s[n]], h);
      assert [s[n]][1..] == [];
      var last := if UtcHour(s[n].time) == h then {n} else {};
      var before := set k | 0 <= k < |init| && UtcHour(init[k].time) == h;
      var all := set k | 0 <= k < |s| && UtcHour(s[k].time) == h;
      forall k | k in all ensures k in before + last {
        if k < n { assert init[k] == s[k]; }
      }
      assert all == before + last;
      assert n !in before;
    }
  }

  /** `Math.max(...orb.map(c => c[2]))` over a non-empty list. */
  function MaxHigh(s: seq<Candle>): real
    requires |s| > 0
  {
    if |s| == 1 then s[0].high
    else
      var rest := MaxHigh(s[1..]);
      if s[0].high >= rest then s[0].high else rest
  }

  /** `Math.min(...orb.map(c => c[3]))` over a non-empty list. */
  function MinLow(s: seq<Candle>): real
    requires |s| > 0
  {
    if |s| == 1 then s[0].low
    else
      var rest := MinLow(s[1..]);
      if s[0].low <= rest then s[0].low else rest
  }

  /** ORH is the largest high of the range bars, and some bar has it. */
  lemma {:induction false} MaxHighSpec(s: seq<Candle>)
    requires |s| > 0
    ensures forall k :: 0 <= k < |s| ==> s[k].high <= MaxHigh(s)
    ensures exists k :: 0 <= k < |s| && s[k].high == MaxHigh(s)
  {
    if |s| == 1 {
      assert s[0].high == MaxHigh(s);
    } else {
      var rest := s[1..];
      MaxHighSpec(rest);
      assert forall k :: 1 <= k < |s| ==> s[k] == rest[k - 1];
      var a :| 0 <= a < |rest| && rest[a].high == MaxHigh(rest);
      if s[0].high >= MaxHigh(rest) {
        assert s[0].high == MaxHigh(s);
      } else {
        assert s[a + 1].high == MaxHigh(s);
      }
    }
  }

  /** ORL is the smallest low of the range bars, and some bar has it. */
  lemma {:induction false} MinLowSpec(s: seq<Candle>)
    requires |s| > 0
    ensures forall k :: 0 <= k < |s| ==> MinLow(s) <= s[k].low
    ensures exists k :: 0 <= k < |s| && s[k].low == MinLow(s)
  {
    if |s| == 1 {
      assert s[0].low == MinLow(s);
    } else {
      var rest := s[1..];
      MinLowSpec(rest);
      assert forall k :: 1 <= k < |s| ==> s[k] == rest[k - 1];
      var b :| 0 <= b < |rest| && rest[b].low == MinLow(rest);
      if s[0].low <= MinLow(rest) {
        assert s[0].low == MinLow(s);
      } else {
        assert s[b + 1].low == MinLow(s);
      }
    }
  }

  /** When some opening-range bar has low <= high (any well-formed bar will do), ORL <= ORH. */
  lemma RangeOrdered(orb: seq<Candle>, k: nat)
    requires k < |orb| && orb[k].low <= orb[k].high
    ensures MinLow(orb) <= MaxHigh(orb)
  {
    MaxHighSpec(orb);
    MinLowSpec(orb);
  }

  /* ---------------- the breakout and the M5 replay (orb1h.js:55-91) */

  /**
   * The two `if`s on the close: above ORH is LONG with the stop at ORL, below ORL is SHORT
   * with the stop at ORH (running second, it wins if both hold); the target is RR risks away.
   */
  function Breakout(c: Candle, orh: real, orl: real): Option<Order> {
    var afterLong := if c.close > orh then Some(Order(c.time, Long, c.close, orl, c.close + RR * (c.close - orl))) else None;
    if c.close < orl then Some(Order(c.time, Short, c.close, orh, c.close - RR * (orh - c.close))) else afterLong
  }

  /**
   * With ORL <= ORH at most one side breaks, and the order is stop < entry < target for LONG
   * (mirrored for SHORT) with a reward of exactly RR times the risk: the risk is positive.
   */
  lemma BreakoutShape(c: Candle, orh: real, orl: real)
    requires orl <= orh
    ensures !(c.close > orh && c.close < orl)
    ensures Breakout(c, orh, orl).Some? <==> c.close > orh || c.close < orl
    ensures var o := Breakout(c, orh, orl);
      o.Some? ==>
        && o.value.entry == c.close && o.value.time == c.time
        && (o.value.dir == Long ==> c.close > orh && o.value.sl == orl && o.value.sl < o.value.entry < o.value.tp
                                    && o.value.tp - o.value.entry == RR * (o.value.entry - o.value.sl))
        && (o.value.dir == Short ==> c.close < orl && o.value.sl == orh && o.value.tp < o.value.entry < o.value.sl
                                     && o.value.entry - o.value.tp == RR * (o.value.sl - o.value.entry))
  {
  }

  /** `M5.filter(m => m[0] > t)`. */
  function After(s: seq<Candle>, t: int): (r: seq<Candle>)
    ensures |r| <= |s|
    ensures forall k :: 0 <= k < |r| ==> r[k].time > t
  {
    if |s| == 0 then []
    else (if s[0].time > t then [s[0]] else []) + After(s[1..], t)
  }

  /** The filter keeps exactly the bars later than t, one for each index whose bar is later. */
  lemma {:induction false} AfterSpec(s: seq<Candle>, t: int)
    ensures forall c :: c in After(s, t) <==> c in s && c.time > t
    ensures |After(s, t)| == |set k | 0 <= k < |s| && s[k].time > t|
  {
    AfterCount(s, t);
    if |s| > 0 {
      AfterSpec(s[1..], t);
      assert s == [s[0]] + s[1..];
    }
  }

  lemma {:induction false} AfterAppend(a: seq<Candle>, b: seq<Candle>, t: int)
    ensures After(a + b, t) == After(a, t) + After(b, t)
  {
    if |a| == 0 {
      assert a + b == b;
    } else {
      assert (a + b)[0] == a[0] && (a + b)[1..] == a[1..] + b;
      AfterAppend(a[1..], b, t);
    }
  }

  lemma {:induction false} AfterCount(s: seq<Candle>, t: int)
    ensures |After(s, t)| == |set k | 0 <= k < |s| && s[k].time > t|
  {
    if |s| > 0 {
      var n := |s| - 1;
      var init := s[..n];
      AfterCount(init, t);
      assert s == init + [s[n]];
      AfterAppend(init, [s[n]], t);
      assert [s[n]][1..] == [];
      var last := if s[n].time > t then {n} else {};
      var before := set k | 0 <= k < |init| && init[k].time > t;
      var all := set k | 0 <= k < |s| && s[k].time > t;
      forall k | k in all ensures k in before + last {
        if k < n { assert init[k] == s[k]; }
      }
      assert all == before + last;
      assert n !in before;
    }
  }

  /** The replay over `m5After`: no skipping (every bar is already later), SL before TP. */
  function FirstHit(s: seq<Candle>, dir: Direction, sl: real, tp: real): Outcome {
    if |s| == 0 then Open
    else if HitsStop(s[0], dir, sl) then SL
    else if HitsTarget(s[0], dir, tp) then TP
    else FirstHit(s[1..], dir, sl, tp)
  }

  /**
   * Replaying the filtered bars is `simulateTrade` of breakout_symbols.js on the whole
   * series from the breakout bar's time: the bars it filters out are the ones it would skip.
   */
  lemma {:induction false} FirstHitAfterIsSlFirst(m5: seq<Candle>, t: int, dir: Direction, sl: real, tp: real, i: nat)
    requires i <= |m5|
    ensures FirstHit(After(m5[i..], t), dir, sl, tp) == SlFirstFrom(m5, t, dir, sl, tp, i)
    decreases |m5| - i
  {
    if i < |m5| {
      assert m5[i..][0] == m5[i];
      assert m5[i..][1..] == m5[i + 1..];
      FirstHitAfterIsSlFirst(m5, t, dir, sl, tp, i + 1);
      var rest := After(m5[i + 1..], t);
      if m5[i].time > t {
        assert After(m5[i..], t) == [m5[i]] + rest;
        assert ([m5[i]] + rest)[0] == m5[i] && ([m5[i]] + rest)[1..] == rest;
      } else {
        assert After(m5[i..], t) == [] + rest == rest;
      }
    }
  }

  lemma FirstHitAfterIsSlFirstAll(m5: seq<Candle>, t: int, dir: Direction, sl: real, tp: real)
    ensures FirstHit(After(m5, t), dir, sl, tp) == SlFirst(m5, t, dir, sl, tp)
  {
    FirstHitAfterIsSlFirst(m5, t, dir, sl, tp, 0);
    assert m5[0..] == m5;
  }

  /* ---------------- one day (orb1h.js:33-98) */

  /**
   * The breakout loop over the day's bars from p on, with the range [orl, orh]: bars
   * outside hours 8 to 17 and bars that break neither side are passed over, as is a
   * breakout with fewer than two later M5 bars; the first other breakout decides the day,
   * None when its replay is still open.
   */
  function DayScan(d15: seq<Candle>, m5: seq<Candle>, orh: real, orl: real, p: nat): Option<Outcome>
    requires p <= |d15|
    decreases |d15| - p
  {
    if p == |d15| then None
    else
      var c := d15[p];
      var h := UtcHour(c.time);
      if h < 8 || h > 17 then DayScan(d15, m5, orh, orl, p + 1)
      else match Breakout(c, orh, orl)
        case None => DayScan(d15, m5, orh, orl, p + 1)
        case Some(o) =>
          var m5After := After(m5, c.time);
          if |m5After| < 2 then DayScan(d15, m5, orh, orl, p + 1)
          else
            var r := FirstHit(m5After, o.dir, o.sl, o.tp);
            if r == Open then None else Some(r)
  }

  /** The trade of one day: none without four opening-range bars, else the breakout scan. */
  function DayResult(d15: seq<Candle>, m5: seq<Candle>): Option<Outcome> {
    var orb := HourBars(d15, 7);
    if |orb| < 4 then None else DayScan(d15, m5, MaxHigh(orb), MinLow(orb), 0)
  }

  /** A day's trade, when there is one, is decided: TP or SL. */
  lemma {:induction false} DayScanDecided(d15: seq<Candle>, m5: seq<Candle>, orh: real, orl: real, p: nat)
    requires p <= |d15|
    ensures DayScan(d15, m5, orh, orl, p) != Some(Open)
    decreases |d15| - p
  {
    if p < |d15| {
      DayScanDecided(d15, m5, orh, orl, p + 1);
    }
  }

  /** The trades of a list of days: each day's trade when it has one, in order. */
  function Flatten(os: seq<Option<Outcome>>): seq<Outcome> {
    if |os| == 0 then [] else Flatten(os[..|os| - 1]) + AsList(os[|os| - 1])
  }

  /** Flattening days none of which is open gives decided trades. */
  lemma {:induction false} FlattenDecided(os: seq<Option<Outcome>>)
    requires forall k :: 0 <= k < |os| ==> os[k] != Some(Open)
    ensures forall k :: 0 <= k < |Flatten(os)| ==> Flatten(os)[k] != Open
  {
    if |os| > 0 {
      var init := os[..|os| - 1];
      assert forall k :: 0 <= k < |init| ==> init[k] == os[k];
      FlattenDecided(init);
      var prev, last := Flatten(init), AsList(os[|os| - 1]);
      assert Flatten(os) == prev + last;
      assert forall k :: 0 <= k < |prev + last| ==> (prev + last)[k] == if k < |prev| then prev[k] else last[k - |prev|];
    }
  }

  lemma FlattenStep(os: seq<Option<Outcome>>, k: nat)
    requires k < |os|
    ensures Flatten(os[..k + 1]) == Flatten(os[..k]) + AsList(os[k])
  {
    assert os[..k + 1][..k] == os[..k];
  }

  /** Appending a day's result adds one to the trades and to its own count, if it is a trade. */
  lemma CountsAppend(rs: seq<Outcome>, r: Option<Outcome>)
    ensures |rs + AsList(r)| == |rs| + (if r.Some? then 1 else 0)
    ensures CountTP(rs + AsList(r)) == CountTP(rs) + (if r == Some(TP) then 1 else 0)
    ensures CountSL(rs + AsList(r)) == CountSL(rs) + (if r == Some(SL) then 1 else 0)
  {
    if r.Some? {
      CountsSnoc(rs, r.value);
    } else {
      assert rs + AsList(r) == rs;
    }
  }

  /** At most one trade per day. */
  lemma {:induction false} FlattenLength(os: seq<Option<Outcome>>)
    ensures |Flatten(os)| <= |os|
  {
    if |os| > 0 {
      FlattenLength(os[..|os| - 1]);
    }
  }

  /** The per-day results, one for each key in first-seen order. */
  function DayResults(m15: seq<Candle>, m5: seq<Candle>, keys: seq<int>): (os: seq<Option<Outcome>>)
    ensures |os| == |keys|
  {
    seq(|keys|, k requires 0 <= k < |keys| => DayResult(DayBars(m15, keys[k]), m5))
  }

  lemma DayResultDecided(d15: seq<Candle>, m5: seq<Candle>)
    ensures DayResult(d15, m5) != Some(Open)
  {
    var orb := HourBars(d15, 7);
    if |orb| >= 4 {
      DayScanDecided(d15, m5, MaxHigh(orb), MinLow(orb), 0);
    }
  }

  /** No day yields an open trade, so every counted trade is TP or SL; at most one per day. */
  lemma DayResultsDecided(m15: seq<Candle>, m5: seq<Candle>, keys: seq<int>)
    ensures var rs := Flatten(DayResults(m15, m5, keys));
      && (forall k :: 0 <= k < |rs| ==> rs[k] != Open)
      && CountTP(rs) + CountSL(rs) == |rs|
      && |rs| <= |keys|
  {
    var os := DayResults(m15, m5, keys);
    forall k | 0 <= k < |os|
      ensures os[k] != Some(Open)
    {
      DayResultDecided(DayBars(m15, keys[k]), m5);
    }
    FlattenDecided(os);
    FlattenLength(os);
    OutcomeCounts(Flatten(os));
  }

  /** The M5 loop `for (i = 0; i < m5After.length; i++)` with its `break`s; OPEN is `null`. */
  method ReplayM5(m5After: seq<Candle>, dir: Direction, sl: real, tp: real) returns (result: Outcome)
    ensures result == FirstHit(m5After, dir, sl, tp)
  {
    var i := 0;
    while i < |m5After|
      invariant 0 <= i <= |m5After|
      invariant FirstHit(m5After[i..], dir, sl, tp) == FirstHit(m5After, dir, sl, tp)
    {
      var m := m5After[i];
      assert m5After[i..][0] == m && m5After[i..][1..] == m5After[i + 1..];
      if dir == Long {
        if m.low <= sl { return SL; }
        if m.high >= tp { return TP; }
      } else {
        if m.high >= sl { return SL; }
        if m.low <= tp { return TP; }
      }
      i := i + 1;
    }
    return Open;
  }

  /** The body of `for (const day of Object.keys(days))`: the range, then the breakout loop. */
  method TradeOfDay(d15: seq<Candle>, m5: seq<Candle>) returns (r: Option<Outcome>)
    ensures r == DayResult(d15, m5)
  {
    var orb := HourBars(d15, 7);
    if |orb| < 4 {
      return None;
    }
    var orh, orl := MaxHigh(orb), MinLow(orb);
    var traded := false;
    r := None;
    var p := 0;
    while p < |d15|
      invariant 0 <= p <= |d15|
      invariant !traded ==> r.None? && DayScan(d15, m5, orh, orl, p) == DayResult(d15, m5)
      invariant traded ==> r == DayResult(d15, m5)
    {
      var c := d15[p];
      var hour := UtcHour(c.time);
      if hour < 8 || hour > 17 {
        p := p + 1;
        continue;
      }
      if traded {
        break;
      }
      var direction: Option<Direction> := None;
      var sl, tp := 0.0, 0.0;
      if c.close > orh {
        direction := Some(Long);
        sl := orl;
        tp := c.close + RR * (c.close - sl);
      }
      if c.close < orl {
        direction := Some(Short);
        sl := orh;
        tp := c.close - RR * (sl - c.close);
      }
      if direction.None? {
        p := p + 1;
        continue;
      }
      assert Breakout(c, orh, orl) == Some(Order(c.time, direction.value, c.close, sl, tp));
      var m5After := After(m5, c.time);
      if |m5After| < 2 {
        p := p + 1;
        continue;
      }
      var result := ReplayM5(m5After, direction.value, sl, tp);
      if result == Open {
        break;
      }
      r := Some(result);
      traded := true;
      p := p + 1;
    }
  }

  /**
   * The script: group the M15 bars by UTC day, trade each day in first-seen order and count
   * the trades, the TP and the SL results; the win rate is `trades ? wins / trades * 100 : 'n/a'`.
   */
  method Backtest(m15: seq<Candle>, m5: seq<Candle>) returns (trades: nat, wins: nat, losses: nat, winrate: Option<real>)
    ensures var rs := Flatten(DayResults(m15, m5, DayKeys(m15)));
      trades == |rs| && wins == CountTP(rs) && losses == CountSL(rs)
    ensures trades == wins + losses && trades <= |DayKeys(m15)|
    ensures winrate == WinRate(trades, wins)
  {
    var keys, days := GroupByDay(m15);
    assert keys == DayKeys(m15);
    trades, wins, losses := 0, 0, 0;
    var k := 0;
    ghost var os := DayResults(m15, m5, keys);
    ghost var rs: seq<Outcome> := [];
    while k < |keys|
      invariant 0 <= k <= |keys|
      invariant rs == Flatten(os[..k])
      invariant trades == |rs| && wins == CountTP(rs) && losses == CountSL(rs)
    {
      GroupedLookup(m15, keys, days, k);
      var d15 := days[keys[k]];
      var result := TradeOfDay(d15, m5);
      FlattenStep(os, k);
      CountsAppend(rs, result);
      if result.Some? {
        trades := trades + 1;
        if result.value == TP { wins := wins + 1; }
        if result.value == SL { losses := losses + 1; }
      }
      rs := rs + AsList(result);
      k := k + 1;
    }
    assert os[..k] == os;
    DayResultsDecided(m15, m5, keys);
    winrate := WinRate(trades, wins);
  }
}
