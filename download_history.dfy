/**
 * download_history.js: the candle cleanup applied to the downloaded rows (`dedupAndSort`)
 * and the time windows the history is fetched in (`downloadSymbolTF`). A row is modelled by
 * its candle; `row[0]` is its `time`.
 */
module DownloadHistory {
  import opened Candles

  const DaysBack: int := 730
  const SecondsPerDay: int := 86400

  predicate Sorted(s: seq<Candle>) {
    forall i, j :: 0 <= i < j < |s| ==> s[i].time <= s[j].time
  }

  predicate StrictlyIncreasing(s: seq<Candle>) {
    forall i, j :: 0 <= i < j < |s| ==> s[i].time < s[j].time
  }

  /** The timestamps present. */
  function Times(s: seq<Candle>): set<int> {
    set c | c in s :: c.time
  }

  /** The rows with time t, in their order. */
  function WithTime(s: seq<Candle>, t: int): seq<Candle> {
    if |s| == 0 then []
    else WithTime(s[..|s| - 1], t) + (if s[|s| - 1].time == t then [s[|s| - 1]] else [])
  }

  lemma {:induction false} WithTimeAppend(a: seq<Candle>, b: seq<Candle>, t: int)
    ensures WithTime(a + b, t) == WithTime(a, t) + WithTime(b, t)
    decreases |b|
  {
    if |b| == 0 {
      assert a + b == a;
    } else {
      var b' := b[..|b| - 1];
      WithTimeAppend(a, b', t);
      assert (a + b)[..|a + b| - 1] == a + b';
      assert (a + b)[|a + b| - 1] == b[|b| - 1];
    }
  }

  lemma {:induction false} WithTimeEmpty(s: seq<Candle>, t: int)
    requires forall k :: 0 <= k < |s| ==> s[k].time != t
    ensures WithTime(s, t) == []
  {
    if |s| > 0 {
      WithTimeEmpty(s[..|s| - 1], t);
    }
  }

  /* ---------------- the stable sort `rows.sort((a, b) => a[0] - b[0])` */

  /** Insert x after every row whose time is not greater: equal times keep their order. */
  function Insert(sorted: seq<Candle>, x: Candle): seq<Candle>
    decreases |sorted|
  {
    if |sorted| == 0 then [x]
    else if sorted[|sorted| - 1].time <= x.time then sorted + [x]
    else Insert(sorted[..|sorted| - 1], x) + [sorted[|sorted| - 1]]
  }

  /** A stable sort by time: what the engine's `Array.prototype.sort` is required to be. */
  function SortByTime(s: seq<Candle>): seq<Candle> {
    if |s| == 0 then [] else Insert(SortByTime(s[..|s| - 1]), s[|s| - 1])
  }

  lemma {:induction false} InsertPerm(sorted: seq<Candle>, x: Candle)
    ensures multiset(Insert(sorted, x)) == multiset(sorted) + multiset{x}
    decreases |sorted|
  {
    if |sorted| > 0 && sorted[|sorted| - 1].time > x.time {
      var init := sorted[..|sorted| - 1];
      InsertPerm(init, x);
      assert sorted == init + [sorted[|sorted| - 1]];
    }
  }

  lemma SortedSnoc(a: seq<Candle>, y: Candle)
    requires Sorted(a)
    requires forall c :: c in multiset(a) ==> c.time <= y.time
    ensures Sorted(a + [y])
  {
    forall i | 0 <= i < |a|
      ensures a[i].time <= y.time
    {
      assert a[i] in multiset(a);
    }
  }

  lemma {:induction false} InsertSorted(sorted: seq<Candle>, x: Candle)
    requires Sorted(sorted)
    ensures Sorted(Insert(sorted, x))
    decreases |sorted|
  {
    if |sorted| > 0 && sorted[|sorted| - 1].time > x.time {
      var init, y := sorted[..|sorted| - 1], sorted[|sorted| - 1];
      InsertSorted(init, x);
      InsertPerm(init, x);
      forall c | c in multiset(Insert(init, x))
        ensures c.time <= y.time
      {
        assert c in multiset(init) || c == x;
        if c in multiset(init) {
          var j :| 0 <= j < |init| && init[j] == c;
          assert sorted[j] == c;
        }
      }
      SortedSnoc(Insert(init, x), y);
    }
  }

  lemma WithTimeSingle(c: Candle, t: int)
    ensures WithTime([c], t) == if c.time == t then [c] else []
  {
    assert [c][..0] == [];
  }

  /** Moving a row of another time past x does not change either time's rows. */
  lemma SwapPast(a: seq<Candle>, init: seq<Candle>, x: Candle, y: Candle, t: int)
    requires x.time != y.time
    requires WithTime(a, t) == WithTime(init, t) + WithTime([x], t)
    ensures WithTime(a + [y], t) == WithTime(init + [y], t) + WithTime([x], t)
  {
    WithTimeAppend(a, [y], t);
    WithTimeAppend(init, [y], t);
    WithTimeSingle(x, t);
    WithTimeSingle(y, t);
    var wi, wx, wy := WithTime(init, t), WithTime([x], t), WithTime([y], t);
    if wx == [] {
      assert wi + wx + wy == wi + wy + wx;
    } else {
      assert wy == [];
      assert wi + wx + wy == wi + wy + wx;
    }
  }

  lemma {:induction false} InsertStable(sorted: seq<Candle>, x: Candle, t: int)
    ensures WithTime(Insert(sorted, x), t) == WithTime(sorted, t) + WithTime([x], t)
    decreases |sorted|
  {
    if |sorted| == 0 {
      assert Insert(sorted, x) == [x];
      assert WithTime(sorted, t) == [];
    } else if sorted[|sorted| - 1].time <= x.time {
      assert Insert(sorted, x) == sorted + [x];
      WithTimeAppend(sorted, [x], t);
    } else {
      var init, y := sorted[..|sorted| - 1], sorted[|sorted| - 1];
      var a := Insert(init, x);
      assert Insert(sorted, x) == a + [y];
      InsertStable(init, x, t);
      SwapPast(a, init, x, y, t);
      assert init + [y] == sorted;
    }
  }

  /**
   * The sort returns the rows ordered by time, as a permutation, and stably: the rows of any
   * one timestamp come out in their input order.
   */
  lemma {:induction false} SortSpec(s: seq<Candle>)
    ensures Sorted(SortByTime(s))
    ensures multiset(SortByTime(s)) == multiset(s)
    ensures forall t :: WithTime(SortByTime(s), t) == WithTime(s, t)
  {
    if |s| > 0 {
      var init, x := s[..|s| - 1], s[|s| - 1];
      SortSpec(init);
      InsertSorted(SortByTime(init), x);
      InsertPerm(SortByTime(init), x);
      assert s == init + [x];
      forall t
        ensures WithTime(SortByTime(s), t) == WithTime(s, t)
      {
        InsertStable(SortByTime(init), x, t);
        WithTimeAppend(init, [x], t);
      }
    }
  }

  /** Rows already in time order come back unchanged. */
  lemma {:induction false} SortIdentity(s: seq<Candle>)
    requires Sorted(s)
    ensures SortByTime(s) == s
  {
    if |s| > 0 {
      var init := s[..|s| - 1];
      assert Sorted(init);
      SortIdentity(init);
      assert init + [s[|s| - 1]] == s;
    }
  }

  /* ---------------- the dedup loop */

  /** A row is kept when its time differs from the previous row's (`r[0] !== lastT`). */
  function Dedup(s: seq<Candle>): seq<Candle> {
    if |s| == 0 then []
    else Dedup(s[..|s| - 1]) + (if |s| >= 2 && s[|s| - 2].time == s[|s| - 1].time then [] else [s[|s| - 1]])
  }

  lemma {:induction false} DedupSubset(s: seq<Candle>)
    ensures |Dedup(s)| <= |s|
    ensures forall k :: 0 <= k < |Dedup(s)| ==> Dedup(s)[k] in s
  {
    if |s| > 0 {
      DedupSubset(s[..|s| - 1]);
      assert forall c :: c in s[..|s| - 1] ==> c in s;
    }
  }

  lemma {:induction false} DedupTimes(s: seq<Candle>)
    ensures Times(Dedup(s)) == Times(s)
  {
    if |s| > 0 {
      var init, x := s[..|s| - 1], s[|s| - 1];
      DedupTimes(init);
      assert s == init + [x];
      assert Times(s) == Times(init) + {x.time};
      if |s| >= 2 && s[|s| - 2].time == x.time {
        assert s[|s| - 2] in init;
        assert Dedup(s) == Dedup(init);
      } else {
        assert Times(Dedup(init) + [x]) == Times(Dedup(init)) + {x.time};
      }
    }
  }

  /** Deduplicating sorted rows leaves strictly increasing times. */
  lemma {:induction false} DedupIncreasing(s: seq<Candle>)
    requires Sorted(s)
    ensures StrictlyIncreasing(Dedup(s))
  {
    if |s| > 0 {
      var init, x := s[..|s| - 1], s[|s| - 1];
      assert Sorted(init);
      DedupIncreasing(init);
      DedupSubset(init);
      if !(|s| >= 2 && s[|s| - 2].time == x.time) {
        var d := Dedup(init);
        forall k | 0 <= k < |d|
          ensures d[k].time < x.time
        {
          var j :| 0 <= j < |init| && init[j] == d[k];
          assert s[j] == d[k];
          assert s[j].time <= s[|s| - 2].time;
        }
      }
    }
  }

  /** In sorted rows, each kept row is the first row with its time. */
  lemma {:induction false} DedupKeepsFirst(s: seq<Candle>)
    requires Sorted(s)
    ensures forall k :: 0 <= k < |Dedup(s)| ==>
      |WithTime(s, Dedup(s)[k].time)| > 0 && Dedup(s)[k] == WithTime(s, Dedup(s)[k].time)[0]
  {
    if |s| > 0 {
      var init, x := s[..|s| - 1], s[|s| - 1];
      assert Sorted(init);
      DedupKeepsFirst(init);
      var d := Dedup(init);
      forall k | 0 <= k < |d|
        ensures |WithTime(s, d[k].time)| > 0 && d[k] == WithTime(s, d[k].time)[0]
      {
        assert WithTime(s, d[k].time) == WithTime(init, d[k].time) + (if x.time == d[k].time then [x] else []);
      }
      if !(|s| >= 2 && s[|s| - 2].time == x.time) {
        forall j | 0 <= j < |init|
          ensures init[j].time != x.time
        {
          assert s[j].time <= s[|s| - 2].time;
        }
        WithTimeEmpty(init, x.time);
        assert WithTime(s, x.time) == [] + [x];
        assert Dedup(s) == d + [x];
      } else {
        assert Dedup(s) == d + [];
      }
    }
  }

  lemma {:induction false} DedupIdentity(s: seq<Candle>)
    requires StrictlyIncreasing(s)
    ensures Dedup(s) == s
  {
    if |s| > 0 {
      var init := s[..|s| - 1];
      assert StrictlyIncreasing(init);
      DedupIdentity(init);
      assert init + [s[|s| - 1]] == s;
    }
  }

  lemma MultisetTimes(a: seq<Candle>, b: seq<Candle>)
    requires multiset(a) == multiset(b)
    ensures Times(a) == Times(b)
  {
    forall c | c in a ensures c in b { assert c in multiset(a); }
    forall c | c in b ensures c in a { assert c in multiset(b); }
  }

  /**
   * `dedupAndSort(rows)`: strictly increasing times; exactly the input's timestamps, each
   * once; each output row is the FIRST input row with its timestamp (the sort is stable);
   * no more rows than came in; and running it again changes nothing.
   */
  lemma DedupAndSortSpec(s: seq<Candle>)
    ensures var out := Dedup(SortByTime(s));
      && StrictlyIncreasing(out)
      && Times(out) == Times(s)
      && (forall k :: 0 <= k < |out| ==> |WithTime(s, out[k].time)| > 0 && out[k] == WithTime(s, out[k].time)[0])
      && |out| <= |s|
      && Dedup(SortByTime(out)) == out
  {
    var sorted := SortByTime(s);
    var out := Dedup(sorted);
    SortSpec(s);
    DedupIncreasing(sorted);
    DedupTimes(sorted);
    MultisetTimes(sorted, s);
    DedupKeepsFirst(sorted);
    DedupSubset(sorted);
    assert |sorted| == |multiset(sorted)| == |multiset(s)| == |s|;
    assert Sorted(out);
    SortIdentity(out);
    DedupIdentity(out);
  }

  /** `rows.sort((a, b) => a[0] - b[0])`: the stable sort, written back into `rows`. */
  method SortRows(rows: array<Candle>)
    modifies rows
    ensures rows[..] == SortByTime(old(rows[..]))
  {
    var sorted := SortByTime(rows[..]);
    SortSpec(rows[..]);
    assert |sorted| == |multiset(sorted)| == |multiset(rows[..])| == rows.Length;
    forall i | 0 <= i < rows.Length {
      rows[i] := sorted[i];
    }
    assert rows[..] == sorted;
  }

  /** The `for (const r of rows)` loop: a row is copied when its time is not `lastT`. */
  method DedupSorted(rows: seq<Candle>) returns (out: seq<Candle>)
    ensures out == Dedup(rows)
  {
    out := [];
    var lastT: Option<int> := None;
    var i := 0;
    while i < |rows|
      invariant 0 <= i <= |rows|
      invariant out == Dedup(rows[..i])
      invariant lastT == if i == 0 then None else Some(rows[i - 1].time)
    {
      var r := rows[i];
      assert rows[..i + 1][..i] == rows[..i];
      if Some(r.time) != lastT {
        out := out + [r];
      }
      lastT := Some(r.time);
      i := i + 1;
    }
    assert rows[..i] == rows;
  }

  /** `dedupAndSort(rows)`: sorts `rows` in place, then copies one row per timestamp. */
  method DedupAndSort(rows: array<Candle>) returns (out: seq<Candle>)
    modifies rows
    ensures rows[..] == SortByTime(old(rows[..]))
    ensures out == Dedup(rows[..])
  {
    SortRows(rows);
    out := DedupSorted(rows[..]);
  }

  /* ---------------- the chunk windows of `downloadSymbolTF` */

  /** The windows `[t, min(t + step, toTs))` for t = from, from + step, … while t < toTs. */
  function WindowsFrom(t: int, toTs: int, step: int): seq<(int, int)>
    requires step > 0
    decreases toTs - t
  {
    if t >= toTs then []
    else [(t, if t + step < toTs then t + step else toTs)] + WindowsFrom(t + step, toTs, step)
  }

  /** x falls inside one of the windows. */
  predicate InWindows(ws: seq<(int, int)>, x: int) {
    exists k :: 0 <= k < |ws| && ws[k].0 <= x < ws[k].1
  }

  /**
   * The windows start at `from` and end at `toTs`, are non-empty, at most a step long and
   * contiguous; there are none exactly when from >= toTs.
   */
  lemma {:induction false} WindowsShape(t: int, toTs: int, step: int)
    requires step > 0
    decreases toTs - t
    ensures var ws := WindowsFrom(t, toTs, step);
      && (t >= toTs <==> ws == [])
      && (t < toTs ==> ws[0].0 == t && ws[|ws| - 1].1 == toTs)
      && (forall k :: 0 <= k < |ws| ==> ws[k].0 < ws[k].1 <= ws[k].0 + step)
      && (forall k :: 0 <= k < |ws| - 1 ==> ws[k].1 == ws[k + 1].0)
  {
    if t < toTs {
      var ws := WindowsFrom(t, toTs, step);
      var rest := WindowsFrom(t + step, toTs, step);
      WindowsShape(t + step, toTs, step);
      assert ws == [ws[0]] + rest;
      assert forall k :: 1 <= k < |ws| ==> ws[k] == rest[k - 1];
    }
  }

  /** Together the windows cover [from, toTs) and nothing else. */
  lemma {:induction false} WindowsCover(t: int, toTs: int, step: int)
    requires step > 0
    decreases toTs - t
    ensures forall x :: InWindows(WindowsFrom(t, toTs, step), x) <==> t <= x < toTs
  {
    if t < toTs {
      var ws := WindowsFrom(t, toTs, step);
      var rest := WindowsFrom(t + step, toTs, step);
      WindowsCover(t + step, toTs, step);
      assert ws == [ws[0]] + rest;
      forall x
        ensures InWindows(ws, x) <==> t <= x < toTs
      {
        if InWindows(ws, x) {
          var k :| 0 <= k < |ws| && ws[k].0 <= x < ws[k].1;
          if k > 0 {
            assert rest[k - 1] == ws[k];
            assert InWindows(rest, x);
          }
        }
        if t <= x < toTs && !(ws[0].0 <= x < ws[0].1) {
          assert InWindows(rest, x);
          var k :| 0 <= k < |rest| && rest[k].0 <= x < rest[k].1;
          assert ws[k + 1] == rest[k];
        }
      }
    }
  }

  /** There are ceil((toTs - from) / step) windows: one step short of the span, or covering it. */
  lemma {:induction false} WindowsCount(t: int, toTs: int, step: int)
    requires step > 0
    decreases toTs - t
    ensures var n := |WindowsFrom(t, toTs, step)|;
      t < toTs ==> (n - 1) * step < toTs - t <= n * step
  {
    if t < toTs {
      var n := |WindowsFrom(t, toTs, step)|;
      var m := |WindowsFrom(t + step, toTs, step)|;
      assert n == m + 1;
      if t + step < toTs {
        WindowsCount(t + step, toTs, step);
        assert (m - 1) * step + step == m * step;
        assert m * step + step == (m + 1) * step;
      } else {
        assert m == 0;
      }
    }
  }

  /** The loop `for (let t = fromTs; t < toTs; t += step)`, with `fromTs` 730 days back. */
  method ChunkWindows(toTs: int, chunkDays: int) returns (ws: seq<(int, int)>)
    requires chunkDays > 0
    ensures ws == WindowsFrom(toTs - DaysBack * 24 * 60 * 60, toTs, chunkDays * 24 * 60 * 60)
  {
    var fromTs := toTs - DaysBack * 24 * 60 * 60;
    var step := chunkDays * 24 * 60 * 60;
    ws := [];
    var t := fromTs;
    while t < toTs
      invariant ws + WindowsFrom(t, toTs, step) == WindowsFrom(fromTs, toTs, step)
      decreases toTs - t
    {
      var a := t;
      var b := if t + step < toTs then t + step else toTs;
      assert WindowsFrom(t, toTs, step) == [(a, b)] + WindowsFrom(t + step, toTs, step);
      ws := ws + [(a, b)];
      t := t + step;
    }
    assert ws + [] == ws;
  }
}
