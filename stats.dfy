/**
 * Accounting shared by the backtest scripts: the ladder counters of asd.js and
 * orb5min-test.js (trades, wins, break-evens, losses, the two R sums and the best maxRR),
 * the `'n/a'` averages and win rates, the fixed-RR outcome counts, and the seven-bucket
 * R histogram that asd.js updates in place.
 */
module Stats {
  import opened Candles
  import opened FixedRR
  import opened TrailingLadder

  /* ---------------- ladder counters */

  /** `trades`, `wins`, `bes`, `losses`, `sumR`, `sumWinR` and `maxRR` of one symbol. */
  datatype Tally = Tally(trades: nat, wins: nat, bes: nat, losses: nat, sumR: real, sumWinR: real, maxRR: real)

  /** All counters start at 0, including the running maximum of maxRR. */
  const Zero := Tally(0, 0, 0, 0, 0.0, 0.0, 0.0)

  /** What one counted trade does to the counters (asd.js:194-205, orb5min-test.js:195-206). */
  function Record(t: Tally, r: Trail): Tally {
    var t1 := t.(trades := t.trades + 1, sumR := t.sumR + r.realizedR,
                 maxRR := if r.maxRR > t.maxRR then r.maxRR else t.maxRR);
    if r.realizedR > 0.0 then t1.(wins := t.wins + 1, sumWinR := t.sumWinR + r.realizedR)
    else if r.realizedR == 0.0 then t1.(bes := t.bes + 1)
    else t1.(losses := t.losses + 1)
  }

  /** The counters after recording the counted trades `rs` in order. */
  function TallyOf(rs: seq<Trail>): Tally {
    if |rs| == 0 then Zero else Record(TallyOf(rs[..|rs| - 1]), rs[|rs| - 1])
  }

  /** Recording one more trade extends the fold by one step. */
  lemma TallyOfSnoc(rs: seq<Trail>, t: Trail)
    ensures TallyOf(rs + [t]) == Record(TallyOf(rs), t)
  {
    assert (rs + [t])[..|rs + [t]| - 1] == rs;
  }

  /** Number of trades in `rs` with a realized R above, at, or below zero. */
  function CountWins(rs: seq<Trail>): nat {
    if |rs| == 0 then 0 else CountWins(rs[..|rs| - 1]) + (if rs[|rs| - 1].realizedR > 0.0 then 1 else 0)
  }

  function CountBes(rs: seq<Trail>): nat {
    if |rs| == 0 then 0 else CountBes(rs[..|rs| - 1]) + (if rs[|rs| - 1].realizedR == 0.0 then 1 else 0)
  }

  function CountLosses(rs: seq<Trail>): nat {
    if |rs| == 0 then 0 else CountLosses(rs[..|rs| - 1]) + (if rs[|rs| - 1].realizedR < 0.0 then 1 else 0)
  }

  /** Sum of the realized R of `rs`, and of its winning trades only. */
  function SumR(rs: seq<Trail>): real {
    if |rs| == 0 then 0.0 else SumR(rs[..|rs| - 1]) + rs[|rs| - 1].realizedR
  }

  function SumWinR(rs: seq<Trail>): real {
    if |rs| == 0 then 0.0
    else SumWinR(rs[..|rs| - 1]) + (if rs[|rs| - 1].realizedR > 0.0 then rs[|rs| - 1].realizedR else 0.0)
  }

  /**
   * The counters of a run: every counted trade is exactly one of a win (r > 0), a
   * break-even (r == 0) or a loss (r < 0), so wins + bes + losses == trades; the sums are
   * the sums of realized R; and maxRR is the largest per-trade maxRR, or 0 if none is larger.
   */
  lemma {:induction false} TallyOfCounts(rs: seq<Trail>)
    ensures TallyOf(rs).trades == |rs|
    ensures TallyOf(rs).wins == CountWins(rs)
    ensures TallyOf(rs).bes == CountBes(rs)
    ensures TallyOf(rs).losses == CountLosses(rs)
    ensures TallyOf(rs).wins + TallyOf(rs).bes + TallyOf(rs).losses == TallyOf(rs).trades
    ensures TallyOf(rs).sumR == SumR(rs) && TallyOf(rs).sumWinR == SumWinR(rs)
    ensures TallyOf(rs).maxRR >= 0.0
    ensures forall k :: 0 <= k < |rs| ==> rs[k].maxRR <= TallyOf(rs).maxRR
    ensures TallyOf(rs).maxRR == 0.0 || exists k :: 0 <= k < |rs| && rs[k].maxRR == TallyOf(rs).maxRR
  {
    if |rs| > 0 {
      var init := rs[..|rs| - 1];
      TallyOfCounts(init);
      assert forall k :: 0 <= k < |init| ==> rs[k] == init[k];
    }
  }

  /** The inline counter updates of one counted trade: `trades++`, `sumR += r`, the max, the split. */
  method CountTrade(trades: nat, wins: nat, bes: nat, losses: nat, sumR: real, sumWinR: real, maxRR: real, t: Trail)
    returns (trades': nat, wins': nat, bes': nat, losses': nat, sumR': real, sumWinR': real, maxRR': real)
    ensures Tally(trades', wins', bes', losses', sumR', sumWinR', maxRR')
      == Record(Tally(trades, wins, bes, losses, sumR, sumWinR, maxRR), t)
  {
    var r := t.realizedR;
    trades', wins', bes', losses', sumR', sumWinR', maxRR' := trades + 1, wins, bes, losses, sumR + r, sumWinR, maxRR;
    if t.maxRR > maxRR { maxRR' := t.maxRR; }
    if r > 0.0 {
      wins' := wins + 1;
      sumWinR' := sumWinR + r;
    } else if r == 0.0 {
      bes' := bes + 1;
    } else {
      losses' := losses + 1;
    }
  }

  /** The summary `runBacktest` returns; `'n/a'` averages are None. */
  datatype Summary = Summary(symbol: string, trades: nat, wins: nat, losses: nat, bes: nat,
                             avgR: Option<real>, avgWinR: Option<real>, maxRR: real)

  /**
   * `avgR: trades ? sumR / trades : 'n/a'` and `avgWinR: wins ? sumWinR / wins : 'n/a'`
   * (asd.js:216-225, orb5min-test.js:209-218), without the `toFixed(3)` rounding.
   */
  function Summarize(symbol: string, t: Tally): (s: Summary)
    ensures s.trades == t.trades && s.wins == t.wins && s.losses == t.losses && s.bes == t.bes
    ensures s.maxRR == t.maxRR && s.symbol == symbol
    ensures s.avgR.None? <==> t.trades == 0
    ensures s.avgR.Some? ==> s.avgR.value * (t.trades as real) == t.sumR
    ensures s.avgWinR.None? <==> t.wins == 0
    ensures s.avgWinR.Some? ==> s.avgWinR.value * (t.wins as real) == t.sumWinR
  {
    Summary(symbol, t.trades, t.wins, t.losses, t.bes,
            if t.trades == 0 then None else Some(t.sumR / (t.trades as real)),
            if t.wins == 0 then None else Some(t.sumWinR / (t.wins as real)),
            t.maxRR)
  }

  /* ---------------- fixed-RR outcome counts */

  /** How many of the outcomes are TP, SL and OPEN. */
  function CountTP(os: seq<Outcome>): nat {
    if |os| == 0 then 0 else CountTP(os[..|os| - 1]) + (if os[|os| - 1] == TP then 1 else 0)
  }

  function CountSL(os: seq<Outcome>): nat {
    if |os| == 0 then 0 else CountSL(os[..|os| - 1]) + (if os[|os| - 1] == SL then 1 else 0)
  }

  function CountOpen(os: seq<Outcome>): nat {
    if |os| == 0 then 0 else CountOpen(os[..|os| - 1]) + (if os[|os| - 1] == Open then 1 else 0)
  }

  lemma CountsSnoc(os: seq<Outcome>, o: Outcome)
    ensures CountTP(os + [o]) == CountTP(os) + (if o == TP then 1 else 0)
    ensures CountSL(os + [o]) == CountSL(os) + (if o == SL then 1 else 0)
    ensures CountOpen(os + [o]) == CountOpen(os) + (if o == Open then 1 else 0)
  {
    assert (os + [o])[..|os + [o]| - 1] == os;
  }

  /**
   * `trades++; if (r === 'TP') wins++; if (r === 'SL') losses++`: counters that held the counts
   * of rs now hold those of rs + [o].
   */
  method CountOutcome(trades: nat, wins: nat, losses: nat, ghost rs: seq<Outcome>, o: Outcome)
    returns (trades': nat, wins': nat, losses': nat)
    requires trades == |rs| && wins == CountTP(rs) && losses == CountSL(rs)
    ensures trades' == |rs + [o]| && wins' == CountTP(rs + [o]) && losses' == CountSL(rs + [o])
  {
    CountsSnoc(rs, o);
    trades', wins', losses' := trades + 1, wins, losses;
    if o == TP { wins' := wins + 1; }
    if o == SL { losses' := losses + 1; }
  }

  /** Every outcome is one of the three, so the counts add up to the length. */
  lemma {:induction false} OutcomeCounts(os: seq<Outcome>)
    ensures CountTP(os) + CountSL(os) + CountOpen(os) == |os|
    ensures CountOpen(os) == 0 <==> forall k :: 0 <= k < |os| ==> os[k] != Open
  {
    if |os| > 0 {
      var init := os[..|os| - 1];
      OutcomeCounts(init);
      assert forall k :: 0 <= k < |init| ==> os[k] == init[k];
    }
  }

  /** The `{ symbol, trades, wins, losses, winrate }` record of the fixed-RR backtests. */
  datatype Report = Report(symbol: string, trades: nat, wins: nat, losses: nat, winrate: Option<real>)

  /** `trades ? (wins / trades) * 100 : 'n/a'`, without the `toFixed(2)` rounding. */
  function WinRate(trades: nat, wins: nat): (w: Option<real>)
    ensures w.None? <==> trades == 0
    ensures w.Some? ==> w.value * (trades as real) == 100.0 * (wins as real)
    ensures w.Some? && wins <= trades ==> 0.0 <= w.value <= 100.0
  {
    if trades == 0 then None else Some((wins as real) / (trades as real) * 100.0)
  }

  /* ---------------- the R distribution of asd.js */

  /** Number of buckets of `R_BUCKETS`: -1, 0, 0-1, 1-2, 2-4, 4-6, 6-10. */
  const BucketCount := 7

  /** The `if / else if` chain of asd.js:207-213: the bucket a realized R falls in. */
  function BucketOf(r: real): (b: nat)
    ensures b < BucketCount
    ensures b == 0 <==> r < 0.0
    ensures b == 1 <==> r == 0.0
    ensures b == 2 <==> 0.0 < r < 1.0
    ensures b == 3 <==> 1.0 <= r < 2.0
    ensures b == 4 <==> 2.0 <= r < 4.0
    ensures b == 5 <==> 4.0 <= r < 6.0
    ensures b == 6 <==> 6.0 <= r
  {
    if r < 0.0 then 0
    else if r == 0.0 then 1
    else if r < 1.0 then 2
    else if r < 2.0 then 3
    else if r < 4.0 then 4
    else if r < 6.0 then 5
    else 6
  }

  function SumCounts(s: seq<nat>): nat {
    if |s| == 0 then 0 else SumCounts(s[..|s| - 1]) + s[|s| - 1]
  }

  /** Adding one to one entry adds one to the total. */
  lemma {:induction false} SumCountsBump(s: seq<nat>, b: nat)
    requires b < |s|
    ensures SumCounts(s[b := s[b] + 1]) == SumCounts(s) + 1
  {
    var s' := s[b := s[b] + 1];
    if b < |s| - 1 {
      assert s'[..|s'| - 1] == s[..|s| - 1][b := s[b] + 1];
      SumCountsBump(s[..|s| - 1], b);
    } else {
      assert s'[..|s'| - 1] == s[..|s| - 1];
    }
  }

  /** One increment of `R_BUCKETS[...]++` for a realized R. */
  function Bump(counts: seq<nat>, r: real): (c: seq<nat>)
    requires |counts| == BucketCount
    ensures |c| == BucketCount
    ensures SumCounts(c) == SumCounts(counts) + 1
    ensures c[BucketOf(r)] == counts[BucketOf(r)] + 1
    ensures forall b :: 0 <= b < BucketCount && b != BucketOf(r) ==> c[b] == counts[b]
  {
    SumCountsBump(counts, BucketOf(r));
    counts[BucketOf(r) := counts[BucketOf(r)] + 1]
  }

  /** The histogram after the counted trades `rs`, starting from `counts`. */
  function BumpAll(counts: seq<nat>, rs: seq<Trail>): seq<nat>
    requires |counts| == BucketCount
  {
    if |rs| == 0 then counts else Bump(BumpAll(counts, rs[..|rs| - 1]), rs[|rs| - 1].realizedR)
  }

  lemma BumpAllSnoc(counts: seq<nat>, rs: seq<Trail>, t: Trail)
    requires |counts| == BucketCount
    ensures BumpAll(counts, rs + [t]) == Bump(BumpAll(counts, rs), t.realizedR)
  {
    assert (rs + [t])[..|rs + [t]| - 1] == rs;
  }

  /** Number of trades of `rs` whose realized R falls in bucket `b`. */
  function InBucket(rs: seq<Trail>, b: nat): nat {
    if |rs| == 0 then 0 else InBucket(rs[..|rs| - 1], b) + (if BucketOf(rs[|rs| - 1].realizedR) == b then 1 else 0)
  }

  /**
   * Each counted trade lands in exactly one bucket: after `rs`, bucket b holds its old
   * count plus the trades whose R falls in it, and the total grows by |rs|.
   */
  lemma {:induction false} BumpAllCounts(counts: seq<nat>, rs: seq<Trail>)
    requires |counts| == BucketCount
    ensures |BumpAll(counts, rs)| == BucketCount
    ensures SumCounts(BumpAll(counts, rs)) == SumCounts(counts) + |rs|
    ensures forall b :: 0 <= b < BucketCount ==> BumpAll(counts, rs)[b] == counts[b] + InBucket(rs, b)
  {
    if |rs| > 0 {
      BumpAllCounts(counts, rs[..|rs| - 1]);
    }
  }

  /** The shared `R_BUCKETS` object: seven counters updated in place across symbols. */
  class RBuckets {
    var counts: seq<nat>

    predicate Valid()
      reads this
    {
      |counts| == BucketCount
    }

    function Total(): nat
      reads this
    {
      SumCounts(counts)
    }

    /** All seven buckets start at 0 (asd.js:232-240). */
    constructor ()
      ensures Valid() && counts == [0, 0, 0, 0, 0, 0, 0]
    {
      counts := [0, 0, 0, 0, 0, 0, 0];
    }

    /** `R_BUCKETS[bucket(r)]++`: one bucket grows by one, the others are unchanged. */
    method Add(r: real)
      requires Valid()
      modifies this
      ensures Valid()
      ensures counts == Bump(old(counts), r)
      ensures Total() == old(Total()) + 1
    {
      var b := BucketOf(r);
      counts := counts[b := counts[b] + 1];
    }
  }
}
