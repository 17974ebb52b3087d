/** Aggregating aggregates equals building directly from the ticks (candle_engine.py). */
module CandleComposition {
  import opened Wrappers
  import opened Candle
  import opened CandleCombination

  // ------------------------------------------------------ aggregating aggregates

  predicate Divides15(k: int) {
    k > 0 && 15 % k == 0
  }

  lemma Divisors(k: int)
    requires Divides15(k)
    ensures k == 1 || k == 3 || k == 5 || k == 15
  {
    assert k <= 15;
    assert 15 % 2 == 1 && 15 % 4 == 3 && 15 % 6 == 3 && 15 % 7 == 1 && 15 % 8 == 7 && 15 % 9 == 6;
    assert 15 % 10 == 5 && 15 % 11 == 4 && 15 % 12 == 3 && 15 % 13 == 2 && 15 % 14 == 1;
  }

  /** An interval starts on the same day, at a multiple of k minutes. */
  lemma StartParts(t: int, k: int)
    requires k > 0 && t >= 0
    ensures IntervalStart(t, k) / DAY == t / DAY && IntervalStart(t, k) % DAY == t % DAY / k * k
    ensures 0 <= t % DAY / k * k <= t % DAY
  {
    FloorMonotone(t % DAY, t % DAY, k);
    FloorMonotone(0, t % DAY, k);
    DayParts(t / DAY, t % DAY / k * k);
  }

  lemma DayParts(d: int, x: int)
    requires 0 <= x < DAY
    ensures (d * DAY + x) / DAY == d && (d * DAY + x) % DAY == x
  {
  }

  lemma FloorByThree(x: int)
    requires x >= 0
    ensures x / 3 * 3 / 15 * 15 == x / 15 * 15 && x / 3 * 3 / 3 * 3 == x / 3 * 3
    ensures 0 <= (x / 3 * 3 - x / 15 * 15) / 3 < 5 && x / 3 * 3 == x / 15 * 15 + (x / 3 * 3 - x / 15 * 15) / 3 * 3
  {
  }

  lemma FloorByFive(x: int)
    requires x >= 0
    ensures x / 5 * 5 / 15 * 15 == x / 15 * 15 && x / 5 * 5 / 5 * 5 == x / 5 * 5
    ensures 0 <= (x / 5 * 5 - x / 15 * 15) / 5 < 3 && x / 5 * 5 == x / 15 * 15 + (x / 5 * 5 - x / 15 * 15) / 5 * 5
  {
  }

  lemma FloorTwice(x: int, k: int)
    requires x >= 0 && (k == 1 || k == 3 || k == 5 || k == 15)
    ensures x / k * k / 15 * 15 == x / 15 * 15 && x / k * k / k * k == x / k * k
    ensures 0 <= (x / k * k - x / 15 * 15) / k < 15 / k && x / k * k == x / 15 * 15 + (x / k * k - x / 15 * 15) / k * k
  {
    if k == 3 {
      FloorByThree(x);
    } else if k == 5 {
      FloorByFive(x);
    } else if k == 15 {
      assert x / 15 * 15 / 15 * 15 == x / 15 * 15;
    }
  }

  /** An interval lies in one 15-minute bucket, at a whole number of intervals from its start. */
  lemma NestedStarts(t: int, k: int)
    requires Divides15(k) && t >= 0
    ensures IntervalStart(IntervalStart(t, k), 15) == IntervalStart(t, 15)
    ensures var i := (IntervalStart(t, k) - IntervalStart(t, 15)) / k;
            0 <= i < 15 / k && IntervalStart(t, k) == IntervalStart(t, 15) + i * k
  {
    Divisors(k);
    StartParts(t, k);
    FloorTwice(t % DAY, k);
  }

  /** Merging two candles of one interval first, or folding them in one by one, is the same. */
  lemma ExtendMerge(bars: seq<Candle>, a: Candle, c: Candle, m: int)
    requires m > 0 && IntervalStart(a.date, m) == IntervalStart(c.date, m)
    ensures Extend(bars, Merge(a, c), m) == Extend(Extend(bars, a, m), c, m)
  {
    var n := |bars| - 1;
    if bars != [] && bars[n].date == IntervalStart(a.date, m) {
      assert Extend(bars, a, m)[..n] == bars[..n];
    } else {
      assert Extend(bars, a, m)[..|bars|] == bars;
    }
  }

  /** Only the interval of a candle matters to the grouping, not its date. */
  lemma ExtendRedated(bars: seq<Candle>, c: Candle, date: int, m: int)
    requires m > 0 && IntervalStart(date, m) == IntervalStart(c.date, m)
    ensures Extend(bars, c.(date := date), m) == Extend(bars, c, m)
  {
  }

  ghost predicate Positive(cs: seq<Candle>) {
    forall i :: 0 <= i < |cs| ==> cs[i].date >= 0
  }

  /** Batch grouping by k minutes and then by 15 is batch grouping by 15. */
  lemma {:induction false} AggOfAgg(cs: seq<Candle>, k: int)
    requires Divides15(k) && Positive(cs)
    ensures Agg(Agg(cs, k), 15) == Agg(cs, 15)
    decreases |cs|
  {
    hide IntervalStart, Merge;
    if cs != [] {
      var n := |cs| - 1;
      AggOfAgg(cs[..n], k);
      NestedStarts(cs[n].date, k);
      var before, c, b := Agg(cs[..n], k), cs[n], IntervalStart(cs[n].date, k);
      var m := |before| - 1;
      if before != [] && before[m].date == b {
        var after := before[..m] + [Merge(before[m], c)];
        assert after[..m] == before[..m];
        ExtendMerge(Agg(before[..m], 15), before[m], c, 15);
      } else {
        assert (before + [c.(date := b)])[..|before|] == before;
        ExtendRedated(Agg(before, 15), c, b, 15);
      }
    }
  }

  // -------------------------------------------- sorted input: groups are contiguous

  ghost predicate Sorted(cs: seq<Candle>) {
    forall i, j :: 0 <= i < j < |cs| ==> cs[i].date <= cs[j].date
  }

  lemma {:induction false} InBucketSorted(cs: seq<Candle>, b: int)
    requires Sorted(cs)
    ensures Sorted(InBucket(cs, b))
    ensures forall c :: c in InBucket(cs, b) ==> c in cs
    decreases |cs|
  {
    if cs != [] {
      var n := |cs| - 1;
      InBucketSorted(cs[..n], b);
      var legs := InBucket(cs[..n], b);
      forall i | 0 <= i < |legs| ensures legs[i].date <= cs[n].date {
        assert legs[i] in legs && legs[i] in cs[..n];
      }
    }
  }

  lemma {:induction false} SortedStays(cs: seq<Candle>)
    requires Sorted(cs)
    ensures SortByDate(cs) == cs
    decreases |cs|
  {
    if cs != [] {
      var n := |cs| - 1;
      SortedStays(cs[..n]);
      assert cs == cs[..n] + [cs[n]];
    }
  }

  lemma LegsAre(cs: seq<Candle>, b: int)
    requires Sorted(cs)
    ensures Legs(cs, b) == InBucket(cs, b)
  {
    InBucketSorted(cs, b);
    SortedStays(InBucket(cs, b));
  }

  lemma BarExtends(legs: seq<Candle>, c: Candle, b: int)
    ensures Bar(legs + [c], b) == if legs == [] then c.(date := b) else Merge(Bar(legs, b), c)
  {
    assert (legs + [c])[..|legs|] == legs;
    assert VolumeOf([]) == 0.0;
  }

  /** The batch candle of a bucket is the bar of its legs. */
  ghost predicate BarsAre(bars: seq<Candle>, cs: seq<Candle>) {
    && Dates(bars) == Starts(cs)
    && forall i :: 0 <= i < |bars| ==>
         InBucket(cs, bars[i].date) != [] && bars[i] == Bar(InBucket(cs, bars[i].date), bars[i].date)
  }

  ghost predicate LastStart(cs: seq<Candle>) {
    cs != [] ==> Starts(cs) != [] && Starts(cs)[|Starts(cs)| - 1] == IntervalStart(cs[|cs| - 1].date, 15)
  }

  lemma StartsExtend(cs: seq<Candle>, c: Candle)
    requires LastStart(cs) && (cs != [] ==> IntervalStart(cs[|cs| - 1].date, 15) <= IntervalStart(c.date, 15))
    ensures var b, last := IntervalStart(c.date, 15), |Starts(cs)| - 1;
            Starts(cs + [c]) == if Starts(cs) != [] && Starts(cs)[last] == b then Starts(cs) else Starts(cs) + [b]
    ensures LastStart(cs + [c])
  {
    hide IntervalStart;
    assert (cs + [c])[..|cs|] == cs;
  }

  lemma DatesExtend(bars: seq<Candle>, c: Candle)
    ensures var b, last := IntervalStart(c.date, 15), |bars| - 1;
            Dates(Extend(bars, c, 15)) == if bars != [] && bars[last].date == b then Dates(bars) else Dates(bars) + [b]
  {
    hide IntervalStart;
  }

  lemma OneMoreStart(bars: seq<Candle>, cs: seq<Candle>, c: Candle)
    requires Dates(bars) == Starts(cs) && Ascending(Starts(cs)) && LastStart(cs)
    requires cs != [] ==> IntervalStart(cs[|cs| - 1].date, 15) <= IntervalStart(c.date, 15)
    ensures Dates(Extend(bars, c, 15)) == Starts(cs + [c]) && LastStart(cs + [c])
  {
    hide IntervalStart, Starts, Extend, LastStart, Dates;
    StartsExtend(cs, c);
    DatesExtend(bars, c);
    DatesAt(bars);
  }

  /** What one more candle does to the bars: one more bar, or one more leg in the last. */
  lemma ExtendAt(bars: seq<Candle>, c: Candle, i: nat)
    requires i < |Extend(bars, c, 15)|
    ensures var b, m := IntervalStart(c.date, 15), |bars| - 1;
            if i < m || (i == m && bars[m].date != b) then Extend(bars, c, 15)[i] == bars[i]
            else if i == m then Extend(bars, c, 15)[i] == Merge(bars[m], c)
            else Extend(bars, c, 15)[i] == c.(date := b) && (bars != [] ==> bars[m].date != b)
  {
    hide IntervalStart;
  }

  lemma MergeKeepsDate(a: Candle, c: Candle)
    ensures Merge(a, c).date == a.date
  {
  }

  /** The bucket of one more candle gains it; every other stays as it is. */
  lemma BucketExtends(cs: seq<Candle>, c: Candle, d: int)
    ensures InBucket(cs + [c], d) == if IntervalStart(c.date, 15) == d then InBucket(cs, d) + [c] else InBucket(cs, d)
  {
    hide IntervalStart;
    assert (cs + [c])[..|cs|] == cs;
    assert InBucket(cs, d) + [] == InBucket(cs, d);
  }

  /** The bar at `i` after one more candle: it gained a leg, or it is as it was. */
  lemma BarAt(bars: seq<Candle>, cs: seq<Candle>, c: Candle, i: nat)
    requires BarsAre(bars, cs) && Ascending(Starts(cs)) && i < |Extend(bars, c, 15)|
    requires bars != [] ==> bars[|bars| - 1].date <= IntervalStart(c.date, 15)
    ensures var bar := Extend(bars, c, 15)[i];
            InBucket(cs + [c], bar.date) != [] && bar == Bar(InBucket(cs + [c], bar.date), bar.date)
  {
    hide IntervalStart, Bar, Starts, Dates, Extend, InBucket, Merge;
    var b, m := IntervalStart(c.date, 15), |bars| - 1;
    var d := Extend(bars, c, 15)[i].date;
    BucketExtends(cs, c, d);
    BarExtends(InBucket(cs, b), c, b);
    StartsAre(cs);
    DatesAt(bars);
    ExtendAt(bars, c, i);
    if i < m {
      assert Dates(bars)[i] < Dates(bars)[m];
    } else if i == m && bars[m].date == b {
      MergeKeepsDate(bars[m], c);
    } else if i > m {
      assert forall j :: 0 <= j < |bars| ==> Dates(bars)[j] <= Dates(bars)[m];
      assert b !in Starts(cs);
    }
  }

  lemma OneMoreCandle(bars: seq<Candle>, cs: seq<Candle>, c: Candle)
    requires BarsAre(bars, cs) && Ascending(Starts(cs)) && LastStart(cs)
    requires cs != [] ==> IntervalStart(cs[|cs| - 1].date, 15) <= IntervalStart(c.date, 15)
    ensures BarsAre(Extend(bars, c, 15), cs + [c]) && LastStart(cs + [c])
  {
    hide IntervalStart, Bar, Starts, Dates, Extend, InBucket, Ascending;
    OneMoreStart(bars, cs, c);
    LastBarIsEarlier(bars, cs, c);
    forall i | 0 <= i < |Extend(bars, c, 15)|
      ensures var bar := Extend(bars, c, 15)[i];
              InBucket(cs + [c], bar.date) != [] && bar == Bar(InBucket(cs + [c], bar.date), bar.date)
    {
      BarAt(bars, cs, c, i);
    }
  }

  /** The last bar does not start after the bucket of the next candle. */
  lemma LastBarIsEarlier(bars: seq<Candle>, cs: seq<Candle>, c: Candle)
    requires Dates(bars) == Starts(cs) && LastStart(cs)
    requires cs != [] ==> IntervalStart(cs[|cs| - 1].date, 15) <= IntervalStart(c.date, 15)
    ensures bars != [] ==> bars[|bars| - 1].date <= IntervalStart(c.date, 15)
  {
    hide IntervalStart, Starts, Dates;
    DatesAt(bars);
    if cs == [] {
      NoStarts();
    }
  }

  lemma NoStarts()
    ensures Starts([]) == []
  {
  }

  lemma DatesAt(bars: seq<Candle>)
    ensures forall i :: 0 <= i < |bars| ==> Dates(bars)[i] == bars[i].date
  {
  }

  lemma NoBars()
    ensures BarsAre(Agg([], 15), []) && LastStart([])
  {
  }

  lemma {:induction false} AggIsBars(cs: seq<Candle>)
    requires Sorted(cs) && Positive(cs)
    ensures BarsAre(Agg(cs, 15), cs) && LastStart(cs)
    decreases |cs|
  {
    hide IntervalStart, Extend, BarsAre, LastStart;
    if cs == [] {
      NoBars();
    } else {
      var n := |cs| - 1;
      AggIsBars(cs[..n]);
      StartsAre(cs[..n]);
      if n > 0 {
        StartMonotone(cs[n - 1].date, cs[n].date, 15);
      }
      OneMoreCandle(Agg(cs[..n], 15), cs[..n], cs[n]);
      assert cs == cs[..n] + [cs[n]];
    }
  }

  /** Those of the bars whose every leg is among the candles `cs`. */
  function CompleteBars(bars: seq<Candle>, cs: seq<Candle>, k: int): seq<Candle>
    requires k > 0
  {
    if bars == [] then []
    else
      var n := |bars| - 1;
      CompleteBars(bars[..n], cs, k) + if Complete(cs, bars[n].date, k) then [bars[n]] else []
  }

  lemma {:induction false} BarsAreComplete(bars: seq<Candle>, cs: seq<Candle>, k: int)
    requires k > 0 && Sorted(cs)
    requires forall i :: 0 <= i < |bars| ==>
               InBucket(cs, bars[i].date) != [] && bars[i] == Bar(InBucket(cs, bars[i].date), bars[i].date)
    ensures Bars(Dates(bars), cs, k) == CompleteBars(bars, cs, k)
    decreases |bars|
  {
    if bars != [] {
      var n := |bars| - 1;
      BarsAreComplete(bars[..n], cs, k);
      LegsAre(cs, bars[n].date);
      assert Dates(bars)[..n] == Dates(bars[..n]);
    }
  }

  /** For candles in order, the dictionary of groups and its sorts come to batch grouping. */
  lemma CombinedIsAgg(cs: seq<Candle>, k: int)
    requires k > 0 && Sorted(cs) && Positive(cs)
    ensures Combined(cs, k) == CompleteBars(Agg(cs, 15), cs, k)
  {
    AggIsBars(cs);
    BarsAreComplete(Agg(cs, 15), cs, k);
  }

  // ------------------------------------------------------------- the composition

  /** Ascending dates, each at the start of an interval. */
  ghost predicate Aligned(cs: seq<Candle>, k: int)
    requires k > 0
  {
    && (forall i, j :: 0 <= i < j < |cs| ==> cs[i].date < cs[j].date)
    && (forall i :: 0 <= i < |cs| ==> cs[i].date >= 0 && IntervalStart(cs[i].date, k) == cs[i].date)
  }

  lemma StartAligned(t: int, k: int)
    requires Divides15(k) && t >= 0
    ensures 0 <= IntervalStart(t, k) <= t && IntervalStart(IntervalStart(t, k), k) == IntervalStart(t, k)
  {
    Divisors(k);
    StartParts(t, k);
    FloorTwice(t % DAY, k);
  }

  lemma {:induction false} TickCandlesSorted(ticks: seq<Tick>)
    ensures Sorted(TickCandles(ticks)) && Positive(TickCandles(ticks))
    ensures forall i :: 0 <= i < |TickCandles(ticks)| ==> TickCandles(ticks)[i].date <= Clock(ticks)
    decreases |ticks|
  {
    if ticks != [] {
      TickCandlesSorted(ticks[..|ticks| - 1]);
      ClockIsLatest(ticks);
    }
  }

  lemma ExtendAligned(bars: seq<Candle>, c: Candle, k: int)
    requires Divides15(k) && Aligned(bars, k) && c.date >= 0
    requires bars != [] ==> bars[|bars| - 1].date <= IntervalStart(c.date, k)
    ensures Aligned(Extend(bars, c, k), k)
    ensures var next := Extend(bars, c, k); next[|next| - 1].date == IntervalStart(c.date, k)
  {
    StartAligned(c.date, k);
    hide IntervalStart;
  }

  lemma {:induction false} AggAligned(cs: seq<Candle>, k: int)
    requires Divides15(k) && Sorted(cs) && Positive(cs)
    ensures Aligned(Agg(cs, k), k)
    ensures cs != [] ==> Agg(cs, k)[|Agg(cs, k)| - 1].date == IntervalStart(cs[|cs| - 1].date, k)
    decreases |cs|
  {
    hide IntervalStart, Extend, Aligned;
    if cs == [] {
      NothingAligned(k);
    } else {
      var n := |cs| - 1;
      AggAligned(cs[..n], k);
      if n > 0 {
        StartMonotone(cs[n - 1].date, cs[n].date, k);
      }
      ExtendAligned(Agg(cs[..n], k), cs[n], k);
    }
  }

  lemma NothingAligned(k: int)
    requires k > 0
    ensures Aligned([], k)
  {
  }

  lemma LegInBucket(cs: seq<Candle>, b: int, c: Candle)
    requires c in InBucket(cs, b)
    ensures c in cs
  {
    if cs != [] {
      var n := |cs| - 1;
      if c in InBucket(cs[..n], b) {
        LegInBucket(cs[..n], b, c);
      }
    }
  }

  /** The bucket of a candle that is still forming is not complete. */
  lemma FormingIsIncomplete(cs: seq<Candle>, date: int, k: int)
    requires Divides15(k) && Aligned(cs, k) && date >= 0 && IntervalStart(date, k) == date
    requires forall i :: 0 <= i < |cs| ==> cs[i].date < date
    ensures !Complete(cs, IntervalStart(date, 15), k)
  {
    var b := IntervalStart(date, 15);
    NestedStarts(date, k);
    var i := (date - b) / k;
    LegsAre(cs, b);
    assert Expected(b, k)[i] == date;
    if |Legs(cs, b)| == 15 / k {
      var leg := Legs(cs, b)[i];
      assert leg in InBucket(cs, b);
      LegInBucket(cs, b, leg);
      assert Dates(Legs(cs, b))[i] != date;
    }
  }

  /** Dropping a last bar that is not complete changes nothing. */
  lemma IncompleteLast(bars: seq<Candle>, bar: Candle, cs: seq<Candle>, k: int)
    requires k > 0 && !Complete(cs, bar.date, k)
    ensures CompleteBars(bars + [bar], cs, k) == CompleteBars(bars, cs, k)
  {
    assert (bars + [bar])[..|bars|] == bars;
  }

  /**
   Candle composition. For every tick sequence, in any order, with volumes missing or
   falling back, and for every interval that divides 15: combining the finalized
   candles of that interval gives exactly those finalized candles of a 15-minute
   builder fed with the same ticks whose every leg was finalized, with equal open,
   high, low, close and volume.
   */
  lemma Composition(ticks: seq<Tick>, k: int)
    requires Divides15(k)
    ensures Combined(Build(ticks, k).finalized, k)
            == CompleteBars(Build(ticks, 15).finalized, Build(ticks, k).finalized, k)
  {
    BuilderIsBatch(ticks, k);
    BuilderIsBatch(ticks, 15);
    TickCandlesSorted(ticks);
    AggOfAgg(TickCandles(ticks), k);
    AggAligned(TickCandles(ticks), k);
    var s, direct := Build(ticks, k), Build(ticks, 15);
    if s.current.None? {
      assert direct.finalized == [] && s.finalized == [];
    } else {
      var cs, c := s.finalized, s.current.value.candle;
      var all := cs + [c];
      assert all == Agg(TickCandles(ticks), k) && all[|cs|] == c;
      assert forall i :: 0 <= i < |cs| ==> all[i] == cs[i];
      CombinedIsAgg(cs, k);
      FinalizedBars(cs, c, direct.finalized, direct.current.value.candle, k);
    }
  }

  lemma FinalizedBars(cs: seq<Candle>, c: Candle, bars: seq<Candle>, bar: Candle, k: int)
    requires Divides15(k) && Aligned(cs + [c], k) && Agg(cs + [c], 15) == bars + [bar]
    ensures CompleteBars(Agg(cs, 15), cs, k) == CompleteBars(bars, cs, k)
  {
    var all := cs + [c];
    assert all[..|cs|] == cs && all[|cs|] == c;
    assert forall i :: 0 <= i < |cs| ==> all[i] == cs[i];
    FormingIsIncomplete(cs, c.date, k);
    var before := Agg(cs, 15);
    var m := |before| - 1;
    assert Extend(before, c, 15) == bars + [bar];
    if before != [] && before[m].date == IntervalStart(c.date, 15) {
      assert bars == (bars + [bar])[..m] == before[..m];
      assert before == before[..m] + [before[m]];
      IncompleteLast(before[..m], before[m], cs, k);
    } else {
      assert bars == (bars + [bar])[..|before|] == before;
    }
  }

  // -------------------------------------------------------------- volume is conserved

  lemma VolumeAppend(cs: seq<Candle>, c: Candle)
    ensures VolumeOf(cs + [c]) == VolumeOf(cs) + c.volume
  {
    assert (cs + [c])[..|cs|] == cs;
  }

  lemma {:induction false} AggVolume(cs: seq<Candle>, k: int)
    requires k > 0
    ensures VolumeOf(Agg(cs, k)) == VolumeOf(cs)
    decreases |cs|
  {
    if cs != [] {
      var n := |cs| - 1;
      AggVolume(cs[..n], k);
      var before := Agg(cs[..n], k);
      var m := |before| - 1;
      var b := IntervalStart(cs[n].date, k);
      if before != [] && before[m].date == b {
        VolumeAppend(before[..m], Merge(before[m], cs[n]));
      } else {
        VolumeAppend(before, cs[n].(date := b));
      }
    }
  }

  /**
   The candles of any interval, with the one still forming, hold together exactly the
   volume traded between the priced ticks: nothing is lost at an interval boundary.
   */
  lemma VolumeConserved(ticks: seq<Tick>, k: int)
    requires k > 0
    ensures VolumeOf(AllCandles(Build(ticks, k))) == VolumeOf(TickCandles(ticks))
  {
    BuilderIsBatch(ticks, k);
    AggVolume(TickCandles(ticks), k);
  }
}
