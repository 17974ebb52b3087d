/**
 What the incremental indicators guarantee: bounds, the first ADX, rolling windows, and
 exactly when a seeded state continues as the batch computation would.
 */
module IndicatorResults {
  import opened Wrappers
  import opened Indicators
  import opened IncrementalIndicators

  // --------------------------------------------------------------- ADX in [0, 100]

  lemma MixBelow(w: real, x: real, alpha: real, hi: real)
    requires 0.0 < alpha <= 1.0 && w <= hi && x <= hi
    ensures Mix(w, x, alpha) <= hi
  {
    NonNegativeProduct(alpha, hi - x);
    NonNegativeProduct(1.0 - alpha, hi - w);
    assert hi - Mix(w, x, alpha) == alpha * (hi - x) + (1.0 - alpha) * (hi - w);
  }

  lemma RatioBounds(n: real, d: real)
    requires 0.0 <= n <= d && d > 0.0
    ensures 0.0 <= 100.0 * n / d <= 100.0
  {
    assert 0.0 <= n / d <= 1.0;
    assert 100.0 * n / d == 100.0 * (n / d);
  }

  lemma NonNegativeRatio(n: real, d: real)
    requires n >= 0.0 && d > 0.0
    ensures n / d >= 0.0
  {
  }

  lemma DxInRange(range: real, plus: real, minus: real)
    requires range >= 0.0 && plus >= 0.0 && minus >= 0.0
    ensures var dx := DxOf(range, plus, minus); dx.Some? ==> 0.0 <= dx.value <= 100.0
  {
    if range > 0.0 {
      NonNegativeRatio(plus, range);
      NonNegativeRatio(minus, range);
      var p, m := 100.0 * (plus / range), 100.0 * (minus / range);
      if p + m != 0.0 {
        RatioBounds(Abs(p - m), p + m);
      }
    }
  }

  predicate Within(v: Option<real>, lo: real, hi: real) {
    v.Some? ==> lo <= v.value <= hi
  }

  predicate Bounded(s: AdxCore) {
    NonNegative(s.range) && NonNegative(s.plus) && NonNegative(s.minus) && Within(s.adx, 0.0, 100.0)
  }

  lemma StepWithin(prev: Option<real>, x: real, alpha: real)
    requires 0.0 < alpha <= 1.0 && Within(prev, 0.0, 100.0) && 0.0 <= x <= 100.0
    ensures 0.0 <= EwmStep(prev, x, alpha) <= 100.0
  {
    if prev.Some? {
      MixAbove(prev.value, x, alpha, 0.0);
      MixBelow(prev.value, x, alpha, 100.0);
    }
  }

  lemma SteppedBounded(s: AdxCore, b: Bar, period: nat)
    requires period > 0 && Bounded(s) && b.high >= b.low
    ensures Bounded(Stepped(s, b, period))
  {
    hide EwmStep, DxOf, Mix, Alpha;
    if !s.undefined {
      var a := Alpha(period);
      StepNonNegative(s.range, TrueRange(s.prev, b), a);
      StepNonNegative(s.plus, PlusMove(s.prev, b), a);
      StepNonNegative(s.minus, MinusMove(s.prev, b), a);
      var t := Smoothed(s, b, period);
      DxInRange(t.range.value, t.plus.value, t.minus.value);
      var dx := DxOf(t.range.value, t.plus.value, t.minus.value);
      if dx.Some? {
        StepWithin(s.adx, dx.value, a);
      }
    }
  }

  /** Every reported ADX lies in [0, 100]. */
  lemma {:induction false} AdxInRange(bars: seq<Bar>, period: nat)
    requires period > 0 && WellFormed(bars)
    ensures Bounded(Fed(bars, period)) && Within(Reported(Fed(bars, period), period), 0.0, 100.0)
    decreases |bars|
  {
    hide Stepped;
    if bars != [] {
      var n := |bars| - 1;
      AdxInRange(bars[..n], period);
      SteppedBounded(Fed(bars[..n], period), bars[n], period);
    }
  }

  // ------------------------------------------------------------------ the first ADX

  /** DX is defined at every row from the first at which it can be. */
  ghost predicate AllDefined(bars: seq<Bar>, period: nat)
    requires period > 0
  {
    forall i :: period - 1 <= i < |bars| ==> Dxs(bars, period)[i].Some?
  }

  lemma EarlyUndefined(bars: seq<Bar>, i: nat, period: nat)
    requires period > 0 && i < |bars| && i + 1 < period
    ensures Dxs(bars, period)[i].None?
  {
    DxIsFed(bars, i, period);
  }

  lemma AllDefinedHasNoGap(bars: seq<Bar>, period: nat)
    requires period > 0 && AllDefined(bars, period)
    ensures NoGap(Dxs(bars, period))
  {
    forall i | 0 <= i < |bars| && i + 1 < period ensures Dxs(bars, period)[i].None? {
      EarlyUndefined(bars, i, period);
    }
  }

  /** For well-formed bars it is enough that the first row that can have a DX has one. */
  lemma AllDefinedIff(bars: seq<Bar>, period: nat)
    requires period >= 2 && WellFormed(bars)
    ensures AllDefined(bars, period) <==> |bars| < period || Dxs(bars, period)[period - 1].Some?
  {
    NeverAGap(bars, period);
  }

  lemma AllDefinedPrefix(bars: seq<Bar>, n: nat, period: nat)
    requires period > 0 && AllDefined(bars, period) && n <= |bars|
    ensures AllDefined(bars[..n], period)
  {
    PrefixDxs(bars, n, period);
    assert forall i :: 0 <= i < n ==> Dxs(bars, period)[..n][i] == Dxs(bars, period)[i];
  }

  lemma {:induction false} ValidCount(bars: seq<Bar>, period: nat)
    requires period > 0 && AllDefined(bars, period)
    ensures Fed(bars, period).validDx == (if |bars| >= period then |bars| - (period - 1) else 0)
    ensures Fed(bars, period).adx.Some? <==> |bars| >= period
    decreases |bars|
  {
    hide Stepped, Dxs;
    if bars == [] {
      NothingFed(period);
    } else {
      var n := |bars| - 1;
      AllDefinedPrefix(bars, n, period);
      ValidCount(bars[..n], period);
      FedDx(bars, period);
      if n + 1 < period {
        EarlyUndefined(bars, n, period);
      }
    }
  }

  lemma NothingFed(period: nat)
    requires period > 0
    ensures Fed([], period) == COLD
  {
  }

  /** The first ADX appears at row 2 * period - 2, and every later row has one. */
  lemma FirstAdx(bars: seq<Bar>, i: nat, period: nat)
    requires period > 0 && i < |bars| && AllDefined(bars, period)
    ensures Reported(Fed(bars[..i + 1], period), period).Some? <==> i >= 2 * period - 2
    ensures AdxAt(bars, i, period).Some? <==> i >= 2 * period - 2
  {
    AllDefinedPrefix(bars, i + 1, period);
    ValidCount(bars[..i + 1], period);
    AllDefinedHasNoGap(bars, period);
    AdxWithoutGap(bars, i, period);
  }

  // ------------------------------------------------------------------------ seeding

  function FeedOn(s: AdxCore, more: seq<Bar>, period: nat): AdxCore
    requires period > 0
  {
    if more == [] then s else Stepped(FeedOn(s, more[..|more| - 1], period), more[|more| - 1], period)
  }

  lemma {:induction false} FeedOnContinues(bars: seq<Bar>, more: seq<Bar>, period: nat)
    requires period > 0
    ensures FeedOn(Fed(bars, period), more, period) == Fed(bars + more, period)
    decreases |more|
  {
    hide Stepped;
    if more == [] {
      assert bars + more == bars;
    } else {
      var n := |more| - 1;
      FeedOnContinues(bars, more[..n], period);
      assert (bars + more)[..|bars| + n] == bars + more[..n];
    }
  }

  /**
   `seed_from_history`: the batch values of the last row, and counters from the length. A
   history shorter than the period has no smoothed values, and the seed is not a number.
   */
  function Seeded(bars: seq<Bar>, period: nat): AdxCore
    requires period > 0 && bars != []
  {
    var n := |bars|;
    AdxCore(n, if n >= period then n - (period - 1) else 0, Some(bars[n - 1]),
            EwmAt(Observed(Ranges(bars)), n - 1, Alpha(period), period),
            EwmAt(Observed(PlusMoves(bars)), n - 1, Alpha(period), period),
            EwmAt(Observed(MinusMoves(bars)), n - 1, Alpha(period), period),
            AdxAt(bars, n - 1, period), n < period)
  }

  /** What the seed takes from the batch, in terms of the state a cold start would reach. */
  lemma SeedValues(bars: seq<Bar>, period: nat)
    requires period > 0 && bars != [] && NoGap(Dxs(bars, period))
    ensures var s, f := Seeded(bars, period), Fed(bars, period);
            && s.barCount == f.barCount && s.prev == f.prev && s.adx == Reported(f, period)
            && f.range.Some? && f.plus.Some? && f.minus.Some?
            && (|bars| >= period ==> s.range == f.range && s.plus == f.plus && s.minus == f.minus)
            && (|bars| < period ==> s.range.None?) && (s.undefined <==> |bars| < period) && !f.undefined
  {
    hide EwmAt, Fed, Ranges, PlusMoves, MinusMoves, AdxAt, NoGap, Dxs, Alpha, Steps, Observed;
    var n, a := |bars|, Alpha(period);
    assert bars[..n - 1 + 1] == bars;
    AdxWithoutGap(bars, n - 1, period);
    DxIsFed(bars, n - 1, period);
    FedColumns(bars, period);
    ColumnAt(Ranges(bars), n - 1, a, period);
    ColumnAt(PlusMoves(bars), n - 1, a, period);
    ColumnAt(MinusMoves(bars), n - 1, a, period);
    assert Ranges(bars)[..n] == Ranges(bars) && PlusMoves(bars)[..n] == PlusMoves(bars)
        && MinusMoves(bars)[..n] == MinusMoves(bars);
  }

  /**
   Seeding restores exactly the state a cold start would have reached if and only if
   the history has at least 2 * period - 1 bars: a shorter one loses the outer mean.
   */
  lemma SeedIsExactIff(bars: seq<Bar>, period: nat)
    requires period >= 2 && bars != [] && AllDefined(bars, period)
    ensures Seeded(bars, period) == Fed(bars, period) <==> |bars| >= 2 * period - 1
  {
    hide Seeded, Fed, NoGap, Dxs, AllDefined;
    AllDefinedHasNoGap(bars, period);
    SeedValues(bars, period);
    ValidCount(bars, period);
    SeededCount(bars, period);
  }

  lemma SeededCount(bars: seq<Bar>, period: nat)
    requires period > 0 && bars != []
    ensures Seeded(bars, period).validDx == (if |bars| >= period then |bars| - (period - 1) else 0)
  {
  }

  lemma {:induction false} UndefinedStays(s: AdxCore, more: seq<Bar>, period: nat)
    requires period > 0 && s.undefined && s.validDx == 0
    ensures FeedOn(s, more, period).undefined && FeedOn(s, more, period).validDx == 0
    decreases |more|
  {
    if more != [] {
      UndefinedStays(s, more[..|more| - 1], period);
    }
  }

  /** A seed of fewer bars than the period silences the ADX: however many bars follow, none is ever reported. */
  lemma ShortSeedNeverReports(bars: seq<Bar>, more: seq<Bar>, period: nat)
    requires bars != [] && |bars| < period
    ensures Reported(FeedOn(Seeded(bars, period), more, period), period) == None
  {
    UndefinedStays(Seeded(bars, period), more, period);
  }

  /** Continuing from a sufficient seed reports the batch values of the whole series. */
  lemma SeedThenContinue(bars: seq<Bar>, more: seq<Bar>, period: nat)
    requires period >= 2 && |bars| >= 2 * period - 1 && more != [] && AllDefined(bars + more, period)
    ensures Reported(FeedOn(Seeded(bars, period), more, period), period)
            == AdxAt(bars + more, |bars| + |more| - 1, period)
  {
    hide Seeded, Fed, FeedOn, AllDefined, AdxAt, Reported, Dxs, NoGap;
    var all := bars + more;
    assert all[..|bars|] == bars && all[..|all| - 1 + 1] == all;
    AllDefinedPrefix(all, |bars|, period);
    SeedIsExactIff(bars, period);
    FeedOnContinues(bars, more, period);
    AllDefinedHasNoGap(all, period);
    AdxWithoutGap(all, |all| - 1, period);
  }

  // ---------------------------------------------------------------- rolling windows

  /** The last `size` values, or all of them. */
  function Window(xs: seq<real>, size: nat): seq<real> {
    if |xs| <= size then xs else xs[|xs| - size..]
  }

  /** Appending to the window and dropping the oldest keeps it the window. */
  lemma WindowSlides(xs: seq<real>, x: real, size: nat)
    ensures var w := Window(xs, size) + [x];
            Window(xs + [x], size) == if |w| > size then w[1..] else w
  {
  }

  lemma WindowMean(xs: seq<real>, size: nat)
    requires size > 0 && xs != []
    ensures var w := Window(xs, size);
            RollingMean(xs, |xs| - 1, size) == if |w| < size then None else Some(Sum(w) / size as real)
  {
    if |xs| >= size {
      assert xs[|xs| - size..|xs|] == Window(xs, size);
    }
  }

  function LastClose(bars: seq<Bar>): Option<real> {
    if bars == [] then None else Some(bars[|bars| - 1].close)
  }

  /** True range as the incremental update computes it, from the last close alone. */
  function RangeFrom(prevClose: Option<real>, b: Bar): real {
    match prevClose
    case None => b.high - b.low
    case Some(c) => Max(Max(b.high - b.low, Abs(b.high - c)), Abs(b.low - c))
  }

  lemma RangesExtend(bars: seq<Bar>, b: Bar)
    ensures Ranges(bars + [b]) == Ranges(bars) + [RangeFrom(LastClose(bars), b)]
  {
    PrefixRows(bars + [b], |bars|);
    assert (bars + [b])[..|bars|] == bars;
  }

  /** `seed_from_history` for the volumes: a history shorter than the window is dropped. */
  function SeededVolumes(volumes: seq<real>, size: nat): seq<real> {
    if |Window(volumes, size)| == size then Window(volumes, size) else []
  }

  /** A remark: the volume seed is the window of the history if and only if the history fills it. */
  lemma VolumeSeedIsExactIff(volumes: seq<real>, size: nat)
    requires volumes != [] && size > 0
    ensures SeededVolumes(volumes, size) == Window(volumes, size) <==> |volumes| >= size
  {
  }

  /** The state of one symbol: the histories it has seen are kept for the specification only. */
  class SymbolIndicatorState {
    const atrPeriod: nat
    const volumeSize: nat
    const adxState: ADXState
    var prevClose: Option<real>
    var atrWindow: seq<real>
    var volumeWindow: seq<real>
    ghost var atrBars: seq<Bar>
    ghost var adxBars: seq<Bar>
    ghost var volumes: seq<real>

    constructor (atrPeriod: nat, volumeSize: nat, adxPeriod: nat)
      requires atrPeriod > 0 && volumeSize > 0 && adxPeriod > 0
      ensures Valid() && fresh(adxState) && atrBars == [] && adxBars == [] && volumes == []
      ensures this.atrPeriod == atrPeriod && this.volumeSize == volumeSize && adxState.period == adxPeriod
    {
      this.atrPeriod, this.volumeSize := atrPeriod, volumeSize;
      adxState := new ADXState(adxPeriod);
      prevClose, atrWindow, volumeWindow := None, [], [];
      atrBars, adxBars, volumes := [], [], [];
    }

    ghost predicate Valid()
      reads this, adxState
    {
      && atrPeriod > 0 && volumeSize > 0 && adxState.period > 0
      && atrWindow == Window(Ranges(atrBars), atrPeriod)
      && prevClose == LastClose(atrBars)
      && volumeWindow == Window(volumes, volumeSize)
      && adxState.Value() == Fed(adxBars, adxState.period)
    }

    /** Reports the batch rolling mean of the true range at the new row. */
    method UpdateAtr(b: Bar) returns (r: Option<real>)
      requires Valid()
      modifies this`prevClose, this`atrWindow, this`atrBars
      ensures Valid() && atrBars == old(atrBars) + [b]
      ensures r == AtrAt(atrBars, |atrBars| - 1, atrPeriod)
    {
      hide Ranges, Window, Sum, RollingMean, Fed;
      var tr := b.high - b.low;
      if prevClose.Some? {
        tr := Max(Max(tr, Abs(b.high - prevClose.value)), Abs(b.low - prevClose.value));
      }
      RangesExtend(atrBars, b);
      WindowSlides(Ranges(atrBars), tr, atrPeriod);
      WindowMean(Ranges(atrBars + [b]), atrPeriod);
      prevClose := Some(b.close);
      atrBars := atrBars + [b];
      atrWindow := atrWindow + [tr];
      if |atrWindow| > atrPeriod {
        atrWindow := atrWindow[1..];
      }
      r := if |atrWindow| < atrPeriod then None else Some(Sum(atrWindow) / atrPeriod as real);
    }

    /** Reports the batch rolling mean of the volume at the new row. */
    method UpdateVolumeAvg(volume: real) returns (r: Option<real>)
      requires Valid()
      modifies this`volumeWindow, this`volumes
      ensures Valid() && volumes == old(volumes) + [volume]
      ensures r == RollingMean(volumes, |volumes| - 1, volumeSize)
    {
      hide Window, Sum, RollingMean, Fed, Ranges;
      WindowSlides(volumes, volume, volumeSize);
      WindowMean(volumes + [volume], volumeSize);
      volumes := volumes + [volume];
      volumeWindow := volumeWindow + [volume];
      if |volumeWindow| > volumeSize {
        volumeWindow := volumeWindow[1..];
      }
      r := if |volumeWindow| < volumeSize then None else Some(Sum(volumeWindow) / volumeSize as real);
    }

    /** Reports the batch ADX of the new row, when no DX has been lost on the way. */
    method UpdateAdx(b: Bar) returns (r: Option<real>)
      requires Valid()
      modifies this`adxBars, adxState
      ensures Valid() && adxBars == old(adxBars) + [b]
      ensures WellFormed(adxBars) ==> r == AdxAt(adxBars, |adxBars| - 1, adxState.period)
      ensures r == Reported(Fed(adxBars, adxState.period), adxState.period)
    {
      assert (adxBars + [b])[..|adxBars|] == adxBars;
      adxBars := adxBars + [b];
      r := adxState.Update(b);
      if WellFormed(adxBars) {
        assert adxBars[..|adxBars| - 1 + 1] == adxBars;
        AdxIsBatch(adxBars, |adxBars| - 1, adxState.period);
      }
    }

    /** `seed_from_history` for the entry timeframe. */
    method SeedEntry(bars: seq<Bar>, history: seq<real>)
      requires Valid() && |bars| == |history|
      modifies this`prevClose, this`atrWindow, this`atrBars, this`volumeWindow, this`volumes
      ensures bars == [] ==> unchanged(this)
      ensures bars != [] ==> && atrBars == bars && atrWindow == Window(Ranges(bars), atrPeriod)
                             && prevClose == Some(bars[|bars| - 1].close)
                             && volumes == history && volumeWindow == SeededVolumes(history, volumeSize)
      ensures bars != [] ==> (Valid() <==> |history| >= volumeSize)
    {
      if bars == [] {
        return;
      }
      volumeWindow := SeededVolumes(history, volumeSize);
      prevClose := Some(bars[|bars| - 1].close);
      atrWindow := Window(Ranges(bars), atrPeriod);
      atrBars, volumes := bars, history;
      VolumeSeedIsExactIff(history, volumeSize);
    }
  }
}
