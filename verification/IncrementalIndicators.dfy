/** The incremental indicators, and that they equal the batch ones (indicators_incremental.py). */
module IncrementalIndicators {
  import opened Wrappers
  import opened Indicators

  /** `_ewm_step`: the first value seeds, every later one is mixed in. */
  function EwmStep(prev: Option<real>, x: real, alpha: real): real {
    if prev.None? then x else Mix(prev.value, x, alpha)
  }

  function Mix(w: real, x: real, alpha: real): real {
    alpha * x + (1.0 - alpha) * w
  }

  /** `undefined`: the smoothed values are not numbers, and so is every mean made from them. */
  datatype AdxCore = AdxCore(
    barCount: nat, validDx: nat, prev: Option<Bar>,
    range: Option<real>, plus: Option<real>, minus: Option<real>, adx: Option<real>, undefined: bool)

  const COLD := AdxCore(0, 0, None, None, None, None, None, false)

  /** What one bar does to the state. */
  function Stepped(s: AdxCore, b: Bar, period: nat): AdxCore
    requires period > 0
  {
    if s.undefined then s.(barCount := s.barCount + 1, prev := Some(b)) else Smoothed(s, b, period)
  }

  function Smoothed(s: AdxCore, b: Bar, period: nat): AdxCore
    requires period > 0
  {
    var alpha := Alpha(period);
    var range := EwmStep(s.range, TrueRange(s.prev, b), alpha);
    var plus := EwmStep(s.plus, PlusMove(s.prev, b), alpha);
    var minus := EwmStep(s.minus, MinusMove(s.prev, b), alpha);
    var dx := if s.barCount + 1 < period then None else DxOf(range, plus, minus);
    AdxCore(s.barCount + 1, s.validDx + if dx.Some? then 1 else 0, Some(b), Some(range), Some(plus), Some(minus),
            if dx.Some? then Some(EwmStep(s.adx, dx.value, alpha)) else s.adx, false)
  }

  /** What `update` reports: gated until `period` DX values have been seen. */
  function Reported(s: AdxCore, period: nat): Option<real> {
    if s.validDx < period then None else s.adx
  }

  function Fed(bars: seq<Bar>, period: nat): AdxCore
    requires period > 0
  {
    if bars == [] then COLD else Stepped(Fed(bars[..|bars| - 1], period), bars[|bars| - 1], period)
  }

  class ADXState {
    const period: nat
    var barCount: nat
    var validDxCount: nat
    var prev: Option<Bar>
    var smoothedTr: Option<real>
    var smoothedPlusDm: Option<real>
    var smoothedMinusDm: Option<real>
    var adx: Option<real>
    var undefined: bool

    constructor (period: nat)
      ensures this.period == period && Value() == COLD
    {
      this.period, barCount, validDxCount, prev := period, 0, 0, None;
      smoothedTr, smoothedPlusDm, smoothedMinusDm, adx, undefined := None, None, None, None, false;
    }

    ghost function Value(): AdxCore
      reads this
    {
      AdxCore(barCount, validDxCount, prev, smoothedTr, smoothedPlusDm, smoothedMinusDm, adx, undefined)
    }

    method Update(b: Bar) returns (r: Option<real>)
      requires period > 0
      modifies this
      ensures Value() == Stepped(old(Value()), b, period)
      ensures r == Reported(Value(), period)
    {
      hide EwmStep, Mix, Alpha;
      var alpha := Alpha(period);
      barCount := barCount + 1;
      var tr, plusDm, minusDm := b.high - b.low, 0.0, 0.0;
      if prev.Some? {
        var q := prev.value;
        tr := Max(Max(tr, Abs(b.high - q.close)), Abs(b.low - q.close));
        var up, down := b.high - q.high, q.low - b.low;
        if up > down && up > 0.0 {
          plusDm := up;
        }
        if down > up && down > 0.0 {
          minusDm := down;
        }
      }
      if !undefined {
        smoothedTr := Some(EwmStep(smoothedTr, tr, alpha));
        smoothedPlusDm := Some(EwmStep(smoothedPlusDm, plusDm, alpha));
        smoothedMinusDm := Some(EwmStep(smoothedMinusDm, minusDm, alpha));
      }
      prev := Some(b);
      var dx: Option<real> := None;
      if !undefined && barCount >= period && smoothedTr.value != 0.0 {
        var plusDi := 100.0 * (smoothedPlusDm.value / smoothedTr.value);
        var minusDi := 100.0 * (smoothedMinusDm.value / smoothedTr.value);
        if plusDi + minusDi != 0.0 {
          dx := Some(100.0 * Abs(plusDi - minusDi) / (plusDi + minusDi));
        }
      }
      if dx.Some? {
        validDxCount := validDxCount + 1;
        adx := Some(EwmStep(adx, dx.value, alpha));
      }
      r := if validDxCount < period then None else adx;
    }
  }

  // ------------------------------------------------- the recursion is the batch mean

  lemma DivideByOne(x: real, d: real)
    requires d == 1.0
    ensures x / d == x
  {
  }

  lemma MixSame(w: real, alpha: real)
    ensures Mix(w, w, alpha) == w
  {
  }

  lemma MixIsWeighted(w: real, x: real, alpha: real)
    ensures Decay(1.0, alpha) + alpha == 1.0
    ensures Weighted(w, x, Decay(1.0, alpha), alpha) == Mix(w, x, alpha)
  {
    var decayed := Decay(1.0, alpha);
    DivideByOne(decayed * w + alpha * x, decayed + alpha);
  }

  /** A value without a gap before it: the batch row and the recursion agree. */
  lemma RowIsStep(s: Ewm, x: real, alpha: real)
    requires 0.0 < alpha <= 1.0 && s.oldWeight == 1.0
    ensures EwmRow(s, Some(x), alpha) == Ewm(Some(EwmStep(s.weighted, x, alpha)), 1.0, s.observed + 1)
  {
    hide Decay, Weighted, Mix;
    if s.weighted.Some? {
      MixIsWeighted(s.weighted.value, x, alpha);
      MixSame(x, alpha);
    }
  }

  // ---------------------------------------------------- the state is the batch state

  /** DX, once defined, stays defined. */
  ghost predicate NoGap(dxs: seq<Option<real>>) {
    forall i, j :: 0 <= i < j < |dxs| && dxs[i].Some? ==> dxs[j].Some?
  }

  /** The recursion over a column, all observed. */
  function Steps(xs: seq<real>, alpha: real): Option<real> {
    if xs == [] then None else Some(EwmStep(Steps(xs[..|xs| - 1], alpha), xs[|xs| - 1], alpha))
  }

  lemma {:induction false} ObservedIsSteps(xs: seq<real>, alpha: real)
    requires 0.0 < alpha <= 1.0
    ensures EwmOver(Observed(xs), alpha) == Ewm(Steps(xs, alpha), 1.0, |xs|)
    decreases |xs|
  {
    if xs != [] {
      var n := |xs| - 1;
      ObservedIsSteps(xs[..n], alpha);
      assert Observed(xs)[..n] == Observed(xs[..n]);
      RowIsStep(EwmOver(Observed(xs[..n]), alpha), xs[n], alpha);
    }
  }

  /** Rows of a prefix are a prefix of the rows. */
  lemma PrefixRows(bars: seq<Bar>, n: nat)
    requires n <= |bars|
    ensures Ranges(bars)[..n] == Ranges(bars[..n])
    ensures PlusMoves(bars)[..n] == PlusMoves(bars[..n])
    ensures MinusMoves(bars)[..n] == MinusMoves(bars[..n])
  {
  }

  lemma StepsLast(xs: seq<real>, alpha: real)
    requires xs != []
    ensures Steps(xs, alpha) == Some(EwmStep(Steps(xs[..|xs| - 1], alpha), xs[|xs| - 1], alpha))
  {
  }

  lemma {:induction false} FedColumns(bars: seq<Bar>, period: nat)
    requires period > 0
    ensures var s, a := Fed(bars, period), Alpha(period);
            && !s.undefined && s.barCount == |bars| && (bars != [] ==> s.prev == Some(bars[|bars| - 1]))
            && (bars == [] ==> s.prev == None)
            && s.range == Steps(Ranges(bars), a) && s.plus == Steps(PlusMoves(bars), a)
            && s.minus == Steps(MinusMoves(bars), a)
    decreases |bars|
  {
    hide TrueRange, PlusMove, MinusMove, DxOf, EwmStep, Alpha;
    if bars != [] {
      var n := |bars| - 1;
      FedColumns(bars[..n], period);
      PrefixRows(bars, n);
      StepsLast(Ranges(bars), Alpha(period));
      StepsLast(PlusMoves(bars), Alpha(period));
      StepsLast(MinusMoves(bars), Alpha(period));
    }
  }

  lemma ColumnAt(xs: seq<real>, i: nat, alpha: real, period: nat)
    requires 0.0 < alpha <= 1.0 && i < |xs|
    ensures EwmAt(Observed(xs), i, alpha, period) == if i + 1 >= period then Steps(xs[..i + 1], alpha) else None
  {
    ObservedIsSteps(xs[..i + 1], alpha);
    assert Observed(xs)[..i + 1] == Observed(xs[..i + 1]);
  }

  /** DX at a row, from the state after that row's bar. */
  lemma DxIsFed(bars: seq<Bar>, i: nat, period: nat)
    requires period > 0 && i < |bars|
    ensures var s := Fed(bars[..i + 1], period);
            && s.range.Some? && s.plus.Some? && s.minus.Some?
            && DxAt(bars, i, period)
               == if i + 1 < period then None else DxOf(s.range.value, s.plus.value, s.minus.value)
  {
    var a := Alpha(period);
    FedColumns(bars[..i + 1], period);
    PrefixRows(bars, i + 1);
    ColumnAt(Ranges(bars), i, a, period);
    ColumnAt(PlusMoves(bars), i, a, period);
    ColumnAt(MinusMoves(bars), i, a, period);
    hide DxOf, EwmAt, Ranges, PlusMoves, MinusMoves, Fed;
  }

  lemma PrefixDxs(bars: seq<Bar>, n: nat, period: nat)
    requires period > 0 && n <= |bars|
    ensures Dxs(bars, period)[..n] == Dxs(bars[..n], period)
  {
    forall i | 0 <= i < n ensures DxAt(bars, i, period) == DxAt(bars[..n], i, period) {
      DxIsFed(bars, i, period);
      DxIsFed(bars[..n], i, period);
      assert bars[..n][..i + 1] == bars[..i + 1];
    }
    hide DxAt;
  }

  /** What the last bar did to the outer recursion. */
  lemma FedDx(bars: seq<Bar>, period: nat)
    requires period > 0 && bars != []
    ensures var n := |bars| - 1; var s, t := Fed(bars[..n], period), Fed(bars, period);
            var dx := Dxs(bars, period)[n];
            && t.validDx == s.validDx + (if dx.Some? then 1 else 0)
            && t.adx == if dx.Some? then Some(EwmStep(s.adx, dx.value, Alpha(period))) else s.adx
  {
    var n := |bars| - 1;
    FedColumns(bars[..n], period);
    DxIsFed(bars, n, period);
    assert bars[..n + 1] == bars;
    hide TrueRange, PlusMove, MinusMove, DxOf, EwmStep, DxAt;
  }

  /** One row of the outer mean, when no gap has been seen. */
  lemma OuterRow(s: Ewm, dx: Option<real>, alpha: real)
    requires 0.0 < alpha <= 1.0 && s.oldWeight == 1.0 && (s.weighted.Some? ==> dx.Some?)
    ensures var v := EwmRow(s, dx, alpha);
            v == Ewm(if dx.Some? then Some(EwmStep(s.weighted, dx.value, alpha)) else s.weighted, 1.0,
                     s.observed + if dx.Some? then 1 else 0)
  {
    if dx.Some? {
      RowIsStep(s, dx.value, alpha);
    }
  }

  lemma {:induction false} FedAdx(bars: seq<Bar>, period: nat)
    requires period > 0 && NoGap(Dxs(bars, period))
    ensures var s := Fed(bars, period);
            EwmOver(Dxs(bars, period), Alpha(period)) == Ewm(s.adx, 1.0, s.validDx)
    ensures Fed(bars, period).adx.Some? ==> exists i :: 0 <= i < |bars| && Dxs(bars, period)[i].Some?
    decreases |bars|
  {
    if bars != [] {
      var n := |bars| - 1;
      var dxs := Dxs(bars, period);
      PrefixDxs(bars, n, period);
      assert forall i :: 0 <= i < n ==> dxs[..n][i] == dxs[i];
      FedAdx(bars[..n], period);
      FedColumns(bars[..n], period);
      DxIsFed(bars, n, period);
      assert bars[..n + 1] == bars;
      FedDx(bars, period);
      OuterRow(EwmOver(dxs[..n], Alpha(period)), dxs[n], Alpha(period));
      hide EwmRow, EwmStep, Dxs, Fed, NoGap;
    }
  }

  /** With a period of one both means are the newest value, whatever the weights were. */
  lemma NewestOnly(s: Ewm, dx: Option<real>)
    requires s.oldWeight >= 0.0
    ensures var v := EwmRow(s, dx, 1.0);
            && v.weighted == (if dx.Some? then dx else s.weighted)
            && v.observed == s.observed + if dx.Some? then 1 else 0
  {
    if s.weighted.Some? && dx.Some? {
      DivideByOne(0.0 * s.weighted.value + 1.0 * dx.value, 0.0 + 1.0);
    }
  }

  lemma StepIsNewest(prev: Option<real>, x: real)
    ensures EwmStep(prev, x, 1.0) == x
  {
  }

  lemma {:induction false} FedAdxOfOne(bars: seq<Bar>)
    ensures var s, v := Fed(bars, 1), EwmOver(Dxs(bars, 1), Alpha(1)); v.weighted == s.adx && v.observed == s.validDx
    decreases |bars|
  {
    assert Alpha(1) == 1.0;
    if bars != [] {
      var n := |bars| - 1;
      PrefixDxs(bars, n, 1);
      FedAdxOfOne(bars[..n]);
      FedDx(bars, 1);
      var dx := Dxs(bars, 1)[n];
      NewestOnly(EwmOver(Dxs(bars, 1)[..n], 1.0), dx);
      if dx.Some? {
        StepIsNewest(Fed(bars[..n], 1).adx, dx.value);
      }
      hide EwmRow, EwmStep, Dxs, Fed;
    }
  }

  /** The report after a bar is the batch value of its row, for any bars whose DX has no gap. */
  lemma AdxWithoutGap(bars: seq<Bar>, i: nat, period: nat)
    requires period > 0 && i < |bars| && (period == 1 || NoGap(Dxs(bars, period)))
    ensures Reported(Fed(bars[..i + 1], period), period) == AdxAt(bars, i, period)
  {
    PrefixDxs(bars, i + 1, period);
    assert forall j :: 0 <= j <= i ==> Dxs(bars, period)[..i + 1][j] == Dxs(bars, period)[j];
    if period == 1 {
      FedAdxOfOne(bars[..i + 1]);
    } else {
      FedAdx(bars[..i + 1], period);
    }
    hide Fed, Dxs, EwmOver;
  }

  // ---------------------------------------------------------- DX never has a gap

  predicate WellFormed(bars: seq<Bar>) {
    forall i :: 0 <= i < |bars| ==> bars[i].high >= bars[i].low
  }

  predicate NonNegative(v: Option<real>) {
    v.Some? ==> v.value >= 0.0
  }

  lemma NonNegativeProduct(a: real, b: real)
    requires a >= 0.0 && b >= 0.0
    ensures a * b >= 0.0
  {
  }

  lemma PositiveProduct(a: real, b: real)
    requires a > 0.0 && b > 0.0
    ensures a * b > 0.0
  {
  }

  lemma MixAbove(w: real, x: real, alpha: real, lo: real)
    requires 0.0 < alpha <= 1.0 && lo <= w && lo <= x
    ensures lo <= Mix(w, x, alpha)
  {
    NonNegativeProduct(alpha, x - lo);
    NonNegativeProduct(1.0 - alpha, w - lo);
    assert Mix(w, x, alpha) - lo == alpha * (x - lo) + (1.0 - alpha) * (w - lo);
  }

  lemma StepNonNegative(prev: Option<real>, x: real, alpha: real)
    requires 0.0 < alpha <= 1.0 && NonNegative(prev) && x >= 0.0
    ensures EwmStep(prev, x, alpha) >= 0.0
  {
    if prev.Some? {
      MixAbove(prev.value, x, alpha, 0.0);
    }
  }

  /** A positive mean stays positive: the old value never loses all its weight. */
  lemma MixPositive(w: real, x: real, alpha: real)
    requires 0.0 < alpha < 1.0 && w > 0.0 && x >= 0.0
    ensures Mix(w, x, alpha) > 0.0
  {
    NonNegativeProduct(alpha, x);
    PositiveProduct(1.0 - alpha, w);
  }

  lemma MixAdds(w: real, x: real, v: real, y: real, alpha: real)
    ensures Mix(w, x, alpha) + Mix(v, y, alpha) == Mix(w + v, x + y, alpha)
  {
  }

  predicate Smooth(s: AdxCore) {
    NonNegative(s.range) && NonNegative(s.plus) && NonNegative(s.minus)
  }

  /** There has been some range and some directional movement. */
  predicate Moving(s: AdxCore) {
    && s.range.Some? && s.plus.Some? && s.minus.Some?
    && s.range.value > 0.0 && s.plus.value + s.minus.value > 0.0
  }

  lemma AlphaBelowOne(period: nat)
    requires period >= 2
    ensures 0.0 < Alpha(period) < 1.0
  {
  }

  lemma SmoothOn(s: AdxCore, b: Bar, period: nat)
    requires period > 0 && Smooth(s) && b.high >= b.low
    ensures Smooth(Stepped(s, b, period))
  {
    hide EwmStep, DxOf, Alpha;
    StepNonNegative(s.range, TrueRange(s.prev, b), Alpha(period));
    StepNonNegative(s.plus, PlusMove(s.prev, b), Alpha(period));
    StepNonNegative(s.minus, MinusMove(s.prev, b), Alpha(period));
  }

  lemma MovingOn(s: AdxCore, b: Bar, period: nat)
    requires period >= 2 && Moving(s) && Smooth(s) && b.high >= b.low
    ensures Moving(Stepped(s, b, period))
  {
    hide DxOf, Alpha, Mix, TrueRange, PlusMove, MinusMove;
    var a := Alpha(period);
    var range, plus, minus := TrueRange(s.prev, b), PlusMove(s.prev, b), MinusMove(s.prev, b);
    AlphaBelowOne(period);
    MovesAreNonNegative(s.prev, b);
    MixPositive(s.range.value, range, a);
    MixAdds(s.plus.value, plus, s.minus.value, minus, a);
    MixPositive(s.plus.value + s.minus.value, plus + minus, a);
  }

  lemma MovesAreNonNegative(prev: Option<Bar>, b: Bar)
    requires b.high >= b.low
    ensures TrueRange(prev, b) >= 0.0 && PlusMove(prev, b) >= 0.0 && MinusMove(prev, b) >= 0.0
  {
  }

  lemma {:induction false} AlwaysSmooth(bars: seq<Bar>, period: nat)
    requires period > 0 && WellFormed(bars)
    ensures Smooth(Fed(bars, period))
    decreases |bars|
  {
    hide Stepped;
    if bars != [] {
      AlwaysSmooth(bars[..|bars| - 1], period);
      SmoothOn(Fed(bars[..|bars| - 1], period), bars[|bars| - 1], period);
    }
  }

  lemma {:induction false} AlwaysMoving(bars: seq<Bar>, n: nat, period: nat)
    requires period >= 2 && WellFormed(bars) && n <= |bars| && Moving(Fed(bars[..n], period))
    ensures Moving(Fed(bars, period))
    decreases |bars|
  {
    hide Stepped, Moving, Smooth;
    if n == |bars| {
      assert bars[..n] == bars;
    } else {
      var m := |bars| - 1;
      assert bars[..m][..n] == bars[..n];
      AlwaysMoving(bars[..m], n, period);
      AlwaysSmooth(bars[..m], period);
      MovingOn(Fed(bars[..m], period), bars[m], period);
    }
  }

  lemma ScaledSum(plus: real, minus: real, range: real)
    requires range > 0.0
    ensures 100.0 * (plus / range) + 100.0 * (minus / range) == 100.0 * (plus + minus) / range
  {
  }

  lemma QuotientIsZero(n: real, d: real)
    requires d > 0.0
    ensures n / d == 0.0 <==> n == 0.0
  {
  }

  /** DX is defined exactly when there has been some range and some movement. */
  lemma DxDefinedIff(range: real, plus: real, minus: real)
    requires range >= 0.0 && plus >= 0.0 && minus >= 0.0
    ensures DxOf(range, plus, minus).Some? <==> range > 0.0 && plus + minus > 0.0
  {
    if range > 0.0 {
      ScaledSum(plus, minus, range);
      QuotientIsZero(100.0 * (plus + minus), range);
    }
  }

  lemma FedDxDefinedIff(bars: seq<Bar>, i: nat, period: nat)
    requires period > 0 && WellFormed(bars) && i < |bars|
    ensures Dxs(bars, period)[i].Some? <==> i + 1 >= period && Moving(Fed(bars[..i + 1], period))
  {
    hide DxAt, DxOf, Fed;
    DxIsFed(bars, i, period);
    AlwaysSmooth(bars[..i + 1], period);
    var s := Fed(bars[..i + 1], period);
    DxDefinedIff(s.range.value, s.plus.value, s.minus.value);
  }

  /** Smoothed range and movement, once positive, stay so: DX, once defined, stays defined. */
  lemma NeverAGap(bars: seq<Bar>, period: nat)
    requires period >= 2 && WellFormed(bars)
    ensures NoGap(Dxs(bars, period))
  {
    hide Fed, Dxs, Moving;
    forall i, j | 0 <= i < j < |bars| && Dxs(bars, period)[i].Some? ensures Dxs(bars, period)[j].Some? {
      FedDxDefinedIff(bars, i, period);
      FedDxDefinedIff(bars, j, period);
      assert bars[..j + 1][..i + 1] == bars[..i + 1];
      AlwaysMoving(bars[..j + 1], i + 1, period);
    }
  }

  /**
   Incremental equals batch. For any bars whose high is not below their low, and any
   period, what the incremental ADX reports after each bar is the batch value of that row.
   */
  lemma AdxIsBatch(bars: seq<Bar>, i: nat, period: nat)
    requires period > 0 && i < |bars| && WellFormed(bars)
    ensures Reported(Fed(bars[..i + 1], period), period) == AdxAt(bars, i, period)
  {
    hide WellFormed, Reported, Fed, AdxAt, NoGap, Dxs;
    if period >= 2 {
      NeverAGap(bars, period);
    }
    AdxWithoutGap(bars, i, period);
  }
}
