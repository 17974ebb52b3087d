/**
 The batch indicators as the specification (indicators.py): the exponentially weighted
 mean of the data frame library with adjust=False, a minimum number of observations
 and gaps that decay the weight; rolling means; true range, directional movement, DX
 and ADX. An undefined value (NaN) is None. Prices are reals.
 */
module Indicators {
  import opened Wrappers

  datatype Bar = Bar(high: real, low: real, close: real)

  function Abs(x: real): real { if x >= 0.0 then x else -x }
  function Max(a: real, b: real): real { if a >= b then a else b }

  // --------------------------------------------------- exponentially weighted means

  datatype Ewm = Ewm(weighted: Option<real>, oldWeight: real, observed: nat)

  function Decay(weight: real, alpha: real): real {
    weight * (1.0 - alpha)
  }

  function Weighted(w: real, x: real, weight: real, alpha: real): real
    requires weight + alpha != 0.0
  {
    (weight * w + alpha * x) / (weight + alpha)
  }

  lemma DecayInRange(weight: real, alpha: real)
    requires weight >= 0.0 && alpha <= 1.0
    ensures Decay(weight, alpha) >= 0.0
  {
  }

  /** One row. A gap after the first observation still decays the old weight. */
  function EwmRow(s: Ewm, x: Option<real>, alpha: real): (r: Ewm)
    requires 0.0 < alpha <= 1.0 && s.oldWeight >= 0.0
    ensures r.oldWeight >= 0.0
  {
    DecayInRange(s.oldWeight, alpha);
    var seen := s.observed + if x.Some? then 1 else 0;
    if s.weighted.None? then Ewm(x, 1.0, seen)
    else
      var decayed := Decay(s.oldWeight, alpha);
      if x.None? then Ewm(s.weighted, decayed, seen)
      else
        var w := s.weighted.value;
        var next := if w != x.value then Weighted(w, x.value, decayed, alpha) else w;
        Ewm(Some(next), 1.0, seen)
  }

  function EwmOver(xs: seq<Option<real>>, alpha: real): (s: Ewm)
    requires 0.0 < alpha <= 1.0
    ensures s.oldWeight >= 0.0
  {
    if xs == [] then Ewm(None, 1.0, 0) else EwmRow(EwmOver(xs[..|xs| - 1], alpha), xs[|xs| - 1], alpha)
  }

  /** The value at row i; undefined before `minPeriods` observations. */
  function EwmAt(xs: seq<Option<real>>, i: nat, alpha: real, minPeriods: nat): Option<real>
    requires 0.0 < alpha <= 1.0 && i < |xs|
  {
    var s := EwmOver(xs[..i + 1], alpha);
    if s.observed >= minPeriods then s.weighted else None
  }

  function Sum(xs: seq<real>): real {
    if xs == [] then 0.0 else Sum(xs[..|xs| - 1]) + xs[|xs| - 1]
  }

  /** The mean of the last `period` values up to row i. */
  function RollingMean(xs: seq<real>, i: nat, period: nat): Option<real>
    requires i < |xs| && period > 0
  {
    if i + 1 < period then None else Some(Sum(xs[i + 1 - period..i + 1]) / period as real)
  }

  // ------------------------------------------------------------- directional movement

  function TrueRange(prev: Option<Bar>, b: Bar): real {
    match prev
    case None => b.high - b.low
    case Some(q) => Max(Max(b.high - b.low, Abs(b.high - q.close)), Abs(b.low - q.close))
  }

  function PlusMove(prev: Option<Bar>, b: Bar): real {
    match prev
    case None => 0.0
    case Some(q) =>
      var up, down := b.high - q.high, q.low - b.low;
      if up > down && up > 0.0 then up else 0.0
  }

  function MinusMove(prev: Option<Bar>, b: Bar): real {
    match prev
    case None => 0.0
    case Some(q) =>
      var up, down := b.high - q.high, q.low - b.low;
      if down > up && down > 0.0 then down else 0.0
  }

  function Before(bars: seq<Bar>, i: nat): Option<Bar>
    requires i < |bars|
  {
    if i == 0 then None else Some(bars[i - 1])
  }

  function Ranges(bars: seq<Bar>): (r: seq<real>)
    ensures |r| == |bars|
  {
    seq(|bars|, i requires 0 <= i < |bars| => TrueRange(Before(bars, i), bars[i]))
  }

  function PlusMoves(bars: seq<Bar>): (r: seq<real>)
    ensures |r| == |bars|
  {
    seq(|bars|, i requires 0 <= i < |bars| => PlusMove(Before(bars, i), bars[i]))
  }

  function MinusMoves(bars: seq<Bar>): (r: seq<real>)
    ensures |r| == |bars|
  {
    seq(|bars|, i requires 0 <= i < |bars| => MinusMove(Before(bars, i), bars[i]))
  }

  function Observed(xs: seq<real>): (r: seq<Option<real>>)
    ensures |r| == |xs|
  {
    seq(|xs|, i requires 0 <= i < |xs| => Some(xs[i]))
  }

  function Alpha(period: nat): (a: real)
    requires period > 0
    ensures 0.0 < a <= 1.0
  {
    1.0 / period as real
  }

  /** DX from the smoothed values; undefined without range or without movement. */
  function DxOf(range: real, plus: real, minus: real): Option<real> {
    if range == 0.0 then None
    else
      var p, m := 100.0 * (plus / range), 100.0 * (minus / range);
      if p + m == 0.0 then None else Some(100.0 * Abs(p - m) / (p + m))
  }

  function DxAt(bars: seq<Bar>, i: nat, period: nat): Option<real>
    requires i < |bars| && period > 0
  {
    var range := EwmAt(Observed(Ranges(bars)), i, Alpha(period), period);
    var plus := EwmAt(Observed(PlusMoves(bars)), i, Alpha(period), period);
    var minus := EwmAt(Observed(MinusMoves(bars)), i, Alpha(period), period);
    if range.None? || plus.None? || minus.None? then None else DxOf(range.value, plus.value, minus.value)
  }

  function Dxs(bars: seq<Bar>, period: nat): (r: seq<Option<real>>)
    requires period > 0
    ensures |r| == |bars|
  {
    seq(|bars|, i requires 0 <= i < |bars| => DxAt(bars, i, period))
  }

  function AdxAt(bars: seq<Bar>, i: nat, period: nat): Option<real>
    requires i < |bars| && period > 0
  {
    EwmAt(Dxs(bars, period), i, Alpha(period), period)
  }

  function AtrAt(bars: seq<Bar>, i: nat, period: nat): Option<real>
    requires i < |bars| && period > 0
  {
    RollingMean(Ranges(bars), i, period)
  }
}
