/**
 The streaming candle builder and the exact 15-minute aggregation (candle_engine.py).

 A tick time is a whole number of minutes since some midnight: the builder never looks
 at seconds. Prices and volumes are reals. A tick may lack a price (it is ignored) or a
 cumulative volume, may arrive out of order, and a cumulative volume may fall back.
 */
module Candle {
  import opened Wrappers

  datatype Tick = Tick(minute: nat, price: Option<real>, cumVolume: Option<real>)

  datatype Candle = Candle(date: int, open: real, high: real, low: real, close: real, volume: real)

  function Max(a: real, b: real): real { if a >= b then a else b }
  function Min(a: real, b: real): real { if a <= b then a else b }

  const DAY := 1440

  /** Floors to the start of the interval, counted from midnight. */
  function IntervalStart(t: int, minutes: int): int
    requires minutes > 0
  {
    t / DAY * DAY + t % DAY / minutes * minutes
  }

  // ----------------------------------------------------------------- aggregation

  /** A later candle folded into an earlier one. */
  function Merge(a: Candle, c: Candle): Candle {
    Candle(a.date, a.open, Max(a.high, c.high), Min(a.low, c.low), c.close, a.volume + c.volume)
  }

  /** Batch grouping: consecutive candles of one interval become one candle. */
  function Agg(cs: seq<Candle>, minutes: int): (r: seq<Candle>)
    requires minutes > 0
    ensures cs != [] ==> r != []
  {
    if cs == [] then []
    else
      var n := |cs| - 1;
      Extend(Agg(cs[..n], minutes), cs[n], minutes)
  }

  function Extend(bars: seq<Candle>, c: Candle, minutes: int): seq<Candle>
    requires minutes > 0
  {
    var b := IntervalStart(c.date, minutes);
    var m := |bars| - 1;
    if bars != [] && bars[m].date == b then bars[..m] + [Merge(bars[m], c)] else bars + [c.(date := b)]
  }

  /** Volume traded since the previous cumulative report; a fall counts as nothing. */
  function Delta(last: Option<real>, cum: Option<real>): real {
    if last.Some? && cum.Some? && cum.value >= last.value then cum.value - last.value else 0.0
  }

  function LastCum(ticks: seq<Tick>): Option<real> {
    if ticks == [] then None
    else
      var n := |ticks| - 1;
      if ticks[n].price.Some? && ticks[n].cumVolume.Some? then ticks[n].cumVolume else LastCum(ticks[..n])
  }

  /** The latest minute seen on a priced tick: a late tick is taken at that minute. */
  function Clock(ticks: seq<Tick>): (c: int) {
    if ticks == [] then 0
    else
      var n := |ticks| - 1;
      var c := Clock(ticks[..n]);
      if ticks[n].price.Some? && ticks[n].minute > c then ticks[n].minute else c
  }

  /** Every priced tick as a candle of its own. */
  function TickCandles(ticks: seq<Tick>): seq<Candle> {
    if ticks == [] then []
    else
      var n := |ticks| - 1;
      var before := TickCandles(ticks[..n]);
      if ticks[n].price.None? then before
      else
        var p := ticks[n].price.value;
        before + [Candle(Clock(ticks), p, p, p, p, Delta(LastCum(ticks[..n]), ticks[n].cumVolume))]
  }

  // ------------------------------------------------------------------ the builder

  datatype Forming = Forming(candle: Candle, lastCum: Option<real>)

  datatype State = State(current: Option<Forming>, finalized: seq<Candle>)

  function Updated(f: Forming, price: real, cum: Option<real>): Forming {
    Forming(f.candle.(high := Max(f.candle.high, price), low := Min(f.candle.low, price), close := price,
                      volume := f.candle.volume + Delta(f.lastCum, cum)),
            if cum.Some? then cum else f.lastCum)
  }

  function Opened(start: int, price: real, last: Option<real>): Forming {
    Forming(Candle(start, price, price, price, price, 0.0), last)
  }

  /** What one tick does to the builder. */
  function Fed(s: State, t: Tick, minutes: int): State
    requires minutes > 0
  {
    if t.price.None? then s
    else
      var p := t.price.value;
      var start := IntervalStart(t.minute, minutes);
      if s.current.None? then s.(current := Some(Updated(Opened(start, p, None), p, t.cumVolume)))
      else if start > s.current.value.candle.date then
        State(Some(Updated(Opened(start, p, s.current.value.lastCum), p, t.cumVolume)),
              s.finalized + [s.current.value.candle])
      else s.(current := Some(Updated(s.current.value, p, t.cumVolume)))
  }

  function Build(ticks: seq<Tick>, minutes: int): State
    requires minutes > 0
  {
    if ticks == [] then State(None, []) else Fed(Build(ticks[..|ticks| - 1], minutes), ticks[|ticks| - 1], minutes)
  }

  /** The finalized candles and the one still forming. */
  function AllCandles(s: State): seq<Candle> {
    s.finalized + if s.current.Some? then [s.current.value.candle] else []
  }

  class InProgressCandle {
    const start: int
    const open: real
    var high: real
    var low: real
    var close: real
    var volume: real
    var lastCumVolume: Option<real>

    constructor (start: int, price: real, last: Option<real>)
      ensures Value() == Opened(start, price, last)
    {
      this.start, open, high, low, close := start, price, price, price, price;
      volume, lastCumVolume := 0.0, last;
    }

    ghost function Value(): Forming
      reads this
    {
      Forming(Candle(start, open, high, low, close, volume), lastCumVolume)
    }

    method Update(price: real, cumVolume: Option<real>)
      modifies this
      ensures Value() == Updated(old(Value()), price, cumVolume)
    {
      high := Max(high, price);
      low := Min(low, price);
      close := price;
      if cumVolume.Some? {
        if lastCumVolume.Some? && cumVolume.value >= lastCumVolume.value {
          volume := volume + (cumVolume.value - lastCumVolume.value);
        }
        lastCumVolume := cumVolume;
      }
    }

    method Finalize() returns (c: Candle)
      ensures c == Value().candle
    {
      c := Candle(start, open, high, low, close, volume);
    }
  }

  class SymbolCandleBuilder {
    const minutes: int
    var current: InProgressCandle?
    var finalized: seq<Candle>

    constructor (minutes: int)
      requires minutes > 0
      ensures this.minutes == minutes && current == null && Contents() == Build([], minutes)
    {
      this.minutes, current, finalized := minutes, null, [];
    }

    ghost function Contents(): State
      reads this, current
    {
      State(if current == null then None else Some(current.Value()), finalized)
    }

    /** Returns the candle that this tick closed, if it closed one. */
    method AddTick(t: Tick) returns (closed: Option<Candle>)
      requires minutes > 0
      modifies this, current
      ensures Contents() == Fed(old(Contents()), t, minutes)
      ensures finalized == old(finalized) + if closed.Some? then [closed.value] else []
      ensures current == old(current) || fresh(current)
    {
      closed := None;
      if t.price.None? {
        return;
      }
      var price := t.price.value;
      var start := IntervalStart(t.minute, minutes);
      if current == null {
        current := new InProgressCandle(start, price, None);
        current.Update(price, t.cumVolume);
        return;
      }
      if start > current.start {
        var previous := current.lastCumVolume;
        var c := current.Finalize();
        closed := Some(c);
        finalized := finalized + [c];
        current := new InProgressCandle(start, price, previous);
      }
      current.Update(price, t.cumVolume);
    }
  }

  // --------------------------------------------------- the builder is batch grouping

  lemma ProductMonotone(p: int, q: int, k: int)
    requires p <= q && k > 0
    ensures p * k <= q * k
  {
  }

  lemma OneMoreFactor(q: int, k: int)
    ensures (q + 1) * k == q * k + k
  {
  }

  lemma QuotientMonotone(p: int, q: int, r: int, s: int, k: int)
    requires k > 0 && 0 <= r && s < k && p * k + r <= q * k + s
    ensures p <= q
  {
    if q + 1 <= p {
      ProductMonotone(q + 1, p, k);
      OneMoreFactor(q, k);
    }
  }

  lemma FloorParts(a: int, k: int)
    requires k > 0
    ensures a == a / k * k + a % k && 0 <= a % k < k
  {
  }

  lemma FloorMonotone(a: int, b: int, k: int)
    requires 0 <= a <= b && k > 0
    ensures a / k * k <= b / k * k && a / k * k <= a
  {
    FloorParts(a, k);
    FloorParts(b, k);
    var p, q, r, s := a / k, b / k, a % k, b % k;
    QuotientMonotone(p, q, r, s, k);
    ProductMonotone(p, q, k);
  }

  lemma StartMonotone(a: int, b: int, k: int)
    requires 0 <= a <= b && k > 0
    ensures IntervalStart(a, k) <= IntervalStart(b, k)
  {
    FloorMonotone(a % DAY, if a / DAY == b / DAY then b % DAY else a % DAY, k);
    FloorMonotone(0, b % DAY, k);
  }

  lemma {:induction false} ClockIsLatest(ticks: seq<Tick>)
    ensures 0 <= Clock(ticks)
    decreases |ticks|
  {
    if ticks != [] {
      ClockIsLatest(ticks[..|ticks| - 1]);
    }
  }

  /** The interval that is forming is the one the clock is in. */
  ghost predicate Follows(s: State, ticks: seq<Tick>, minutes: int)
    requires minutes > 0
  {
    && AllCandles(s) == Agg(TickCandles(ticks), minutes)
    && (s.current.None? <==> TickCandles(ticks) == [])
    && (s.current.None? ==> s.finalized == [] && LastCum(ticks) == None && Clock(ticks) == 0)
    && (s.current.Some? ==> && s.current.value.lastCum == LastCum(ticks)
                            && s.current.value.candle.date == IntervalStart(Clock(ticks), minutes))
  }

  /** A tick folded into the forming candle is its own candle merged into it. */
  lemma UpdateIsMerge(f: Forming, date: int, price: real, cum: Option<real>)
    ensures Updated(f, price, cum).candle
            == Merge(f.candle, Candle(date, price, price, price, price, Delta(f.lastCum, cum)))
    ensures Updated(f, price, cum).lastCum == if cum.Some? then cum else f.lastCum
    ensures Updated(f, price, cum).candle.date == f.candle.date
  {
  }

  /** A tick that opens an interval is a candle of its own there. */
  lemma OpenIsTick(start: int, price: real, last: Option<real>, cum: Option<real>)
    ensures Updated(Opened(start, price, last), price, cum).candle
            == Candle(start, price, price, price, price, Delta(last, cum))
    ensures Updated(Opened(start, price, last), price, cum).lastCum == if cum.Some? then cum else last
  {
  }

  /** What one more priced tick adds to the batch view. */
  lemma OneMoreTick(ticks: seq<Tick>, t: Tick)
    requires t.price.Some?
    ensures var p := t.price.value;
            TickCandles(ticks + [t])
            == TickCandles(ticks) + [Candle(Clock(ticks + [t]), p, p, p, p, Delta(LastCum(ticks), t.cumVolume))]
    ensures Clock(ticks + [t]) == if t.minute > Clock(ticks) then t.minute else Clock(ticks)
    ensures LastCum(ticks + [t]) == if t.cumVolume.Some? then t.cumVolume else LastCum(ticks)
  {
    assert (ticks + [t])[..|ticks|] == ticks;
  }

  lemma AggExtends(cs: seq<Candle>, c: Candle, minutes: int)
    requires minutes > 0
    ensures Agg(cs + [c], minutes) == Extend(Agg(cs, minutes), c, minutes)
  {
    assert (cs + [c])[..|cs|] == cs;
  }

  /** One tick extends the candles as its own candle would. */
  lemma FedExtends(s: State, t: Tick, clock: int, c: Candle, minutes: int)
    requires minutes > 0 && t.price.Some? && 0 <= clock
    requires var p := t.price.value; var now := if t.minute > clock then t.minute as int else clock;
             c == Candle(now, p, p, p, p, Delta(if s.current.Some? then s.current.value.lastCum else None, t.cumVolume))
    requires s.current.None? ==> s.finalized == [] && clock == 0
    requires s.current.Some? ==> s.current.value.candle.date == IntervalStart(clock, minutes)
    ensures var v := Fed(s, t, minutes);
            && AllCandles(v) == Extend(AllCandles(s), c, minutes)
            && v.current.Some? && v.current.value.candle.date == IntervalStart(c.date, minutes)
            && v.current.value.lastCum
               == (if t.cumVolume.Some? then t.cumVolume
                   else if s.current.Some? then s.current.value.lastCum else None)
  {
    hide IntervalStart, Updated, Opened, Merge, Delta;
    var p := t.price.value;
    if t.minute > clock {
      StartMonotone(clock, t.minute, minutes);
    } else {
      StartMonotone(t.minute, clock, minutes);
    }
    if s.current.Some? {
      OpenIsTick(IntervalStart(t.minute, minutes), p, s.current.value.lastCum, t.cumVolume);
      UpdateIsMerge(s.current.value, c.date, p, t.cumVolume);
      assert AllCandles(s)[..|AllCandles(s)| - 1] == s.finalized;
    } else {
      OpenIsTick(IntervalStart(t.minute, minutes), p, None, t.cumVolume);
      assert t.minute as int == c.date;
    }
  }

  lemma FedFollows(s: State, ticks: seq<Tick>, t: Tick, minutes: int)
    requires minutes > 0 && Follows(s, ticks, minutes)
    ensures Follows(Fed(s, t, minutes), ticks + [t], minutes)
  {
    hide IntervalStart, Extend, Delta, AllCandles;
    if t.price.None? {
      assert (ticks + [t])[..|ticks|] == ticks;
    } else {
      OneMoreTick(ticks, t);
      ClockIsLatest(ticks);
      var c := TickCandles(ticks + [t])[|TickCandles(ticks)|];
      AggExtends(TickCandles(ticks), c, minutes);
      hide Fed, TickCandles, Agg, Clock, LastCum;
      FedExtends(s, t, Clock(ticks), c, minutes);
    }
  }

  /**
   For every tick sequence and every interval, the candles the builder has finalized,
   followed by the one still forming, are the batch grouping of the ticks.
   */
  lemma {:induction false} BuilderIsBatch(ticks: seq<Tick>, minutes: int)
    requires minutes > 0
    ensures Follows(Build(ticks, minutes), ticks, minutes)
    decreases |ticks|
  {
    if ticks != [] {
      var n := |ticks| - 1;
      BuilderIsBatch(ticks[..n], minutes);
      FedFollows(Build(ticks[..n], minutes), ticks[..n], ticks[n], minutes);
      assert ticks[..n] + [ticks[n]] == ticks;
    }
  }
}
