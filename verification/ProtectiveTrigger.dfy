/** The trigger price of a protective stop (protective_stop.py), over exact decimals. */
module ProtectiveTrigger {
  import opened Wrappers

  datatype Direction = BUY | SELL | OtherDirection

  datatype TriggerError = BadEntryPrice | BadPercentage | BadTick | BadDirection | BadTrigger

  function Raw(entry: real, percent: real, d: Direction): real {
    if d == BUY then entry * (1.0 - percent / 100.0) else entry * (1.0 + percent / 100.0)
  }

  /** Half up, as the quantization of a positive number of ticks. */
  function Ticks(raw: real, tick: real): int
    requires tick > 0.0
  {
    (raw / tick + 0.5).Floor
  }

  function Trigger(entry: real, percent: real, tick: real, d: Direction): Result<real, TriggerError> {
    if entry <= 0.0 then Err(BadEntryPrice)
    else if percent <= 0.0 || percent >= 100.0 then Err(BadPercentage)
    else if tick <= 0.0 then Err(BadTick)
    else if d == OtherDirection then Err(BadDirection)
    else
      var rounded := Ticks(Raw(entry, percent, d), tick) as real * tick;
      if rounded <= 0.0 then Err(BadTrigger) else Ok(rounded)
  }

  lemma TimesQuotient(x: real, d: real)
    requires d > 0.0
    ensures x / d * d == x
  {
  }

  lemma Scaled(a: real, b: real, k: real, x: real, y: real)
    requires a <= b && k > 0.0 && x == a * k && y == b * k
    ensures x <= y
  {
  }

  lemma Between(t: real, raw: real, x: real, h: real)
    requires t == raw + x && -h <= x <= h
    ensures raw - h <= t <= raw + h
  {
  }

  lemma OffBy(n: real, q: real, tick: real, raw: real, off: real, x: real)
    requires q * tick == raw && off == n - q && x == off * tick
    ensures n * tick == raw + x
  {
  }

  lemma HalfTick(off: real, tick: real, x: real)
    requires tick > 0.0 && -0.5 <= off <= 0.5 && x == off * tick
    ensures -(tick / 2.0) <= x <= tick / 2.0
  {
    ScaledHalf(tick);
    Scaled(off, 0.5, tick, x, tick / 2.0);
    Scaled(-0.5, off, tick, -(tick / 2.0), x);
  }

  lemma ScaledHalf(tick: real)
    ensures 0.5 * tick == tick / 2.0 && -0.5 * tick == -(tick / 2.0)
  {
  }

  lemma WithinHalf(n: real, q: real, tick: real, raw: real)
    requires tick > 0.0 && q - 0.5 <= n <= q + 0.5 && q * tick == raw
    ensures raw - tick / 2.0 <= n * tick <= raw + tick / 2.0
  {
    var off := n - q;
    var x := off * tick;
    OffBy(n, q, tick, raw, off, x);
    HalfTick(off, tick, x);
    Between(n * tick, raw, x, tick / 2.0);
  }

  /** The trigger is a whole number of ticks, and the nearest such price to the raw level. */
  lemma NearestTick(raw: real, tick: real)
    requires tick > 0.0
    ensures var t := Ticks(raw, tick) as real * tick; raw - tick / 2.0 <= t <= raw + tick / 2.0
  {
    TimesQuotient(raw, tick);
    WithinHalf(Ticks(raw, tick) as real, raw / tick, tick, raw);
  }

  // ------------------------------------------------------------ which side it is on

  /** The first whole tick at or above a price, and the last one at or below it. */
  function TickAbove(price: real, tick: real): real
    requires tick > 0.0
  {
    (-(-(price / tick)).Floor) as real * tick
  }

  function TickBelow(price: real, tick: real): real
    requires tick > 0.0
  {
    (price / tick).Floor as real * tick
  }

  lemma Divided(x: real, d: real, k: real, q: real, y: real)
    requires d > 0.0 && q * d == x && y == k * d
    ensures q < k <==> x < y
  {
    if q < k {
      Scaled(q, k, d, x, y);
      StrictlyScaled(k - q, d);
    } else {
      Scaled(k, q, d, y, x);
    }
  }

  lemma StrictlyScaled(a: real, k: real)
    requires a > 0.0 && k > 0.0
    ensures a * k > 0.0
  {
  }

  lemma LessHalf(c: real, tick: real)
    ensures (c - 0.5) * tick == c * tick - tick / 2.0 && (c + 0.5) * tick == c * tick + tick / 2.0
  {
  }

  lemma FloorBelow(q: real, c: int)
    ensures (q + 0.5).Floor < c <==> q < c as real - 0.5
  {
  }

  lemma BelowCeiling(n: int, e: real)
    ensures n as real < e <==> n < -(-e).Floor
  {
  }

  lemma AboveFloor(n: int, e: real)
    ensures n as real > e <==> n >= e.Floor + 1
  {
  }

  /** The nearest tick to a level is below a price exactly when the level is half a tick under the next tick. */
  lemma RoundsBelowIff(raw: real, price: real, tick: real)
    requires tick > 0.0
    ensures Ticks(raw, tick) as real * tick < price <==> raw < TickAbove(price, tick) - tick / 2.0
  {
    var n, c := Ticks(raw, tick), -(-(price / tick)).Floor;
    TimesQuotient(raw, tick);
    TimesQuotient(price, tick);
    Divided(n as real * tick, tick, price / tick, n as real, price);
    BelowCeiling(n, price / tick);
    FloorBelow(raw / tick, c);
    LessHalf(c as real, tick);
    Divided(raw, tick, c as real - 0.5, raw / tick, c as real * tick - tick / 2.0);
  }

  lemma RoundsAboveIff(raw: real, price: real, tick: real)
    requires tick > 0.0
    ensures Ticks(raw, tick) as real * tick > price <==> raw >= TickBelow(price, tick) + tick / 2.0
  {
    var n, f := Ticks(raw, tick), (price / tick).Floor;
    TimesQuotient(raw, tick);
    TimesQuotient(price, tick);
    Divided(price, tick, n as real, price / tick, n as real * tick);
    AboveFloor(n, price / tick);
    FloorBelow(raw / tick, f + 1);
    LessHalf(f as real, tick);
    Divided(raw, tick, (f + 1) as real - 0.5, raw / tick, f as real * tick + tick / 2.0);
  }

  /**
   Exactly when the trigger is strictly on the losing side. For BUY the raw level has to lie
   more than half a tick under the first tick at or above the entry; for SELL at least half
   a tick over the last tick at or below it.
   */
  lemma LosingSideIff(entry: real, percent: real, tick: real, d: Direction)
    requires Trigger(entry, percent, tick, d).Ok?
    ensures d == BUY ==>
              (Trigger(entry, percent, tick, d).value < entry
               <==> Raw(entry, percent, d) < TickAbove(entry, tick) - tick / 2.0)
    ensures d == SELL ==>
              (Trigger(entry, percent, tick, d).value > entry
               <==> Raw(entry, percent, d) >= TickBelow(entry, tick) + tick / 2.0)
  {
    hide Raw, Ticks, TickAbove, TickBelow;
    RoundsBelowIff(Raw(entry, percent, d), entry, tick);
    RoundsAboveIff(Raw(entry, percent, d), entry, tick);
  }

  /** So a stop distance of more than half a tick is always enough. */
  lemma TriggerOnLosingSide(entry: real, percent: real, tick: real, d: Direction)
    requires Trigger(entry, percent, tick, d).Ok? && entry * (percent / 100.0) > tick / 2.0
    ensures d == BUY ==> 0.0 < Trigger(entry, percent, tick, d).value < entry
    ensures d == SELL ==> Trigger(entry, percent, tick, d).value > entry
  {
    NearestTick(Raw(entry, percent, d), tick);
    assert entry * (1.0 - percent / 100.0) == entry - entry * (percent / 100.0);
    assert entry * (1.0 + percent / 100.0) == entry + entry * (percent / 100.0);
  }

  /** On a whole tick and with less distance, the level rounds back onto the entry price. */
  lemma TriggerMayEqualEntry()
    ensures Trigger(1.0, 10.0, 1.0, BUY) == Ok(1.0)
  {
    assert Raw(1.0, 10.0, BUY) == 0.9;
    assert 0.9 / 1.0 + 0.5 == 1.4;
  }

  /** An average entry price need not be a whole tick: then the trigger can land beyond it. */
  lemma TriggerMayPassEntry()
    ensures Trigger(100.03, 0.001, 0.05, BUY) == Ok(100.05) && 100.05 > 100.03
  {
    assert Raw(100.03, 0.001, BUY) == 100.0289997;
    assert 100.0289997 / 0.05 == 2000.579994;
    assert (2000.579994 + 0.5).Floor == 2001;
    assert 2001.0 * 0.05 == 100.05;
  }
}
