/**
 Pricing the newly confirmed part of a cumulative fill, and what the booked quantities
 and notionals add up to (main.py, protective_stop_store.py). Costs are not modelled.
 */
module Pnl {
  import opened Wrappers

  /** A cumulative report: total filled, and the average over all of it. */
  datatype Report = Report(total: int, average: Option<real>)

  /** What is applied, the average stored with it, and what has been booked. */
  datatype Ledger = Ledger(applied: int, average: Option<real>, booked: int, notional: real)

  const EMPTY := Ledger(0, None, 0, 0.0)

  /** The price of the new part alone, from two cumulative averages. */
  function IncrementalPrice(l: Ledger, r: Report): Option<real>
    requires r.total > l.applied
  {
    if r.average.None? then None
    else if l.applied == 0 then r.average
    else if l.average.None? then None
    else Some((r.total as real * r.average.value - l.applied as real * l.average.value) / (r.total - l.applied) as real)
  }

  /**
   The stop path: an average that is not positive counts as missing, an average is kept
   only when the new part could be priced, and the fill is applied either way.
   */
  function StopStep(l: Ledger, r: Report): Ledger {
    if r.total <= l.applied then l
    else
      var usable := if r.average.Some? && r.average.value > 0.0 then r else r.(average := None);
      var price := IncrementalPrice(l, usable);
      if price.Some? && price.value > 0.0
      then Ledger(r.total, r.average, l.booked + (r.total - l.applied),
                  l.notional + (r.total - l.applied) as real * price.value)
      else Ledger(r.total, None, l.booked, l.notional)
  }

  /** The exit path keeps every average it is given, and refuses a negative increment outright. */
  function ExitStep(l: Ledger, r: Report): Ledger {
    if r.total <= l.applied then l
    else
      var price := IncrementalPrice(l, r);
      if price.None? then l.(applied := r.total, average := r.average)
      else if price.value <= 0.0 then l
      else Ledger(r.total, r.average, l.booked + (r.total - l.applied),
                  l.notional + (r.total - l.applied) as real * price.value)
  }

  function StopRun(l: Ledger, rs: seq<Report>): Ledger
    decreases |rs|
  {
    if rs == [] then l else StopRun(StopStep(l, rs[0]), rs[1..])
  }

  function ExitRun(l: Ledger, rs: seq<Report>): Ledger
    decreases |rs|
  {
    if rs == [] then l else ExitRun(ExitStep(l, rs[0]), rs[1..])
  }

  function Notional(applied: int, average: Option<real>): real {
    if average.Some? then applied as real * average.value else 0.0
  }

  /** Every report carries a positive average. */
  predicate Averaged(rs: seq<Report>) {
    forall i :: 0 <= i < |rs| ==> rs[i].average.Some? && rs[i].average.value > 0.0
  }

  /** The cumulative notional grows whenever the cumulative fill does. */
  predicate Rising(l: Ledger, rs: seq<Report>)
    decreases |rs|
  {
    rs != [] ==>
      var r := rs[0];
      && (r.total > l.applied ==> Notional(r.total, r.average) > Notional(l.applied, l.average))
      && Rising(if r.total > l.applied then l.(applied := r.total, average := r.average) else l, rs[1..])
  }

  /** The largest cumulative fill reported. */
  function Peak(applied: int, rs: seq<Report>): int
    decreases |rs|
  {
    if rs == [] then applied else Peak(if rs[0].total > applied then rs[0].total else applied, rs[1..])
  }

  /** All that was applied has been booked, at the latest cumulative notional. */
  predicate Telescoped(l: Ledger) {
    && l.applied >= 0 && l.booked == l.applied && l.notional == Notional(l.applied, l.average)
    && (l.applied > 0 ==> l.average.Some?) && (l.applied == 0 ==> l.notional == 0.0)
  }

  lemma TimesQuotient(x: real, d: real)
    requires d > 0.0
    ensures d * (x / d) == x
    ensures x > 0.0 ==> x / d > 0.0
  {
  }

  lemma {:induction false} RisingDependsOn(a: Ledger, b: Ledger, rs: seq<Report>)
    requires a.applied == b.applied && a.average == b.average
    ensures Rising(a, rs) == Rising(b, rs)
    decreases |rs|
  {
    if rs != [] {
      var r := rs[0];
      var moved := r.total > a.applied;
      RisingDependsOn(if moved then a.(applied := r.total, average := r.average) else a,
                      if moved then b.(applied := r.total, average := r.average) else b, rs[1..]);
    }
  }

  /** One report with a positive average, on either path: booked at its own notional if that has grown. */
  lemma AveragedStep(l: Ledger, r: Report)
    requires Telescoped(l) && r.average.Some? && r.average.value > 0.0
    ensures var s, e := StopStep(l, r), ExitStep(l, r);
            var rising := r.total > l.applied ==> Notional(r.total, r.average) > Notional(l.applied, l.average);
            && s.applied == (if r.total > l.applied then r.total else l.applied)
            && Telescoped(e)
            && (rising ==> Telescoped(s) && e == s && (r.total > l.applied ==> s.average == r.average))
            && (!rising ==> s.average.None? && s.booked < s.applied)
  {
    if r.total > l.applied {
      if l.applied > 0 {
        TimesQuotient(r.total as real * r.average.value - l.applied as real * l.average.value,
                      (r.total - l.applied) as real);
        QuotientSign(r.total as real * r.average.value - l.applied as real * l.average.value,
                     (r.total - l.applied) as real);
      } else {
        PositiveNotional(r.total, r.average.value);
      }
    }
  }

  lemma QuotientSign(x: real, d: real)
    requires d > 0.0
    ensures x / d > 0.0 <==> x > 0.0
  {
  }

  lemma PositiveNotional(total: int, average: real)
    requires total > 0 && average > 0.0
    ensures total as real * average > 0.0
  {
  }

  /**
   The booked P&L telescopes, exactly. Over any series of partial fills with positive
   averages, the stop path has booked all that was applied, at its latest cumulative
   notional, if and only if that notional grew with every new part, and then the exit path
   has booked the same. The exit path refuses a part whose notional fell, and so always
   telescopes over what it took.
   */
  lemma {:induction false} PnlTelescopes(l: Ledger, rs: seq<Report>)
    requires Telescoped(l) && Averaged(rs)
    ensures StopRun(l, rs).applied == Peak(l.applied, rs)
    ensures Telescoped(StopRun(l, rs)) <==> Rising(l, rs)
    ensures Rising(l, rs) ==> ExitRun(l, rs) == StopRun(l, rs)
    ensures Telescoped(ExitRun(l, rs))
    decreases |rs|
  {
    hide IncrementalPrice, StopStep, ExitStep, Notional;
    if rs != [] {
      var r := rs[0];
      AveragedStep(l, r);
      assert Averaged(rs[1..]);
      PeakReached(StopStep(l, r), rs[1..]);
      PnlTelescopes(ExitStep(l, r), rs[1..]);
      if StopStep(l, r).average.None? && StopStep(l, r).booked < StopStep(l, r).applied {
        StopPathStopsBooking(StopStep(l, r), rs[1..]);
      } else {
        RisingStep(l, r, rs[1..]);
      }
    }
  }

  lemma {:induction false} PeakReached(l: Ledger, rs: seq<Report>)
    ensures StopRun(l, rs).applied == Peak(l.applied, rs)
    decreases |rs|
  {
    if rs != [] {
      PeakReached(StopStep(l, rs[0]), rs[1..]);
    }
  }

  /** After a part that was booked, the rest rises from there. */
  lemma RisingStep(l: Ledger, r: Report, rest: seq<Report>)
    requires Telescoped(l) && r.average.Some? && r.average.value > 0.0
    requires r.total > l.applied ==> Notional(r.total, r.average) > Notional(l.applied, l.average)
    ensures Rising(l, [r] + rest) <==> Rising(StopStep(l, r), rest)
  {
    hide IncrementalPrice;
    AveragedStep(l, r);
    assert ([r] + rest)[1..] == rest;
    RisingDependsOn(if r.total > l.applied then l.(applied := r.total, average := r.average) else l,
                    StopStep(l, r), rest);
  }

  /** On the stop path, once an average is missing nothing is ever booked again. */
  lemma {:induction false} StopPathStopsBooking(l: Ledger, rs: seq<Report>)
    requires l.applied > 0 && l.average.None?
    ensures var v := StopRun(l, rs);
            v.booked == l.booked && v.notional == l.notional && v.average.None? && v.applied >= l.applied
    decreases |rs|
  {
    if rs != [] {
      StopPathStopsBooking(StopStep(l, rs[0]), rs[1..]);
    }
  }

  /** The step that loses the average applies the fill and books nothing. */
  lemma UnpricedFillIsAppliedNotBooked(l: Ledger, r: Report)
    requires r.total > l.applied >= 0 && (r.average.None? || r.average.value <= 0.0)
    ensures var v := StopStep(l, r);
            v.applied == r.total && v.average.None? && v.booked == l.booked && v.notional == l.notional
  {
  }

  /**
   On the exit path booking resumes: after one unpriced part the average is gone, one
   priced report restores it without booking, and from there each new part is booked at
   its own notional again.
   */
  lemma ExitPathResumes(l: Ledger, r1: Report, r2: Report, r3: Report)
    requires l.applied > 0 && l.average.None? && l.applied < r1.total < r2.total < r3.total
    requires r1.average.Some? && r2.average.Some? && r3.average.Some?
    requires Notional(r2.total, r2.average) > Notional(r1.total, r1.average)
    requires Notional(r3.total, r3.average) > Notional(r2.total, r2.average)
    ensures var v := ExitRun(l, [r1, r2, r3]);
            && v.booked == l.booked + (r3.total - r1.total)
            && v.notional == l.notional + Notional(r3.total, r3.average) - Notional(r1.total, r1.average)
  {
    hide IncrementalPrice, Notional;
    var l1 := l.(applied := r1.total, average := r1.average);
    LostAverage(l, r1);
    ExitBooksDifference(l1, r2);
    var l2 := ExitStep(l1, r2);
    ExitBooksDifference(l2, r3);
    assert [r1, r2, r3][1..] == [r2, r3] && [r2, r3][1..] == [r3] && [r3][1..] == [];
    assert ExitRun(l, [r1, r2, r3]) == ExitRun(l1, [r2, r3]) == ExitRun(l2, [r3]) == ExitStep(l2, r3);
  }

  lemma LostAverage(l: Ledger, r: Report)
    requires l.applied > 0 && l.average.None? && l.applied < r.total
    ensures ExitStep(l, r) == l.(applied := r.total, average := r.average)
  {
  }

  lemma ExitBooksDifference(l: Ledger, r: Report)
    requires 0 < l.applied < r.total && l.average.Some? && r.average.Some?
    requires Notional(r.total, r.average) > Notional(l.applied, l.average)
    ensures ExitStep(l, r) == Ledger(r.total, r.average, l.booked + (r.total - l.applied),
                                     l.notional + (Notional(r.total, r.average) - Notional(l.applied, l.average)))
  {
    TimesQuotient(r.total as real * r.average.value - l.applied as real * l.average.value,
                  (r.total - l.applied) as real);
  }
}
