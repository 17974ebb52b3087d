/** The scalp/runner split of an exit (hybrid_exit.py, and its caller in main.py). */
module Hybrid {
  import opened Wrappers

  datatype Direction = BUY | SELL | OtherDirection

  datatype Stage = NoStage | ScalpPending | RunnerPending

  datatype Config = Config(
    enabled: bool, fixedTarget: bool, scalpR: real, runnerR: real, fraction: real, moveToBreakeven: bool)

  datatype State = State(
    direction: Direction, qty: int, entry: Option<real>, stop: Option<real>, target: Option<real>, patternFixed: bool,
    hybrid: bool, stage: Stage, initial: int, scalp: int, scalpRemaining: int, runner: int,
    scalpTarget: real, runnerTarget: real, originalStop: real, breakeven: bool,
    lastScalpPrice: Option<real>, realizedPnl: real)

  function Abs(x: real): real { if x >= 0.0 then x else -x }

  /** A plan needs two shares, levels that are known and positive, and a runner beyond the scalp. */
  predicate Splittable(s: State, c: Config) {
    && !s.patternFixed && c.enabled && c.fixedTarget && s.qty >= 2
    && s.entry.Some? && s.stop.Some? && s.direction != OtherDirection
    && s.entry.value > 0.0 && s.stop.value > 0.0 && s.entry.value != s.stop.value
    && 0.0 < c.scalpR < c.runnerR && 0.0 < c.fraction < 1.0
  }

  function ScalpShares(qty: int, fraction: real): (n: int)
    requires qty >= 2
    ensures 1 <= n <= qty - 1
  {
    var floored := (qty as real * fraction).Floor;
    var atLeastOne := if floored < 1 then 1 else floored;
    if atLeastOne > qty - 1 then qty - 1 else atLeastOne
  }

  /** The distance of r times the risk. */
  function Distance(risk: real, r: real): real {
    risk * r
  }

  function Target(direction: Direction, entry: real, stop: real, r: real): real {
    if direction == BUY then entry + Distance(Abs(entry - stop), r) else entry - Distance(Abs(entry - stop), r)
  }

  /** On the profitable side of the entry, the runner target beyond the scalp target. */
  predicate OrderedTargets(direction: Direction, entry: real, near: real, far: real) {
    && (direction == BUY ==> entry < near < far)
    && (direction == SELL ==> far < near < entry)
  }

  lemma TargetsOrdered(direction: Direction, entry: real, stop: real, near: real, far: real)
    requires entry != stop && 0.0 < near < far
    ensures OrderedTargets(direction, entry, Target(direction, entry, stop, near), Target(direction, entry, stop, far))
  {
    hide Distance;
    FartherForMore(Abs(entry - stop), near, far);
  }

  lemma FartherForMore(risk: real, near: real, far: real)
    requires risk > 0.0 && 0.0 < near < far
    ensures 0.0 < Distance(risk, near) < Distance(risk, far)
  {
    var more := far - near;
    Positive(risk, near);
    Positive(risk, more);
    assert risk * far == risk * near + risk * more;
  }

  lemma Positive(a: real, b: real)
    requires a > 0.0 && b > 0.0
    ensures a * b > 0.0
  {
  }

  /** Shares still planned: while the scalp is pending, what is held is the runner plus the open scalp. */
  predicate SplitInv(s: State) {
    s.hybrid ==>
      && 1 <= s.scalp && 1 <= s.runner && s.scalp + s.runner == s.initial
      && (s.stage == ScalpPending ==> 0 < s.scalpRemaining <= s.scalp && s.qty == s.runner + s.scalpRemaining)
      && (s.stage == RunnerPending ==> s.scalpRemaining == 0)
      && s.stage != NoStage
  }

  /** `requested_exit_quantity`. */
  function RequestedQuantity(s: State, isScalp: bool): int {
    if s.hybrid && isScalp && s.stage == ScalpPending then
      var remaining := if s.scalpRemaining < 0 then 0 else s.scalpRemaining;
      if s.qty < remaining then s.qty else remaining
    else s.qty
  }

  /** `apply_confirmed_hybrid_fill`. */
  function Filled(s: State, isScalp: bool, confirmed: int, price: real, netPnl: real): State {
    if !s.hybrid || !isScalp || s.stage != ScalpPending then s
    else
      var outstanding := if s.scalpRemaining - confirmed < 0 then 0 else s.scalpRemaining - confirmed;
      var t := s.(scalpRemaining := outstanding, lastScalpPrice := Some(price), realizedPnl := s.realizedPnl + netPnl);
      if outstanding > 0 then t
      else t.(stage := RunnerPending, target := Some(s.runnerTarget), stop := if s.breakeven then s.entry else s.stop)
  }

  /** The position dictionary, updated in place. */
  class Position {
    var d: State

    constructor (initial: State)
      ensures d == initial
    {
      d := initial;
    }

    /** `configure_hybrid_exit`: a plan is attached exactly when the position can be split. */
    method Configure(c: Config)
      modifies this
      ensures d.hybrid <==> Splittable(old(d), c)
      ensures !d.hybrid ==> d == old(d).(hybrid := false)
      ensures d.hybrid ==>
                && d.stage == ScalpPending && d.initial == d.qty && d.scalpRemaining == d.scalp
                && 1 <= d.scalp <= d.qty - 1 && d.scalp + d.runner == d.qty && d.scalp == ScalpShares(d.qty, c.fraction)
                && d.entry.Some? && OrderedTargets(d.direction, d.entry.value, d.scalpTarget, d.runnerTarget)
                && d.target == Some(d.scalpTarget) && Some(d.originalStop) == d.stop && d.breakeven == c.moveToBreakeven
                && SplitInv(d)
      ensures d == old(d).(hybrid := d.hybrid, stage := d.stage, initial := d.initial, scalp := d.scalp,
                           scalpRemaining := d.scalpRemaining, runner := d.runner, scalpTarget := d.scalpTarget,
                           runnerTarget := d.runnerTarget, originalStop := d.originalStop,
                           breakeven := d.breakeven, target := d.target)
    {
      hide Target, ScalpShares, OrderedTargets;
      d := d.(hybrid := false);
      if d.patternFixed || !c.enabled || !c.fixedTarget || d.qty < 2 || d.entry.None? || d.stop.None? {
        return;
      }
      var level, stop := d.entry.value, d.stop.value;
      var risk := Abs(level - stop);
      if d.direction == OtherDirection || level <= 0.0 || stop <= 0.0 || risk <= 0.0
         || c.scalpR <= 0.0 || c.runnerR <= c.scalpR || !(0.0 < c.fraction < 1.0) {
        return;
      }
      TargetsOrdered(d.direction, level, stop, c.scalpR, c.runnerR);
      var scalp := ScalpShares(d.qty, c.fraction);
      var near, far := Target(d.direction, level, stop, c.scalpR), Target(d.direction, level, stop, c.runnerR);
      d := d.(hybrid := true, stage := ScalpPending, initial := d.qty, scalp := scalp, scalpRemaining := scalp,
              runner := d.qty - scalp, scalpTarget := near, runnerTarget := far, originalStop := stop,
              breakeven := c.moveToBreakeven, target := Some(near));
    }

    /** `apply_confirmed_hybrid_fill`: advances the plan after a confirmed fill. */
    method ApplyConfirmedFill(isScalp: bool, confirmed: int, price: real, netPnl: real)
      modifies this
      ensures d == Filled(old(d), isScalp, confirmed, price, netPnl)
    {
      if !d.hybrid || !isScalp || d.stage != ScalpPending {
        return;
      }
      var outstanding := d.scalpRemaining - confirmed;
      if outstanding < 0 {
        outstanding := 0;
      }
      d := d.(scalpRemaining := outstanding, lastScalpPrice := Some(price), realizedPnl := d.realizedPnl + netPnl);
      if outstanding > 0 {
        return;
      }
      d := d.(stage := RunnerPending, target := Some(d.runnerTarget));
      if d.breakeven {
        d := d.(stop := d.entry);
      }
    }
  }

  // --------------------------------------------------------- any series of scalp fills

  /** A confirmed scalp fill; without an average price the caller reduces only the quantity. */
  datatype Fill = Fill(shares: int, price: Option<real>, netPnl: real)

  /** The fill half of the caller for a scalp. */
  function ScalpFill(s: State, f: Fill): State {
    if f.price.Some? then Filled(s.(qty := s.qty - f.shares), true, f.shares, f.price.value, f.netPnl)
    else s.(qty := s.qty - f.shares)
  }

  /** Every fill is of an order for what the plan requests at the time, and is priced. */
  predicate FillsFit(s: State, fills: seq<Fill>)
    decreases |fills|
  {
    fills != [] ==>
      && 0 < fills[0].shares <= RequestedQuantity(s, true) && fills[0].price.Some? && s.stage == ScalpPending
      && FillsFit(ScalpFill(s, fills[0]), fills[1..])
  }

  function After(s: State, fills: seq<Fill>): State
    decreases |fills|
  {
    if fills == [] then s else After(ScalpFill(s, fills[0]), fills[1..])
  }

  function Shares(fills: seq<Fill>): int {
    if fills == [] then 0 else fills[0].shares + Shares(fills[1..])
  }

  /**
   Over any series of partial scalp fills what is held is the runner plus the open
   scalp; the runner stage is entered exactly when the whole scalp is sold, that is
   exactly when what is held is the runner, and then no further scalp fill fits.
   */
  lemma {:induction false} ScalpMachine(s: State, fills: seq<Fill>)
    requires s.hybrid && SplitInv(s) && s.stage == ScalpPending && FillsFit(s, fills)
    ensures var v := After(s, fills);
            && SplitInv(v) && v.runner == s.runner && v.qty == s.qty - Shares(fills)
            && v.scalpRemaining == s.scalpRemaining - Shares(fills) && v.qty == v.runner + v.scalpRemaining
            && (v.stage == RunnerPending <==> Shares(fills) == s.scalpRemaining)
            && (v.stage == RunnerPending <==> v.qty == v.runner)
            && (v.stage == RunnerPending ==>
                  v.target == Some(s.runnerTarget) && v.stop == if s.breakeven then s.entry else s.stop)
    decreases |fills|
  {
    if fills != [] {
      var t := ScalpFill(s, fills[0]);
      if t.stage == ScalpPending {
        ScalpMachine(t, fills[1..]);
      } else {
        assert fills[1..] == [];
      }
    }
  }

  /**
   A remark on one fill: a scalp fill without an average price takes shares off the position and leaves the
   plan untouched, so the split no longer adds up: it does if and only if the fill was
   priced.
   */
  lemma SplitSurvivesIff(s: State, f: Fill)
    requires s.hybrid && SplitInv(s) && s.stage == ScalpPending && 0 < f.shares <= RequestedQuantity(s, true)
    ensures var t := ScalpFill(s, f); t.qty == t.runner + t.scalpRemaining <==> f.price.Some?
  {
  }
}
