/**
 One ENTRY operation of one symbol, from the durable intent to the local position, with
 the process dying anywhere and any number of restart recoveries (executor.py,
 main.py).

 `order` is the broker's order for the operation, if it accepted one; a unique client
 tag finds it again. `sends`, `sold` and `closed` are history: the calls of
 `place_order`, the shares that exits have taken off the position, and the fill the
 position had when it was closed.
 */
module EntryProtocol {
  import opened Wrappers
  import opened Broker
  import S = StopStore
  import P = PendingStore
  import V = OrderVerification

  /** The two fields of a position that recovery compares with the broker. */
  datatype Position = Position(qty: int, filled: int)

  datatype Phase =
    | Intended
    | Submitted(reply: bool)
    | Attached
    | Reported(result: P.Execution)
    | Marked(result: P.Execution)
    | Built(result: P.Execution)
    | Stored(result: P.Execution)
    | Applied(result: P.Execution)

  datatype Task = Idle | Placing(phase: Phase) | Recovering(phase: Phase)

  datatype World = World(
    id: P.OpId, brokerId: P.OrderId, intent: P.OrderIntent,
    record: Option<P.OrderRecord>, order: Option<Order>,
    file: Option<Position>, mem: Option<Position>, task: Task,
    sends: nat, sold: int, closed: Option<int>)

  function Init(id: P.OpId, brokerId: P.OrderId, intent: P.OrderIntent): World {
    World(id, brokerId, intent, None, None, None, None, Idle, 0, 0, None)
  }

  datatype Event =
    | BrokerFill(n: nat) | BrokerFinish(status: Status)
    | CreateIntent | Submit(accepted: bool, heard: bool) | Reconcile | Attach | Verify(result: P.Execution)
    | MarkResolved | BuildPosition | SavePosition | MarkApplied
    | BeginRecovery | UseStored | ApplyRecovered | NothingNew | FinishRecovery
    | SellPart(shares: int) | Close
    | Crash | GiveUp

  /** The journal still asks for this entry: it is unresolved, or its fill is not applied. */
  predicate Candidate(r: P.OrderRecord) {
    !r.resolved || r.filled > r.applied
  }

  /** What the local state says has been filled. */
  function LocalFill(p: Option<Position>): int {
    if p.Some? then p.value.filled else 0
  }

  function At(t: Task, ph: Phase): Task
    requires !t.Idle?
  {
    if t.Placing? then Placing(ph) else Recovering(ph)
  }

  // ------------------------------------------------------------------ the broker

  function DoFill(w: World, n: nat): Option<World> {
    if w.order.Some? && w.order.value.status == Open && w.order.value.filled + n <= w.order.value.qty
    then Some(w.(order := Some(w.order.value.(filled := w.order.value.filled + n))))
    else None
  }

  function DoFinish(w: World, status: Status): Option<World> {
    if w.order.Some? && Live(w.order.value) && Terminal(status) && OrderInv(w.order.value.(status := status))
    then Some(w.(order := Some(w.order.value.(status := status))))
    else None
  }

  // ----------------------------------------------------- placing, and what both share

  function DoCreateIntent(w: World): Option<World> {
    if w.task.Idle? && w.record.None? && w.mem.None? && P.IntentError(w.intent).None? && w.intent.action == P.Entry
    then Some(w.(record := Some(P.NewRecord(w.id, w.intent)), task := Placing(Intended)))
    else None
  }

  function DoSubmit(w: World, accepted: bool, heard: bool): Option<World> {
    if !(w.task == Placing(Intended) && w.record.Some?) || w.record.value.requested < 0 || (heard && !accepted)
    then None
    else
      var order := if accepted then Some(Order(EntryOrder(w.id), w.record.value.requested, 0, Open)) else w.order;
      Some(w.(sends := w.sends + 1, order := order, task := Placing(Submitted(heard))))
  }

  /** The unique match on tag and order details; not finding it ends the attempt (GiveUp). */
  function DoReconcile(w: World): Option<World> {
    if !w.task.Idle? && w.task.phase == Submitted(false) && w.order.Some?
    then Some(w.(task := At(w.task, Submitted(true))))
    else None
  }

  function DoAttach(w: World): Option<World> {
    if !(!w.task.Idle? && w.task.phase == Submitted(true) && w.record.Some?) then None
    else
      var r := P.Mutate(w.record.value, P.Attach(w.brokerId));
      if r.Err? then None else Some(w.(record := Some(r.value), task := At(w.task, Attached)))
  }

  /** The result agrees with the order as it stands: see OrderVerification.ResultIsSound. */
  predicate Polled(w: World, x: P.Execution) {
    && w.record.Some? && w.record.value.orderId == Some(w.brokerId) && w.order.Some?
    && V.Sound(x.terminal, x.filled, w.order.value)
    && x.pending >= 0 && x.cancelled >= 0 && (x.average.Some? ==> x.filled > 0)
  }

  function DoVerify(w: World, x: P.Execution): Option<World> {
    if !(!w.task.Idle? && w.task.phase.Attached? && Polled(w, x)) || w.record.value.resolved then None
    else
      var r := P.Mutate(w.record.value, P.Verify(x));
      if r.Err? then None else Some(w.(record := Some(r.value), task := At(w.task, Reported(x))))
  }

  /** While placing, a terminal order is resolved before the fill is applied locally. */
  function DoMarkResolved(w: World): Option<World> {
    if w.task.Placing? && w.task.phase.Reported? && w.record.Some? then
      var x := w.task.phase.result;
      Some(w.(record := if x.terminal then Some(w.record.value.(resolved := true)) else w.record,
              task := Placing(Marked(x))))
    else None
  }

  /** `build_confirmed_position`, for a positive confirmed fill only. */
  function DoBuildPosition(w: World): Option<World> {
    if !(w.task.Placing? && w.task.phase.Marked?) then None
    else
      var x := w.task.phase.result;
      if x.filled > 0 then Some(w.(mem := Some(Position(x.filled, x.filled)), task := Placing(Built(x))))
      else Some(w.(task := Idle))
  }

  function DoSavePosition(w: World): Option<World> {
    if !w.task.Idle? && w.task.phase.Built?
    then Some(w.(file := w.mem, task := At(w.task, Stored(w.task.phase.result))))
    else None
  }

  function DoMarkApplied(w: World): Option<World> {
    if !(!w.task.Idle? && w.task.phase.Stored? && w.record.Some?) then None
    else
      var r := P.Mutate(w.record.value, P.MarkEntryApplied(w.task.phase.result.filled));
      if r.Err? then None
      else Some(w.(record := Some(r.value),
                   task := if w.task.Placing? then Idle else Recovering(Applied(w.task.phase.result))))
  }

  // -------------------------------------------------------------------- recovery

  function DoBeginRecovery(w: World): Option<World> {
    if w.task.Idle? && w.record.Some? && Candidate(w.record.value)
    then Some(w.(task := Recovering(if w.record.value.orderId.None? then Submitted(false) else Attached)))
    else None
  }

  /** A resolved record is not verified again: its stored result is used. */
  function StoredResult(r: P.OrderRecord): P.Execution {
    P.Execution(r.filled, r.pending, r.cancelled, r.average, r.status, r.terminal)
  }

  function DoUseStored(w: World): Option<World> {
    if w.task == Recovering(Attached) && w.record.Some? && w.record.value.resolved
    then Some(w.(task := Recovering(Reported(StoredResult(w.record.value)))))
    else None
  }

  /** Only what exceeds the position's own filled quantity is added. */
  function DoApplyRecovered(w: World): Option<World> {
    if !(w.task.Recovering? && w.task.phase.Reported?) then None
    else
      var x := w.task.phase.result;
      var newly := x.filled - LocalFill(w.mem);
      if newly <= 0 then None
      else
        var p := if w.mem.Some? then Position(w.mem.value.qty + newly, x.filled) else Position(x.filled, x.filled);
        Some(w.(mem := Some(p), task := Recovering(Built(x))))
  }

  /** No new fill: marked applied again if the local state has all of it; less is left alone. */
  function DoNothingNew(w: World): Option<World> {
    if !(w.task.Recovering? && w.task.phase.Reported? && w.record.Some?) then None
    else
      var x := w.task.phase.result;
      if x.filled > LocalFill(w.mem) then None
      else if x.filled < LocalFill(w.mem) then Some(w.(task := Recovering(Applied(x))))
      else
        var r := P.Mutate(w.record.value, P.MarkEntryApplied(x.filled));
        if r.Err? then None else Some(w.(record := Some(r.value), task := Recovering(Applied(x))))
  }

  function DoFinishRecovery(w: World): Option<World> {
    if !(w.task.Recovering? && w.task.phase.Applied? && w.record.Some?) then None
    else
      var record := if w.task.phase.result.terminal then Some(w.record.value.(resolved := true)) else w.record;
      Some(w.(record := record, file := w.mem, task := Idle))
  }

  // ------------------------------------------------------------ exits, seen from here

  function DoSellPart(w: World, n: int): Option<World> {
    if w.task.Idle? && w.mem.Some? && 0 < n < w.mem.value.qty then
      var p := w.mem.value.(qty := w.mem.value.qty - n);
      Some(w.(mem := Some(p), file := Some(p), sold := w.sold + n))
    else None
  }

  function DoClose(w: World): Option<World> {
    if w.task.Idle? && w.mem.Some?
    then Some(w.(mem := None, file := None, sold := w.sold + w.mem.value.qty, closed := Some(w.mem.value.filled)))
    else None
  }

  function Restarted(w: World): World {
    w.(mem := w.file, task := Idle)
  }

  function Step(w: World, e: Event): Option<World> {
    match e
    case BrokerFill(n) => DoFill(w, n)
    case BrokerFinish(status) => DoFinish(w, status)
    case CreateIntent => DoCreateIntent(w)
    case Submit(accepted, heard) => DoSubmit(w, accepted, heard)
    case Reconcile => DoReconcile(w)
    case Attach => DoAttach(w)
    case Verify(x) => DoVerify(w, x)
    case MarkResolved => DoMarkResolved(w)
    case BuildPosition => DoBuildPosition(w)
    case SavePosition => DoSavePosition(w)
    case MarkApplied => DoMarkApplied(w)
    case BeginRecovery => DoBeginRecovery(w)
    case UseStored => DoUseStored(w)
    case ApplyRecovered => DoApplyRecovered(w)
    case NothingNew => DoNothingNew(w)
    case FinishRecovery => DoFinishRecovery(w)
    case SellPart(n) => DoSellPart(w, n)
    case Close => DoClose(w)
    case Crash => Some(Restarted(w))
    case GiveUp => if w.mem == w.file then Some(w.(task := Idle)) else None
  }

  function Run(w: World, es: seq<Event>): Option<World>
    decreases |es|
  {
    if es == [] then Some(w)
    else
      var next := Step(w, es[0]);
      if next.None? then None else Run(next.value, es[1..])
  }

  // ------------------------------------------------------------------- the invariant

  function BrokerFillOf(w: World): int {
    if w.order.Some? then w.order.value.filled else 0
  }

  /** The fill the local side has taken over, open or closed. */
  function Taken(w: World): int {
    if w.closed.Some? then w.closed.value else LocalFill(w.file)
  }

  ghost predicate RecordInv(w: World, r: P.OrderRecord) {
    && P.RecordInv(r) && r.action == P.Entry && r.operationId == w.id
    && r.filled <= BrokerFillOf(w)
    && (r.orderId.Some? ==> w.order.Some? && r.orderId == Some(w.brokerId))
    && r.applied <= Taken(w) <= BrokerFillOf(w)
    && (r.resolved ==>
          r.terminal && r.orderId.Some? && Terminal(w.order.value.status) && r.filled == w.order.value.filled)
    && (w.order.Some? ==> OrderInv(w.order.value) && w.order.value.qty == r.requested)
  }

  predicate PositionInv(w: World, p: Position) {
    && w.closed.None? && p.qty + w.sold == p.filled && 0 < p.filled <= BrokerFillOf(w)
  }

  /** A result in hand is no larger than the fill, and a terminal one is exact. */
  predicate ResultInv(w: World, x: P.Execution) {
    && w.record.Some? && w.record.value.orderId.Some? && w.order.Some?
    && V.Sound(x.terminal, x.filled, w.order.value)
    && x.filled == w.record.value.filled && x.terminal == w.record.value.terminal
    && (w.record.value.resolved ==> x.filled == BrokerFillOf(w))
  }

  predicate TaskInv(w: World) {
    match w.task
    case Idle => w.mem == w.file
    case Placing(ph) =>
      && w.record.Some? && w.closed.None?
      && (match ph
          case Intended => w.sends == 0 && w.order.None?
          case Submitted(reply) => (reply ==> w.order.Some?)
          case Attached => w.record.value.orderId.Some?
          case Reported(x) => ResultInv(w, x)
          case Marked(x) => ResultInv(w, x) && (x.terminal ==> w.record.value.resolved)
          case Built(x) => ResultInv(w, x) && w.mem == Some(Position(x.filled, x.filled)) && x.filled > 0
          case Stored(x) => ResultInv(w, x) && w.file == Some(Position(x.filled, x.filled))
          case Applied(_) => false)
      && (ph.Built? || w.mem == w.file)
      && (ph.Stored? || w.file.None?)
    case Recovering(ph) =>
      && w.record.Some? && w.closed.None?
      && (match ph
          case Intended => false
          case Submitted(reply) => (reply ==> w.order.Some?)
          case Attached => w.record.value.orderId.Some?
          case Reported(x) => ResultInv(w, x)
          case Marked(_) => false
          case Built(x) => ResultInv(w, x) && w.mem.Some? && w.mem.value.filled == x.filled > LocalFill(w.file)
          case Stored(x) => ResultInv(w, x) && LocalFill(w.file) == x.filled
          case Applied(x) => ResultInv(w, x) && LocalFill(w.file) >= x.filled)
      && (ph.Built? || w.mem == w.file)
  }

  ghost predicate Inv(w: World) {
    && w.sends <= 1 && (w.order.Some? ==> w.sends == 1)
    && (w.record.None? ==> w.order.None? && w.sends == 0 && w.file.None? && w.closed.None? && w.task.Idle?)
    && (w.record.Some? ==> RecordInv(w, w.record.value))
    && (w.file.Some? ==> PositionInv(w, w.file.value))
    && (w.mem.Some? ==> PositionInv(w, w.mem.value))
    && (w.file.None? && w.closed.None? ==> w.sold == 0)
    && (w.closed.Some? ==> w.record.Some? && !Candidate(w.record.value) && w.sold == w.closed.value)
    && TaskInv(w)
  }

  /** The one hypothesis: a position is closed only when its entry is resolved and applied. */
  predicate Sound(w: World, e: Event) {
    e.Close? ==> w.record.Some? && !Candidate(w.record.value)
  }

  predicate SoundRun(w: World, es: seq<Event>)
    decreases |es|
  {
    es != [] && Step(w, es[0]).Some? ==> Sound(w, es[0]) && SoundRun(Step(w, es[0]).value, es[1..])
  }

  lemma InitInv(id: P.OpId, brokerId: P.OrderId, intent: P.OrderIntent)
    ensures Inv(Init(id, brokerId, intent))
  {
  }

  lemma KeepFill(w: World, n: nat)
    requires Inv(w) && DoFill(w, n).Some?
    ensures Inv(DoFill(w, n).value)
  {
  }

  lemma KeepFinish(w: World, status: Status)
    requires Inv(w) && DoFinish(w, status).Some?
    ensures Inv(DoFinish(w, status).value)
  {
  }

  lemma KeepCreateIntent(w: World)
    requires Inv(w) && DoCreateIntent(w).Some?
    ensures Inv(DoCreateIntent(w).value)
  {
  }

  lemma KeepSubmit(w: World, accepted: bool, heard: bool)
    requires Inv(w) && DoSubmit(w, accepted, heard).Some?
    ensures Inv(DoSubmit(w, accepted, heard).value)
  {
  }

  lemma KeepReconcile(w: World)
    requires Inv(w) && DoReconcile(w).Some?
    ensures Inv(DoReconcile(w).value)
  {
  }

  lemma KeepAttach(w: World)
    requires Inv(w) && DoAttach(w).Some?
    ensures Inv(DoAttach(w).value)
  {
  }

  lemma KeepVerify(w: World, x: P.Execution)
    requires Inv(w) && DoVerify(w, x).Some?
    ensures Inv(DoVerify(w, x).value)
  {
  }

  lemma KeepMarkResolved(w: World)
    requires Inv(w) && DoMarkResolved(w).Some?
    ensures Inv(DoMarkResolved(w).value)
  {
  }

  lemma KeepBuildPosition(w: World)
    requires Inv(w) && DoBuildPosition(w).Some?
    ensures Inv(DoBuildPosition(w).value)
  {
  }

  lemma KeepSavePosition(w: World)
    requires Inv(w) && DoSavePosition(w).Some?
    ensures Inv(DoSavePosition(w).value)
  {
  }

  lemma KeepMarkApplied(w: World)
    requires Inv(w) && DoMarkApplied(w).Some?
    ensures Inv(DoMarkApplied(w).value)
  {
  }

  lemma KeepBeginRecovery(w: World)
    requires Inv(w) && DoBeginRecovery(w).Some?
    ensures Inv(DoBeginRecovery(w).value)
  {
  }

  lemma KeepUseStored(w: World)
    requires Inv(w) && DoUseStored(w).Some?
    ensures Inv(DoUseStored(w).value)
  {
  }

  lemma KeepApplyRecovered(w: World)
    requires Inv(w) && DoApplyRecovered(w).Some?
    ensures Inv(DoApplyRecovered(w).value)
  {
  }

  lemma KeepNothingNew(w: World)
    requires Inv(w) && DoNothingNew(w).Some?
    ensures Inv(DoNothingNew(w).value)
  {
  }

  lemma KeepFinishRecovery(w: World)
    requires Inv(w) && DoFinishRecovery(w).Some?
    ensures Inv(DoFinishRecovery(w).value)
  {
  }

  lemma KeepSellPart(w: World, n: int)
    requires Inv(w) && DoSellPart(w, n).Some?
    ensures Inv(DoSellPart(w, n).value)
  {
  }

  lemma KeepClose(w: World)
    requires Inv(w) && DoClose(w).Some? && Sound(w, Close)
    ensures Inv(DoClose(w).value)
  {
  }

  lemma KeepCrash(w: World)
    requires Inv(w)
    ensures Inv(Restarted(w))
  {
  }

  lemma StepKeepsInv(w: World, e: Event)
    requires Inv(w) && Step(w, e).Some? && Sound(w, e)
    ensures Inv(Step(w, e).value)
  {
    hide Inv, DoFill, DoFinish, DoCreateIntent, DoSubmit, DoReconcile, DoAttach, DoVerify, DoMarkResolved;
    hide DoBuildPosition;
    hide DoSavePosition, DoMarkApplied, DoBeginRecovery, DoUseStored, DoApplyRecovered, DoNothingNew, DoFinishRecovery;
    hide DoSellPart, DoClose;
    match e
    case BrokerFill(n) => KeepFill(w, n);
    case BrokerFinish(status) => KeepFinish(w, status);
    case CreateIntent => KeepCreateIntent(w);
    case Submit(accepted, heard) => KeepSubmit(w, accepted, heard);
    case Reconcile => KeepReconcile(w);
    case Attach => KeepAttach(w);
    case Verify(x) => KeepVerify(w, x);
    case MarkResolved => KeepMarkResolved(w);
    case BuildPosition => KeepBuildPosition(w);
    case SavePosition => KeepSavePosition(w);
    case MarkApplied => KeepMarkApplied(w);
    case BeginRecovery => KeepBeginRecovery(w);
    case UseStored => KeepUseStored(w);
    case ApplyRecovered => KeepApplyRecovered(w);
    case NothingNew => KeepNothingNew(w);
    case FinishRecovery => KeepFinishRecovery(w);
    case SellPart(n) => KeepSellPart(w, n);
    case Close => KeepClose(w);
    case Crash => KeepCrash(w);
    case GiveUp => KeepCrash(w);
  }

  lemma {:induction false} RunKeepsInv(w: World, es: seq<Event>)
    requires Inv(w) && Run(w, es).Some? && SoundRun(w, es)
    ensures Inv(Run(w, es).value)
    decreases |es|
  {
    hide Inv, Step, Sound;
    if es != [] {
      StepKeepsInv(w, es[0]);
      RunKeepsInv(Step(w, es[0]).value, es[1..]);
    }
  }
}
