/**
 The crash-safe stop and exit protocol of one live symbol, as a step machine.

 The durable state is the newest stop record, the newest exit record and the position
 file; the volatile state is the position in memory and what the single
 controller is in the middle of. Every durable write and every broker call is one
 step, so a crash can fall between any two of them, and the broker moves on its own
 between any two steps. Older stop and exit records are all resolved: an intent is
 created only when no unresolved one of its kind exists.

 `book` is the broker's list of reducing orders of the symbol; the position of an
 order in it is its broker ID. `stopIx` and `exitIx` say which order the broker
 accepted for the newest stop and the newest exit intent; the controller learns them
 only from a reply, or for a stop from its client tag.

 `entry` is the entry order at the broker. It may go on filling after a partial fill was
 confirmed; `entryOpen` says that the journal still asks for it (unresolved, or with a
 fill that is not marked applied), so a restart looks at it first. `held` is the fill that
 was taken into the position: the position's own `filled_quantity`.

 `late`, `clearedGen`, `cancels`, `stopBooked`, `exitBooked` and `bookedTo` are history:
 the entry shares taken in after the newest stop or exit was created, the stop the newest
 exit was cleared against, the number of cancel calls made for the newest stop, the
 quantities booked as P&L, and the cumulative exit fill up to which was booked.
 */
module ExitProtocol {
  import opened Wrappers
  import opened Broker
  import S = StopStore
  import P = PendingStore
  import V = OrderVerification
  import opened StopVerification
  import opened StopExit

  datatype ProtectPhase = Start | Intended | Sent(reply: Option<nat>) | Attached | Named
  datatype CoordPhase = Requested | MayReserve | Ticket | CancelCalled
  datatype FillPhase = Checked | Reserved | Booked | Updated | Saved
  datatype ExitPhase =
    | ExitIntended
    | ExitSent(reply: Option<nat>)
    | ExitAttached
    | ExitReported(filled: int, terminal: bool, average: Option<real>)
    | ExitBooked(filled: int, terminal: bool, average: Option<real>)
    | ExitUpdated(resolve: bool, reprotect: bool, booked: bool)
    | ExitSaved(resolve: bool, reprotect: bool)
    | OldStopResolved(resolve: bool)

  datatype Task =
    | Idle
    | Protect(protect: ProtectPhase, finalize: bool)
    | Coordinate(want: Wanted, coord: CoordPhase)
    | ApplyFill(fill: FillPhase, result: StopResult, newly: int, clearance: int, wanted: Option<Wanted>)
    | Cleared(cleared: Wanted, quantity: int, stopState: StopState)
    | Refused
    | Exit(phase: ExitPhase, recovering: bool, scalp: bool)

  datatype World = World(
    symbol: string, exchange: string, direction: S.Side,
    entry: Order, entryOpen: bool, held: int, late: int,
    book: seq<Order>, stopIx: Option<nat>, exitIx: Option<nat>,
    gen: nat, stop: S.StopRecord,
    exits: nat, exit: P.OrderRecord, clearedGen: nat,
    file: Option<Position>, mem: Option<Position>, task: Task,
    cancels: nat, stopBooked: int, exitBooked: int, bookedTo: int)

  function FreshPosition(exchange: string, direction: S.Side, qty: int): Position {
    Position(exchange, direction, qty, None, None, 0, None, false, None, 0, None)
  }

  /**
   A confirmed entry fill of `held` shares has just been saved; nothing else has happened.
   The entry is over and settled, or it is still open and may fill further.
   */
  function Init(symbol: string, exchange: string, direction: S.Side, held: int, entry: Order, open: bool): World {
    var p := FreshPosition(exchange, direction, held);
    World(symbol, exchange, direction, entry, open, held, 0, [], None, None, 0, NO_STOP, 0, NO_EXIT, 0,
          Some(p), Some(p), Idle, 0, 0, 0, 0)
  }

  /** An entry that filled completely at once. */
  function Bought(qty: nat): Order {
    Order(EntryOrder(0), qty, qty, Complete)
  }

  const NO_STOP := S.NewRecord(0, S.StopIntent("", "", S.Buy, S.Sell, 1, 1.0, "", None))
  const NO_EXIT := P.NewRecord(0, P.OrderIntent("", "", P.Exit, S.Sell, 1, None))

  // ----------------------------------------------------------- broker quantities

  function SumFilled(book: seq<Order>): nat {
    if book == [] then 0 else SumFilled(book[..|book| - 1]) + book[|book| - 1].filled
  }

  /** What the book can have sold at most: the fills, plus what live orders may still fill. */
  function Exposure(book: seq<Order>): nat {
    if book == [] then 0
    else
      var o := book[|book| - 1];
      Exposure(book[..|book| - 1]) + if Live(o) then o.qty else o.filled
  }

  function FilledAt(book: seq<Order>, ix: Option<nat>): int {
    if ix.Some? && ix.value < |book| then book[ix.value].filled else 0
  }

  predicate LiveAt(book: seq<Order>, ix: Option<nat>) {
    ix.Some? && ix.value < |book| && Live(book[ix.value])
  }

  function StopFill(w: World): int { FilledAt(w.book, w.stopIx) }
  function ExitFill(w: World): int { FilledAt(w.book, w.exitIx) }

  /** The newest exit was cleared against the newest stop. */
  predicate ExitOfThisStop(w: World) {
    w.exits > 0 && w.clearedGen == w.gen
  }

  function ExitFillOfThisStop(w: World): int {
    if ExitOfThisStop(w) then ExitFill(w) else 0
  }

  /** How much of the newest exit's fill this position says it has applied. */
  function AppliedExit(w: World, p: Position): int {
    if w.exits > 0 && CursorOp(p, w.exit.action) == Some(w.exits) then CursorFilled(p, w.exit.action) else 0
  }

  function AppliedExitOfThisStop(w: World, p: Position): int {
    if ExitOfThisStop(w) then AppliedExit(w, p) else 0
  }

  function OppositeSide(d: S.Side): S.Side {
    if d == S.Buy then S.Sell else if d == S.Sell then S.Buy else S.OtherSide
  }

  // ------------------------------------------------------------------ the steps

  datatype Event =
    // the broker, on its own
    | BrokerTrigger(ix: nat) | BrokerFill(ix: nat, n: nat) | BrokerFinish(ix: nat, status: Status)
    // the entry: it fills further at the broker, and a restart takes in what is new
    | EntryFill(n: nat) | EntryFinish(status: Status) | RecoverEntry(total: nat, terminal: bool, settled: bool)
    // protecting the open quantity with a new stop
    | BeginProtect | CreateStop(trigger: real, tag: string, tick: real) | SendStop(accepted: bool, heard: bool)
    | ReconcileStop | AttachStop | VerifyStop(stopResult: StopResult) | NameStop(named: bool)
    | SaveProtection(resolve: bool) | AbandonProtect | RecoverStop
    // inspecting and coordinating the stop
    | InspectStop(stopResult: StopResult)
    | RequestCoordination(wanted: Wanted, reason: string) | CoordinationVerify(stopResult: StopResult)
    | ReserveCancel | CallCancel
    // applying a confirmed stop fill
    | ReserveFill | BookFill | UpdateFromFill | SaveFill | FinishFill
    // the market exit
    | CreateExit | RefuseExit | SendExit(accepted: bool, heard: bool) | AttachExit
    | VerifyExit(execution: P.Execution) | RecoverExit | BookExit | UpdateFromExit | SaveExit | FinishExit
    | ResolveOldStop | ResetProtection
    // the process dies, or a call gives up before changing the position
    | Crash | GiveUp

  predicate BrokerEvent(e: Event) {
    e.BrokerTrigger? || e.BrokerFill? || e.BrokerFinish?
  }

  predicate EntryEvent(e: Event) {
    e.EntryFill? || e.EntryFinish? || e.RecoverEntry?
  }

  predicate SubmissionEvent(e: Event) {
    e.CreateStop? || e.SendStop? || e.ReconcileStop? || e.AttachStop? || e.VerifyStop?
  }

  predicate ProtectionEvent(e: Event) {
    e.BeginProtect? || e.NameStop? || e.SaveProtection? || e.AbandonProtect? || e.RecoverStop?
  }

  predicate CoordinationEvent(e: Event) {
    e.InspectStop? || e.RequestCoordination? || e.CoordinationVerify? || e.ReserveCancel? || e.CallCancel?
  }

  predicate StopFillEvent(e: Event) {
    e.ReserveFill? || e.BookFill? || e.UpdateFromFill? || e.SaveFill? || e.FinishFill?
  }

  predicate ExitOrderEvent(e: Event) {
    e.CreateExit? || e.RefuseExit? || e.SendExit? || e.AttachExit? || e.VerifyExit? || e.RecoverExit?
  }

  predicate ExitFillEvent(e: Event) {
    e.BookExit? || e.UpdateFromExit? || e.SaveExit? || e.FinishExit? || e.ResolveOldStop? || e.ResetProtection?
  }

  function BrokerStep(w: World, e: Event): Option<World> {
    match e
    case BrokerTrigger(ix) => DoTrigger(w, ix)
    case BrokerFill(ix, n) => DoFill(w, ix, n)
    case BrokerFinish(ix, status) => DoFinish(w, ix, status)
    case _ => None
  }

  function EntryStep(w: World, e: Event): Option<World> {
    match e
    case EntryFill(n) => DoEntryFill(w, n)
    case EntryFinish(status) => DoEntryFinish(w, status)
    case RecoverEntry(total, terminal, settled) => DoRecoverEntry(w, total, terminal, settled)
    case _ => None
  }

  function SubmissionStep(w: World, e: Event): Option<World> {
    match e
    case CreateStop(trigger, tag, tick) => DoCreateStop(w, trigger, tag, tick)
    case SendStop(accepted, heard) => DoSendStop(w, accepted, heard)
    case ReconcileStop => DoReconcileStop(w)
    case AttachStop => DoAttachStop(w)
    case VerifyStop(r) => DoVerifyStop(w, r)
    case _ => None
  }

  function ProtectionStep(w: World, e: Event): Option<World> {
    match e
    case BeginProtect => DoBeginProtect(w)
    case NameStop(named) => DoNameStop(w, named)
    case SaveProtection(resolve) => DoSaveProtection(w, resolve)
    case AbandonProtect => DoAbandonProtect(w)
    case RecoverStop => DoRecoverStop(w)
    case _ => None
  }

  function CoordinationStep(w: World, e: Event): Option<World> {
    match e
    case InspectStop(r) => DoInspect(w, r)
    case RequestCoordination(want, reason) => DoRequestCoordination(w, want, reason)
    case CoordinationVerify(r) => DoCoordinationVerify(w, r)
    case ReserveCancel => DoReserveCancel(w)
    case CallCancel => DoCallCancel(w)
    case _ => None
  }

  function StopFillStep(w: World, e: Event): Option<World> {
    match e
    case ReserveFill => DoReserveFill(w)
    case BookFill => DoBookFill(w)
    case UpdateFromFill => DoUpdateFromFill(w)
    case SaveFill => DoSaveFill(w)
    case FinishFill => DoFinishFill(w)
    case _ => None
  }

  function ExitOrderStep(w: World, e: Event): Option<World> {
    match e
    case CreateExit => DoCreateExit(w)
    case RefuseExit => DoRefuseExit(w)
    case SendExit(accepted, heard) => DoSendExit(w, accepted, heard)
    case AttachExit => DoAttachExit(w)
    case VerifyExit(x) => DoVerifyExit(w, x)
    case RecoverExit => DoRecoverExit(w)
    case _ => None
  }

  function ExitFillStep(w: World, e: Event): Option<World> {
    match e
    case BookExit => DoBookExit(w)
    case UpdateFromExit => DoUpdateFromExit(w)
    case SaveExit => DoSaveExit(w)
    case FinishExit => DoFinishExit(w)
    case ResolveOldStop => DoResolveOldStop(w)
    case ResetProtection => DoResetProtection(w)
    case _ => None
  }

  function Step(w: World, e: Event): Option<World> {
    if BrokerEvent(e) then BrokerStep(w, e)
    else if EntryEvent(e) then EntryStep(w, e)
    else if SubmissionEvent(e) then SubmissionStep(w, e)
    else if ProtectionEvent(e) then ProtectionStep(w, e)
    else if CoordinationEvent(e) then CoordinationStep(w, e)
    else if StopFillEvent(e) then StopFillStep(w, e)
    else if ExitOrderEvent(e) then ExitOrderStep(w, e)
    else if ExitFillEvent(e) then ExitFillStep(w, e)
    else if e.Crash? then Some(Restarted(w))
    else DoGiveUp(w)
  }

  /** A crash loses the memory and what was being done; the restart reads the file. */
  function Restarted(w: World): World {
    w.(mem := w.file, task := Idle)
  }

  /** A call that raises before it changed the position ends there. */
  function DoGiveUp(w: World): Option<World> {
    if w.mem == w.file then Some(w.(task := Idle)) else None
  }

  /** The state after a sequence of events, if each of them was enabled. */
  function Run(w: World, es: seq<Event>): Option<World>
    decreases |es|
  {
    if es == [] then Some(w)
    else
      var next := Step(w, es[0]);
      if next.None? then None else Run(next.value, es[1..])
  }

  // the broker

  function DoTrigger(w: World, ix: nat): Option<World> {
    if ix < |w.book| && w.book[ix].status == TriggerPending
    then Some(w.(book := w.book[ix := w.book[ix].(status := Open)]))
    else None
  }

  function DoFill(w: World, ix: nat, n: nat): Option<World> {
    if ix < |w.book| && w.book[ix].status == Open && w.book[ix].filled + n <= w.book[ix].qty
    then Some(w.(book := w.book[ix := w.book[ix].(filled := w.book[ix].filled + n)]))
    else None
  }

  function DoFinish(w: World, ix: nat, status: Status): Option<World> {
    if ix < |w.book| && Live(w.book[ix]) && Terminal(status) && OrderInv(w.book[ix].(status := status))
    then Some(w.(book := w.book[ix := w.book[ix].(status := status)]))
    else None
  }

  // the entry: main.py

  function DoEntryFill(w: World, n: nat): Option<World> {
    if w.entry.status == Open && w.entry.filled + n <= w.entry.qty
    then Some(w.(entry := w.entry.(filled := w.entry.filled + n)))
    else None
  }

  function DoEntryFinish(w: World, status: Status): Option<World> {
    if Live(w.entry) && Terminal(status) && OrderInv(w.entry.(status := status))
    then Some(w.(entry := w.entry.(status := status)))
    else None
  }

  /**
   Restart, before stops and exits are recovered: an open entry is verified, and the part of
   its fill that the position does not have yet is added and saved; a position that is gone
   is rebuilt from the whole fill. `settled` says that the process lived to mark a terminal
   entry applied and resolved.
   */
  function DoRecoverEntry(w: World, total: nat, terminal: bool, settled: bool): Option<World> {
    if !(w.task.Idle? && w.entryOpen && V.Sound(terminal, total, w.entry) && (settled ==> terminal)) then None
    else
      var newly := if w.mem.Some? then total - w.held else total;
      var next :=
        if newly <= 0 then w
        else if w.mem.Some? then
          var p := w.mem.value.(qty := w.mem.value.qty + newly);
          w.(mem := Some(p), file := Some(p), held := total, late := w.late + newly)
        else
          var p := FreshPosition(w.exchange, w.direction, total);
          w.(mem := Some(p), file := Some(p), held := total);
      Some(next.(entryOpen := !settled))
  }

  // protection: entry_protection.py and protective_stop.py

  function DoBeginProtect(w: World): Option<World> {
    if w.task.Idle? && w.mem.Some? && w.mem.value.stopOp.None? && w.mem.value.qty > 0
    then Some(w.(task := Protect(Start, false)))
    else None
  }

  function DoCreateStop(w: World, trigger: real, tag: string, tick: real): Option<World> {
    if !(w.task.Protect? && w.task.protect.Start? && w.mem.Some?) then None
    else
      var p := w.mem.value;
      var intent := S.StopIntent(w.symbol, p.exchange, p.direction, OppositeSide(p.direction), p.qty,
                                 trigger, tag, Some(tick));
      if S.IntentError(intent).Some? || (w.gen > 0 && !w.stop.resolved) then None
      else
        Some(w.(gen := w.gen + 1, stop := S.NewRecord(w.gen + 1, intent), stopIx := None, cancels := 0, late := 0,
                stopBooked := 0, task := Protect(Intended, w.task.finalize)))
  }

  /** `place_order`: the broker may accept it or not, and the reply may be lost. */
  function DoSendStop(w: World, accepted: bool, heard: bool): Option<World> {
    if !(w.task.Protect? && w.task.protect.Intended?) || w.stop.requested < 0 || (heard && !accepted) then None
    else if accepted then
      Some(w.(book := w.book + [Order(StopOrder(w.gen), w.stop.requested, 0, TriggerPending)],
              stopIx := Some(|w.book|),
              task := Protect(Sent(if heard then Some(|w.book|) else None), w.task.finalize)))
    else Some(w.(task := Protect(Sent(None), w.task.finalize)))
  }

  /** A lost reply is looked up by the unique client tag; no second order is sent. */
  function DoReconcileStop(w: World): Option<World> {
    if w.task.Protect? && w.task.protect == Sent(None) && w.stopIx.Some?
    then Some(w.(task := Protect(Sent(w.stopIx), w.task.finalize)))
    else None
  }

  function DoAttachStop(w: World): Option<World> {
    if !(w.task.Protect? && w.task.protect.Sent? && w.task.protect.reply.Some?) then None
    else
      var r := S.Mutate(w.stop, S.Attach(w.task.protect.reply));
      if r.Err? then None else Some(w.(stop := r.value, task := Protect(Attached, w.task.finalize)))
  }

  /** The poll's result fits the order as it stands: see StopVerification.StopResultIsSound. */
  predicate Fits(r: StopResult, requested: int, o: Order) {
    && V.Sound(r.terminal, r.filled, o)
    && (r.terminal ==> r.state == TerminalState(Raw(o.status, o.filled, 0, 0, None), requested))
    && (r.active ==> r.filled == 0)
    && (r.active <==> r.state == ACTIVE)
    && (r.terminal <==> ClearanceState(r.state))
    && r.pending >= 0 && r.cancelled >= 0
    && (r.average.Some? ==> r.filled > 0)
  }

  predicate StopPolled(w: World, r: StopResult) {
    w.stop.orderId.Some? && w.stop.orderId.value < |w.book| && Fits(r, w.stop.requested, w.book[w.stop.orderId.value])
  }

  function VerificationOf(r: StopResult): S.Verification {
    S.Verification(r.filled, r.pending, r.cancelled, r.average, "", r.active, r.terminal)
  }

  function DoVerifyStop(w: World, r: StopResult): Option<World> {
    if !(w.task.Protect? && w.task.protect.Attached? && StopPolled(w, r)) then None
    else
      var s := S.Mutate(w.stop, S.Verify(VerificationOf(r)));
      if s.Err? then None else Some(w.(stop := s.value))
  }

  /** `apply_protective_stop_result`: the result names the operation, or an error names none. */
  function DoNameStop(w: World, named: bool): Option<World> {
    if w.task.Protect? && !w.task.protect.Start? && !w.task.protect.Named? && w.mem.Some?
    then Some(w.(mem := Some(w.mem.value.(stopOp := if named then Some(w.gen) else None)),
                 task := Protect(Named, w.task.finalize)))
    else None
  }

  /** The replacement is named by the position and known to be armed. */
  predicate Reprotected(w: World) {
    w.task.Protect? && w.task.finalize && w.mem.Some? && w.mem.value.stopOp == Some(w.gen) && w.stop.active
  }

  /** The save after protection; only a confirmed one lets the pending exit be resolved. */
  function DoSaveProtection(w: World, resolve: bool): Option<World> {
    if w.task.Protect? && w.task.protect.Named? && (resolve ==> Reprotected(w))
    then Some(w.(file := w.mem, task := if resolve then Exit(ExitSaved(true, false), true, false) else Idle))
    else None
  }

  function DoAbandonProtect(w: World): Option<World> {
    if w.task.Protect? && w.task.protect.Start? then Some(w.(task := Idle)) else None
  }

  /** Restart: an unresolved stop intent is resumed by its ID or its tag, never resubmitted. */
  function DoRecoverStop(w: World): Option<World> {
    if w.task.Idle? && w.gen > 0 && !w.stop.resolved && w.mem.Some?
    then Some(w.(task := Protect(if w.stop.orderId.Some? then Attached else Sent(None), false)))
    else None
  }

  // coordination: protective_stop_exit.py

  predicate Identified(w: World) {
    && w.gen > 0 && w.mem.Some? && w.mem.value.stopOp == Some(w.gen)
    && ValidateIdentity(w.symbol, w.mem.value, Some(w.stop)).None?
  }

  /** The monitor's own inspection: a terminal stop goes on to have its fill applied. */
  function DoInspect(w: World, r: StopResult): Option<World> {
    if !(w.task.Idle? && Identified(w) && StopPolled(w, r)) then None
    else
      var s := S.Mutate(w.stop, S.Verify(VerificationOf(r)));
      if s.Err? then None
      else
        var newly := r.filled - w.stop.applied;
        var next := w.(stop := s.value);
        if r.terminal && 0 <= newly <= w.mem.value.qty
        then Some(next.(task := ApplyFill(Checked, r, newly, 0, None)))
        else Some(next)
  }

  function ExitActionOf(a: P.Action): S.ExitAction {
    if a == P.Exit then S.Exit else if a == P.ForceExit then S.ForceExit else S.OtherAction
  }

  function DoRequestCoordination(w: World, want: Wanted, reason: string): Option<World> {
    if !(w.task.Idle? && Identified(w) && 0 < want.quantity <= w.mem.value.qty
         && want.full == (want.quantity == w.mem.value.qty) && (want.scalp ==> want.action == P.Exit)) then None
    else
      var s := S.Mutate(w.stop, S.RequestExit(ExitActionOf(want.action), reason, w.mem.value.qty));
      if s.Err? then None else Some(w.(stop := s.value, task := Coordinate(want, Requested)))
  }

  /** An inspection inside the coordination, before or after the one cancel call. */
  function DoCoordinationVerify(w: World, r: StopResult): Option<World> {
    if !(w.task.Coordinate? && (w.task.coord.Requested? || w.task.coord.CancelCalled?)
         && Identified(w) && StopPolled(w, r)) then None
    else
      var s := S.Mutate(w.stop, S.Verify(VerificationOf(r)));
      if s.Err? then None
      else
        var next := w.(stop := s.value);
        var want := w.task.want;
        if r.state == ACTIVE then
          if w.task.coord.Requested? && !w.stop.cancelAttempted
          then Some(next.(task := Coordinate(want, MayReserve)))
          else Some(next.(task := Idle))
        else if !r.terminal then Some(next.(task := Idle))
        else
          match Decide(r.filled, w.stop.applied, w.mem.value.qty, want.quantity)
          case Blocked(_) => Some(next.(task := Idle))
          case Decided(newly, _, clearance) =>
            Some(next.(task := ApplyFill(Checked, r, newly, clearance, Some(want))))
  }

  function DoReserveCancel(w: World): Option<World> {
    if !(w.task.Coordinate? && w.task.coord.MayReserve?) || w.stop.cancelAttempted then None
    else
      var s := S.Mutate(w.stop, S.ReserveCancel);
      if s.Err? then None else Some(w.(stop := s.value, task := Coordinate(w.task.want, Ticket)))
  }

  /** `cancel_order` is called; whether and when the broker cancels is its own step. */
  function DoCallCancel(w: World): Option<World> {
    if w.task.Coordinate? && w.task.coord.Ticket?
    then Some(w.(cancels := w.cancels + 1, task := Coordinate(w.task.want, CancelCalled)))
    else None
  }

  // applying a stop fill: main.py

  /** Only a positive average can price the fill. */
  function UsableAverage(r: StopResult): Option<real> {
    if r.average.Some? && r.average.value > 0.0 then r.average else None
  }

  /** The durable reservation of the fill, before any P&L or local change. */
  function DoReserveFill(w: World): Option<World> {
    if !(w.task.ApplyFill? && w.task.fill.Checked? && w.task.newly > 0) then None
    else
      var s := S.Mutate(w.stop, S.MarkApplied(w.task.result.filled, UsableAverage(w.task.result)));
      if s.Err? then None else Some(w.(stop := s.value, task := w.task.(fill := Reserved)))
  }

  function DoBookFill(w: World): Option<World> {
    if w.task.ApplyFill? && w.task.fill.Reserved? && UsableAverage(w.task.result).Some?
    then Some(w.(stopBooked := w.stopBooked + w.task.newly, task := w.task.(fill := Booked)))
    else None
  }

  function DoUpdateFromFill(w: World): Option<World> {
    if !(w.task.ApplyFill? && w.mem.Some?
         && (w.task.fill.Booked? || (w.task.fill.Reserved? && UsableAverage(w.task.result).None?))) then None
    else
      var remaining := w.mem.value.qty - w.task.newly;
      Some(w.(mem := if remaining == 0 then None else Some(w.mem.value.(qty := remaining)),
              task := w.task.(fill := Updated)))
  }

  function DoSaveFill(w: World): Option<World> {
    if w.task.ApplyFill? && (w.task.fill.Updated? || (w.task.fill.Checked? && w.task.newly == 0))
    then Some(w.(file := w.mem, task := w.task.(fill := Saved)))
    else None
  }

  /**
   The stop operation is resolved (an unpriced fill leaves it open for a person), and
   the exit is cleared only for the quantity that is still held.
   */
  function DoFinishFill(w: World): Option<World> {
    if !(w.task.ApplyFill? && w.task.fill.Saved?) then None
    else
      var resolve := w.task.newly == 0 || UsableAverage(w.task.result).Some?;
      var next := if resolve then w.(stop := w.stop.(resolved := true, active := false)) else w;
      if w.task.wanted.None? || w.mem.None? then Some(next.(task := Idle))
      else
        var want := w.task.wanted.value;
        var expected := if want.full then w.mem.value.qty else want.quantity;
        if w.task.clearance > 0 && w.task.clearance == expected
        then Some(next.(task := Cleared(want, expected, w.task.result.state)))
        else Some(next.(task := Idle))
  }

  // the market exit: executor.py and main.py

  /** What the coordination handed out: good for one instrument, quantity and action. */
  function ClearanceOf(w: World): Clearance
    requires w.task.Cleared? && w.mem.Some?
  {
    Clearance(true, w.symbol, w.mem.value.exchange, w.task.quantity, w.task.cleared.action, w.task.stopState)
  }

  /** The quantity the caller submits: the trigger's own for EXIT, the position's for FORCE_EXIT. */
  function SubmittedQuantity(w: World): int
    requires w.task.Cleared? && w.mem.Some?
  {
    if w.task.cleared.action == P.ForceExit then w.mem.value.qty else w.task.cleared.quantity
  }

  /** The clearance fits the order about to be sent. */
  predicate ClearedFor(w: World)
    requires w.task.Cleared? && w.mem.Some?
  {
    ValidExitClearance(Some(ClearanceOf(w)), w.symbol, w.mem.value.exchange, SubmittedQuantity(w),
                       w.task.cleared.action)
  }

  function DoCreateExit(w: World): Option<World> {
    if !(w.task.Cleared? && w.mem.Some?) || !ClearedFor(w) || (w.exits > 0 && !w.exit.resolved) then None
    else
      var p := w.mem.value;
      var intent := P.OrderIntent(w.symbol, p.exchange, w.task.cleared.action, OppositeSide(p.direction),
                                  w.task.quantity, None);
      if P.IntentError(intent).Some? || intent.action == P.Entry then None
      else Some(w.(exits := w.exits + 1, exit := P.NewRecord(w.exits + 1, intent), exitIx := None, clearedGen := w.gen,
                   exitBooked := 0, bookedTo := 0, late := 0, task := Exit(ExitIntended, false, w.task.cleared.scalp)))
  }

  /**
   No intent is created. While another exit is unresolved the call is blocked and ends there.
   Otherwise it counts as a rejected order, and a rejected scalp goes on to re-protection.
   */
  function DoRefuseExit(w: World): Option<World> {
    if !(w.task.Cleared? && w.mem.Some?) then None
    else
      var p := if w.task.cleared.action == P.Exit then w.mem.value.(exitIsScalp := w.task.cleared.scalp)
               else w.mem.value;
      var pending := w.exits > 0 && !w.exit.resolved;
      Some(w.(mem := Some(p), file := Some(p), task := if w.task.cleared.scalp && !pending then Refused else Idle))
  }

  function DoSendExit(w: World, accepted: bool, heard: bool): Option<World> {
    if !(w.task.Exit? && w.task.phase.ExitIntended?) || w.exit.requested < 0 || (heard && !accepted) then None
    else if accepted then
      Some(w.(book := w.book + [Order(ExitOrder(w.exits), w.exit.requested, 0, Open)],
              exitIx := Some(|w.book|),
              task := w.task.(phase := ExitSent(if heard then Some(|w.book|) else None))))
    else Some(w.(task := w.task.(phase := ExitSent(None))))
  }

  /** A lost reply ends the attempt: nothing is attached and nothing is retried. */
  function DoAttachExit(w: World): Option<World> {
    if !(w.task.Exit? && w.task.phase.ExitSent?) then None
    else if w.task.phase.reply.None? then Some(w.(task := w.task.(phase := ExitReported(0, false, None))))
    else
      var r := P.Mutate(w.exit, P.Attach(w.task.phase.reply.value));
      if r.Err? then None else Some(w.(exit := r.value, task := w.task.(phase := ExitAttached)))
  }

  predicate ExitPolled(w: World, x: P.Execution) {
    && w.exit.orderId.Some? && w.exit.orderId.value < |w.book|
    && V.Sound(x.terminal, x.filled, w.book[w.exit.orderId.value])
    && x.pending >= 0 && x.cancelled >= 0
    && (x.average.Some? ==> x.filled > 0)
  }

  function DoVerifyExit(w: World, x: P.Execution): Option<World> {
    if !(w.task.Exit? && w.task.phase.ExitAttached? && ExitPolled(w, x)) then None
    else
      var r := P.Mutate(w.exit, P.Verify(x));
      if r.Err? then None
      else Some(w.(exit := r.value, task := w.task.(phase := ExitReported(x.filled, x.terminal, x.average))))
  }

  /** Restart: an unresolved exit with a broker ID is verified again, never resubmitted. */
  function DoRecoverExit(w: World): Option<World> {
    if w.task.Idle? && w.exits > 0 && !w.exit.resolved && w.exit.orderId.Some?
    then Some(w.(task := Exit(ExitAttached, true, w.mem.Some? && w.exit.action == P.Exit && w.mem.value.exitIsScalp)))
    else None
  }

  /** The part of the cumulative fill that the position does not reflect yet. */
  function NewlyConfirmed(w: World): int
    requires w.task.Exit? && (w.task.phase.ExitReported? || w.task.phase.ExitBooked?) && w.mem.Some?
  {
    w.task.phase.filled - if w.task.recovering then AppliedExit(w, w.mem.value) else 0
  }

  /** A cumulative average prices the new part: see the module Pnl for the price itself. */
  predicate Priced(w: World)
    requires w.task.Exit? && (w.task.phase.ExitReported? || w.task.phase.ExitBooked?) && w.mem.Some?
  {
    && w.task.phase.average.Some?
    && (w.task.recovering && AppliedExit(w, w.mem.value) > 0 ==> CursorAverage(w.mem.value, w.exit.action).Some?)
  }

  function DoBookExit(w: World): Option<World> {
    if !(w.task.Exit? && w.task.phase.ExitReported? && w.mem.Some? && Priced(w)) then None
    else
      var newly := NewlyConfirmed(w);
      if 0 < newly <= w.mem.value.qty then
        Some(w.(exitBooked := w.exitBooked + newly, bookedTo := w.task.phase.filled,
                task := w.task.(phase := ExitBooked(w.task.phase.filled, w.task.phase.terminal, w.task.phase.average))))
      else None
  }

  /**
   The change of the position in memory. With no new fill only the operation is named;
   otherwise the quantity drops and the cursor moves to the cumulative fill. A priced
   full close, and an unpriced full FORCE_EXIT, deletes the position.
   */
  function DoUpdateFromExit(w: World): Option<World> {
    if !(w.task.Exit? && (w.task.phase.ExitReported? || w.task.phase.ExitBooked?)) then None
    else if w.mem.None? then
      // Only a full terminal fill may be taken as already applied.
      if w.task.phase.ExitReported? && w.task.phase.terminal && w.task.phase.filled == w.exit.requested
      then Some(w.(task := w.task.(phase := ExitSaved(true, false))))
      else Some(w.(task := Idle))
    else
      var p := w.mem.value;
      var a := w.exit.action;
      var newly := NewlyConfirmed(w);
      var terminal := w.task.phase.terminal;
      if newly < 0 || newly > p.qty then Some(w.(task := Idle))
      else if newly == 0 && w.task.phase.ExitReported? then
        var q := NameExit(p, a, w.exits);
        Some(w.(mem := Some(if w.task.recovering then q else q.(exitIsScalp := w.task.scalp)),
                task := w.task.(phase := ExitUpdated(terminal, terminal && w.task.scalp && p.qty > 0, false))))
      else if newly > 0 && (w.task.phase.ExitBooked? || !Priced(w)) then
        var booked := w.task.phase.ExitBooked?;
        var remaining := p.qty - newly;
        var q := MoveCursor(NameExit(p, a, w.exits), a, w.task.phase.filled, w.task.phase.average).(qty := remaining);
        var q' := if w.task.recovering then q else q.(exitIsScalp := w.task.scalp);
        var gone := remaining == 0 && (booked || a == P.ForceExit);
        Some(w.(mem := if gone then None else Some(q'),
                task := w.task.(phase := ExitUpdated(terminal && (booked || !w.task.recovering),
                                                     terminal && booked && w.task.scalp && remaining > 0, booked))))
      else None
  }

  function DoSaveExit(w: World): Option<World> {
    if w.task.Exit? && w.task.phase.ExitUpdated?
    then Some(w.(file := w.mem, task := w.task.(phase := ExitSaved(w.task.phase.resolve, w.task.phase.reprotect))))
    else None
  }

  function DoFinishExit(w: World): Option<World> {
    if w.task.Exit? && w.task.phase.ExitSaved? && !w.task.phase.reprotect
    then Some((if w.task.phase.resolve then w.(exit := w.exit.(resolved := true)) else w).(task := Idle))
    else None
  }

  // re-protection after a coordinated scalp: main.py

  /** A saved scalp, or a refused one, hands over to re-protection. */
  predicate MayReprotect(t: Task) {
    t.Refused? || (t.Exit? && t.phase.ExitSaved? && t.phase.reprotect)
  }

  function DoResolveOldStop(w: World): Option<World> {
    if !(MayReprotect(w.task) && w.mem.Some?) then None
    else
      var next := w.(task := if w.task.Refused? then Exit(OldStopResolved(false), false, true)
                             else w.task.(phase := OldStopResolved(w.task.phase.resolve)));
      if w.mem.value.stopOp.None? then Some(next)
      else if w.mem.value.stopOp == Some(w.gen)
      then Some(next.(stop := w.stop.(resolved := true, active := false)))
      else None
  }

  function DoResetProtection(w: World): Option<World> {
    if w.task.Exit? && w.task.phase.OldStopResolved? && w.mem.Some?
    then
      var p := w.mem.value.(stopOp := None);
      Some(w.(mem := Some(p), file := Some(p), task := Protect(Start, w.task.phase.resolve)))
    else None
  }
}
