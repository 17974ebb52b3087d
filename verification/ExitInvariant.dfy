/** What every reachable state of the exit protocol satisfies, and that each step keeps it. */
module ExitInvariant {
  import opened Wrappers
  import opened Broker
  import S = StopStore
  import P = PendingStore
  import V = OrderVerification
  import opened StopVerification
  import opened StopExit
  import opened ExitProtocol

  // ------------------------------------------------------------- the invariant

  /** The newest stop can fill no more, and its whole fill is marked applied. */
  predicate StopSettled(w: World) {
    !LiveAt(w.book, w.stopIx) && w.stop.applied == StopFill(w)
  }

  /** The newest exit can fill no more. */
  predicate ExitOver(w: World) {
    w.exitIx.Some? && !LiveAt(w.book, w.exitIx)
  }

  /** Every order but the newest stop and the newest exit is over, and the fills add up. */
  ghost predicate BookInv(w: World) {
    && (forall i :: 0 <= i < |w.book| ==> OrderInv(w.book[i]))
    && (forall i :: 0 <= i < |w.book| && Live(w.book[i]) ==> Some(i) == w.stopIx || Some(i) == w.exitIx)
    && (w.stopIx.Some? ==> && w.gen > 0 && w.stopIx.value < |w.book|
                           && w.book[w.stopIx.value].origin == StopOrder(w.gen)
                           && w.book[w.stopIx.value].qty == w.stop.requested)
    && (w.exitIx.Some? ==> && w.exits > 0 && w.exitIx.value < |w.book|
                           && w.book[w.exitIx.value].origin == ExitOrder(w.exits)
                           && w.book[w.exitIx.value].qty == w.exit.requested)
    && (w.gen == 0 ==> w.book == [])
    && (w.gen > 0 ==> SumFilled(w.book) + w.stop.requested + w.late == w.held + StopFill(w) + ExitFillOfThisStop(w))
  }

  /** The position never has more of the entry than was bought; a settled entry, all of it. */
  predicate EntryInv(w: World) {
    && OrderInv(w.entry) && 0 < w.held <= w.entry.filled && w.late >= 0
    && (!w.entryOpen ==> !Live(w.entry) && w.held == w.entry.filled)
  }

  ghost predicate StopInv(w: World) {
    w.gen > 0 ==>
      && S.RecordInv(w.stop)
      && w.stop.operationId == w.gen && w.stop.symbol == w.symbol
      && w.stop.exchange == w.exchange && w.stop.direction == w.direction
      && (w.stop.orderId.Some? ==> w.stop.orderId == w.stopIx)
      && w.stop.filled <= StopFill(w)
      && (w.stop.resolved ==> StopSettled(w))
      && (w.stop.exitRequested ==> w.stop.exitQuantity.value + w.stop.applied >= w.stop.requested)
      && w.cancels <= (if w.stop.cancelAttempted then 1 else 0)
      && w.stopBooked <= w.stop.applied
  }

  ghost predicate ExitInv(w: World) {
    w.exits > 0 ==>
      && w.gen > 0 && 1 <= w.clearedGen <= w.gen
      && P.RecordInv(w.exit)
      && w.exit.operationId == w.exits && (w.exit.action == P.Exit || w.exit.action == P.ForceExit)
      && (w.exit.orderId.Some? ==> w.exit.orderId == w.exitIx)
      && (w.exit.resolved ==> ExitOver(w))
      && (w.clearedGen == w.gen ==>
            w.stopIx.Some? && StopSettled(w) && w.exit.requested + w.stop.applied <= w.stop.requested)
      && (w.clearedGen < w.gen ==> ExitOver(w))
  }

  /** The position agrees with the broker: nothing can still fill, and no fill is unapplied. */
  predicate Quiet(w: World, p: Position) {
    && (ExitOfThisStop(w) ==> ExitOver(w))
    && AppliedExitOfThisStop(w, p) == ExitFillOfThisStop(w)
    && p.qty + w.stop.applied + AppliedExitOfThisStop(w, p) == w.stop.requested + w.late
  }

  /** The coverage accounting of a position, in the file or in memory. */
  predicate PositionInv(w: World, p: Position) {
    && p.exchange == w.exchange && p.direction == w.direction && p.qty >= 0
    && (p.exitOp.Some? ==> 1 <= p.exitOp.value <= w.exits) && (p.exitOp.None? ==> p.exitFilled == 0)
    && (p.forceOp.Some? ==> 1 <= p.forceOp.value <= w.exits) && (p.forceOp.None? ==> p.forceFilled == 0)
    && (p.stopOp.Some? ==> w.gen > 0 && p.stopOp.value == w.gen)
    && (w.gen == 0 ==> p.qty == w.held)
    && 0 <= AppliedExit(w, p) <= ExitFill(w)
    && (w.gen > 0 ==>
          p.qty <= w.stop.requested + w.late <= p.qty + w.stop.applied + AppliedExitOfThisStop(w, p))
    && (ExitOfThisStop(w) ==> p.qty + w.stop.applied + AppliedExit(w, p) == w.stop.requested + w.late)
    && (w.exits > 0 && (w.exit.resolved || w.clearedGen < w.gen) ==> AppliedExit(w, p) == ExitFill(w))
    && (p.stopOp.None? && w.gen > 0 && w.stop.resolved ==> Quiet(w, p))
  }

  /** The named stop covers exactly what is held, apart from its own applied fill. */
  predicate CoveredBy(w: World, p: Position) {
    p.stopOp == Some(w.gen) && p.qty + w.stop.applied == w.stop.requested
  }

  predicate ExitApplied(w: World) {
    && w.exits > 0 && ExitOver(w)
    && (w.mem.Some? ==> AppliedExit(w, w.mem.value) == ExitFill(w))
    && (w.file.Some? ==> AppliedExit(w, w.file.value) == ExitFill(w))
  }

  predicate ProtectInv(w: World, ph: ProtectPhase) {
    && w.mem.Some? && w.file.Some?
    && (!ph.Start? ==> w.gen > 0 && !w.stop.resolved)
    && match ph
       case Start => w.mem == w.file && w.mem.value.stopOp.None?
       case Intended => && w.mem == w.file && w.stopIx.None? && w.stop.orderId.None? && !ExitOfThisStop(w)
       case Sent(reply) => w.mem == w.file && (reply.Some? ==> reply == w.stopIx)
       case Attached => w.mem == w.file && w.stop.orderId.Some?
       case Named => w.mem.value == w.file.value.(stopOp := w.mem.value.stopOp)
  }

  predicate CoordinateInv(w: World, want: Wanted, ph: CoordPhase) {
    && w.mem == w.file && Identified(w)
    && 0 < want.quantity <= w.mem.value.qty && want.full == (want.quantity == w.mem.value.qty)
    && (want.scalp ==> want.action == P.Exit)
    && w.stop.exitRequested
    && match ph
       case Requested => true
       case MayReserve => !w.stop.cancelAttempted
       case Ticket => w.stop.cancelAttempted && w.cancels == 0
       case CancelCalled => w.stop.cancelAttempted
  }

  predicate ApplyFillInv(w: World, ph: FillPhase, r: StopResult, newly: int, clearance: int, wanted: Option<Wanted>) {
    && w.gen > 0 && w.stopIx.Some? && !LiveAt(w.book, w.stopIx) && r.filled == StopFill(w) && r.terminal
    && ClearanceState(r.state) && newly >= 0 && (ph.Reserved? || ph.Booked? || ph.Updated? ==> w.late == 0)
    && (wanted.Some? && wanted.value.scalp ==> wanted.value.action == P.Exit)
    && match ph
       case Checked => && w.mem == w.file && Identified(w) && newly == r.filled - w.stop.applied
                       && newly <= w.mem.value.qty && w.stop.filled == r.filled && clearance <= w.mem.value.qty - newly
       case Reserved => && w.mem == w.file && !w.stop.resolved && w.mem.Some? && w.mem.value.stopOp == Some(w.gen)
                        && 0 < newly <= w.mem.value.qty && w.stop.applied == r.filled && !ExitOfThisStop(w)
                        && w.mem.value.qty + w.stop.applied == w.stop.requested + newly
                        && clearance <= w.mem.value.qty - newly && w.stopBooked + newly <= w.stop.applied
       case Booked => && w.mem == w.file && !w.stop.resolved && w.mem.Some? && w.mem.value.stopOp == Some(w.gen)
                      && 0 < newly <= w.mem.value.qty && w.stop.applied == r.filled && !ExitOfThisStop(w)
                      && w.mem.value.qty + w.stop.applied == w.stop.requested + newly
                      && clearance <= w.mem.value.qty - newly
       case Updated => && w.file.Some? && !w.stop.resolved && w.stop.applied == r.filled && !ExitOfThisStop(w)
                       && newly > 0 && w.file.value.stopOp == Some(w.gen)
                       && w.file.value.qty + w.stop.applied == w.stop.requested + newly
                       && (w.mem.Some? ==> CoveredBy(w, w.mem.value) && clearance <= w.mem.value.qty)
                       && (w.mem.None? ==> w.stop.applied == w.stop.requested)
       case Saved => && w.mem == w.file && w.stop.applied == r.filled
                     && (w.mem.Some? ==> CoveredBy(w, w.mem.value) && clearance <= w.mem.value.qty)
  }

  predicate ClearedInv(w: World, want: Wanted, quantity: int) {
    && w.gen > 0 && w.stopIx.Some? && StopSettled(w)
    && w.mem == w.file && w.mem.Some? && CoveredBy(w, w.mem.value)
    && 0 < quantity <= w.mem.value.qty
    && (want.scalp ==> want.action == P.Exit)
  }

  predicate FreshExit(w: World) {
    w.mem.Some? && ExitOfThisStop(w) && AppliedExit(w, w.mem.value) == 0
  }

  predicate ReportInv(w: World, filled: int, terminal: bool, recovering: bool) {
    && w.mem == w.file && !w.exit.resolved
    && 0 <= filled <= ExitFill(w)
    && (terminal ==> ExitOver(w) && filled == ExitFill(w))
    && (!recovering ==> FreshExit(w))
  }

  /** A refused exit left the position covered by a finished stop, and no exit is unresolved. */
  predicate RefusedInv(w: World) {
    && w.gen > 0 && StopSettled(w) && w.mem == w.file && w.mem.Some? && CoveredBy(w, w.mem.value)
    && (w.exits > 0 ==> w.exit.resolved)
  }

  predicate ExitTaskInv(w: World, ph: ExitPhase, recovering: bool) {
    && (w.exits > 0 || ph.OldStopResolved?)
    && match ph
       case ExitIntended =>
         && w.mem == w.file && FreshExit(w) && w.exitIx.None? && w.exit.orderId.None?
         && !w.exit.resolved && !recovering
       case ExitSent(reply) =>
         && w.mem == w.file && FreshExit(w) && (reply.Some? ==> reply == w.exitIx)
         && !w.exit.resolved && !recovering
       case ExitAttached =>
         && w.mem == w.file && w.exit.orderId.Some? && !w.exit.resolved && (!recovering ==> FreshExit(w))
       case ExitReported(filled, terminal, _) => ReportInv(w, filled, terminal, recovering)
       case ExitBooked(filled, terminal, _) => ReportInv(w, filled, terminal, recovering) && w.mem.Some?
       case ExitUpdated(resolve, reprotect, _) =>
         && w.file.Some? && !w.exit.resolved
         && (resolve || reprotect ==> ExitOver(w) && (w.mem.Some? ==> AppliedExit(w, w.mem.value) == ExitFill(w)))
         && (reprotect ==> w.mem.Some?)
       case ExitSaved(resolve, reprotect) =>
         w.mem == w.file && (resolve || reprotect ==> ExitApplied(w)) && (reprotect ==> w.mem.Some?)
       case OldStopResolved(resolve) =>
         && w.mem == w.file && w.mem.Some? && (resolve ==> ExitApplied(w))
         && (w.mem.value.stopOp.Some? ==> w.stop.resolved && Quiet(w, w.mem.value))
  }

  predicate TaskInv(w: World) {
    match w.task
    case Idle => w.mem == w.file
    case Protect(ph, finalize) => ProtectInv(w, ph) && (finalize ==> ExitApplied(w))
    case Coordinate(want, ph) => CoordinateInv(w, want, ph)
    case ApplyFill(ph, r, newly, clearance, wanted) => ApplyFillInv(w, ph, r, newly, clearance, wanted)
    case Cleared(want, quantity, state) => ClearedInv(w, want, quantity) && ClearanceState(state)
    case Refused => RefusedInv(w)
    case Exit(ph, recovering, _) => ExitTaskInv(w, ph, recovering)
  }

  /** The part of the invariant that does not depend on positions or on what is being done. */
  ghost predicate LedgerInv(w: World) {
    EntryInv(w) && BookInv(w) && StopInv(w) && ExitInv(w)
  }

  ghost predicate PositionsInv(w: World) {
    && (w.file.Some? ==> PositionInv(w, w.file.value))
    && (w.mem.Some? ==> PositionInv(w, w.mem.value))
  }

  ghost predicate Inv(w: World) {
    LedgerInv(w) && PositionsInv(w) && TaskInv(w)
  }

  // ---------------------------------------------------------------- frames

  /** The ledger and the meaning of a position depend on no position and no task. */
  lemma SameLedger(w: World, v: World)
    requires v.(mem := w.mem, file := w.file, task := w.task, exitBooked := w.exitBooked, bookedTo := w.bookedTo) == w
    ensures LedgerInv(v) == LedgerInv(w)
    ensures forall p :: PositionInv(v, p) == PositionInv(w, p)
  {
  }

  /** A step that changes only positions and what is being done: what is left to show. */
  lemma Assemble(w: World, v: World)
    requires LedgerInv(w) && TaskInv(v)
    requires v.(mem := w.mem, file := w.file, task := w.task, exitBooked := w.exitBooked, bookedTo := w.bookedTo) == w
    requires v.file.Some? ==> PositionInv(w, v.file.value)
    requires v.mem.Some? ==> PositionInv(w, v.mem.value)
    ensures Inv(v)
  {
    SameLedger(w, v);
  }

  /** A write that leaves coverage alone puts only the stop record's own invariant at stake. */
  lemma StopWrite(w: World, v: World)
    requires LedgerInv(w) && StopInv(v)
    requires v == w.(stop := v.stop, cancels := v.cancels, stopBooked := v.stopBooked)
    requires v.stop.requested == w.stop.requested && v.stop.applied == w.stop.applied
             && v.stop.resolved == w.stop.resolved
    ensures LedgerInv(v)
    ensures forall p :: PositionInv(v, p) == PositionInv(w, p)
  {
  }

  /** Such a write, followed by whatever is done next. */
  lemma KeepStopWrite(w: World, v: World)
    requires LedgerInv(w) && PositionsInv(w) && StopInv(v) && TaskInv(v)
    requires v == w.(stop := v.stop, cancels := v.cancels, stopBooked := v.stopBooked, task := v.task)
    requires v.stop.requested == w.stop.requested && v.stop.applied == w.stop.applied
             && v.stop.resolved == w.stop.resolved
    ensures Inv(v)
  {
    var u := v.(task := w.task);
    assert StopInv(u);
    hide BookInv, StopInv, ExitInv, PositionInv, TaskInv;
    StopWrite(w, u);
    Assemble(u, v);
  }

  lemma ExitWrite(w: World, x: P.OrderRecord)
    requires LedgerInv(w) && w.exits > 0 && P.RecordInv(x) && P.Evolves(w.exit, x)
    requires x.resolved == w.exit.resolved && (x.orderId.Some? ==> x.orderId == w.exitIx)
    ensures LedgerInv(w.(exit := x))
    ensures forall p :: PositionInv(w.(exit := x), p) == PositionInv(w, p)
  {
  }

  function WithStopResolved(w: World): World {
    w.(stop := w.stop.(resolved := true, active := false))
  }

  function WithExitResolved(w: World): World {
    w.(exit := w.exit.(resolved := true))
  }

  lemma ResolvedStop(w: World)
    requires LedgerInv(w) && w.gen > 0 && StopSettled(w)
    ensures LedgerInv(WithStopResolved(w))
    ensures forall p :: PositionInv(w, p) && p.stopOp.Some? ==> PositionInv(WithStopResolved(w), p)
  {
  }

  lemma ResolvedExit(w: World)
    requires LedgerInv(w) && w.exits > 0 && ExitOver(w)
    ensures LedgerInv(WithExitResolved(w))
    ensures forall p :: PositionInv(w, p) && AppliedExit(w, p) == ExitFill(w) ==> PositionInv(WithExitResolved(w), p)
  {
  }

  // ----------------------------------- the three hypotheses the code leaves open

  /**
   Re-protection resolves the named stop without looking at it. Sound when that stop is
   over, its fill is marked applied, and the local quantity reflects it.
   */
  predicate OldStopAccounted(w: World) {
    w.mem.Some? && (w.mem.value.stopOp.Some? ==>
      && StopSettled(w)
      && w.mem.value.qty + w.stop.applied + AppliedExitOfThisStop(w, w.mem.value) == w.stop.requested + w.late)
  }

  /** Naming an operation without moving the cursor is sound when the cursor is its own, or zero. */
  predicate CursorOwned(w: World) {
    w.mem.Some? && w.exits > 0 &&
    (CursorOp(w.mem.value, w.exit.action) == Some(w.exits) || CursorFilled(w.mem.value, w.exit.action) == 0)
  }

  /** The step names the exit operation without moving the cursor. */
  predicate NamesOnly(w: World, e: Event) {
    && e.UpdateFromExit? && w.task.Exit? && w.task.phase.ExitReported?
    && w.mem.Some? && NewlyConfirmed(w) == 0
  }

  /** Recovery rebuilds the position that an open entry no longer has: it was sold meanwhile. */
  predicate Rebuilds(w: World, e: Event) {
    e.RecoverEntry? && w.mem.None? && e.total > 0
  }

  predicate Sound(w: World, e: Event) {
    && (e.ResolveOldStop? ==> OldStopAccounted(w))
    && (NamesOnly(w, e) ==> CursorOwned(w))
    && !Rebuilds(w, e)
  }

  // --------------------------------------------------------------- the fill sum

  lemma {:induction false} SumUpdate(book: seq<Order>, i: nat, o: Order)
    requires i < |book|
    ensures SumFilled(book[i := o]) == SumFilled(book) - book[i].filled + o.filled
    decreases |book|
  {
    var n := |book| - 1;
    if i < n {
      SumUpdate(book[..n], i, o);
      assert book[i := o][..n] == book[..n][i := o];
    } else {
      assert book[i := o][..n] == book[..n];
    }
  }

  lemma SumAppend(book: seq<Order>, o: Order)
    ensures SumFilled(book + [o]) == SumFilled(book) + o.filled
  {
    assert (book + [o])[..|book|] == book;
  }

  /** The entry fill that was saved is within what the broker filled, and all of it if the entry is settled. */
  predicate CanStart(held: int, entry: Order, open: bool) {
    OrderInv(entry) && 0 < held <= entry.filled && (!open ==> !Live(entry) && held == entry.filled)
  }

  lemma InitInv(symbol: string, exchange: string, direction: S.Side, held: int, entry: Order, open: bool)
    requires CanStart(held, entry, open)
    ensures Inv(Init(symbol, exchange, direction, held, entry, open))
  {
  }

  // ------------------------------------------------------------- entry steps keep it

  /** What the ledger and the position say is the same after a further entry fill was taken in. */
  lemma KeepLateEntry(w: World, v: World, newly: int, p: Position)
    requires LedgerInv(w) && PositionInv(w, p) && newly > 0 && EntryInv(v)
    requires v == w.(held := w.held + newly, late := w.late + newly,
                     mem := v.mem, file := v.file, entryOpen := v.entryOpen)
    ensures LedgerInv(v) && PositionInv(v, p.(qty := p.qty + newly))
  {
  }

  lemma SameButEntry(w: World, v: World)
    requires LedgerInv(w) && EntryInv(v) && v == w.(entry := v.entry, entryOpen := v.entryOpen)
    ensures LedgerInv(v)
    ensures forall p :: PositionInv(v, p) == PositionInv(w, p)
  {
  }

  lemma SameExitTask(w: World, v: World, ph: ExitPhase, recovering: bool)
    requires v == w.(entry := v.entry, entryOpen := v.entryOpen) && ExitTaskInv(w, ph, recovering)
    ensures ExitTaskInv(v, ph, recovering)
  {
    hide LiveAt, FilledAt, CursorOp, CursorFilled;
  }

  lemma SameTask(w: World, v: World)
    requires v == w.(entry := v.entry, entryOpen := v.entryOpen) && TaskInv(w)
    ensures TaskInv(v)
  {
    if w.task.Exit? {
      SameExitTask(w, v, w.task.phase, w.task.recovering);
    }
    hide ExitTaskInv, LiveAt, FilledAt, ValidateIdentity, CursorOp, CursorFilled;
  }

  lemma RecoveredEntry(w: World, total: nat, terminal: bool, settled: bool)
    requires EntryInv(w) && DoRecoverEntry(w, total, terminal, settled).Some?
    requires !Rebuilds(w, RecoverEntry(total, terminal, settled))
    ensures var v := DoRecoverEntry(w, total, terminal, settled).value;
            && EntryInv(v) && w.task.Idle?
            && (w.mem.Some? && total > w.held ==>
                  && v == w.(held := total, late := w.late + total - w.held, mem := v.mem, file := v.file,
                             entryOpen := v.entryOpen)
                  && v.mem == v.file == Some(w.mem.value.(qty := w.mem.value.qty + total - w.held)))
            && (w.mem.None? || total <= w.held ==> v == w.(entryOpen := v.entryOpen))
  {
  }

  lemma IdleTask(w: World, v: World)
    requires TaskInv(w) && w.task.Idle? && v.task.Idle? && (w.mem == w.file ==> v.mem == v.file)
    ensures TaskInv(v)
  {
  }

  lemma KeepRecoverEntry(w: World, total: nat, terminal: bool, settled: bool)
    requires Inv(w) && DoRecoverEntry(w, total, terminal, settled).Some?
    requires !Rebuilds(w, RecoverEntry(total, terminal, settled))
    ensures Inv(DoRecoverEntry(w, total, terminal, settled).value)
  {
    hide EntryInv, BookInv, StopInv, ExitInv, PositionInv, TaskInv, DoRecoverEntry, Rebuilds;
    var v := DoRecoverEntry(w, total, terminal, settled).value;
    RecoveredEntry(w, total, terminal, settled);
    IdleTask(w, v);
    if w.mem.Some? && total > w.held {
      KeepLateEntry(w, v, total - w.held, w.mem.value);
    } else {
      SameButEntry(w, v);
    }
  }

  lemma KeepEntryMove(w: World, n: nat, status: Status)
    requires Inv(w)
    ensures DoEntryFill(w, n).Some? ==> Inv(DoEntryFill(w, n).value)
    ensures DoEntryFinish(w, status).Some? ==> Inv(DoEntryFinish(w, status).value)
  {
    hide BookInv, StopInv, ExitInv, PositionInv, TaskInv;
    if DoEntryFill(w, n).Some? {
      SameButEntry(w, DoEntryFill(w, n).value);
      SameTask(w, DoEntryFill(w, n).value);
    }
    if DoEntryFinish(w, status).Some? {
      SameButEntry(w, DoEntryFinish(w, status).value);
      SameTask(w, DoEntryFinish(w, status).value);
    }
  }

  // ------------------------------------------------------------ broker steps keep it

  lemma KeepBrokerStepLedger(w: World, ix: nat, o: Order)
    requires LedgerInv(w) && ix < |w.book| && Live(w.book[ix]) && Advances(w.book[ix], o) && OrderInv(o)
    ensures LedgerInv(w.(book := w.book[ix := o]))
  {
    SumUpdate(w.book, ix, o);
  }

  lemma KeepBrokerStepPosition(w: World, ix: nat, o: Order, p: Position)
    requires LedgerInv(w) && PositionInv(w, p)
    requires ix < |w.book| && Live(w.book[ix]) && Advances(w.book[ix], o) && OrderInv(o)
    ensures PositionInv(w.(book := w.book[ix := o]), p)
  {
  }

  /** An order that is over stays as it is; any other only fills further. */
  lemma BrokerFrame(book: seq<Order>, ix: nat, o: Order, at: Option<nat>)
    requires ix < |book| && Live(book[ix]) && Advances(book[ix], o)
    ensures !LiveAt(book, at) ==> !LiveAt(book[ix := o], at) && FilledAt(book[ix := o], at) == FilledAt(book, at)
    ensures FilledAt(book, at) <= FilledAt(book[ix := o], at)
  {
  }

  lemma KeepBrokerStepExit(w: World, ix: nat, o: Order, ph: ExitPhase, recovering: bool)
    requires ExitTaskInv(w, ph, recovering) && ix < |w.book| && Live(w.book[ix]) && Advances(w.book[ix], o)
    ensures ExitTaskInv(w.(book := w.book[ix := o]), ph, recovering)
  {
    BrokerFrame(w.book, ix, o, w.stopIx);
    BrokerFrame(w.book, ix, o, w.exitIx);
    hide LiveAt, FilledAt, Live, Advances;
  }

  lemma KeepBrokerStepTask(w: World, ix: nat, o: Order)
    requires TaskInv(w) && ix < |w.book| && Live(w.book[ix]) && Advances(w.book[ix], o)
    ensures TaskInv(w.(book := w.book[ix := o]))
  {
    if w.task.Exit? {
      KeepBrokerStepExit(w, ix, o, w.task.phase, w.task.recovering);
    }
    hide ExitTaskInv;
    BrokerFrame(w.book, ix, o, w.stopIx);
    BrokerFrame(w.book, ix, o, w.exitIx);
    hide LiveAt, FilledAt, Live, Advances, ValidateIdentity;
  }

  lemma KeepBrokerStep(w: World, ix: nat, o: Order)
    requires Inv(w) && ix < |w.book| && Live(w.book[ix]) && Advances(w.book[ix], o) && OrderInv(o)
    ensures Inv(w.(book := w.book[ix := o]))
  {
    hide BookInv, StopInv, ExitInv, PositionInv, TaskInv;
    KeepBrokerStepLedger(w, ix, o);
    KeepBrokerStepTask(w, ix, o);
    if w.file.Some? {
      KeepBrokerStepPosition(w, ix, o, w.file.value);
    }
    if w.mem.Some? {
      KeepBrokerStepPosition(w, ix, o, w.mem.value);
    }
  }

  lemma KeepBroker(w: World, e: Event)
    requires Inv(w) && BrokerStep(w, e).Some?
    ensures Inv(BrokerStep(w, e).value)
  {
    var next := BrokerStep(w, e).value;
    assert OrderInv(w.book[e.ix]);
    hide LedgerInv, PositionsInv, TaskInv;
    assert next == w.(book := w.book[e.ix := next.book[e.ix]]);
    KeepBrokerStep(w, e.ix, next.book[e.ix]);
  }

  // --------------------------------------------------------- protection steps keep it

  lemma KeepCreateStopLedger(w: World, trigger: real, tag: string, tick: real)
    requires Inv(w) && DoCreateStop(w, trigger, tag, tick).Some?
    ensures LedgerInv(DoCreateStop(w, trigger, tag, tick).value)
  {
  }

  lemma KeepCreateStopPosition(w: World, trigger: real, tag: string, tick: real)
    requires Inv(w) && DoCreateStop(w, trigger, tag, tick).Some?
    ensures var next := DoCreateStop(w, trigger, tag, tick).value; PositionInv(next, w.mem.value) && TaskInv(next)
  {
    hide BookInv, StopInv;
  }

  lemma KeepCreateStop(w: World, trigger: real, tag: string, tick: real)
    requires Inv(w) && DoCreateStop(w, trigger, tag, tick).Some?
    ensures Inv(DoCreateStop(w, trigger, tag, tick).value)
  {
    KeepCreateStopLedger(w, trigger, tag, tick);
    KeepCreateStopPosition(w, trigger, tag, tick);
    hide LedgerInv, PositionInv;
  }

  lemma KeepSendStopLedger(w: World, accepted: bool, heard: bool)
    requires LedgerInv(w) && TaskInv(w) && DoSendStop(w, accepted, heard).Some?
    ensures LedgerInv(DoSendStop(w, accepted, heard).value)
  {
    if accepted {
      SumAppend(w.book, Order(StopOrder(w.gen), w.stop.requested, 0, TriggerPending));
    }
  }

  lemma KeepSendStop(w: World, accepted: bool, heard: bool)
    requires Inv(w) && DoSendStop(w, accepted, heard).Some?
    ensures Inv(DoSendStop(w, accepted, heard).value)
  {
    KeepSendStopLedger(w, accepted, heard);
    hide BookInv;
  }

  lemma VerifiedRecord(w: World, r: StopResult, s: S.StopRecord)
    requires StopInv(w) && w.gen > 0 && StopPolled(w, r)
    requires S.Mutate(w.stop, S.Verify(VerificationOf(r))) == Ok(s)
    ensures StopInv(w.(stop := s))
  {
    S.MutateKeepsRecord(w.stop, S.Verify(VerificationOf(r)));
  }

  /** A verification write, followed by whatever the caller does next. */
  lemma KeepVerified(w: World, r: StopResult, next: World)
    requires LedgerInv(w) && PositionsInv(w) && w.gen > 0 && StopPolled(w, r)
    requires S.Mutate(w.stop, S.Verify(VerificationOf(r))).Ok?
    requires next == w.(stop := S.Mutate(w.stop, S.Verify(VerificationOf(r))).value, task := next.task)
    requires TaskInv(next)
    ensures Inv(next)
  {
    VerifiedRecord(w, r, next.stop);
    assert StopInv(next);
    hide BookInv, StopInv, ExitInv, PositionInv, TaskInv;
    KeepStopWrite(w, next);
  }

  lemma KeepBeginProtect(w: World)
    requires Inv(w) && DoBeginProtect(w).Some?
    ensures Inv(DoBeginProtect(w).value)
  {
    hide BookInv, StopInv, ExitInv, PositionInv;
    Assemble(w, DoBeginProtect(w).value);
  }

  lemma KeepReconcileStop(w: World)
    requires Inv(w) && DoReconcileStop(w).Some?
    ensures Inv(DoReconcileStop(w).value)
  {
    hide BookInv, StopInv, ExitInv, PositionInv;
    Assemble(w, DoReconcileStop(w).value);
  }

  lemma KeepAttachStop(w: World)
    requires Inv(w) && DoAttachStop(w).Some?
    ensures Inv(DoAttachStop(w).value)
  {
    assert StopInv(DoAttachStop(w).value);
    hide BookInv, StopInv, ExitInv, PositionInv;
    KeepStopWrite(w, DoAttachStop(w).value);
  }

  lemma KeepVerifyStop(w: World, r: StopResult)
    requires Inv(w) && DoVerifyStop(w, r).Some?
    ensures Inv(DoVerifyStop(w, r).value)
  {
    hide BookInv, StopInv, ExitInv, PositionInv;
    KeepVerified(w, r, DoVerifyStop(w, r).value);
  }

  /** What NameStop writes into the position of an unresolved stop. */
  lemma NamedByProtection(w: World, p: Position, named: bool)
    requires LedgerInv(w) && PositionInv(w, p) && w.gen > 0 && !w.stop.resolved
    ensures PositionInv(w, p.(stopOp := if named then Some(w.gen) else None))
  {
  }

  lemma KeepNameStop(w: World, named: bool)
    requires Inv(w) && DoNameStop(w, named).Some?
    ensures Inv(DoNameStop(w, named).value)
  {
    hide BookInv, StopInv, ExitInv, PositionInv;
    NamedByProtection(w, w.mem.value, named);
    Assemble(w, DoNameStop(w, named).value);
  }

  lemma KeepSaveProtection(w: World, resolve: bool)
    requires Inv(w) && DoSaveProtection(w, resolve).Some?
    ensures Inv(DoSaveProtection(w, resolve).value)
  {
    hide BookInv, StopInv, ExitInv, PositionInv;
    Assemble(w, DoSaveProtection(w, resolve).value);
  }

  lemma KeepAbandonProtect(w: World)
    requires Inv(w) && DoAbandonProtect(w).Some?
    ensures Inv(DoAbandonProtect(w).value)
  {
    hide BookInv, StopInv, ExitInv, PositionInv;
    Assemble(w, DoAbandonProtect(w).value);
  }

  lemma KeepRecoverStop(w: World)
    requires Inv(w) && DoRecoverStop(w).Some?
    ensures Inv(DoRecoverStop(w).value)
  {
    hide BookInv, StopInv, ExitInv, PositionInv;
    Assemble(w, DoRecoverStop(w).value);
  }

  // ------------------------------------------------------- coordination steps keep it

  lemma KeepInspectTask(w: World, r: StopResult)
    requires BookInv(w) && StopInv(w) && TaskInv(w) && DoInspect(w, r).Some?
    ensures TaskInv(DoInspect(w, r).value)
  {
  }

  lemma KeepInspect(w: World, r: StopResult)
    requires Inv(w) && DoInspect(w, r).Some?
    ensures Inv(DoInspect(w, r).value)
  {
    KeepInspectTask(w, r);
    hide BookInv, StopInv, ExitInv, PositionInv, TaskInv;
    KeepVerified(w, r, DoInspect(w, r).value);
  }

  lemma RequestedRecord(w: World, r: S.StopRecord, m: S.Mutation)
    requires StopInv(w) && w.gen > 0 && w.mem.Some? && CoveredBy(w, w.mem.value)
    requires m.RequestExit? && m.quantity == w.mem.value.qty && S.Mutate(w.stop, m) == Ok(r)
    ensures StopInv(w.(stop := r)) && r.exitRequested
  {
    S.MutateKeepsRecord(w.stop, m);
  }

  lemma KeepRequestCoordinationTask(w: World, want: Wanted, reason: string)
    requires TaskInv(w) && DoRequestCoordination(w, want, reason).Some?
    requires DoRequestCoordination(w, want, reason).value.stop.exitRequested
    ensures TaskInv(DoRequestCoordination(w, want, reason).value)
  {
  }

  lemma KeepRequestCoordination(w: World, want: Wanted, reason: string)
    requires Inv(w) && DoRequestCoordination(w, want, reason).Some?
    ensures Inv(DoRequestCoordination(w, want, reason).value)
  {
    var next := DoRequestCoordination(w, want, reason).value;
    RequestedRecord(w, next.stop, S.RequestExit(ExitActionOf(want.action), reason, w.mem.value.qty));
    assert StopInv(next);
    hide BookInv, StopInv, ExitInv, PositionInv;
    KeepRequestCoordinationTask(w, want, reason);
    KeepStopWrite(w, next);
  }

  lemma KeepCoordinationVerifyTask(w: World, r: StopResult)
    requires BookInv(w) && StopInv(w) && TaskInv(w) && DoCoordinationVerify(w, r).Some?
    ensures TaskInv(DoCoordinationVerify(w, r).value)
  {
  }

  lemma KeepCoordinationVerify(w: World, r: StopResult)
    requires Inv(w) && DoCoordinationVerify(w, r).Some?
    ensures Inv(DoCoordinationVerify(w, r).value)
  {
    KeepCoordinationVerifyTask(w, r);
    hide BookInv, StopInv, ExitInv, PositionInv, TaskInv;
    KeepVerified(w, r, DoCoordinationVerify(w, r).value);
  }

  lemma KeepReserveCancel(w: World)
    requires Inv(w) && DoReserveCancel(w).Some?
    ensures Inv(DoReserveCancel(w).value)
  {
    S.MutateKeepsRecord(w.stop, S.ReserveCancel);
    assert StopInv(DoReserveCancel(w).value) && w.cancels == 0;
    hide BookInv, StopInv, ExitInv, PositionInv;
    KeepStopWrite(w, DoReserveCancel(w).value);
  }

  lemma KeepCallCancel(w: World)
    requires Inv(w) && DoCallCancel(w).Some?
    ensures Inv(DoCallCancel(w).value)
  {
    assert StopInv(DoCallCancel(w).value);
    hide BookInv, StopInv, ExitInv, PositionInv;
    KeepStopWrite(w, DoCallCancel(w).value);
  }

  // --------------------------------------------------------- stop-fill steps keep it

  lemma KeepReserveFillLedger(w: World)
    requires LedgerInv(w) && TaskInv(w) && DoReserveFill(w).Some?
    ensures LedgerInv(DoReserveFill(w).value) && !w.stop.resolved && !ExitOfThisStop(w)
  {
  }

  lemma KeepReserveFillPosition(w: World)
    requires StopInv(w) && TaskInv(w) && DoReserveFill(w).Some? && !w.stop.resolved && !ExitOfThisStop(w)
    ensures w.mem.Some? && (PositionInv(w, w.mem.value) ==> PositionInv(DoReserveFill(w).value, w.mem.value))
  {
  }

  /** A position that its stop covers exactly has taken in nothing since the stop was created. */
  lemma CoveredIsNotLate(w: World, p: Position)
    requires PositionInv(w, p) && w.late >= 0 && w.gen > 0 && !ExitOfThisStop(w)
    requires p.qty + w.stop.applied == w.stop.requested
    ensures w.late == 0
  {
  }

  lemma KeepReserveFillTask(w: World)
    requires w.late == 0 && StopInv(w) && TaskInv(w) && DoReserveFill(w).Some? && !w.stop.resolved && !ExitOfThisStop(w)
    ensures TaskInv(DoReserveFill(w).value)
  {
  }

  lemma KeepReserveFill(w: World)
    requires Inv(w) && DoReserveFill(w).Some?
    ensures Inv(DoReserveFill(w).value)
  {
    KeepReserveFillLedger(w);
    KeepReserveFillPosition(w);
    CoveredIsNotLate(w, w.mem.value);
    KeepReserveFillTask(w);
    hide BookInv, StopInv, ExitInv, PositionInv;
  }

  lemma KeepBookFill(w: World)
    requires Inv(w) && DoBookFill(w).Some?
    ensures Inv(DoBookFill(w).value)
  {
    assert StopInv(DoBookFill(w).value);
    hide BookInv, StopInv, ExitInv, PositionInv;
    KeepStopWrite(w, DoBookFill(w).value);
  }

  lemma ReducedPosition(w: World, p: Position, newly: int)
    requires LedgerInv(w) && PositionInv(w, p) && w.gen > 0 && !ExitOfThisStop(w) && !w.stop.resolved
    requires w.late == 0
    requires 0 <= newly <= p.qty && p.qty + w.stop.applied == w.stop.requested + newly
    ensures PositionInv(w, p.(qty := p.qty - newly))
  {
  }

  lemma KeepUpdateFromFill(w: World)
    requires Inv(w) && DoUpdateFromFill(w).Some?
    ensures Inv(DoUpdateFromFill(w).value)
  {
    hide BookInv, StopInv, ExitInv, PositionInv;
    ReducedPosition(w, w.mem.value, w.task.newly);
    Assemble(w, DoUpdateFromFill(w).value);
  }

  lemma KeepSaveFill(w: World)
    requires Inv(w) && DoSaveFill(w).Some?
    ensures Inv(DoSaveFill(w).value)
  {
    hide BookInv, StopInv, ExitInv, PositionInv;
    Assemble(w, DoSaveFill(w).value);
  }

  lemma KeepFinishFillTask(w: World)
    requires TaskInv(w) && DoFinishFill(w).Some?
    ensures TaskInv(DoFinishFill(w).value)
  {
  }

  lemma KeepFinishFill(w: World)
    requires Inv(w) && DoFinishFill(w).Some?
    ensures Inv(DoFinishFill(w).value)
  {
    hide BookInv, StopInv, ExitInv, PositionInv;
    KeepFinishFillTask(w);
    ResolvedStop(w);
    var resolve := w.task.newly == 0 || UsableAverage(w.task.result).Some?;
    Assemble(if resolve then WithStopResolved(w) else w, DoFinishFill(w).value);
  }

  // -------------------------------------------------------------- exit steps keep it

  lemma KeepCreateExitLedger(w: World)
    requires Inv(w) && DoCreateExit(w).Some?
    ensures LedgerInv(DoCreateExit(w).value)
  {
    assert PositionInv(w, w.mem.value) && CoveredBy(w, w.mem.value);
    assert ExitFillOfThisStop(w) == w.late;
    hide PositionsInv, TaskInv, PositionInv;
  }

  lemma KeepCreateExitPosition(w: World)
    requires Inv(w) && DoCreateExit(w).Some?
    ensures var next := DoCreateExit(w).value; PositionInv(next, w.mem.value) && TaskInv(next)
  {
    hide BookInv, StopInv;
  }

  lemma KeepCreateExit(w: World)
    requires Inv(w) && DoCreateExit(w).Some?
    ensures Inv(DoCreateExit(w).value)
  {
    KeepCreateExitLedger(w);
    KeepCreateExitPosition(w);
    hide LedgerInv, PositionInv;
  }

  lemma KeepSendExitLedger(w: World, accepted: bool, heard: bool)
    requires LedgerInv(w) && TaskInv(w) && DoSendExit(w, accepted, heard).Some?
    ensures LedgerInv(DoSendExit(w, accepted, heard).value)
  {
    if accepted {
      SumAppend(w.book, Order(ExitOrder(w.exits), w.exit.requested, 0, Open));
    }
  }

  lemma KeepSendExit(w: World, accepted: bool, heard: bool)
    requires Inv(w) && DoSendExit(w, accepted, heard).Some?
    ensures Inv(DoSendExit(w, accepted, heard).value)
  {
    KeepSendExitLedger(w, accepted, heard);
    hide BookInv, StopInv;
  }

  lemma KeepAttachExitTask(w: World)
    requires TaskInv(w) && BookInv(w) && DoAttachExit(w).Some?
    ensures TaskInv(DoAttachExit(w).value)
  {
  }

  lemma KeepAttachExit(w: World)
    requires Inv(w) && DoAttachExit(w).Some?
    ensures Inv(DoAttachExit(w).value)
  {
    var next := DoAttachExit(w).value;
    KeepAttachExitTask(w);
    assert P.RecordInv(w.exit) && (next.exit.orderId.Some? ==> next.exit.orderId == w.exitIx);
    hide BookInv, StopInv, ExitInv, PositionInv;
    ExitWrite(w, next.exit);
    Assemble(w.(exit := next.exit), next);
  }

  lemma KeepVerifyExitTask(w: World, x: P.Execution)
    requires TaskInv(w) && BookInv(w) && ExitInv(w) && DoVerifyExit(w, x).Some?
    ensures TaskInv(DoVerifyExit(w, x).value)
  {
  }

  lemma KeepVerifyExit(w: World, x: P.Execution)
    requires Inv(w) && DoVerifyExit(w, x).Some?
    ensures Inv(DoVerifyExit(w, x).value)
  {
    var next := DoVerifyExit(w, x).value;
    P.MutateKeepsRecord(w.exit, P.Verify(x));
    KeepVerifyExitTask(w, x);
    assert w.exit.orderId.Some? ==> w.exit.orderId == w.exitIx;
    hide BookInv, StopInv, ExitInv, PositionInv;
    ExitWrite(w, next.exit);
    Assemble(w.(exit := next.exit), next);
  }

  /** The reason of the exit is a field that no accounting depends on. */
  lemma ReasonOnly(w: World, p: Position, scalp: bool)
    ensures PositionInv(w, p.(exitIsScalp := scalp)) == PositionInv(w, p)
  {
  }

  lemma KeepRefuseExit(w: World)
    requires Inv(w) && DoRefuseExit(w).Some?
    ensures Inv(DoRefuseExit(w).value)
  {
    hide BookInv, StopInv, ExitInv, PositionInv;
    ReasonOnly(w, w.mem.value, w.task.cleared.scalp);
    Assemble(w, DoRefuseExit(w).value);
  }

  lemma KeepRecoverExit(w: World)
    requires Inv(w) && DoRecoverExit(w).Some?
    ensures Inv(DoRecoverExit(w).value)
  {
    hide BookInv, StopInv, ExitInv, PositionInv;
    Assemble(w, DoRecoverExit(w).value);
  }

  lemma KeepBookExit(w: World)
    requires Inv(w) && DoBookExit(w).Some?
    ensures Inv(DoBookExit(w).value)
  {
    hide BookInv, StopInv, ExitInv, PositionInv;
    Assemble(w, DoBookExit(w).value);
  }

  /** Naming the operation keeps the accounting when the cursor is its own, or zero. */
  lemma NamedPosition(w: World, p: Position, scalp: bool)
    requires LedgerInv(w) && w.exits > 0 && PositionInv(w, p)
    requires CursorOp(p, w.exit.action) == Some(w.exits) || CursorFilled(p, w.exit.action) == 0
    ensures var q := NameExit(p, w.exit.action, w.exits).(exitIsScalp := scalp);
            PositionInv(w, q) && AppliedExit(w, q) == AppliedExit(w, p)
  {
    hide BookInv, StopInv;
  }

  lemma KeepNamedExitTask(w: World)
    requires TaskInv(w) && DoUpdateFromExit(w).Some? && NamesOnly(w, UpdateFromExit)
    requires var m := DoUpdateFromExit(w).value.mem; m.Some? && AppliedExit(w, m.value) == AppliedExit(w, w.mem.value)
    ensures TaskInv(DoUpdateFromExit(w).value)
  {
  }

  lemma KeepNamedExit(w: World)
    requires Inv(w) && DoUpdateFromExit(w).Some? && NamesOnly(w, UpdateFromExit) && CursorOwned(w)
    ensures Inv(DoUpdateFromExit(w).value)
  {
    hide BookInv, StopInv, ExitInv, PositionInv;
    var next := DoUpdateFromExit(w).value;
    NamedPosition(w, w.mem.value, next.mem.value.exitIsScalp);
    KeepNamedExitTask(w);
    Assemble(w, next);
  }

  /** Moving the cursor with the quantity keeps the accounting. */
  lemma MovedPosition(w: World, p: Position, filled: int, average: Option<real>, scalp: bool)
    requires LedgerInv(w) && w.exits > 0 && PositionInv(w, p)
    requires !w.exit.resolved && AppliedExit(w, p) < filled <= ExitFill(w) && filled - AppliedExit(w, p) <= p.qty
    ensures var q := MoveCursor(NameExit(p, w.exit.action, w.exits), w.exit.action, filled, average)
                     .(qty := p.qty - (filled - AppliedExit(w, p)), exitIsScalp := scalp);
            PositionInv(w, q) && AppliedExit(w, q) == filled
  {
    hide BookInv, StopInv;
  }

  /** The step applies a new part of the fill to a position that can bear it. */
  predicate AppliesExit(w: World) {
    && w.task.Exit? && (w.task.phase.ExitReported? || w.task.phase.ExitBooked?) && w.mem.Some?
    && 0 < NewlyConfirmed(w) <= w.mem.value.qty
  }

  lemma KeepUnappliedExitTask(w: World)
    requires TaskInv(w) && DoUpdateFromExit(w).Some? && !NamesOnly(w, UpdateFromExit) && !AppliesExit(w)
    ensures TaskInv(DoUpdateFromExit(w).value)
    ensures DoUpdateFromExit(w).value == w.(task := DoUpdateFromExit(w).value.task)
  {
  }

  lemma KeepUnappliedExit(w: World)
    requires Inv(w) && DoUpdateFromExit(w).Some? && !NamesOnly(w, UpdateFromExit) && !AppliesExit(w)
    ensures Inv(DoUpdateFromExit(w).value)
  {
    hide BookInv, StopInv, ExitInv, PositionInv, TaskInv;
    KeepUnappliedExitTask(w);
    Assemble(w, DoUpdateFromExit(w).value);
  }

  /** What the verified report says about the fill that is about to be applied. */
  predicate ReportFits(w: World) {
    && AppliesExit(w) && w.exits > 0 && !w.exit.resolved && w.mem == w.file
    && NewlyConfirmed(w) == w.task.phase.filled - AppliedExit(w, w.mem.value)
    && w.task.phase.filled <= ExitFill(w)
    && (w.task.phase.terminal ==> ExitOver(w) && w.task.phase.filled == ExitFill(w))
  }

  lemma ReportFitsHere(w: World)
    requires TaskInv(w) && DoUpdateFromExit(w).Some? && AppliesExit(w)
    ensures ReportFits(w)
  {
  }

  lemma KeepAppliedExitTask(w: World)
    requires DoUpdateFromExit(w).Some? && ReportFits(w)
    requires var m := DoUpdateFromExit(w).value.mem; m.Some? ==> AppliedExit(w, m.value) == w.task.phase.filled
    ensures TaskInv(DoUpdateFromExit(w).value)
  {
  }

  lemma AppliedPosition(w: World)
    requires LedgerInv(w) && PositionsInv(w) && DoUpdateFromExit(w).Some? && ReportFits(w)
    ensures var m := DoUpdateFromExit(w).value.mem;
            m.Some? ==> PositionInv(w, m.value) && AppliedExit(w, m.value) == w.task.phase.filled
  {
    hide BookInv, StopInv, ExitInv, PositionInv;
    var m := DoUpdateFromExit(w).value.mem;
    if m.Some? {
      MovedPosition(w, w.mem.value, w.task.phase.filled, w.task.phase.average, m.value.exitIsScalp);
    }
  }

  lemma KeepAppliedExit(w: World)
    requires Inv(w) && DoUpdateFromExit(w).Some? && AppliesExit(w)
    ensures Inv(DoUpdateFromExit(w).value)
  {
    hide BookInv, StopInv, ExitInv, PositionInv, TaskInv;
    ReportFitsHere(w);
    AppliedPosition(w);
    KeepAppliedExitTask(w);
    Assemble(w, DoUpdateFromExit(w).value);
  }

  lemma KeepUpdateFromExit(w: World)
    requires Inv(w) && DoUpdateFromExit(w).Some? && Sound(w, UpdateFromExit)
    ensures Inv(DoUpdateFromExit(w).value)
  {
    hide LedgerInv, PositionsInv, TaskInv, DoUpdateFromExit;
    if NamesOnly(w, UpdateFromExit) {
      KeepNamedExit(w);
    } else if AppliesExit(w) {
      KeepAppliedExit(w);
    } else {
      KeepUnappliedExit(w);
    }
  }

  lemma KeepSaveExit(w: World)
    requires Inv(w) && DoSaveExit(w).Some?
    ensures Inv(DoSaveExit(w).value)
  {
    hide BookInv, StopInv, ExitInv, PositionInv;
    Assemble(w, DoSaveExit(w).value);
  }

  lemma SavedExitFacts(w: World)
    requires TaskInv(w) && w.task.Exit? && w.task.phase.ExitSaved?
    ensures w.exits > 0 && w.mem == w.file && (w.task.phase.resolve || w.task.phase.reprotect ==> ExitApplied(w))
  {
  }

  lemma KeepResolvedExit(w: World)
    requires LedgerInv(w) && PositionsInv(w) && ExitApplied(w) && w.mem == w.file
    ensures Inv(WithExitResolved(w).(task := Idle))
  {
    hide BookInv, StopInv, ExitInv, PositionInv;
    ResolvedExit(w);
    Assemble(WithExitResolved(w), WithExitResolved(w).(task := Idle));
  }

  lemma KeepFinishExit(w: World)
    requires Inv(w) && DoFinishExit(w).Some?
    ensures Inv(DoFinishExit(w).value)
  {
    SavedExitFacts(w);
    hide BookInv, StopInv, ExitInv, PositionInv, ExitTaskInv;
    if w.task.phase.resolve {
      KeepResolvedExit(w);
    } else {
      Assemble(w, w.(task := Idle));
    }
  }

  /** A refused exit leaves its stop accounted for. */
  lemma RefusedIsAccounted(w: World)
    requires Inv(w) && w.task.Refused?
    ensures OldStopAccounted(w) && Quiet(w, w.mem.value)
  {
    hide BookInv, StopInv;
  }

  /** What is known where re-protection starts, after a saved scalp or a refused one. */
  lemma ReprotectFacts(w: World)
    requires Inv(w) && MayReprotect(w.task) && w.mem.Some?
    ensures w.mem == w.file && w.gen > 0 && (w.task.Exit? ==> ExitApplied(w))
    ensures w.task.Refused? ==> OldStopAccounted(w) && Quiet(w, w.mem.value)
  {
    if w.task.Refused? {
      RefusedIsAccounted(w);
    }
    hide BookInv, StopInv, PositionInv;
  }

  lemma AppliedIsQuiet(w: World)
    requires w.mem.Some? && PositionInv(w, w.mem.value) && ExitApplied(w) && OldStopAccounted(w)
             && w.mem.value.stopOp.Some?
    ensures Quiet(w, w.mem.value)
  {
  }

  lemma KeepResolvedOldStop(w: World)
    requires LedgerInv(w) && PositionsInv(w) && w.mem == w.file && w.mem.Some? && Quiet(w, w.mem.value)
    requires StopSettled(w) && w.mem.value.stopOp.Some? && DoResolveOldStop(w).Some?
    requires w.task.Exit? ==> ExitApplied(w)
    requires w.gen > 0
    ensures Inv(DoResolveOldStop(w).value)
  {
    hide BookInv, StopInv, ExitInv, PositionInv;
    ResolvedStop(w);
    Assemble(WithStopResolved(w), DoResolveOldStop(w).value);
  }

  lemma KeepResolveOldStop(w: World)
    requires Inv(w) && DoResolveOldStop(w).Some? && OldStopAccounted(w)
    ensures Inv(DoResolveOldStop(w).value)
  {
    ReprotectFacts(w);
    if w.task.Exit? && w.mem.value.stopOp.Some? {
      AppliedIsQuiet(w);
    }
    hide BookInv, StopInv, ExitInv, PositionInv;
    if w.mem.value.stopOp.Some? {
      KeepResolvedOldStop(w);
    } else {
      Assemble(w, DoResolveOldStop(w).value);
    }
  }

  lemma UnnamedPosition(w: World, p: Position)
    requires LedgerInv(w) && PositionInv(w, p) && (p.stopOp.Some? ==> Quiet(w, p))
    ensures PositionInv(w, p.(stopOp := None))
  {
  }

  lemma KeepResetProtection(w: World)
    requires Inv(w) && DoResetProtection(w).Some?
    ensures Inv(DoResetProtection(w).value)
  {
    hide BookInv, StopInv, ExitInv, PositionInv;
    UnnamedPosition(w, w.mem.value);
    Assemble(w, DoResetProtection(w).value);
  }

  lemma KeepCrash(w: World)
    requires Inv(w)
    ensures Inv(Restarted(w))
  {
    hide BookInv, StopInv, ExitInv, PositionInv;
    Assemble(w, Restarted(w));
  }

  lemma KeepGiveUp(w: World)
    requires Inv(w) && DoGiveUp(w).Some?
    ensures Inv(DoGiveUp(w).value)
  {
    hide BookInv, StopInv, ExitInv, PositionInv;
    Assemble(w, DoGiveUp(w).value);
  }
}
