/** The main results about the exit protocol: every sound run, with crashes anywhere. */
module ExitSafety {
  import opened Wrappers
  import opened Broker
  import S = StopStore
  import P = PendingStore
  import V = OrderVerification
  import opened StopVerification
  import opened StopExit
  import opened ExitProtocol
  import opened ExitInvariant

  // -------------------------------------------------------------- runs keep the invariant

  lemma EntryKeepsInv(w: World, e: Event)
    requires Inv(w) && EntryStep(w, e).Some? && Sound(w, e)
    ensures Inv(EntryStep(w, e).value)
  {
    hide Inv, DoEntryFill, DoEntryFinish, DoRecoverEntry, OldStopAccounted, CursorOwned, NamesOnly;
    match e
    case EntryFill(n) => KeepEntryMove(w, n, Complete);
    case EntryFinish(status) => KeepEntryMove(w, 0, status);
    case RecoverEntry(total, terminal, settled) => KeepRecoverEntry(w, total, terminal, settled);
  }

  lemma SubmissionKeepsInv(w: World, e: Event)
    requires Inv(w) && SubmissionStep(w, e).Some?
    ensures Inv(SubmissionStep(w, e).value)
  {
    hide Inv, DoCreateStop, DoSendStop, DoReconcileStop, DoAttachStop, DoVerifyStop;
    match e
    case CreateStop(trigger, tag, tick) => KeepCreateStop(w, trigger, tag, tick);
    case SendStop(accepted, heard) => KeepSendStop(w, accepted, heard);
    case ReconcileStop => KeepReconcileStop(w);
    case AttachStop => KeepAttachStop(w);
    case VerifyStop(r) => KeepVerifyStop(w, r);
  }

  lemma ProtectionKeepsInv(w: World, e: Event)
    requires Inv(w) && ProtectionStep(w, e).Some?
    ensures Inv(ProtectionStep(w, e).value)
  {
    hide Inv, DoBeginProtect, DoNameStop, DoSaveProtection, DoAbandonProtect, DoRecoverStop;
    match e
    case BeginProtect => KeepBeginProtect(w);
    case NameStop(named) => KeepNameStop(w, named);
    case SaveProtection(resolve) => KeepSaveProtection(w, resolve);
    case AbandonProtect => KeepAbandonProtect(w);
    case RecoverStop => KeepRecoverStop(w);
  }

  lemma CoordinationKeepsInv(w: World, e: Event)
    requires Inv(w) && CoordinationStep(w, e).Some?
    ensures Inv(CoordinationStep(w, e).value)
  {
    hide Inv, DoInspect, DoRequestCoordination, DoCoordinationVerify, DoReserveCancel, DoCallCancel;
    match e
    case InspectStop(r) => KeepInspect(w, r);
    case RequestCoordination(want, reason) => KeepRequestCoordination(w, want, reason);
    case CoordinationVerify(r) => KeepCoordinationVerify(w, r);
    case ReserveCancel => KeepReserveCancel(w);
    case CallCancel => KeepCallCancel(w);
  }

  lemma StopFillKeepsInv(w: World, e: Event)
    requires Inv(w) && StopFillStep(w, e).Some?
    ensures Inv(StopFillStep(w, e).value)
  {
    hide Inv, DoReserveFill, DoBookFill, DoUpdateFromFill, DoSaveFill, DoFinishFill;
    match e
    case ReserveFill => KeepReserveFill(w);
    case BookFill => KeepBookFill(w);
    case UpdateFromFill => KeepUpdateFromFill(w);
    case SaveFill => KeepSaveFill(w);
    case FinishFill => KeepFinishFill(w);
  }

  lemma ExitOrderKeepsInv(w: World, e: Event)
    requires Inv(w) && ExitOrderStep(w, e).Some?
    ensures Inv(ExitOrderStep(w, e).value)
  {
    hide Inv, DoCreateExit, DoRefuseExit, DoSendExit, DoAttachExit, DoVerifyExit, DoRecoverExit;
    match e
    case CreateExit => KeepCreateExit(w);
    case RefuseExit => KeepRefuseExit(w);
    case SendExit(accepted, heard) => KeepSendExit(w, accepted, heard);
    case AttachExit => KeepAttachExit(w);
    case VerifyExit(x) => KeepVerifyExit(w, x);
    case RecoverExit => KeepRecoverExit(w);
  }

  lemma ExitFillKeepsInv(w: World, e: Event)
    requires Inv(w) && ExitFillStep(w, e).Some? && Sound(w, e)
    ensures Inv(ExitFillStep(w, e).value)
  {
    hide Inv, DoBookExit, DoUpdateFromExit, DoSaveExit, DoFinishExit, DoResolveOldStop, DoResetProtection;
    match e
    case BookExit => KeepBookExit(w);
    case UpdateFromExit => KeepUpdateFromExit(w);
    case SaveExit => KeepSaveExit(w);
    case FinishExit => KeepFinishExit(w);
    case ResolveOldStop => KeepResolveOldStop(w);
    case ResetProtection => KeepResetProtection(w);
  }

  lemma StepKeepsInv(w: World, e: Event)
    requires Inv(w) && Step(w, e).Some? && Sound(w, e)
    ensures Inv(Step(w, e).value)
  {
    hide Inv, BrokerStep, EntryStep, SubmissionStep, ProtectionStep, CoordinationStep, StopFillStep, ExitOrderStep;
    hide ExitFillStep, DoGiveUp, Restarted, Sound;
    if BrokerEvent(e) {
      KeepBroker(w, e);
    } else if EntryEvent(e) {
      EntryKeepsInv(w, e);
    } else if SubmissionEvent(e) {
      SubmissionKeepsInv(w, e);
    } else if ProtectionEvent(e) {
      ProtectionKeepsInv(w, e);
    } else if CoordinationEvent(e) {
      CoordinationKeepsInv(w, e);
    } else if StopFillEvent(e) {
      StopFillKeepsInv(w, e);
    } else if ExitOrderEvent(e) {
      ExitOrderKeepsInv(w, e);
    } else if ExitFillEvent(e) {
      ExitFillKeepsInv(w, e);
    } else if e.Crash? {
      KeepCrash(w);
    } else {
      KeepGiveUp(w);
    }
  }

  /** Every step of the run meets the three hypotheses in the state it is taken from. */
  predicate SoundRun(w: World, es: seq<Event>)
    decreases |es|
  {
    es != [] && Step(w, es[0]).Some? ==> Sound(w, es[0]) && SoundRun(Step(w, es[0]).value, es[1..])
  }

  lemma {:induction false} RunKeepsInv(w: World, es: seq<Event>)
    requires Inv(w) && Run(w, es).Some? && SoundRun(w, es)
    ensures Inv(Run(w, es).value)
    decreases |es|
  {
    hide Inv, Step, Sound;
    if es != [] {
      StepKeepsInv(w, es[0]);
      RunKeepsInv(Step(w, es[0]).value, es[1..]);
    }
  }

  // ------------------------------------------------------------------- no oversell

  /** What the order at `ix` may still sell. */
  function OpenAt(book: seq<Order>, ix: Option<nat>): int {
    if LiveAt(book, ix) then book[ix.value].qty - book[ix.value].filled else 0
  }

  lemma {:induction false} ExposureIs(book: seq<Order>, a: Option<nat>, b: Option<nat>)
    requires forall i :: 0 <= i < |book| && Live(book[i]) ==> Some(i) == a || Some(i) == b
    requires a.None? || a != b
    ensures Exposure(book) == SumFilled(book) + OpenAt(book, a) + OpenAt(book, b)
    decreases |book|
  {
    if book != [] {
      var n := |book| - 1;
      forall i | 0 <= i < n && Live(book[..n][i]) ensures Some(i) == a || Some(i) == b {
        assert book[..n][i] == book[i];
      }
      ExposureIs(book[..n], a, b);
    }
  }

  lemma ExposureWithinHeld(w: World)
    requires Inv(w)
    ensures Exposure(w.book) <= w.held
    ensures Exposure(w.book) == SumFilled(w.book) + OpenAt(w.book, w.stopIx) + OpenAt(w.book, w.exitIx)
  {
    ExposureIs(w.book, w.stopIx, w.exitIx);
  }

  lemma {:induction false} SoldWithinExposure(book: seq<Order>)
    requires forall i :: 0 <= i < |book| ==> OrderInv(book[i])
    ensures SumFilled(book) <= Exposure(book)
    decreases |book|
  {
    if book != [] {
      SoldWithinExposure(book[..|book| - 1]);
    }
  }

  /**
   No oversell. After any sound run, with the broker moving between any two steps and
   the process dying between any two, what the stops and market exits have sold, and
   all that the live ones may still sell, is within the part of the entry's fill that was
   taken in, and that within what the broker filled: the broker position cannot change
   sign. The entry may be partly filled at first and go on filling.
   */
  lemma NoOversell(w: World, es: seq<Event>)
    requires Inv(w) && Run(w, es).Some? && SoundRun(w, es)
    ensures var v := Run(w, es).value; SumFilled(v.book) <= Exposure(v.book) <= v.held <= v.entry.filled
  {
    RunKeepsInv(w, es);
    ExposureWithinHeld(Run(w, es).value);
    SoldWithinExposure(Run(w, es).value.book);
  }

  /** One stop operation: its fill and the fill of the exit cleared against it fit its quantity. */
  lemma StopAndExitWithinStop(w: World, es: seq<Event>)
    requires Inv(w) && Run(w, es).Some? && SoundRun(w, es)
    ensures var v := Run(w, es).value;
            v.gen > 0 ==> StopFill(v) + ExitFillOfThisStop(v) <= v.stop.requested
  {
    RunKeepsInv(w, es);
  }

  /** At most one reducing order is live at the broker, whichever kind it is. */
  lemma OneLiveReducingOrder(w: World, es: seq<Event>, i: nat, j: nat)
    requires Inv(w) && Run(w, es).Some? && SoundRun(w, es)
    requires i < |Run(w, es).value.book| && j < |Run(w, es).value.book|
    requires Live(Run(w, es).value.book[i]) && Live(Run(w, es).value.book[j])
    ensures i == j
  {
    RunKeepsInv(w, es);
    var v := Run(w, es).value;
    if Some(i) != v.stopIx || Some(j) != v.stopIx {
      assert v.exitIx.Some? && Live(v.book[v.exitIx.value]);
      assert !LiveAt(v.book, v.stopIx);
    }
  }

  /**
   Wherever a market exit can be sent, no order is live and the exit fits what is left of
   the stop it was cleared against.
   */
  lemma ExitSentOnlyAfterStop(w: World, es: seq<Event>, accepted: bool, heard: bool)
    requires Inv(w) && Run(w, es).Some? && SoundRun(w, es)
    requires DoSendExit(Run(w, es).value, accepted, heard).Some?
    ensures var v := Run(w, es).value;
            && v.stopIx.Some? && !LiveAt(v.book, v.stopIx)
            && 0 < v.exit.requested <= v.stop.requested - StopFill(v)
            && forall i :: 0 <= i < |v.book| ==> !Live(v.book[i])
  {
    RunKeepsInv(w, es);
    hide Run, SoundRun;
  }

  /** A live exit belongs to the one unresolved intent of its family. */
  lemma LiveExitIsUnresolved(w: World, es: seq<Event>, i: nat)
    requires Inv(w) && Run(w, es).Some? && SoundRun(w, es)
    requires var b := Run(w, es).value.book; i < |b| && Live(b[i]) && b[i].origin.ExitOrder?
    ensures var v := Run(w, es).value; v.book[i].origin == ExitOrder(v.exits) && v.exits > 0 && !v.exit.resolved
  {
    RunKeepsInv(w, es);
    hide Run, SoundRun;
  }

  // -------------------------------------------------------------- one cancellation

  /**
   `cancel_order` is called at most once for a stop, and only after the exit request
   and then the reservation have been written.
   */
  lemma OneCancellation(w: World, es: seq<Event>)
    requires Inv(w) && Run(w, es).Some? && SoundRun(w, es)
    ensures var v := Run(w, es).value;
            v.gen > 0 ==> v.cancels <= 1 && (v.cancels == 1 ==> v.stop.cancelAttempted && v.stop.exitRequested)
  {
    RunKeepsInv(w, es);
  }

  /** Wherever the cancel call can be made, it is the first, and request and reservation are durable. */
  lemma CancelOnlyAfterReservation(w: World, es: seq<Event>)
    requires Inv(w) && Run(w, es).Some? && SoundRun(w, es) && DoCallCancel(Run(w, es).value).Some?
    ensures var v := Run(w, es).value; v.cancels == 0 && v.stop.cancelAttempted && v.stop.exitRequested
  {
    RunKeepsInv(w, es);
    hide Run, SoundRun;
  }

  // ---------------------------------------------------------- coverage and its loss

  /**
   The held quantity and the stop fill marked applied together make up the stop's quantity
   and what the entry added later, unless the process died between the two writes: then the
   sum is strictly above, and it is never below while no exit has been sold against the stop.
   */
  lemma CoverageIdentity(w: World, es: seq<Event>)
    requires Inv(w) && Run(w, es).Some? && SoundRun(w, es)
    ensures var v := Run(w, es).value;
            v.gen > 0 && v.file.Some? && !ExitOfThisStop(v) ==>
              v.file.value.qty + v.stop.applied >= v.stop.requested + v.late
    ensures var v := Run(w, es).value;
            v.gen > 0 && v.file.Some? && ExitOfThisStop(v) ==>
              v.file.value.qty + v.stop.applied + AppliedExit(v, v.file.value) == v.stop.requested + v.late
  {
    RunKeepsInv(w, es);
    hide Run, SoundRun, LedgerInv, TaskInv;
  }

  /** The file overstates the position: a stop fill was reserved, and the save was lost. */
  predicate Overstated(w: World, p: Position) {
    p.qty + w.stop.applied > w.stop.requested + w.late
  }

  /** No task that could clear an exit, submit an order or book a stop fill is running. */
  predicate OnlyRecovering(t: Task) {
    || t.Idle?
    || (t.Protect? && !t.protect.Intended?)
    || (t.Exit? && !t.phase.ExitIntended?)
  }

  predicate Stuck(w: World) {
    && w.gen > 0 && !w.stop.resolved && !ExitOfThisStop(w)
    && w.file.Some? && Overstated(w, w.file.value) && (w.mem.Some? && Overstated(w, w.mem.value))
    && OnlyRecovering(w.task)
  }

  /** Dying anywhere between the reservation and the save leaves exactly that. */
  lemma DyingMidFillIsStuck(w: World, es: seq<Event>)
    requires Inv(w) && Run(w, es).Some? && SoundRun(w, es)
    requires var t := Run(w, es).value.task; t.ApplyFill? && (t.fill.Reserved? || t.fill.Booked? || t.fill.Updated?)
    ensures Stuck(Restarted(Run(w, es).value))
  {
    RunKeepsInv(w, es);
    hide Run, SoundRun;
  }

  /** The second state is still waiting, and nothing has been sent, cancelled or booked. */
  predicate StaysStuck(w: World, v: World) {
    && Stuck(v) && v.gen == w.gen && v.exits == w.exits && v.cancels == w.cancels
    && v.stop.applied == w.stop.applied && v.stopBooked == w.stopBooked
    && v.exitBooked == w.exitBooked && |v.book| == |w.book|
  }

  lemma StuckUpdate(w: World)
    requires Inv(w) && Stuck(w) && DoUpdateFromExit(w).Some?
    ensures StaysStuck(w, DoUpdateFromExit(w).value)
  {
    hide BookInv, StopInv;
  }

  lemma StuckOtherwise(w: World, e: Event)
    requires Inv(w) && Stuck(w) && ExitFillStep(w, e).Some? && Sound(w, e) && !e.UpdateFromExit?
    ensures StaysStuck(w, ExitFillStep(w, e).value)
  {
    hide BookInv, StopInv, DoUpdateFromExit;
  }

  lemma StuckExitStep(w: World, e: Event)
    requires Inv(w) && Stuck(w) && ExitFillStep(w, e).Some? && Sound(w, e)
    ensures StaysStuck(w, ExitFillStep(w, e).value)
  {
    if e.UpdateFromExit? {
      StuckUpdate(w);
    } else {
      StuckOtherwise(w, e);
    }
    hide Inv, Stuck, StaysStuck, DoUpdateFromExit, DoBookExit, Sound;
  }

  lemma StuckBrokerStep(w: World, e: Event)
    requires Inv(w) && Stuck(w)
    ensures BrokerStep(w, e).Some? ==> StaysStuck(w, BrokerStep(w, e).value)
  {
    hide Inv;
  }

  lemma StuckBlocks(w: World, e: Event)
    requires w.late >= 0 && Stuck(w)
    ensures CoordinationStep(w, e).None? && StopFillStep(w, e).None?
  {
    assert !Identified(w);
    hide StopPolled, Identified;
  }

  lemma LateIsNat(w: World)
    requires Inv(w)
    ensures w.late >= 0
  {
    hide BookInv, StopInv, ExitInv, PositionsInv, TaskInv;
  }

  lemma StuckProtectStep(w: World, e: Event)
    requires Inv(w) && Stuck(w)
    ensures SubmissionStep(w, e).Some? ==> StaysStuck(w, SubmissionStep(w, e).value)
    ensures ProtectionStep(w, e).Some? ==> StaysStuck(w, ProtectionStep(w, e).value)
  {
    hide BookInv, ExitInv, PositionsInv;
  }

  lemma StuckExitOrderStep(w: World, e: Event)
    requires Inv(w) && Stuck(w)
    ensures ExitOrderStep(w, e).Some? ==> StaysStuck(w, ExitOrderStep(w, e).value)
  {
    hide LedgerInv, PositionsInv;
  }

  lemma StuckEntryStep(w: World, e: Event)
    requires Inv(w) && Stuck(w)
    ensures EntryStep(w, e).Some? ==> StaysStuck(w, EntryStep(w, e).value)
  {
    hide BookInv, StopInv, ExitInv, PositionsInv;
  }

  lemma StuckRestart(w: World)
    requires Inv(w) && Stuck(w)
    ensures StaysStuck(w, Restarted(w)) && (DoGiveUp(w).Some? ==> StaysStuck(w, DoGiveUp(w).value))
  {
    hide Inv;
  }

  lemma StuckStep(w: World, e: Event)
    requires Inv(w) && Stuck(w) && Step(w, e).Some? && Sound(w, e)
    ensures StaysStuck(w, Step(w, e).value)
  {
    hide Inv, Stuck, StaysStuck, Sound;
    hide BrokerStep, EntryStep, SubmissionStep, ProtectionStep, CoordinationStep, StopFillStep, ExitOrderStep;
    hide ExitFillStep;
    StuckBrokerStep(w, e);
    LateIsNat(w);
    StuckBlocks(w, e);
    if EntryEvent(e) {
      StuckEntryStep(w, e);
    } else if SubmissionEvent(e) || ProtectionEvent(e) {
      StuckProtectStep(w, e);
    } else if ExitOrderEvent(e) {
      StuckExitOrderStep(w, e);
    } else if ExitFillEvent(e) {
      StuckExitStep(w, e);
    } else if !BrokerEvent(e) {
      StuckRestart(w);
    }
  }

  /**
   From there no later call ever clears an exit, cancels, submits any order or books
   the fill again: the position waits for a person.
   */
  lemma {:induction false} StuckForEver(w: World, es: seq<Event>)
    requires Inv(w) && Stuck(w) && Run(w, es).Some? && SoundRun(w, es)
    ensures StaysStuck(w, Run(w, es).value)
    decreases |es|
  {
    hide Inv, Stuck, Step, Sound;
    if es != [] {
      StuckStep(w, es[0]);
      StepKeepsInv(w, es[0]);
      StuckForEver(Step(w, es[0]).value, es[1..]);
    }
  }

  /** A stop fill is booked as P&L at most once, whatever happens. */
  lemma StopFillBookedAtMostOnce(w: World, es: seq<Event>)
    requires Inv(w) && Run(w, es).Some? && SoundRun(w, es)
    ensures var v := Run(w, es).value; v.gen > 0 ==> v.stopBooked <= v.stop.applied <= StopFill(v)
  {
    RunKeepsInv(w, es);
  }
}
