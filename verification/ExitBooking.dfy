/** When a part of an exit's fill is booked twice: if and only if the process dies in one window. */
module ExitBooking {
  import opened Wrappers
  import opened Broker
  import S = StopStore
  import P = PendingStore
  import opened StopVerification
  import opened StopExit
  import opened ExitProtocol
  import opened ExitInvariant
  import opened ExitSafety
  import opened ExitSteps
  import opened ExitResults

  /** Between booking an exit's P&L and saving the position that shows its fill. */
  predicate InBookingWindow(t: Task) {
    t.Exit? && (t.phase.ExitBooked? || (t.phase.ExitUpdated? && t.phase.booked))
  }

  /** Between the report of an exit and the save of the position it changes. */
  predicate Counting(t: Task) {
    t.Exit? && (t.phase.ExitReported? || t.phase.ExitBooked? || t.phase.ExitUpdated?)
  }

  /** The step does not lose what was booked but not saved. */
  predicate KeepsBooking(w: World, e: Event) {
    e.Crash? || e.GiveUp? ==> !InBookingWindow(w.task)
  }

  predicate KeepsBookings(w: World, es: seq<Event>)
    decreases |es|
  {
    es != [] && Step(w, es[0]).Some? ==> KeepsBooking(w, es[0]) && KeepsBookings(Step(w, es[0]).value, es[1..])
  }

  /** The applied fill of the newest exit, all of it once the position is gone. */
  function Reflected(w: World, p: Option<Position>): int {
    if p.Some? then AppliedExit(w, p.value) else ExitFill(w)
  }

  /** What the journal last recorded of an exit. */
  function OnRecord(r: P.OrderRecord): P.Execution {
    P.Execution(r.filled, r.pending, r.cancelled, r.average, r.status, r.terminal)
  }

  /** The recorded report still fits the order, so a restart may read it again. */
  predicate RecordStands(w: World) {
    && w.exit.orderId.Some? && !w.exit.resolved
    && ExitPolled(w, OnRecord(w.exit)) && P.Mutate(w.exit, P.Verify(OnRecord(w.exit))).Ok?
  }

  /** The report being worked on is the one on record. */
  predicate ReportStands(w: World, filled: int, terminal: bool, average: Option<real>) {
    filled > 0 ==>
      RecordStands(w) && w.exit.filled == filled && w.exit.terminal == terminal && w.exit.average == average
  }

  /** The file does not show the part that was booked, and a restart would find it new and priced. */
  predicate Rebookable(w: World) {
    && RecordStands(w) && w.file.Some? && w.exit.average.Some? && w.bookedTo == w.exit.filled
    && 0 < w.exit.filled - AppliedExit(w, w.file.value) <= w.file.value.qty
    && (AppliedExit(w, w.file.value) > 0 ==> CursorAverage(w.file.value, w.exit.action).Some?)
  }

  /** Booked is within what the file shows as applied, outside the window. */
  predicate BookedInv(w: World) {
    w.exits > 0 ==>
      && w.exitBooked <= w.bookedTo
      && (if InBookingWindow(w.task) then
            && Rebookable(w)
            && (w.task.phase.ExitBooked? ==> w.task.phase.filled == w.bookedTo)
            && (w.task.phase.ExitUpdated? ==> w.bookedTo <= Reflected(w, w.mem))
          else
            && w.bookedTo <= Reflected(w, w.file)
            && (w.task.Exit? && w.task.phase.ExitUpdated? ==> w.bookedTo <= Reflected(w, w.mem))
            && (w.task.Exit? && w.task.phase.ExitReported? ==>
                  ReportStands(w, w.task.phase.filled, w.task.phase.terminal, w.task.phase.average)))
  }

  predicate SameCursors(p: Option<Position>, q: Option<Position>) {
    && (p.None? <==> q.None?)
    && (p.Some? ==> && p.value.exitOp == q.value.exitOp && p.value.exitFilled == q.value.exitFilled
                    && p.value.forceOp == q.value.forceOp && p.value.forceFilled == q.value.forceFilled)
  }

  /** A step that touches neither the newest exit nor a cursor. */
  predicate LeavesExit(w: World, v: World) {
    && v.exits == w.exits && v.exit.action == w.exit.action
    && v.exitBooked == w.exitBooked && v.bookedTo == w.bookedTo && ExitFill(v) >= ExitFill(w)
    && SameCursors(w.file, v.file) && !Counting(v.task)
  }

  lemma LeavesExitKeeps(w: World, v: World)
    requires BookedInv(w) && LeavesExit(w, v) && !InBookingWindow(w.task)
    ensures BookedInv(v)
  {
    hide Rebookable, ReportStands, ExitFill;
  }

  /** The broker only moves on: a report on record goes on fitting. */
  lemma RecordStaysStanding(w: World, v: World, ix: nat)
    requires v == w.(book := v.book) && ix < |w.book| == |v.book| && Live(w.book[ix])
    requires v.book == w.book[ix := v.book[ix]] && Advances(w.book[ix], v.book[ix])
    ensures RecordStands(w) ==> RecordStands(v)
  {
  }

  lemma BrokerKeepsBooked(w: World, e: Event)
    requires BookedInv(w) && BrokerStep(w, e).Some?
    ensures BookedInv(BrokerStep(w, e).value)
  {
    var v := BrokerStep(w, e).value;
    assert v == w.(book := w.book[e.ix := v.book[e.ix]]);
    BrokerFrame(w.book, e.ix, v.book[e.ix], w.exitIx);
    RecordStaysStanding(w, v, e.ix);
    BookKeepsBooked(w, v);
  }

  lemma BookKeepsBooked(w: World, v: World)
    requires BookedInv(w) && v == w.(book := v.book) && ExitFill(w) <= ExitFill(v)
    requires RecordStands(w) ==> RecordStands(v)
    ensures BookedInv(v)
  {
    hide RecordStands, ExitFill;
    CursorsOnly(w, v);
  }

  lemma EntryLeavesExit(w: World, e: Event)
    requires Inv(w) && EntryStep(w, e).Some? && !Rebuilds(w, e) && !Counting(w.task)
    ensures LeavesExit(w, EntryStep(w, e).value)
  {
    hide LedgerInv, PositionsInv, V.Sound, FilledAt;
  }

  /** The entry's own moves at the broker concern no exit at all. */
  lemma EntryKeepsBooked(w: World, e: Event)
    requires Inv(w) && BookedInv(w) && EntryStep(w, e).Some? && !Rebuilds(w, e)
    ensures BookedInv(EntryStep(w, e).value)
  {
    if e.RecoverEntry? {
      EntryLeavesExit(w, e);
      LeavesExitKeeps(w, EntryStep(w, e).value);
    } else {
      var v := EntryStep(w, e).value;
      assert v == w.(entry := v.entry);
      OnlyEntryMoves(w, v);
    }
    hide Inv, BookedInv, EntryStep;
  }

  lemma OnlyEntryMoves(w: World, v: World)
    requires BookedInv(w) && v == w.(entry := v.entry)
    ensures BookedInv(v)
  {
  }

  lemma SubmissionLeavesExit(w: World, e: Event)
    requires Inv(w) && SubmissionStep(w, e).Some?
    ensures LeavesExit(w, SubmissionStep(w, e).value)
  {
    hide StopPolled, StopInv, ExitInv, PositionsInv, TaskInv;
  }

  lemma ProtectionLeavesExit(w: World, e: Event)
    requires Inv(w) && ProtectionStep(w, e).Some?
    ensures LeavesExit(w, ProtectionStep(w, e).value)
  {
    hide BookInv, StopInv, ExitInv, PositionsInv;
  }

  lemma CoordinationLeavesExit(w: World, e: Event)
    requires CoordinationStep(w, e).Some?
    ensures LeavesExit(w, CoordinationStep(w, e).value)
  {
    hide StopPolled, Identified, Decide;
  }

  /** The applied fill of a position depends on the newest exit alone. */
  lemma CursorsOnly(w: World, v: World)
    ensures v.exits == w.exits && v.exit.action == w.exit.action ==> forall p :: AppliedExit(v, p) == AppliedExit(w, p)
  {
  }

  /** A position that a stop fill reduced shows all of the earlier exit. */
  lemma ReducedShowsExit(w: World)
    requires Inv(w) && w.exits > 0 && w.task.ApplyFill? && w.task.fill.Updated? && w.mem.Some?
    ensures AppliedExit(w, w.mem.value) == ExitFill(w)
  {
  }

  lemma ShownAtMostFilled(w: World, p: Position)
    requires PositionInv(w, p)
    ensures 0 <= AppliedExit(w, p) <= ExitFill(w)
  {
  }

  lemma FileShowsAtMostFilled(w: World)
    requires Inv(w) && w.exits > 0
    ensures w.file.Some? ==> AppliedExit(w, w.file.value) <= ExitFill(w)
    ensures w.task.ApplyFill? && w.task.fill.Updated? && w.mem.Some? ==> AppliedExit(w, w.mem.value) == ExitFill(w)
  {
    if w.task.ApplyFill? && w.task.fill.Updated? && w.mem.Some? {
      ReducedShowsExit(w);
    }
    hide LedgerInv, TaskInv;
  }

  lemma StopFillKeepsBooked(w: World, e: Event)
    requires Inv(w) && BookedInv(w) && StopFillStep(w, e).Some?
    ensures BookedInv(StopFillStep(w, e).value)
  {
    hide LedgerInv, PositionsInv, AppliedExit, Rebookable, ReportStands;
    if w.exits > 0 {
      FileShowsAtMostFilled(w);
    }
    CursorsOnly(w, StopFillStep(w, e).value);
  }

  lemma CreationStartsAtZero(w: World)
    requires Inv(w)
    ensures DoCreateExit(w).Some? ==>
              BookedInv(DoCreateExit(w).value) && ExitOrderStep(w, CreateExit) == DoCreateExit(w)
  {
    if DoCreateExit(w).Some? {
      KeepCreateExitPosition(w);
    }
    hide LedgerInv, PositionsInv;
  }

  lemma ExitOrderLeavesExit(w: World, e: Event)
    requires Inv(w) && ExitOrderStep(w, e).Some? && (e.RefuseExit? || e.SendExit? || e.RecoverExit?)
    ensures LeavesExit(w, ExitOrderStep(w, e).value) && !InBookingWindow(w.task)
  {
    hide ExitPolled, StopInv, ExitInv, PositionsInv;
  }

  lemma VerifyingKeepsBooked(w: World, x: P.Execution)
    requires Inv(w) && BookedInv(w) && DoVerifyExit(w, x).Some?
    ensures BookedInv(DoVerifyExit(w, x).value)
  {
    hide BookInv, StopInv, ExitInv, PositionsInv, FilledAt, V.Sound;
    CursorsOnly(w, DoVerifyExit(w, x).value);
  }

  lemma AttachingKeepsBooked(w: World)
    requires Inv(w) && BookedInv(w) && DoAttachExit(w).Some?
    ensures BookedInv(DoAttachExit(w).value)
  {
    hide BookInv, StopInv, ExitInv, PositionsInv, FilledAt, RecordStands;
    CursorsOnly(w, DoAttachExit(w).value);
  }

  lemma ExitOrderKeepsBooked(w: World, e: Event)
    requires Inv(w) && BookedInv(w) && ExitOrderStep(w, e).Some?
    ensures BookedInv(ExitOrderStep(w, e).value)
  {
    hide Inv, LeavesExit, BookedInv, InBookingWindow, DoCreateExit, DoRefuseExit, DoSendExit, DoAttachExit;
    hide DoVerifyExit, DoRecoverExit;
    if e.CreateExit? {
      CreationStartsAtZero(w);
    } else if e.VerifyExit? {
      VerifyingKeepsBooked(w, e.execution);
    } else if e.AttachExit? {
      AttachingKeepsBooked(w);
    } else {
      ExitOrderLeavesExit(w, e);
      LeavesExitKeeps(w, ExitOrderStep(w, e).value);
    }
  }

  // ------------------------------------------------------------ booking and saving

  lemma BookingStart(w: World)
    requires Inv(w) && DoBookExit(w).Some?
    ensures w.exits > 0 && w.mem.Some? && w.mem == w.file
    ensures NewlyConfirmed(w) == w.task.phase.filled - AppliedExit(w, w.mem.value)
    ensures 0 <= AppliedExit(w, w.mem.value)
  {
    ShownAtMostFilled(w, w.mem.value);
    hide LedgerInv, PositionsInv;
  }

  /** Outside the window, what is booked next was never booked before. */
  lemma BookingIsNew(w: World)
    requires Inv(w) && BookedInv(w)
    ensures !BooksTwice(w)
  {
    if DoBookExit(w).Some? {
      BookingStart(w);
    }
    hide Inv, RecordStands, Rebookable, ReportStands;
  }

  lemma BookingKeepsBooked(w: World)
    requires Inv(w) && BookedInv(w) && DoBookExit(w).Some?
    ensures BookedInv(DoBookExit(w).value)
  {
    BookingStart(w);
    hide Inv, ExitPolled;
  }

  lemma NamingKeepsBooked(w: World)
    requires Inv(w) && BookedInv(w) && DoUpdateFromExit(w).Some? && NamesOnly(w, UpdateFromExit) && CursorOwned(w)
    ensures BookedInv(DoUpdateFromExit(w).value)
  {
    var v := DoUpdateFromExit(w).value;
    NamedPosition(w, w.mem.value, v.mem.value.exitIsScalp);
    hide LedgerInv, PositionsInv;
  }

  lemma ApplyingKeepsBooked(w: World)
    requires Inv(w) && BookedInv(w) && DoUpdateFromExit(w).Some? && AppliesExit(w)
    ensures BookedInv(DoUpdateFromExit(w).value)
  {
    ReportFitsHere(w);
    AppliedPosition(w);
    ShownAtMostFilled(w, w.mem.value);
    hide LedgerInv, PositionsInv, TaskInv, RecordStands;
  }

  lemma UnappliedKeepsBooked(w: World)
    requires Inv(w) && BookedInv(w) && DoUpdateFromExit(w).Some? && !NamesOnly(w, UpdateFromExit) && !AppliesExit(w)
    ensures BookedInv(DoUpdateFromExit(w).value)
  {
    KeepUnappliedExitTask(w);
    hide LedgerInv, PositionsInv;
  }

  lemma ExitFillKeepsBooked(w: World, e: Event)
    requires Inv(w) && BookedInv(w) && ExitFillStep(w, e).Some? && Sound(w, e)
    ensures BookedInv(ExitFillStep(w, e).value)
  {
    hide LedgerInv, PositionsInv, DoBookExit, DoUpdateFromExit, Rebookable, ReportStands;
    if e.BookExit? {
      BookingKeepsBooked(w);
    } else if e.UpdateFromExit? {
      if NamesOnly(w, e) {
        NamingKeepsBooked(w);
      } else if AppliesExit(w) {
        ApplyingKeepsBooked(w);
      } else {
        UnappliedKeepsBooked(w);
      }
    }
  }

  lemma RestartKeepsBooked(w: World)
    requires BookedInv(w) && !InBookingWindow(w.task)
    ensures BookedInv(Restarted(w)) && (DoGiveUp(w).Some? ==> BookedInv(DoGiveUp(w).value))
  {
  }

  lemma NotBooking(w: World, e: Event)
    requires SubmissionStep(w, e).Some? || ProtectionStep(w, e).Some? || CoordinationStep(w, e).Some?
    ensures !InBookingWindow(w.task)
  {
    hide StopPolled, Identified, Decide;
  }

  lemma StepKeepsBooked(w: World, e: Event)
    requires Inv(w) && BookedInv(w) && Step(w, e).Some? && Sound(w, e) && KeepsBooking(w, e)
    ensures BookedInv(Step(w, e).value)
  {
    hide Inv, LeavesExit, BookedInv, InBookingWindow, OldStopAccounted, CursorOwned, NamesOnly, Rebuilds, Restarted;
    hide BrokerStep, EntryStep, SubmissionStep, ProtectionStep, CoordinationStep, StopFillStep, ExitOrderStep;
    hide ExitFillStep, DoGiveUp;
    var v := Step(w, e).value;
    if BrokerEvent(e) {
      BrokerKeepsBooked(w, e);
    } else if EntryEvent(e) {
      EntryKeepsBooked(w, e);
    } else if SubmissionEvent(e) || ProtectionEvent(e) || CoordinationEvent(e) {
      if SubmissionEvent(e) {
        SubmissionLeavesExit(w, e);
      } else if ProtectionEvent(e) {
        ProtectionLeavesExit(w, e);
      } else {
        CoordinationLeavesExit(w, e);
      }
      NotBooking(w, e);
      LeavesExitKeeps(w, v);
    } else if StopFillEvent(e) {
      StopFillKeepsBooked(w, e);
    } else if ExitOrderEvent(e) {
      ExitOrderKeepsBooked(w, e);
    } else if ExitFillEvent(e) {
      ExitFillKeepsBooked(w, e);
    } else {
      RestartKeepsBooked(w);
    }
  }

  // ---------------------------------------------------------------------- the results

  /** P&L is about to be booked for a part of the fill that was booked before. */
  predicate BooksTwice(w: World) {
    DoBookExit(w).Some? && w.task.phase.filled - NewlyConfirmed(w) < w.bookedTo
  }

  /**
   No part of an exit's fill is booked twice, and so no exit for more than its fill, in any
   run in which the process does not die (and no call gives up) inside the window.
   */
  lemma {:induction false} ExitBookedAtMostOnce(w: World, es: seq<Event>)
    requires Inv(w) && BookedInv(w) && Run(w, es).Some? && SoundRun(w, es) && KeepsBookings(w, es)
    ensures var v := Run(w, es).value;
            && Inv(v) && BookedInv(v) && !BooksTwice(v)
            && (v.exits > 0 ==> v.exitBooked <= v.bookedTo <= ExitFill(v))
    decreases |es|
  {
    hide Inv, Step, Sound, BookedInv, KeepsBooking, BooksTwice;
    if es != [] {
      StepKeepsBooked(w, es[0]);
      StepKeepsInv(w, es[0]);
      ExitBookedAtMostOnce(Step(w, es[0]).value, es[1..]);
    } else {
      BookingIsNew(w);
      if w.exits > 0 {
        BookedWithinFill(w);
      }
    }
  }

  lemma BookedWithinFill(w: World)
    requires Inv(w) && BookedInv(w) && w.exits > 0
    ensures w.exitBooked <= w.bookedTo <= ExitFill(w)
  {
    if w.file.Some? {
      ShownAtMostFilled(w, w.file.value);
    }
    if RecordStands(w) {
      RecordWithinFill(w);
    }
    hide LedgerInv, PositionsInv;
  }

  lemma RecordWithinFill(w: World)
    requires Inv(w) && w.exits > 0 && RecordStands(w)
    ensures w.exit.filled <= ExitFill(w)
  {
  }

  /** From `w`, some run that dies in no window comes to book a part of a fill a second time. */
  ghost predicate MayBookTwice(w: World) {
    exists es :: Run(w, es).Some? && SoundRun(w, es) && KeepsBookings(w, es) && BooksTwice(Run(w, es).value)
  }

  function ReadAgain(w: World): seq<Event> {
    [RecoverExit] + ([VerifyExit(OnRecord(w.exit))] + [])
  }

  lemma ReadsAgain(w: World)
    requires w.exits > 0 && Rebookable(w)
    ensures var r := Restarted(w);
            && DoRecoverExit(r).Some?
            && DoVerifyExit(DoRecoverExit(r).value, OnRecord(w.exit)).Some?
            && BooksTwice(DoVerifyExit(DoRecoverExit(r).value, OnRecord(w.exit)).value)
  {
  }

  /** Dying in the window: the restart reads the same report, and books the same shares again. */
  lemma DyingInWindowBooksTwice(w: World)
    requires w.exits > 0 && Rebookable(w)
    ensures MayBookTwice(Restarted(w))
  {
    hide Run, Step, DoRecoverExit, DoVerifyExit, BooksTwice, Rebookable, Restarted;
    ReadsAgain(w);
    var r, x := Restarted(w), OnRecord(w.exit);
    var r1 := DoRecoverExit(r).value;
    var r2 := DoVerifyExit(r1, x).value;
    ExitStepIs(r, x);
    ExitStepIs(r1, x);
    RunStep(r, RecoverExit, [VerifyExit(x)] + []);
    RunStep(r1, VerifyExit(x), []);
    RunStep(r2, VerifyExit(x), []);
    ReadingIsHarmless(r1, VerifyExit(x), r2, []);
    ReadingIsHarmless(r, RecoverExit, r1, [VerifyExit(x)] + []);
    assert Run(r, ReadAgain(w)) == Some(r2);
  }

  lemma ReadingIsHarmless(w: World, e: Event, v: World, es: seq<Event>)
    requires Step(w, e) == Some(v) && (e.RecoverExit? || e.VerifyExit?) && SoundRun(v, es) && KeepsBookings(v, es)
    ensures SoundRun(w, [e] + es) && KeepsBookings(w, [e] + es)
  {
    hide Step;
    assert ([e] + es)[1..] == es;
  }

  /**
   The third finding, exactly. Dying in a state can lead to booking a part of an exit's fill
   twice if and only if that state lies between booking it and saving the position.
   */
  lemma DyingBooksTwiceIff(w: World)
    requires Inv(w) && BookedInv(w)
    ensures MayBookTwice(Restarted(w)) <==> InBookingWindow(w.task)
  {
    hide Inv, BooksTwice, Rebookable, Restarted, Run, SoundRun, KeepsBookings;
    if InBookingWindow(w.task) {
      WindowHasExit(w);
      DyingInWindowBooksTwice(w);
    } else {
      RestartKeepsBooked(w);
      KeepCrash(w);
      forall es | Run(Restarted(w), es).Some? && SoundRun(Restarted(w), es) && KeepsBookings(Restarted(w), es)
        ensures !BooksTwice(Run(Restarted(w), es).value)
      {
        ExitBookedAtMostOnce(Restarted(w), es);
      }
    }
  }

  lemma WindowHasExit(w: World)
    requires Inv(w) && InBookingWindow(w.task)
    ensures w.exits > 0
  {
    hide LedgerInv, PositionsInv;
  }
}
