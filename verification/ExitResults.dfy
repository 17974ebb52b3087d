/**
 Consequences of the exit protocol's invariant: exactly when its hypotheses are needed,
 conservation across restarts, and progress.
 */
module ExitResults {
  import opened Wrappers
  import opened Broker
  import S = StopStore
  import P = PendingStore
  import V = OrderVerification
  import opened StopVerification
  import opened StopExit
  import opened ExitProtocol
  import opened ExitInvariant
  import opened ExitSafety
  import opened ExitSteps

  // ------------------------------------------- where the hypotheses hold by themselves

  /** While no replacement stop has been created for this exit, re-protection is sound. */
  lemma FirstReprotectionIsSound(w: World)
    requires Inv(w) && DoResolveOldStop(w).Some? && (w.task.Exit? ==> ExitOfThisStop(w))
    ensures OldStopAccounted(w)
  {
  }

  /** The first exit operation of a position owns its cursor. */
  lemma FirstExitOwnsCursor(w: World)
    requires Inv(w) && NamesOnly(w, UpdateFromExit) && DoUpdateFromExit(w).Some? && w.exits <= 1
    ensures CursorOwned(w)
  {
  }

  // ----------------------------------------------- exactly when they are needed

  /** Resolve the named stop, save, create the replacement and have the broker accept it. */
  function Reprotection(trigger: real, tag: string, tick: real): seq<Event> {
    [ResolveOldStop, ResetProtection, CreateStop(trigger, tag, tick), SendStop(true, true)]
  }

  lemma ReprotectionSteps(w: World, w1: World, w2: World, w3: World, v: World, trigger: real, tag: string, tick: real)
    requires DoResolveOldStop(w) == Some(w1) && DoResetProtection(w1) == Some(w2)
    requires DoCreateStop(w2, trigger, tag, tick) == Some(w3) && DoSendStop(w3, true, true) == Some(v)
    ensures w.mem.value.stopOp.None? && w.gen > 0 ==> w.stop.resolved
    ensures v.held == w.held && v.stopIx == Some(|w.book|) && w.mem.value.qty > 0
    ensures v.book == w.book + [Order(StopOrder(w.gen + 1), w.mem.value.qty, 0, TriggerPending)]
  {
  }

  /** All that re-protection does to the broker's book. */
  lemma ReprotectionRun(w: World, trigger: real, tag: string, tick: real)
    requires Run(w, Reprotection(trigger, tag, tick)).Some?
    ensures DoResolveOldStop(w).Some? && w.mem.Some? && (w.mem.value.stopOp.None? && w.gen > 0 ==> w.stop.resolved)
    ensures var v := Run(w, Reprotection(trigger, tag, tick)).value;
            v.held == w.held && v.stopIx == Some(|w.book|) && w.mem.value.qty > 0
            && v.book == w.book + [Order(StopOrder(w.gen + 1), w.mem.value.qty, 0, TriggerPending)]
  {
    assert DoResolveOldStop(w).Some? ==> w.mem.Some?;
    hide DoResolveOldStop, DoResetProtection, DoCreateStop, DoSendStop, Run, Step;
    var create, send := CreateStop(trigger, tag, tick), SendStop(true, true);
    assert Reprotection(trigger, tag, tick) == [ResolveOldStop] + ([ResetProtection] + ([create] + ([send] + [])));
    RunStep(w, ResolveOldStop, [ResetProtection] + ([create] + ([send] + [])));
    StepIs(w, trigger, tag, tick);
    var w1 := DoResolveOldStop(w).value;
    StepIs(w1, trigger, tag, tick);
    RunStep(w1, ResetProtection, [create] + ([send] + []));
    var w2 := DoResetProtection(w1).value;
    StepIs(w2, trigger, tag, tick);
    RunStep(w2, create, [send] + []);
    var w3 := DoCreateStop(w2, trigger, tag, tick).value;
    StepIs(w3, trigger, tag, tick);
    RunStep(w3, send, []);
    ReprotectionSteps(w, w1, w2, w3, DoSendStop(w3, true, true).value, trigger, tag, tick);
  }

  lemma ExposureAppend(book: seq<Order>, o: Order)
    ensures Exposure(book + [o]) == Exposure(book) + if Live(o) then o.qty else o.filled
  {
    assert (book + [o])[..|book|] == book;
  }

  /** What may be sold at the broker just before re-protection, and how the position relates to it. */
  lemma BeforeReprotection(w: World)
    requires Inv(w) && DoResolveOldStop(w).Some? && w.gen > 0
    ensures Exposure(w.book) == SumFilled(w.book) + OpenAt(w.book, w.stopIx)
    ensures SumFilled(w.book) + w.stop.requested + w.late
            == w.held + StopFill(w) + AppliedExitOfThisStop(w, w.mem.value)
    ensures w.mem.value.qty + w.stop.applied + AppliedExitOfThisStop(w, w.mem.value) >= w.stop.requested + w.late
    ensures w.stop.applied <= StopFill(w)
    ensures AppliedExitOfThisStop(w, w.mem.value) >= 0 && OpenAt(w.book, w.stopIx) >= 0
    ensures LiveAt(w.book, w.stopIx) ==> w.book[w.stopIx.value].qty == w.stop.requested
    ensures w.mem.value.stopOp.None? && w.stop.resolved ==>
              OldStopAccounted(w) && Quiet(w, w.mem.value) && StopSettled(w)
  {
    ExposureWithinHeld(w);
  }

  /** The named stop has nothing left to sell, its fill is marked applied, and the position reflects it. */
  predicate NothingLeft(w: World) {
    w.mem.Some? && (w.mem.value.stopOp.Some? ==>
      && OpenAt(w.book, w.stopIx) == 0 && w.stop.applied == StopFill(w)
      && w.mem.value.qty + w.stop.applied + AppliedExitOfThisStop(w, w.mem.value) == w.stop.requested + w.late)
  }

  /** A live stop that has filled completely is the one case that the hypothesis does not grant. */
  lemma NothingLeftIs(w: World)
    requires Inv(w) && DoResolveOldStop(w).Some? && w.gen > 0 && w.mem.value.qty > 0
    ensures OldStopAccounted(w) ==> NothingLeft(w)
    ensures NothingLeft(w) && w.late == 0 ==> OldStopAccounted(w)
  {
    hide Inv, DoResolveOldStop, SumFilled, Exposure, AppliedExitOfThisStop;
    BeforeReprotection(w);
  }

  /**
   Re-protecting an open quantity keeps what the book may sell within what is held if
   and only if the named stop is over, its fill is marked applied, and the local
   quantity reflects it. A live named stop leaves two live orders.
   */
  lemma ReprotectionSafeIff(w: World, trigger: real, tag: string, tick: real)
    requires Inv(w) && w.gen > 0
    requires Run(w, Reprotection(trigger, tag, tick)).Some?
    ensures var v := Run(w, Reprotection(trigger, tag, tick)).value;
            && (Exposure(v.book) <= v.held <==> NothingLeft(w))
            && (w.late == 0 ==> (NothingLeft(w) <==> OldStopAccounted(w)))
            && (LiveAt(w.book, w.stopIx) ==>
                  LiveAt(v.book, w.stopIx) && LiveAt(v.book, v.stopIx) && w.stopIx != v.stopIx)
  {
    hide Inv, Run, DoResolveOldStop, Reprotection, Exposure, SumFilled, AppliedExitOfThisStop;
    ReprotectionRun(w, trigger, tag, tick);
    NothingLeftIs(w);
    BeforeReprotection(w);
    ExposureAppend(w.book, Order(StopOrder(w.gen + 1), w.mem.value.qty, 0, TriggerPending));
  }

  /**
   The position is saved with the operation named, the process dies, the broker moves on
   to `book`, and the recovery verifies `x`: what it takes to be newly confirmed.
   */
  function Recount(w: World, book: seq<Order>, x: P.Execution): Option<int>
    requires NamesOnly(w, UpdateFromExit) && DoUpdateFromExit(w).Some? && w.mem.value.qty >= 0
  {
    var saved := DoSaveExit(DoUpdateFromExit(w).value).value;
    var recovered := DoRecoverExit(Restarted(saved).(book := book));
    if recovered.None? then None
    else
      var v := DoVerifyExit(recovered.value, x);
      if v.None? || v.value.mem.None? then None else Some(NewlyConfirmed(v.value))
  }

  /** Whatever is reported later, only what was not applied yet counts as new. */
  ghost predicate CountsRight(w: World)
    requires NamesOnly(w, UpdateFromExit) && DoUpdateFromExit(w).Some? && w.mem.value.qty >= 0
  {
    forall book, x :: BookMoves(w.book, book) && Recount(w, book, x).Some? ==>
      Recount(w, book, x) == Some(x.filled - AppliedExit(w, w.mem.value))
  }

  lemma RecountIs(w: World, book: seq<Order>, x: P.Execution)
    requires NamesOnly(w, UpdateFromExit) && DoUpdateFromExit(w).Some? && w.exits > 0 && w.mem.value.qty >= 0
    ensures Recount(w, book, x).Some? ==>
              Recount(w, book, x) == Some(x.filled - CursorFilled(w.mem.value, w.exit.action))
  {
    hide ExitPolled;
  }

  lemma CursorIs(w: World)
    requires w.exits > 0 && w.mem.Some?
    ensures CursorOwned(w) ==> AppliedExit(w, w.mem.value) == CursorFilled(w.mem.value, w.exit.action)
    ensures !CursorOwned(w) ==> AppliedExit(w, w.mem.value) == 0 != CursorFilled(w.mem.value, w.exit.action)
  {
  }

  /** The journal takes any result that fits the order. */
  lemma VerificationAccepted(w: World, x: P.Execution)
    requires BookInv(w) && ExitInv(w) && w.exits > 0 && ExitPolled(w, x)
    ensures P.Mutate(w.exit, P.Verify(x)).Ok?
  {
  }

  /** The report of a poll that reached its deadline: the fill so far. */
  function FillSoFar(w: World): P.Execution {
    P.Execution(ExitFill(w), 0, 0, None, "TIMEOUT", false)
  }

  lemma FillSoFarFits(w: World)
    requires BookInv(w) && ExitInv(w) && w.exits > 0 && w.exit.orderId.Some?
    ensures ExitPolled(w, FillSoFar(w)) && P.Mutate(w.exit, P.Verify(FillSoFar(w))).Ok?
  {
    VerificationAccepted(w, FillSoFar(w));
    hide SumFilled;
  }

  lemma RecountGoesThrough(w: World, x: P.Execution)
    requires NamesOnly(w, UpdateFromExit) && DoUpdateFromExit(w).Some? && w.exits > 0 && !w.exit.resolved
    requires w.mem.value.qty >= 0 && w.exit.orderId.Some? && ExitPolled(w, x) && P.Mutate(w.exit, P.Verify(x)).Ok?
    ensures Recount(w, w.book, x).Some?
  {
  }

  lemma NamingFacts(w: World)
    requires TaskInv(w) && PositionsInv(w) && NamesOnly(w, UpdateFromExit)
    ensures w.exits > 0 && !w.exit.resolved && w.mem.Some? && w.mem.value.qty >= 0
  {
  }

  /**
   The first finding, exactly. After a report with no new fill has been saved, every later
   recovery takes as new just what was not applied yet, if and only if the cursor was this
   operation's own or zero.
   */
  lemma CursorExactIff(w: World)
    requires Inv(w) && NamesOnly(w, UpdateFromExit) && DoUpdateFromExit(w).Some? && w.exit.orderId.Some?
    ensures w.mem.value.qty >= 0
    ensures CountsRight(w) <==> CursorOwned(w)
  {
    hide BookInv, StopInv, ExitInv, PositionsInv, TaskInv, NamesOnly, DoUpdateFromExit, Recount, ExitPolled;
    hide CursorOwned, AppliedExit, FillSoFar, BookMoves;
    NamingFacts(w);
    CursorIs(w);
    forall book, x | Recount(w, book, x).Some?
      ensures Recount(w, book, x) == Some(x.filled - CursorFilled(w.mem.value, w.exit.action))
    {
      RecountIs(w, book, x);
    }
    FillSoFarFits(w);
    RecountGoesThrough(w, FillSoFar(w));
    NothingMoves(w.book);
  }

  // ------------------------------------------------- conservation across restarts

  /**
   The same exit is cleared against the same stop, whose quantities stand still; only the
   entry may have added something.
   */
  predicate SameStop(w: World, v: World) {
    && v.clearedGen == w.clearedGen && v.stop.requested == w.stop.requested && v.stop.applied == w.stop.applied
    && v.late - w.late == v.held - w.held
  }

  lemma SameEraEntry(w: World, e: Event)
    requires EntryStep(w, e).Some? && !Rebuilds(w, e)
    ensures var v := EntryStep(w, e).value; v.gen == w.gen && v.exits == w.exits && SameStop(w, v)
  {
    hide V.Sound;
  }

  lemma SameEraSubmission(w: World, e: Event)
    requires SubmissionStep(w, e).Some?
    ensures var v := SubmissionStep(w, e).value;
            v.gen >= w.gen && v.exits == w.exits && (v.gen == w.gen ==> SameStop(w, v))
  {
  }

  lemma SameEraCoordination(w: World, e: Event)
    requires CoordinationStep(w, e).Some?
    ensures var v := CoordinationStep(w, e).value; v.gen == w.gen && v.exits == w.exits && SameStop(w, v)
  {
    hide Identified, StopPolled, Decide;
  }

  lemma ReservedBeforeExit(w: World)
    requires Inv(w) && DoReserveFill(w).Some?
    ensures !ExitOfThisStop(w)
  {
    KeepReserveFillLedger(w);
  }

  /** A stop fill is reserved only while nothing has been sold against the stop. */
  lemma SameEraStopFill(w: World, e: Event)
    requires Inv(w) && StopFillStep(w, e).Some?
    ensures var v := StopFillStep(w, e).value;
            v.gen == w.gen && v.exits == w.exits && (ExitOfThisStop(w) ==> SameStop(w, v))
  {
    hide Inv, ExitOfThisStop;
    if e.ReserveFill? {
      ReservedBeforeExit(w);
    }
  }

  lemma SameEraExitOrder(w: World, e: Event)
    requires ExitOrderStep(w, e).Some?
    ensures var v := ExitOrderStep(w, e).value;
            v.gen == w.gen && v.exits >= w.exits && (v.exits == w.exits ==> SameStop(w, v))
  {
    hide ExitPolled;
  }

  lemma SameEraExitFill(w: World, e: Event)
    requires ExitFillStep(w, e).Some?
    ensures var v := ExitFillStep(w, e).value; v.gen == w.gen && v.exits == w.exits && SameStop(w, v)
  {
  }

  lemma SameEraProtection(w: World, e: Event)
    requires ProtectionStep(w, e).Some? || BrokerStep(w, e).Some?
    ensures ProtectionStep(w, e).Some? ==>
              var v := ProtectionStep(w, e).value; v.gen == w.gen && v.exits == w.exits && SameStop(w, v)
    ensures BrokerStep(w, e).Some? ==>
              var v := BrokerStep(w, e).value; v.gen == w.gen && v.exits == w.exits && SameStop(w, v)
  {
  }

  /** No step forgets a stop or an exit, and none moves a stop's quantities under a newer exit. */
  lemma SameEraStep(w: World, e: Event)
    requires Inv(w) && Step(w, e).Some? && !Rebuilds(w, e)
    ensures var v := Step(w, e).value;
            && v.gen >= w.gen && v.exits >= w.exits
            && (v.gen == w.gen && v.exits == w.exits && ExitOfThisStop(w) ==> ExitOfThisStop(v) && SameStop(w, v))
  {
    hide Inv, BrokerStep, EntryStep, SubmissionStep, ProtectionStep, CoordinationStep, StopFillStep, ExitOrderStep;
    hide ExitFillStep;
    if BrokerEvent(e) || ProtectionEvent(e) { SameEraProtection(w, e); }
    else if EntryEvent(e) { SameEraEntry(w, e); }
    else if SubmissionEvent(e) { SameEraSubmission(w, e); }
    else if CoordinationEvent(e) { SameEraCoordination(w, e); }
    else if StopFillEvent(e) { SameEraStopFill(w, e); }
    else if ExitOrderEvent(e) { SameEraExitOrder(w, e); }
    else if ExitFillEvent(e) { SameEraExitFill(w, e); }
  }

  /** Over a run that ends with the same exit of the same stop, the stop's quantities stand still. */
  lemma {:induction false} SameEra(w: World, es: seq<Event>)
    requires Inv(w) && Run(w, es).Some? && SoundRun(w, es)
    ensures var v := Run(w, es).value;
            && Inv(v) && v.gen >= w.gen && v.exits >= w.exits
            && (v.gen == w.gen && v.exits == w.exits && ExitOfThisStop(w) ==> ExitOfThisStop(v) && SameStop(w, v))
    decreases |es|
  {
    hide Inv, Step, OldStopAccounted, CursorOwned, NamesOnly, Rebuilds;
    if es != [] {
      SameEraStep(w, es[0]);
      StepKeepsInv(w, es[0]);
      SameEra(Step(w, es[0]).value, es[1..]);
    }
  }

  /**
   From the moment an exit is created, over any sequence of broker fills, crashes and
   recoveries, what the position file still holds plus what its cursor says was sold
   is the quantity held at submission and what the entry has added since.
   */
  lemma ExitConserves(w: World, es: seq<Event>)
    requires Inv(w) && DoCreateExit(w).Some?
    requires var c := DoCreateExit(w).value;
             Run(c, es).Some? && SoundRun(c, es) && Run(c, es).value.gen == c.gen && Run(c, es).value.exits == c.exits
    ensures var v := Run(DoCreateExit(w).value, es).value;
            v.file.Some? ==> v.file.value.qty + AppliedExit(v, v.file.value) == w.mem.value.qty + v.held - w.held
  {
    KeepCreateExit(w);
    SameEra(DoCreateExit(w).value, es);
  }

  function RecoveryPass(x: P.Execution): seq<Event> {
    [RecoverExit] + ([VerifyExit(x)] + ([UpdateFromExit] + ([SaveExit] + [])))
  }

  lemma HeldIsNotNegative(w: World)
    requires PositionsInv(w) && w.mem.Some?
    ensures w.mem.value.qty >= 0
  {
  }

  lemma QuietSteps(w: World, x: P.Execution)
    requires w.task.Idle? && w.mem.Some? && w.mem.value.qty >= 0 && w.exits > 0 && !w.exit.resolved && ExitPolled(w, x)
    requires P.Mutate(w.exit, P.Verify(x)).Ok? && x.filled == AppliedExit(w, w.mem.value) && CursorOwned(w)
    ensures DoRecoverExit(w).Some?
    ensures var w1 := DoRecoverExit(w).value;
            DoVerifyExit(w1, x).Some?
            && var w2 := DoVerifyExit(w1, x).value;
               DoBookExit(w2).None? && DoUpdateFromExit(w2).Some?
               && var w3 := DoUpdateFromExit(w2).value;
                  DoSaveExit(w3).Some?
                  && var v := DoSaveExit(w3).value;
                     && v.file.Some? && v.file.value.qty == w.mem.value.qty && v.exitBooked == w.exitBooked
                     && v.book == w.book
                     && v.exits == w.exits && v.exit.action == w.exit.action
                     && AppliedExit(v, v.file.value) == AppliedExit(w, w.mem.value)
  {
  }

  /**
   A recovery that sees no new fill goes through, can book nothing, and leaves the saved
   quantity, the applied fill and the booked P&L as they were: any number of restarts
   without a new fill changes nothing.
   */
  lemma RecoveryWithoutNewFill(w: World, x: P.Execution)
    requires Inv(w) && w.task.Idle? && w.mem.Some? && w.exits > 0 && !w.exit.resolved && ExitPolled(w, x)
    requires x.filled == AppliedExit(w, w.mem.value) && CursorOwned(w)
    ensures Run(w, RecoveryPass(x)).Some?
    ensures var v := Run(w, RecoveryPass(x)).value;
            && v.file.Some? && v.file.value.qty == w.mem.value.qty && v.exitBooked == w.exitBooked && v.book == w.book
            && v.exits == w.exits && AppliedExit(v, v.file.value) == AppliedExit(w, w.mem.value)
  {
    hide Run, Step, DoRecoverExit, DoVerifyExit, DoUpdateFromExit, DoSaveExit, PositionsInv, TaskInv, BookInv;
    hide StopInv, ExitInv;
    VerificationAccepted(w, x);
    HeldIsNotNegative(w);
    QuietSteps(w, x);
    var w1 := DoRecoverExit(w).value;
    var w2 := DoVerifyExit(w1, x).value;
    var w3 := DoUpdateFromExit(w2).value;
    ExitStepIs(w, x);
    ExitStepIs(w1, x);
    ExitSaveStepIs(w2);
    ExitSaveStepIs(w3);
    RunStep(w, RecoverExit, [VerifyExit(x)] + ([UpdateFromExit] + ([SaveExit] + [])));
    RunStep(w1, VerifyExit(x), [UpdateFromExit] + ([SaveExit] + []));
    RunStep(w2, UpdateFromExit, [SaveExit] + []);
    RunStep(w3, SaveExit, []);
    RunStep(DoSaveExit(w3).value, SaveExit, []);
  }

  // --------------------------------------------------------------------- progress

  /** The store accepts the request: the position is no larger than any earlier one. */
  lemma RequestAccepted(w: World, want: Wanted, reason: string)
    requires StopInv(w) && TaskInv(w) && w.task.Idle? && Identified(w)
    requires want.full && want.quantity == w.mem.value.qty && (want.action == P.Exit || want.action == P.ForceExit)
    requires want.scalp ==> want.action == P.Exit
    ensures DoRequestCoordination(w, want, reason).Some?
    ensures var c := DoRequestCoordination(w, want, reason).value;
            && c.task == Coordinate(want, Requested) && c.mem == w.mem && c.book == w.book && c.stopIx == w.stopIx
            && c.stop.requested == w.stop.requested && c.stop.applied == w.stop.applied
            && c.stop.orderId == w.stop.orderId
            && Identified(c)
  {
  }

  /** Verifying a stop that is over decides the clearance: exactly what the stop left. */
  lemma ClearanceDecided(w: World, want: Wanted, r: StopResult)
    requires BookInv(w) && StopInv(w) && w.task == Coordinate(want, Requested) && Identified(w)
    requires want.full && want.quantity == w.mem.value.qty
    requires StopPolled(w, r) && r.terminal
    ensures DoCoordinationVerify(w, r).Some?
    ensures var d := DoCoordinationVerify(w, r).value;
            && d.task == ApplyFill(Checked, r, r.filled - w.stop.applied, w.stop.requested - r.filled, Some(want))
            && d.mem == w.mem && d.stop.requested == w.stop.requested && d.stop.applied == w.stop.applied
            && d.stop.filled == r.filled == StopFill(w)
  {
  }

  /** Applying a confirmed fill: reserve, book if it is priced, and reduce the position. */
  function ApplyingEvents(priced: bool): seq<Event> {
    if priced then [ReserveFill] + ([BookFill] + ([UpdateFromFill] + [])) else [ReserveFill] + ([UpdateFromFill] + [])
  }

  /** What is left to do once the position in memory is what the stop left. */
  predicate FillReflected(d: World, want: Wanted, r: StopResult) {
    && d.task.ApplyFill? && (d.task.fill.Updated? || (d.task.fill.Checked? && d.task.newly == 0))
    && d.task.clearance == d.stop.requested - r.filled && d.task.wanted == Some(want) && d.task.result == r
    && (d.mem.None? <==> r.filled == d.stop.requested)
    && (d.mem.Some? ==> d.mem.value.qty == d.stop.requested - r.filled > 0)
  }

  lemma AppliedFillSteps(d: World, want: Wanted, r: StopResult)
    requires TaskInv(d) && S.RecordInv(d.stop) && d.mem.Some? && want.full && r.filled > d.stop.applied
    requires d.task == ApplyFill(Checked, r, r.filled - d.stop.applied, d.stop.requested - r.filled, Some(want))
    ensures DoReserveFill(d).Some?
    ensures var d1 := DoReserveFill(d).value;
            && (UsableAverage(r).Some? ==> DoBookFill(d1).Some?)
            && var d2 := if UsableAverage(r).Some? then DoBookFill(d1).value else d1;
               && DoUpdateFromFill(d2).Some?
               && var u := DoUpdateFromFill(d2).value;
                  FillReflected(u, want, r) && u.stop.requested == d.stop.requested
  {
  }

  lemma AppliedFill(d: World, want: Wanted, r: StopResult)
    requires TaskInv(d) && S.RecordInv(d.stop) && d.mem.Some? && want.full && r.filled > d.stop.applied
    requires d.task == ApplyFill(Checked, r, r.filled - d.stop.applied, d.stop.requested - r.filled, Some(want))
    ensures Run(d, ApplyingEvents(UsableAverage(r).Some?)).Some?
    ensures var u := Run(d, ApplyingEvents(UsableAverage(r).Some?)).value;
            FillReflected(u, want, r) && u.stop.requested == d.stop.requested
  {
    AppliedFillSteps(d, want, r);
    hide TaskInv, S.RecordInv, FillReflected, Run, Step, DoReserveFill, DoBookFill, DoUpdateFromFill, UsableAverage;
    FillStepIs(d);
    RunStep(d, ReserveFill, if UsableAverage(r).Some? then [BookFill] + ([UpdateFromFill] + [])
            else [UpdateFromFill] + []);
    var d1 := DoReserveFill(d).value;
    FillStepIs(d1);
    RunStep(d1, BookFill, [UpdateFromFill] + []);
    var d2 := if UsableAverage(r).Some? then DoBookFill(d1).value else d1;
    FillStepIs(d2);
    RunStep(d2, UpdateFromFill, []);
    RunStep(DoUpdateFromFill(d2).value, UpdateFromFill, []);
  }

  lemma SavedFill(d: World, want: Wanted, r: StopResult)
    requires FillReflected(d, want, r) && want.full
    ensures Run(d, [SaveFill, FinishFill]).Some?
    ensures var v := Run(d, [SaveFill, FinishFill]).value;
            && (v.mem.None? <==> r.filled == d.stop.requested)
            && (v.mem.Some? ==> v.task == Cleared(want, d.stop.requested - r.filled, r.state))
            && (v.mem.None? ==> v.task == Idle)
  {
    var d1 := DoSaveFill(d).value;
    assert DoFinishFill(d1).Some?;
    assert [SaveFill, FinishFill] == [SaveFill] + ([FinishFill] + []);
    hide Run, Step;
    FillStepIs(d);
    FillStepIs(d1);
    RunStep(d, SaveFill, [FinishFill] + []);
    RunStep(d1, FinishFill, []);
    RunStep(DoFinishFill(d1).value, FinishFill, []);
  }

  /** From the decision on: the fill is applied if there is one, and the exit is cleared. */
  lemma FillCleared(d: World, want: Wanted, r: StopResult)
    requires TaskInv(d) && S.RecordInv(d.stop) && d.mem.Some? && want.full
    requires d.task == ApplyFill(Checked, r, r.filled - d.stop.applied, d.stop.requested - r.filled, Some(want))
    ensures var es := (if r.filled == d.stop.applied then [] else ApplyingEvents(UsableAverage(r).Some?))
                      + [SaveFill, FinishFill];
            && Run(d, es).Some?
            && var v := Run(d, es).value;
               && (v.mem.None? <==> r.filled == d.stop.requested)
               && (v.mem.Some? ==> v.task == Cleared(want, d.stop.requested - r.filled, r.state))
               && (v.mem.None? ==> v.task == Idle)
  {
    if r.filled == d.stop.applied {
      assert FillReflected(d, want, r);
      hide TaskInv, Run;
      SavedFill(d, want, r);
      assert [] + [SaveFill, FinishFill] == [SaveFill, FinishFill];
    } else {
      assert r.filled > d.stop.applied;
      hide TaskInv, FillReflected, Run, UsableAverage, ApplyingEvents;
      AppliedFill(d, want, r);
      var es := ApplyingEvents(UsableAverage(r).Some?);
      SavedFill(Run(d, es).value, want, r);
      RunConcat(d, es, [SaveFill, FinishFill]);
    }
  }

  /** The steps of one full-exit coordination of a stop that the broker already ended. */
  function FullExitEvents(w: World, want: Wanted, reason: string, r: StopResult): seq<Event> {
    [RequestCoordination(want, reason), CoordinationVerify(r)]
    + ((if r.filled == w.stop.applied then [] else ApplyingEvents(UsableAverage(r).Some?)) + [SaveFill, FinishFill])
  }

  /** The decision, with what the rest of the coordination needs to know. */
  lemma DecisionReached(w: World, want: Wanted, reason: string, r: StopResult)
    requires Inv(w) && w.task.Idle? && Identified(w)
    requires want.full && want.quantity == w.mem.value.qty && (want.action == P.Exit || want.action == P.ForceExit)
    requires want.scalp ==> want.action == P.Exit
    requires StopPolled(w, r) && r.terminal
    ensures DoRequestCoordination(w, want, reason).Some?
    ensures var c := DoRequestCoordination(w, want, reason).value;
            && DoCoordinationVerify(c, r).Some?
            && var d := DoCoordinationVerify(c, r).value;
               && TaskInv(d) && S.RecordInv(d.stop) && d.mem.Some?
               && d.task == ApplyFill(Checked, r, r.filled - d.stop.applied, d.stop.requested - r.filled, Some(want))
               && d.stop.requested == w.stop.requested && d.stop.applied == w.stop.applied && r.filled == StopFill(w)
  {
    KeepRequestCoordination(w, want, reason);
    RequestAccepted(w, want, reason);
    var c := DoRequestCoordination(w, want, reason).value;
    hide TaskInv, PositionsInv, BookInv, ExitInv, DoRequestCoordination, DoCoordinationVerify, Identified;
    ClearanceDecided(c, want, r);
    KeepCoordinationVerify(c, r);
  }

  /**
   Exact clearance. Once the stop is over and the coverage identity holds, one full-exit
   coordination goes through: it clears exactly what the stop left, or reports the
   position closed by the stop, and that exactly when the stop filled completely.
   */
  lemma ExactClearance(w: World, want: Wanted, reason: string, r: StopResult)
    requires Inv(w) && w.task.Idle? && Identified(w)
    requires want.full && want.quantity == w.mem.value.qty && (want.action == P.Exit || want.action == P.ForceExit)
    requires want.scalp ==> want.action == P.Exit
    requires StopPolled(w, r) && r.terminal
    ensures Run(w, FullExitEvents(w, want, reason, r)).Some?
    ensures var v := Run(w, FullExitEvents(w, want, reason, r)).value;
            && (v.mem.None? <==> StopFill(w) == w.stop.requested)
            && (v.mem.Some? ==> v.task == Cleared(want, w.stop.requested - StopFill(w), r.state))
  {
    hide Inv, DoRequestCoordination, DoCoordinationVerify, StopPolled, Identified, TaskInv, S.RecordInv, ApplyingEvents;
    hide Run, Step, StopFill, UsableAverage;
    DecisionReached(w, want, reason, r);
    var c := DoRequestCoordination(w, want, reason).value;
    var d := DoCoordinationVerify(c, r).value;
    CoordinationStepIs(w, want, reason, r);
    CoordinationStepIs(c, want, reason, r);
    FillCleared(d, want, r);
    RunStep(w, RequestCoordination(want, reason), [CoordinationVerify(r)] + []);
    RunStep(c, CoordinationVerify(r), []);
    RunStep(d, CoordinationVerify(r), []);
    var head := [RequestCoordination(want, reason)] + ([CoordinationVerify(r)] + []);
    var tail := (if r.filled == w.stop.applied then [] else ApplyingEvents(UsableAverage(r).Some?))
                + [SaveFill, FinishFill];
    assert FullExitEvents(w, want, reason, r) == head + tail;
    RunConcat(w, head, tail);
  }
}
