/** What each write and call of the controller changes: the vocabulary of its methods' contracts. */
module ExitDeskSteps {
  import opened Wrappers
  import opened Broker
  import S = StopStore
  import P = PendingStore
  import V = OrderVerification
  import opened StopVerification
  import opened StopExit
  import opened ExitProtocol
  import opened ExitInvariant
  import opened ExitSafety
  import opened ExitSteps

  lemma RunExtends(start: World, log: seq<Event>, e: Event)
    requires Run(start, log).Some?
    ensures Run(start, log + [e]) == Step(Run(start, log).value, e)
  {
    hide Step;
    RunConcat(start, log, [e]);
    RunStep(Run(start, log).value, e, []);
    assert [e] == [e] + [];
    if Step(Run(start, log).value, e).Some? {
      RunStep(Step(Run(start, log).value, e).value, e, []);
    }
  }

  /** What a step that is not a creation, a submission or a cancellation leaves alone. */
  predicate Frame(w: World, e: Event, v: World) {
    && v.exits == (if e.CreateExit? then w.exits + 1 else w.exits)
    && v.gen == (if e.CreateStop? then w.gen + 1 else w.gen)
    && (if e.SendExit? || e.SendStop? then |w.book| <= |v.book| <= |w.book| + 1 else |v.book| == |w.book|)
    && (e.CreateStop? || v.cancels == if e.CallCancel? then w.cancels + 1 else w.cancels)
    && (e.RecoverEntry? || v.held == w.held)
  }

  lemma FrameOfProtection(w: World, e: Event)
    ensures BrokerStep(w, e).Some? ==>
              Frame(w, e, BrokerStep(w, e).value) && BrokerStep(w, e).value == w.(book := BrokerStep(w, e).value.book)
    ensures EntryStep(w, e).Some? ==> Frame(w, e, EntryStep(w, e).value) && EntryStep(w, e).value.book == w.book
    ensures SubmissionStep(w, e).Some? ==> Frame(w, e, SubmissionStep(w, e).value)
    ensures ProtectionStep(w, e).Some? ==> Frame(w, e, ProtectionStep(w, e).value)
  {
    hide StopPolled, V.Sound;
  }

  lemma FrameOfCoordination(w: World, e: Event)
    ensures CoordinationStep(w, e).Some? ==> Frame(w, e, CoordinationStep(w, e).value)
    ensures StopFillStep(w, e).Some? ==> Frame(w, e, StopFillStep(w, e).value)
  {
    hide StopPolled, Identified, Decide;
  }

  lemma FrameOfExit(w: World, e: Event)
    ensures ExitOrderStep(w, e).Some? ==> Frame(w, e, ExitOrderStep(w, e).value)
    ensures ExitFillStep(w, e).Some? ==> Frame(w, e, ExitFillStep(w, e).value)
  {
    hide ExitPolled, NewlyConfirmed, Priced;
  }

  lemma StepFrame(w: World, e: Event)
    requires Step(w, e).Some?
    ensures Frame(w, e, Step(w, e).value)
    ensures BrokerEvent(e) ==> Step(w, e).value == w.(book := Step(w, e).value.book)
    ensures e.Crash? ==> Step(w, e).value == Restarted(w)
  {
    hide BrokerStep, EntryStep, SubmissionStep, ProtectionStep, CoordinationStep, StopFillStep, ExitOrderStep;
    hide ExitFillStep;
    FrameOfProtection(w, e);
    FrameOfCoordination(w, e);
    FrameOfExit(w, e);
  }

  lemma CrashIsEnabled(w: World)
    ensures Step(w, Crash) == Some(Restarted(w))
  {
  }

  /** A confirmed stop fill, fully applied: what the record, the file and the desk then say. */
  function FillOutcome(w: World): World
    requires w.task.ApplyFill? && w.mem.Some?
  {
    var r, newly := w.task.result, w.task.newly;
    var priced := UsableAverage(r).Some?;
    var applied := if newly > 0 then w.stop.(applied := r.filled, appliedAverage := UsableAverage(r)) else w.stop;
    var position := if newly == 0 then w.mem
                    else if w.mem.value.qty == newly then None else Some(w.mem.value.(qty := w.mem.value.qty - newly));
    var stop := if newly == 0 || priced then applied.(resolved := true, active := false) else applied;
    var booked := if newly > 0 && priced then w.stopBooked + newly else w.stopBooked;
    var clears := w.task.wanted.Some? && position.Some? && w.task.clearance > 0
                  && w.task.clearance == if w.task.wanted.value.full then position.value.qty
                                         else w.task.wanted.value.quantity;
    w.(stop := stop, mem := position, file := position, stopBooked := booked,
       task := if clears then Cleared(w.task.wanted.value, w.task.clearance, r.state) else Idle)
  }

  /** The fill reserved, booked if it is priced, and taken off the position in memory. */
  function Reduced(w: World): World
    requires w.task.ApplyFill? && w.mem.Some?
  {
    var r, newly := w.task.result, w.task.newly;
    w.(stop := w.stop.(applied := r.filled, appliedAverage := UsableAverage(r)),
       stopBooked := if UsableAverage(r).Some? then w.stopBooked + newly else w.stopBooked,
       mem := if w.mem.value.qty == newly then None else Some(w.mem.value.(qty := w.mem.value.qty - newly)),
       task := w.task.(fill := Updated))
  }

  function ReservedOnly(w: World): World
    requires w.task.ApplyFill?
  {
    w.(stop := w.stop.(applied := w.task.result.filled, appliedAverage := UsableAverage(w.task.result)),
       task := w.task.(fill := Reserved))
  }

  function BookedToo(w: World): World
    requires w.task.ApplyFill?
  {
    if UsableAverage(w.task.result).Some?
    then ReservedOnly(w).(stopBooked := w.stopBooked + w.task.newly, task := w.task.(fill := Booked))
    else ReservedOnly(w)
  }

  function SavedOnly(w: World): World
    requires w.task.ApplyFill?
  {
    w.(file := w.mem, task := w.task.(fill := Saved))
  }

  /** The position saved and the operation finished. */
  function Finished(w: World): World
    requires w.task.ApplyFill?
  {
    DoFinishFill(SavedOnly(w)).value
  }

  lemma ReserveStage(w: World)
    requires CanApply(w) && w.task.newly > 0
    ensures Step(w, ReserveFill) == Some(ReservedOnly(w))
  {
    hide Step;
    FillStepIs(w);
  }

  lemma BookStage(w: World, book: seq<Order>)
    requires CanApply(w) && w.task.newly > 0 && UsableAverage(w.task.result).Some?
    ensures Step(ReservedOnly(w).(book := book), BookFill) == Some(BookedToo(w).(book := book))
  {
    hide Step;
    FillStepIs(ReservedOnly(w).(book := book));
  }

  lemma UpdateStage(w: World, book: seq<Order>)
    requires CanApply(w) && w.task.newly > 0
    ensures Step(BookedToo(w).(book := book), UpdateFromFill) == Some(Reduced(w).(book := book))
  {
    hide Step;
    FillStepIs(BookedToo(w).(book := book));
  }

  lemma SaveStage(w: World)
    requires w.task.ApplyFill? && (w.task.fill.Updated? || (w.task.fill.Checked? && w.task.newly == 0))
    ensures Step(w, SaveFill) == Some(SavedOnly(w))
  {
    hide Step;
    FillStepIs(w);
  }

  lemma FinishStage(w: World, book: seq<Order>)
    requires w.task.ApplyFill?
    ensures Step(SavedOnly(w).(book := book), FinishFill) == Some(Finished(w).(book := book))
  {
    hide Step;
    FillStepIs(SavedOnly(w).(book := book));
  }

  lemma OutcomeIs(w: World)
    requires CanApply(w)
    ensures Finished(if w.task.newly > 0 then Reduced(w) else w) == FillOutcome(w)
  {
  }

  /** Every order sent has a durable intent of its own, of at most this many new ones. */
  predicate Intents(w: World, v: World, exits: nat, stops: nat) {
    && w.exits <= v.exits <= w.exits + exits && w.gen <= v.gen <= w.gen + stops
    && |w.book| <= |v.book| <= |w.book| + (v.exits - w.exits) + (v.gen - w.gen)
  }

  lemma BrokerMovesBook(w: World, e: Event)
    requires BrokerStep(w, e).Some?
    ensures BookMoves(w.book, BrokerStep(w, e).value.book)
  {
  }

  lemma StepMovesBook(w: World, e: Event)
    requires BrokerEvent(e) && Step(w, e).Some?
    ensures BookMoves(w.book, Step(w, e).value.book)
  {
    hide BrokerStep;
    BrokerMovesBook(w, e);
  }

  lemma BookMovesOn(a: seq<Order>, b: seq<Order>, c: seq<Order>)
    requires BookMoves(a, b) && BookMoves(b, c)
    ensures BookMoves(a, c)
  {
  }

  /**
   If an order was sent, it is the one of the newest intent, for the instrument, the action
   and the quantity that a valid clearance of a finished stop allows.
   */
  predicate SentFor(w: World, v: World) {
    |v.book| > |w.book| ==>
      && w.task.Cleared? && w.mem.Some? && ClearanceState(w.task.stopState)
      && v.exits == w.exits + 1 && v.exitIx == Some(|w.book|)
      && v.book[|w.book|].origin == ExitOrder(v.exits) && v.book[|w.book|].qty == w.task.quantity
      && v.exit.action == w.task.cleared.action && v.exit.symbol == w.symbol && v.exit.exchange == w.mem.value.exchange
      && v.exit.side == OppositeSide(w.mem.value.direction)
      && ValidExitClearance(Some(ClearanceOf(w)), v.exit.symbol, v.exit.exchange, v.exit.requested, v.exit.action)
  }

  lemma NothingSent(w: World, v: World)
    requires |v.book| <= |w.book|
    ensures SentFor(w, v)
  {
  }

  /** The intent just created is the one that was cleared. */
  predicate IntendedFor(w: World, v: World) {
    && w.task.Cleared? && w.mem.Some? && ClearanceState(w.task.stopState) && v.exits == w.exits + 1
    && v.exit.requested == w.task.quantity && v.exit.action == w.task.cleared.action
    && v.exit.symbol == w.symbol && v.exit.exchange == w.mem.value.exchange
    && v.exit.side == OppositeSide(w.mem.value.direction)
    && ValidExitClearance(Some(ClearanceOf(w)), v.exit.symbol, v.exit.exchange, v.exit.requested, v.exit.action)
  }

  lemma JustSent(w: World, w1: World, v: World)
    requires IntendedFor(w, w1) && |w1.book| == |w.book| && w1.exit == v.exit && v.exits == w1.exits
    requires w1.exit.requested >= 0 && v.exitIx == Some(|w1.book|)
    requires v.book == w1.book + [Order(ExitOrder(w1.exits), w1.exit.requested, 0, Open)]
    ensures SentFor(w, v)
  {
    hide ClearanceOf;
  }

  lemma StillSent(w: World, v: World, u: World)
    requires SentFor(w, v) && BookMoves(v.book, u.book) && u.exits == v.exits && u.exitIx == v.exitIx
    requires SameOrder(v.exit, u.exit)
    ensures SentFor(w, u)
  {
    hide ClearanceOf;
  }

  /** The same intent, whatever was reported of it since. */
  predicate SameOrder(r: P.OrderRecord, s: P.OrderRecord) {
    && s.action == r.action && s.symbol == r.symbol && s.exchange == r.exchange && s.side == r.side
    && s.requested == r.requested
  }

  lemma CreateExitStage(w: World)
    requires Step(w, CreateExit).Some?
    ensures var v := Step(w, CreateExit).value;
            IntendedFor(w, v) && v.book == w.book
  {
    hide Step;
    SendStepIs(w);
  }

  lemma SendExitStage(w: World, accepted: bool, heard: bool)
    ensures Step(w, SendExit(accepted, heard)).Some? ==>
              var v := Step(w, SendExit(accepted, heard)).value;
              && w.exit.requested >= 0 && v.exits == w.exits && v.exit == w.exit
              && (if accepted then
                    v.exitIx == Some(|w.book|)
                    && v.book == w.book + [Order(ExitOrder(w.exits), w.exit.requested, 0, Open)]
                  else v.book == w.book)
  {
  }

  lemma ExitReplyStage(w: World, x: P.Execution)
    ensures Step(w, AttachExit).Some? ==>
              var v := Step(w, AttachExit).value;
              v.book == w.book && v.exitIx == w.exitIx && v.exits == w.exits && SameOrder(w.exit, v.exit)
    ensures Step(w, VerifyExit(x)).Some? ==>
              var v := Step(w, VerifyExit(x)).value;
              v.book == w.book && v.exitIx == w.exitIx && v.exits == w.exits && SameOrder(w.exit, v.exit)
  {
    hide ExitPolled;
  }

  /** The store accepts the fill that is about to be reserved. */
  predicate CanApply(w: World) {
    && w.task.ApplyFill? && w.task.fill.Checked? && w.mem.Some? && w.task.newly >= 0
    && (w.task.newly > 0 ==> w.stop.applied <= w.task.result.filled <= w.stop.filled && w.task.result.filled >= 0)
  }

  // ------------------------------------------------------ what is held, whatever protects it

  /** What is held, whichever stop covers it: quantity, cursors and all the rest. */
  function Holding(p: Option<Position>): Option<Position> {
    if p.Some? then Some(p.value.(stopOp := None)) else None
  }

  /** File and memory still hold what they held. */
  predicate KeepsHolding(w: World, v: World) {
    Holding(w.file) == Holding(w.mem) ==> Holding(v.file) == Holding(v.mem) == Holding(w.file)
  }

  lemma StillHeld(w: World, v: World, u: World)
    requires KeepsHolding(w, v) && KeepsHolding(v, u)
    ensures KeepsHolding(w, u)
  {
  }

  /** The events of protection, re-protection and finishing an exit. */
  predicate HoldingEvent(e: Event) {
    BrokerEvent(e) || SubmissionEvent(e) || ProtectionEvent(e) || e.Crash?
    || e.ResolveOldStop? || e.ResetProtection? || e.FinishExit?
  }

  lemma ProtectionHolds(w: World, e: Event)
    ensures SubmissionStep(w, e).Some? ==> KeepsHolding(w, SubmissionStep(w, e).value)
    ensures ProtectionStep(w, e).Some? ==> KeepsHolding(w, ProtectionStep(w, e).value)
  {
    hide StopPolled;
  }

  lemma ReprotectionHolds(w: World, e: Event)
    requires e.ResolveOldStop? || e.ResetProtection? || e.FinishExit?
    ensures ExitFillStep(w, e).Some? ==> KeepsHolding(w, ExitFillStep(w, e).value)
  {
  }

  lemma StepHolds(w: World, e: Event)
    requires HoldingEvent(e) && Step(w, e).Some?
    ensures KeepsHolding(w, Step(w, e).value)
  {
    hide BrokerStep, SubmissionStep, ProtectionStep, ExitFillStep, Restarted, KeepsHolding, Holding;
    if BrokerEvent(e) {
      BrokerHolds(w, e);
    } else if SubmissionEvent(e) || ProtectionEvent(e) {
      ProtectionHolds(w, e);
    } else if ExitFillEvent(e) {
      ReprotectionHolds(w, e);
    } else {
      RestartHolds(w);
    }
  }

  lemma BrokerHolds(w: World, e: Event)
    requires BrokerStep(w, e).Some?
    ensures KeepsHolding(w, BrokerStep(w, e).value)
  {
    hide Holding;
  }

  lemma RestartHolds(w: World)
    ensures KeepsHolding(w, Restarted(w))
  {
    hide Holding;
  }

  // --------------------------------------------------------- counting an exit's fill

  /** The report can be taken into the position. */
  predicate CanCount(w: World) {
    && w.task.Exit? && w.task.phase.ExitReported? && w.mem.Some? && w.mem == w.file
    && 0 <= NewlyConfirmed(w) <= w.mem.value.qty
  }

  /**
   What a position is after `newly` more of an operation's cumulative fill was taken in: so
   much less is held, and the operation's own cursor stands at the cumulative fill. With
   nothing new only the operation is named.
   */
  predicate CountedPosition(p: Position, a: P.Action, op: S.OpId, filled: int, newly: int, q: Option<Position>) {
    && (q.None? ==> newly == p.qty > 0)
    && (q.Some? ==>
          && q.value.qty == p.qty - newly && CursorOp(q.value, a) == Some(op)
          && CursorFilled(q.value, a) == (if newly > 0 then filled else CursorFilled(p, a))
          && (a == P.ForceExit ==> q.value.exitOp == p.exitOp && q.value.exitFilled == p.exitFilled)
          && (a != P.ForceExit ==> q.value.forceOp == p.forceOp && q.value.forceFilled == p.forceFilled))
  }

  lemma CountedSurvives(p: Position, a: P.Action, op: S.OpId, filled: int, newly: int,
                        q: Option<Position>, r: Option<Position>)
    requires CountedPosition(p, a, op, filled, newly, q) && Holding(q) == Holding(r)
    ensures CountedPosition(p, a, op, filled, newly, r)
  {
  }

  predicate CountedIn(w: World, q: Option<Position>)
    requires CanCount(w)
  {
    CountedPosition(w.mem.value, w.exit.action, w.exits, w.task.phase.filled, NewlyConfirmed(w), q)
  }

  predicate BooksIt(w: World)
    requires CanCount(w)
  {
    NewlyConfirmed(w) > 0 && Priced(w)
  }

  function BookedExit(w: World): World
    requires CanCount(w)
  {
    if BooksIt(w) then DoBookExit(w).value else w
  }

  function UpdatedExit(w: World): World
    requires CanCount(w)
  {
    DoUpdateFromExit(BookedExit(w)).value
  }

  function SavedExit(w: World): World
    requires CanCount(w)
  {
    UpdatedExit(w).(file := UpdatedExit(w).mem,
                    task := w.task.(phase := ExitSaved(UpdatedExit(w).task.phase.resolve,
                                                       UpdatedExit(w).task.phase.reprotect)))
  }

  lemma BookExitStage(w: World)
    requires CanCount(w) && BooksIt(w)
    ensures Step(w, BookExit) == Some(BookedExit(w))
    ensures BookedExit(w) == w.(exitBooked := w.exitBooked + NewlyConfirmed(w), bookedTo := w.task.phase.filled,
                                task := BookedExit(w).task)
  {
    hide Step;
    ExitStepIs(w, P.Execution(0, 0, 0, None, "", false));
  }

  lemma UpdateExitStage(w: World, book: seq<Order>)
    requires CanCount(w)
    ensures Step(BookedExit(w).(book := book), UpdateFromExit) == Some(UpdatedExit(w).(book := book))
    ensures UpdatedExit(w).task.Exit? && UpdatedExit(w).task.phase.ExitUpdated?
    ensures UpdatedExit(w).task == w.task.(phase := UpdatedExit(w).task.phase) && UpdatedExit(w).file == w.file
    ensures CountedIn(w, UpdatedExit(w).mem)
    ensures UpdatedExit(w).exits == w.exits && UpdatedExit(w).gen == w.gen && UpdatedExit(w).book == w.book
    ensures UpdatedExit(w).exitBooked == w.exitBooked + if BooksIt(w) then NewlyConfirmed(w) else 0
  {
    hide Step;
    ExitSaveStepIs(BookedExit(w).(book := book));
  }

  lemma SaveExitStage(w: World, book: seq<Order>)
    requires CanCount(w) && UpdatedExit(w).task.Exit? && UpdatedExit(w).task.phase.ExitUpdated?
    requires UpdatedExit(w).task == w.task.(phase := UpdatedExit(w).task.phase)
    ensures Step(UpdatedExit(w).(book := book), SaveExit) == Some(SavedExit(w).(book := book))
  {
    hide Step, UpdatedExit;
    ExitSaveStepIs(UpdatedExit(w).(book := book));
  }

  lemma BookedFrame(w: World)
    requires CanCount(w)
    ensures BookedExit(w).file == w.file && BookedExit(w).exits == w.exits && BookedExit(w).gen == w.gen
    ensures BookedExit(w).book == w.book && BookedExit(w).mem == w.mem && (!BooksIt(w) ==> BookedExit(w) == w)
  {
  }

  /** Without a position, or with a report that cannot be taken in, nothing is changed. */
  lemma RefusedCount(w: World)
    requires w.task.Exit? && w.task.phase.ExitReported? && w.mem == w.file && !CanCount(w)
    ensures Step(w, UpdateFromExit).Some? ==>
              var v := Step(w, UpdateFromExit).value; v == w.(task := v.task) && !MayReprotect(v.task)
  {
    hide Step;
    ExitSaveStepIs(w);
  }

  // --------------------------------------------------------------- taking in the entry

  /** What a restart makes of the entry's cumulative fill. */
  lemma RecoverEntryStage(w: World, total: nat, terminal: bool, settled: bool)
    requires Step(w, RecoverEntry(total, terminal, settled)).Some?
    ensures var v := Step(w, RecoverEntry(total, terminal, settled)).value;
            && v == w.(mem := v.mem, file := v.file, held := v.held, late := v.late, entryOpen := !settled)
            && (v.held == w.held || v.held == total)
            && (w.mem.Some? && w.mem == w.file ==> v.mem == v.file)
            && (w.mem.Some? ==>
                  && v.held == (if total > w.held then total else w.held) && v.mem.Some?
                  && v.mem.value == w.mem.value.(qty := w.mem.value.qty + v.held - w.held))
  {
    hide V.Sound;
  }

  // ------------------------------------------------------ what the methods put together

  lemma StillIntended(w: World, v: World, u: World)
    requires IntendedFor(w, v) && u == v.(book := u.book)
    ensures IntendedFor(w, u)
  {
    hide ClearanceOf;
  }

  lemma CanCountFacts(w: World)
    requires CanCount(w)
    ensures w.mem == w.file && w.mem.Some? && w.task.Exit?
  {
  }

  /** Nothing that holds anything was touched. */
  lemma SameMeansHeld(w: World, v: World)
    requires v.mem == w.mem && v.file == w.file
    ensures KeepsHolding(w, v)
  {
  }

  lemma RestartIsHeld(w: World, v: World)
    requires v.file == w.file && (v.mem == w.mem || v.mem == w.file)
    ensures KeepsHolding(w, v)
  {
  }

  lemma CountedOn(w: World, v: World, u: World)
    requires CanCount(w) && CountedIn(w, v.file) && v.mem == v.file && KeepsHolding(v, u)
    ensures CountedIn(w, u.file)
  {
    hide CountedPosition;
    CountedSurvives(w.mem.value, w.exit.action, w.exits, w.task.phase.filled, NewlyConfirmed(w), v.file, u.file);
  }

  lemma OnlyReportsCount(w: World)
    ensures CanCount(w) ==> w.task.Exit? && w.task.phase.ExitReported?
  {
  }

  lemma RecoverExitStage(w: World)
    ensures Step(w, RecoverExit).Some? ==>
              var v := Step(w, RecoverExit).value;
              v == w.(task := v.task) && v.task.Exit? && v.task.phase.ExitAttached? && v.task.recovering && w.exits > 0
  {
    hide Step;
    ExitStepIs(w, P.Execution(0, 0, 0, None, "", false));
  }

  lemma VerifyExitStage(w: World, x: P.Execution)
    requires w.task.Exit? && w.task.phase.ExitAttached?
    ensures Step(w, VerifyExit(x)).Some? ==>
              var v := Step(w, VerifyExit(x)).value;
              && v == w.(exit := v.exit, task := w.task.(phase := ExitReported(x.filled, x.terminal, x.average)))
              && SameOrder(w.exit, v.exit)
  {
    hide Step, ExitPolled;
    ExitStepIs(w, x);
  }

  /** The report shows no less than was taken in, and no more than is held besides. */
  predicate Recountable(w: World, x: P.Execution) {
    w.mem.Some? && w.exits > 0 && 0 <= x.filled - AppliedExit(w, w.mem.value) <= w.mem.value.qty
  }

  /** The position of `w` after just what `x` shows beyond its cursor was taken in. */
  predicate Recounted(w: World, x: P.Execution, q: Option<Position>) {
    && Recountable(w, x)
    && CountedPosition(w.mem.value, w.exit.action, w.exits, x.filled, x.filled - AppliedExit(w, w.mem.value), q)
  }

  /** Counting a verified report in a recovery is counting what it shows beyond the cursor. */
  lemma RecountIs(w: World, v: World, x: P.Execution)
    requires w.exits > 0 && v.exits == w.exits && v.exit.action == w.exit.action && v.mem == w.mem && v.file == w.file
    requires v.task.Exit? && v.task.recovering && v.task.phase == ExitReported(x.filled, x.terminal, x.average)
    ensures w.mem == w.file ==> (CanCount(v) <==> Recountable(w, x))
    ensures CanCount(v) ==> forall q :: CountedIn(v, q) <==> Recounted(w, x, q)
  {
  }

  /** What the position ends up as, when `v` is the state in which the exit's fill was to be counted. */
  lemma Concluded(w: World, v: World, u: World, x: P.Execution)
    requires v.mem == w.mem && v.file == w.file && w.mem == w.file
    requires CanCount(v) ==> forall q :: CountedIn(v, q) <==> Recounted(w, x, q)
    requires CanCount(v) ==> Holding(v.file) == Holding(u.file) || CountedIn(v, u.file)
    requires !CanCount(v) ==> KeepsHolding(v, u)
    ensures Holding(w.file) == Holding(u.file) || Recounted(w, x, u.file)
  {
    hide CanCount, CountedIn, Recounted;
  }

  /** Protection under another stop leaves the quantity that was taken in. */
  lemma HoldsQuantity(w: World, v: World)
    requires KeepsHolding(w, v) && w.mem == w.file && w.file.Some?
    ensures v.file.Some? && v.file.value.qty == w.file.value.qty
  {
  }
}
