/**
 When the hypotheses of the exit results hold by themselves: re-protection is accounted for
 as long as none is lost on the way, and a lost one is repeated over the live replacement.
 */
module ExitReprotection {
  import opened Wrappers
  import opened Broker
  import S = StopStore
  import P = PendingStore
  import V = OrderVerification
  import opened StopVerification
  import opened StopExit
  import opened ExitProtocol
  import opened ExitInvariant
  import opened ExitSafety
  import opened ExitSteps
  import opened ExitResults

  // --------------------------------------------------- the window of the second finding

  /**
   The position was reset for a new stop, and the exit it is for is still to be resolved:
   from the reset to the resolving write.
   */
  predicate Reprotecting(w: World) {
    || (w.task.Protect? && w.task.finalize)
    || (w.task.Exit? && w.task.phase == ExitSaved(true, false) && w.exits > 0 && w.clearedGen < w.gen)
  }

  /** The process dies there, or the replacement stop is not confirmed as armed. */
  predicate LosesReprotection(w: World, e: Event) {
    Reprotecting(w) && (e.Crash? || e.GiveUp? || e.AbandonProtect? || e == SaveProtection(false))
  }

  /** While an exit is unresolved, its own stop is the newest one, and is still named once it is resolved. */
  predicate OwnStop(w: World) {
    && ExitOfThisStop(w)
    && (w.stop.resolved && w.file.Some? ==> w.file.value.stopOp == Some(w.gen))
    && (w.stop.resolved && w.mem.Some? ==> w.mem.value.stopOp == Some(w.gen))
  }

  predicate ReprotectionInv(w: World) {
    && (w.exits > 0 && !w.exit.resolved && !Reprotecting(w) ==> OwnStop(w))
    && (w.task.Exit? ==>
          match w.task.phase
          case ExitUpdated(resolve, reprotect, _) => reprotect ==> resolve
          case ExitSaved(resolve, reprotect) => reprotect ==> resolve && !w.exit.resolved
          case OldStopResolved(resolve) => !resolve ==> w.exits == 0 || w.exit.resolved
          case _ => true)
  }

  lemma BrokerKeepsReprotection(w: World, e: Event)
    requires ReprotectionInv(w)
    ensures BrokerStep(w, e).Some? ==> ReprotectionInv(BrokerStep(w, e).value)
  {
  }

  lemma EntryKeepsReprotection(w: World, e: Event)
    requires ReprotectionInv(w) && Inv(w) && EntryStep(w, e).Some? && !Rebuilds(w, e)
    ensures ReprotectionInv(EntryStep(w, e).value)
  {
    hide LedgerInv, PositionsInv, V.Sound;
  }

  lemma SubmissionKeepsReprotection(w: World, e: Event)
    requires ReprotectionInv(w) && Inv(w) && SubmissionStep(w, e).Some?
    ensures ReprotectionInv(SubmissionStep(w, e).value)
  {
    hide BookInv, StopInv, PositionsInv, StopPolled;
  }

  lemma ProtectionKeepsReprotection(w: World, e: Event)
    requires ReprotectionInv(w) && Inv(w) && ProtectionStep(w, e).Some? && !LosesReprotection(w, e)
    ensures ReprotectionInv(ProtectionStep(w, e).value)
  {
    hide BookInv, StopInv, PositionsInv;
  }

  lemma CoordinationKeepsReprotection(w: World, e: Event)
    requires ReprotectionInv(w) && CoordinationStep(w, e).Some?
    ensures ReprotectionInv(CoordinationStep(w, e).value)
  {
    hide StopPolled, Decide, ValidateIdentity;
  }

  lemma StopFillKeepsReprotection(w: World, e: Event)
    requires ReprotectionInv(w) && Inv(w) && StopFillStep(w, e).Some?
    ensures ReprotectionInv(StopFillStep(w, e).value)
  {
    hide LedgerInv, PositionsInv;
  }

  lemma ExitOrderKeepsReprotection(w: World, e: Event)
    requires ReprotectionInv(w) && Inv(w) && ExitOrderStep(w, e).Some?
    ensures ReprotectionInv(ExitOrderStep(w, e).value)
  {
    hide LedgerInv, PositionsInv, ExitPolled;
  }

  lemma BookingKeepsReprotection(w: World)
    requires ReprotectionInv(w) && DoBookExit(w).Some?
    ensures ReprotectionInv(DoBookExit(w).value)
  {
    hide AppliedExit;
  }

  lemma UpdateKeepsReprotection(w: World)
    requires ReprotectionInv(w) && DoUpdateFromExit(w).Some?
    ensures ReprotectionInv(DoUpdateFromExit(w).value)
  {
    hide AppliedExit;
  }

  lemma SaveKeepsReprotection(w: World)
    requires ReprotectionInv(w) && TaskInv(w)
    ensures DoSaveExit(w).Some? ==> ReprotectionInv(DoSaveExit(w).value)
    ensures DoFinishExit(w).Some? ==> ReprotectionInv(DoFinishExit(w).value)
  {
    hide LiveAt, FilledAt, AppliedExit;
  }

  lemma ResolvingKeepsReprotection(w: World)
    requires ReprotectionInv(w) && TaskInv(w)
    ensures DoResolveOldStop(w).Some? ==> ReprotectionInv(DoResolveOldStop(w).value)
    ensures DoResetProtection(w).Some? ==> ReprotectionInv(DoResetProtection(w).value)
  {
    hide LiveAt, FilledAt, AppliedExit;
  }

  lemma ExitFillKeepsReprotection(w: World, e: Event)
    requires ReprotectionInv(w) && Inv(w) && ExitFillStep(w, e).Some?
    ensures ReprotectionInv(ExitFillStep(w, e).value)
  {
    hide LedgerInv, PositionsInv, TaskInv, ReprotectionInv, DoBookExit, DoUpdateFromExit, DoSaveExit, DoFinishExit;
    hide DoResolveOldStop, DoResetProtection;
    match e
    case BookExit => BookingKeepsReprotection(w);
    case UpdateFromExit => UpdateKeepsReprotection(w);
    case SaveExit => SaveKeepsReprotection(w);
    case FinishExit => SaveKeepsReprotection(w);
    case ResolveOldStop => ResolvingKeepsReprotection(w);
    case ResetProtection => ResolvingKeepsReprotection(w);
  }

  lemma RestartKeepsReprotection(w: World)
    requires ReprotectionInv(w) && !Reprotecting(w)
    ensures ReprotectionInv(Restarted(w)) && (DoGiveUp(w).Some? ==> ReprotectionInv(DoGiveUp(w).value))
  {
  }

  lemma StepKeepsReprotection(w: World, e: Event)
    requires Inv(w) && ReprotectionInv(w) && Step(w, e).Some? && !LosesReprotection(w, e) && !Rebuilds(w, e)
    ensures ReprotectionInv(Step(w, e).value)
  {
    hide Inv, ReprotectionInv, Reprotecting, Rebuilds, DoGiveUp, Restarted;
    hide BrokerStep, EntryStep, SubmissionStep, ProtectionStep, CoordinationStep, StopFillStep, ExitOrderStep;
    hide ExitFillStep;
    if BrokerEvent(e) {
      BrokerKeepsReprotection(w, e);
    } else if EntryEvent(e) {
      EntryKeepsReprotection(w, e);
    } else if SubmissionEvent(e) {
      SubmissionKeepsReprotection(w, e);
    } else if ProtectionEvent(e) {
      ProtectionKeepsReprotection(w, e);
    } else if CoordinationEvent(e) {
      CoordinationKeepsReprotection(w, e);
    } else if StopFillEvent(e) {
      StopFillKeepsReprotection(w, e);
    } else if ExitOrderEvent(e) {
      ExitOrderKeepsReprotection(w, e);
    } else if ExitFillEvent(e) {
      ExitFillKeepsReprotection(w, e);
    } else {
      RestartKeepsReprotection(w);
    }
  }

  // ------------------------------------------------------- runs without a hypothesis

  /** As long as no re-protection was lost, the stop that one resolves is accounted for. */
  lemma ReprotectionIsAccounted(w: World)
    requires Inv(w) && ReprotectionInv(w) && DoResolveOldStop(w).Some?
    ensures OldStopAccounted(w)
  {
    ReprotectFacts(w);
    if w.task.Exit? {
      FirstReprotectionIsSound(w);
    }
    hide LedgerInv, PositionsInv, OldStopAccounted;
  }

  /** No re-protection is lost, no stale cursor is named, and no sold position is rebuilt. */
  predicate CarefulRun(w: World, es: seq<Event>)
    decreases |es|
  {
    es != [] && Step(w, es[0]).Some? ==>
      && !LosesReprotection(w, es[0]) && (NamesOnly(w, es[0]) ==> CursorOwned(w)) && !Rebuilds(w, es[0])
      && CarefulRun(Step(w, es[0]).value, es[1..])
  }

  lemma CarefulStepIsSound(w: World, e: Event)
    requires Inv(w) && ReprotectionInv(w) && Step(w, e).Some?
    requires (NamesOnly(w, e) ==> CursorOwned(w)) && !Rebuilds(w, e)
    ensures Sound(w, e)
  {
    hide Inv, ReprotectionInv, DoResolveOldStop, OldStopAccounted, CursorOwned, NamesOnly, Rebuilds;
    if e.ResolveOldStop? {
      ReprotectionIsAccounted(w);
    }
  }

  /** For any number of exits: a run that loses no re-protection never needs the second hypothesis. */
  lemma {:induction false} CarefulRunsAreSound(w: World, es: seq<Event>)
    requires Inv(w) && ReprotectionInv(w) && Run(w, es).Some? && CarefulRun(w, es)
    ensures SoundRun(w, es)
    decreases |es|
  {
    hide Inv, ReprotectionInv, Step, Sound, LosesReprotection, NamesOnly, CursorOwned, Rebuilds;
    if es != [] {
      CarefulStepIsSound(w, es[0]);
      StepKeepsInv(w, es[0]);
      StepKeepsReprotection(w, es[0]);
      CarefulRunsAreSound(Step(w, es[0]).value, es[1..]);
    }
  }

  /** Recovery never finds an open entry of a position that was sold. */
  predicate NeverRebuilds(w: World, es: seq<Event>)
    decreases |es|
  {
    es != [] && Step(w, es[0]).Some? ==> !Rebuilds(w, es[0]) && NeverRebuilds(Step(w, es[0]).value, es[1..])
  }

  lemma SettledControl(w: World, e: Event)
    ensures SubmissionStep(w, e).Some? ==> SubmissionStep(w, e).value.entryOpen == w.entryOpen
    ensures ProtectionStep(w, e).Some? ==> ProtectionStep(w, e).value.entryOpen == w.entryOpen
    ensures CoordinationStep(w, e).Some? ==> CoordinationStep(w, e).value.entryOpen == w.entryOpen
  {
    hide StopPolled, Identified, Decide;
  }

  lemma SettledFills(w: World, e: Event)
    ensures StopFillStep(w, e).Some? ==> StopFillStep(w, e).value.entryOpen == w.entryOpen
    ensures ExitOrderStep(w, e).Some? ==> ExitOrderStep(w, e).value.entryOpen == w.entryOpen
    ensures ExitFillStep(w, e).Some? ==> ExitFillStep(w, e).value.entryOpen == w.entryOpen
  {
    hide ExitPolled, NewlyConfirmed, Priced;
  }

  lemma SettledStays(w: World, e: Event)
    requires !w.entryOpen && Step(w, e).Some?
    ensures !Step(w, e).value.entryOpen && !Rebuilds(w, e)
  {
    hide SubmissionStep, ProtectionStep, CoordinationStep, StopFillStep, ExitOrderStep, ExitFillStep, V.Sound;
    SettledControl(w, e);
    SettledFills(w, e);
  }

  /** With a settled entry the hypothesis holds by itself: recovery never looks at the entry again. */
  lemma {:induction false} SettledNeverRebuilds(w: World, es: seq<Event>)
    requires !w.entryOpen && Run(w, es).Some?
    ensures !Run(w, es).value.entryOpen && NeverRebuilds(w, es)
    decreases |es|
  {
    hide Step;
    if es != [] {
      SettledStays(w, es[0]);
      SettledNeverRebuilds(Step(w, es[0]).value, es[1..]);
    }
  }

  /**
   A run in which no exit but the first is created, the process does not die between the
   reset of a re-protection and its last write, and every re-protection ends with an armed
   stop.
   */
  predicate FirstExitOnly(w: World, es: seq<Event>)
    decreases |es|
  {
    es != [] && Step(w, es[0]).Some? ==>
      && w.exits <= 1 && !LosesReprotection(w, es[0])
      && FirstExitOnly(Step(w, es[0]).value, es[1..])
  }

  lemma FirstNamingOwnsCursor(w: World, e: Event)
    requires Inv(w) && Step(w, e).Some? && w.exits <= 1 && NamesOnly(w, e)
    ensures CursorOwned(w)
  {
    hide Inv, DoUpdateFromExit, NamesOnly, CursorOwned;
    assert e.UpdateFromExit? by {
      NamesByUpdating(w, e);
    }
    FirstExitOwnsCursor(w);
  }

  lemma NamesByUpdating(w: World, e: Event)
    requires NamesOnly(w, e)
    ensures e.UpdateFromExit?
  {
  }

  /** For a position's first exit such a run is sound: what is asked of it is what happens, not what is true. */
  lemma {:induction false} FirstExitRunsAreSound(w: World, es: seq<Event>)
    requires Inv(w) && ReprotectionInv(w) && Run(w, es).Some? && FirstExitOnly(w, es) && NeverRebuilds(w, es)
    ensures SoundRun(w, es)
    decreases |es|
  {
    hide Inv, ReprotectionInv, Step, Sound, LosesReprotection, NamesOnly, CursorOwned, Rebuilds;
    if es != [] {
      if NamesOnly(w, es[0]) {
        FirstNamingOwnsCursor(w, es[0]);
      }
      CarefulStepIsSound(w, es[0]);
      StepKeepsInv(w, es[0]);
      StepKeepsReprotection(w, es[0]);
      FirstExitRunsAreSound(Step(w, es[0]).value, es[1..]);
    }
  }

  lemma StartInv(symbol: string, exchange: string, direction: S.Side, held: int, entry: Order, open: bool)
    requires CanStart(held, entry, open)
    ensures ReprotectionInv(Init(symbol, exchange, direction, held, entry, open))
  {
  }

  /**
   From a freshly saved entry: in such a run nothing is oversold and at most one reducing
   order is live, whatever the broker does and wherever else the process dies. A settled
   entry is never rebuilt; of an open one it has to be asked.
   */
  lemma FirstExitNeverOversells(
      symbol: string, exchange: string, direction: S.Side, held: int, entry: Order, open: bool, es: seq<Event>)
    requires CanStart(held, entry, open)
    requires Run(Init(symbol, exchange, direction, held, entry, open), es).Some?
    requires FirstExitOnly(Init(symbol, exchange, direction, held, entry, open), es)
    requires open ==> NeverRebuilds(Init(symbol, exchange, direction, held, entry, open), es)
    ensures var v := Run(Init(symbol, exchange, direction, held, entry, open), es).value;
            && SumFilled(v.book) <= Exposure(v.book) <= v.held <= v.entry.filled
            && forall i, j :: 0 <= i < |v.book| && 0 <= j < |v.book| && Live(v.book[i]) && Live(v.book[j]) ==> i == j
  {
    hide Inv, ReprotectionInv, Step, Run, FirstExitOnly, SoundRun, Exposure, SumFilled, CanStart, NeverRebuilds;
    var w := Init(symbol, exchange, direction, held, entry, open);
    InitInv(symbol, exchange, direction, held, entry, open);
    StartInv(symbol, exchange, direction, held, entry, open);
    if !open {
      SettledNeverRebuilds(w, es);
    }
    FirstExitRunsAreSound(w, es);
    NoOversell(w, es);
    var v := Run(w, es).value;
    forall i: nat, j: nat | i < |v.book| && j < |v.book| && Live(v.book[i]) && Live(v.book[j]) ensures i == j {
      OneLiveReducingOrder(w, es, i, j);
    }
  }

  // ------------------------------------------------------- what a lost one leads to

  /**
   The replacement is live, the file names it, and the exit it was for is unresolved,
   terminal and fully applied: what a lost re-protection leaves behind.
   */
  predicate Lost(w: World, x: P.Execution) {
    && w.task.Idle? && w.mem.Some? && w.mem == w.file && w.gen > 0 && LiveAt(w.book, w.stopIx)
    && w.mem.value.stopOp == Some(w.gen) && w.mem.value.qty > 0 && w.mem.value.exitIsScalp
    && w.exits > 0 && !w.exit.resolved && w.exit.action == P.Exit
    && ExitPolled(w, x) && x.terminal && x.filled == AppliedExit(w, w.mem.value)
  }

  /** Recovery reads the same report again, changes nothing, and goes on to re-protection. */
  function ReachedAgain(w: World, x: P.Execution): World
    requires w.mem.Some?
  {
    var p := w.mem.value.(exitOp := Some(w.exits));
    w.(exit := w.exit.(filled := x.filled, pending := x.pending, cancelled := x.cancelled, average := x.average,
                       status := x.status, terminal := x.terminal),
       mem := Some(p), file := Some(p), task := Exit(ExitSaved(true, true), true, true))
  }

  lemma RecoverySteps(w: World, x: P.Execution)
    requires Lost(w, x) && P.Mutate(w.exit, P.Verify(x)).Ok?
    ensures DoRecoverExit(w).Some?
    ensures var w1 := DoRecoverExit(w).value;
            DoVerifyExit(w1, x).Some?
            && var w2 := DoVerifyExit(w1, x).value;
               DoUpdateFromExit(w2).Some? && DoSaveExit(DoUpdateFromExit(w2).value) == Some(ReachedAgain(w, x))
  {
  }

  lemma RecoveryReaches(w: World, x: P.Execution)
    requires Lost(w, x) && P.Mutate(w.exit, P.Verify(x)).Ok?
    ensures Run(w, RecoveryPass(x)) == Some(ReachedAgain(w, x))
  {
    hide Run, Step, DoRecoverExit, DoVerifyExit, DoUpdateFromExit, DoSaveExit, Lost, ReachedAgain;
    RecoverySteps(w, x);
    var w1 := DoRecoverExit(w).value;
    var w2 := DoVerifyExit(w1, x).value;
    var w3 := DoUpdateFromExit(w2).value;
    ExitStepIs(w, x);
    ExitStepIs(w1, x);
    ExitSaveStepIs(w2);
    ExitSaveStepIs(w3);
    RunStep(w, RecoverExit, [VerifyExit(x)] + ([UpdateFromExit] + ([SaveExit] + [])));
    RunStep(w1, VerifyExit(x), [UpdateFromExit] + ([SaveExit] + []));
    RunStep(w2, UpdateFromExit, [SaveExit] + []);
    RunStep(w3, SaveExit, []);
    RunStep(DoSaveExit(w3).value, SaveExit, []);
  }

  /** The broker would accept a stop for the position. */
  predicate Protectable(w: World, trigger: real, tag: string, tick: real) {
    w.mem.Some? && S.IntentError(S.StopIntent(w.symbol, w.mem.value.exchange, w.mem.value.direction,
                                              OppositeSide(w.mem.value.direction), w.mem.value.qty,
                                              trigger, tag, Some(tick))).None?
  }

  lemma SecondSteps(w: World, trigger: real, tag: string, tick: real)
    requires MayReprotect(w.task) && w.mem.Some? && w.mem.value.stopOp == Some(w.gen) && w.mem.value.qty > 0
    requires w.gen > 0 && Protectable(w, trigger, tag, tick)
    ensures DoResolveOldStop(w).Some?
    ensures var w1 := DoResolveOldStop(w).value;
            DoResetProtection(w1).Some?
            && var w2 := DoResetProtection(w1).value;
               DoCreateStop(w2, trigger, tag, tick).Some?
               && DoSendStop(DoCreateStop(w2, trigger, tag, tick).value, true, true).Some?
  {
  }

  lemma SecondRuns(w: World, trigger: real, tag: string, tick: real)
    requires MayReprotect(w.task) && w.mem.Some? && w.mem.value.stopOp == Some(w.gen) && w.mem.value.qty > 0
    requires w.gen > 0 && Protectable(w, trigger, tag, tick)
    ensures Run(w, Reprotection(trigger, tag, tick)).Some?
  {
    hide DoResolveOldStop, DoResetProtection, DoCreateStop, DoSendStop, Run, Step, Protectable;
    SecondSteps(w, trigger, tag, tick);
    var create, send := CreateStop(trigger, tag, tick), SendStop(true, true);
    assert Reprotection(trigger, tag, tick) == [ResolveOldStop] + ([ResetProtection] + ([create] + ([send] + [])));
    var w1 := DoResolveOldStop(w).value;
    var w2 := DoResetProtection(w1).value;
    var w3 := DoCreateStop(w2, trigger, tag, tick).value;
    var w4 := DoSendStop(w3, true, true).value;
    StepIs(w, trigger, tag, tick);
    StepIs(w1, trigger, tag, tick);
    StepIs(w2, trigger, tag, tick);
    StepIs(w3, trigger, tag, tick);
    RunStep(w, ResolveOldStop, [ResetProtection] + ([create] + ([send] + [])));
    RunStep(w1, ResetProtection, [create] + ([send] + []));
    RunStep(w2, create, [send] + []);
    RunStep(w3, send, []);
    RunStep(w4, send, []);
  }

  /**
   The second finding in general. Whatever led to it, a lost re-protection is repeated by
   the next recovery: two stops are live, each for all that is held.
   */
  lemma LostReprotectionIsRepeated(w: World, x: P.Execution, trigger: real, tag: string, tick: real)
    requires BookInv(w) && ExitInv(w) && Lost(w, x) && Protectable(w, trigger, tag, tick)
    ensures Run(w, RecoveryPass(x) + Reprotection(trigger, tag, tick)).Some?
    ensures var v := Run(w, RecoveryPass(x) + Reprotection(trigger, tag, tick)).value;
            && LiveAt(v.book, w.stopIx) && LiveAt(v.book, v.stopIx) && w.stopIx != v.stopIx
            && v.book[v.stopIx.value].qty == w.mem.value.qty && v.book[w.stopIx.value] == w.book[w.stopIx.value]
  {
    hide Run, Step, BookInv, ExitInv, RecoveryPass, Reprotection, ExitPolled;
    VerificationAccepted(w, x);
    RecoveryReaches(w, x);
    var r := ReachedAgain(w, x);
    SecondRuns(r, trigger, tag, tick);
    ReprotectionRun(r, trigger, tag, tick);
    RunConcat(w, RecoveryPass(x), Reprotection(trigger, tag, tick));
  }

  /** The exit whose re-protection is under way is the one that `x` reports. */
  predicate ReportsScalp(w: World, x: P.Execution) {
    && w.exits > 0 && !w.exit.resolved && w.exit.action == P.Exit && ExitPolled(w, x) && x.terminal
    && w.mem.Some? && w.mem.value.exitIsScalp && w.mem.value.qty > 0
  }

  lemma ReprotectingIsApplied(w: World)
    requires Inv(w) && Reprotecting(w) && w.exits > 0 && w.exit.orderId.Some?
    ensures ExitApplied(w) && w.gen > 0 && (w.exit.orderId == w.exitIx)
    ensures w.mem.Some? ==> AppliedExit(w, w.mem.value) == ExitFill(w)
  {
    hide BookInv, StopInv, PositionsInv;
  }

  lemma LosingSteps(w: World, e: Event)
    requires LosesReprotection(w, e) && Step(w, e).Some? && w.mem.Some?
             && (e.Crash? || e.AbandonProtect? ==> w.file == w.mem)
    ensures Step(w, e).value == w.(task := Idle, file := w.mem, mem := w.mem)
  {
    hide BrokerStep, EntryStep, SubmissionStep, CoordinationStep, StopFillStep, ExitOrderStep, ExitFillStep;
  }

  lemma CursorsSame(w: World, v: World)
    ensures v.exits == w.exits && v.exit == w.exit ==> forall p :: AppliedExit(v, p) == AppliedExit(w, p)
  {
  }

  lemma ReportIsExact(w: World, x: P.Execution)
    requires ReportsScalp(w, x) && w.exit.orderId == w.exitIx
    ensures x.filled == ExitFill(w)
  {
  }

  /** Dying after the replacement was saved, or saving it unconfirmed, leaves just that. */
  lemma LosingLeavesLost(w: World, e: Event, x: P.Execution)
    requires Inv(w) && LosesReprotection(w, e) && Step(w, e).Some? && ReportsScalp(w, x)
    requires LiveAt(w.book, w.stopIx) && w.mem.value.stopOp == Some(w.gen)
    requires e.Crash? || e.AbandonProtect? ==> w.file == w.mem
    ensures Lost(Step(w, e).value, x)
  {
    hide Inv, StopPolled, Identified, Step, AppliedExit, ExitApplied;
    LosingSteps(w, e);
    ReprotectingIsApplied(w);
    CursorsSame(w, Step(w, e).value);
    ReportIsExact(w, x);
  }
}
