/**
 The controller as the program it is: one object whose methods write, call the broker
 and save in the order of the code (main.py, protective_stop_exit.py, executor.py), with
 the broker moving and the process possibly dying between any two of them. Every method
 only ever takes steps of the protocol, so what is proved of all runs holds of it.
 */
module ExitDesk {
  import opened Wrappers
  import opened Broker
  import S = StopStore
  import P = PendingStore
  import opened StopVerification
  import opened StopExit
  import opened ExitProtocol
  import opened ExitInvariant
  import opened ExitSafety
  import opened ExitSteps
  import opened ExitDeskSteps

  class Desk {
    ghost const start: World
    var w: World
    ghost var log: seq<Event>

    /** The desk opens on a confirmed entry fill that was just saved; the entry may still be open. */
    constructor (symbol: string, exchange: string, direction: S.Side, held: int, entry: Order, open: bool)
      requires CanStart(held, entry, open)
      ensures Valid() && w == Init(symbol, exchange, direction, held, entry, open) && log == []
    {
      start := Init(symbol, exchange, direction, held, entry, open);
      w := Init(symbol, exchange, direction, held, entry, open);
      log := [];
      new;
      InitInv(symbol, exchange, direction, held, entry, open);
    }

    ghost predicate Valid()
      reads this
    {
      Inv(start) && Run(start, log) == Some(w)
    }

    /** The three hypotheses held wherever they were needed. */
    ghost predicate Sound()
      reads this
    {
      SoundRun(start, log)
    }

    lemma Safe()
      requires Valid() && Sound()
      ensures Inv(w) && SumFilled(w.book) <= Exposure(w.book) <= w.held <= w.entry.filled
    {
      RunKeepsInv(start, log);
      NoOversell(start, log);
    }

    /** One durable write or one broker call; false when it raises. */
    method Do(e: Event) returns (ok: bool)
      requires Valid()
      modifies this
      ensures Valid() && old(log) <= log
      ensures ok <==> Step(old(w), e).Some?
      ensures !ok ==> w == old(w) && log == old(log)
      ensures ok ==> Step(old(w), e) == Some(w) && log == old(log) + [e] && Frame(old(w), e, w)
      ensures ok && BrokerEvent(e) ==> w == old(w).(book := w.book)
      ensures ok && e.Crash? ==> w == Restarted(old(w))
      ensures ok && HoldingEvent(e) ==> KeepsHolding(old(w), w)
      ensures e.Crash? ==> ok
    {
      hide Step, Run, Inv, KeepsHolding, Frame;
      var next := Step(w, e);
      ok := next.Some?;
      CrashIsEnabled(w);
      if ok {
        RunExtends(start, log, e);
        StepFrame(w, e);
        if HoldingEvent(e) {
          StepHolds(w, e);
        }
        w := next.value;
        log := log + [e];
      }
    }

    /** Between two writes the broker moves as it likes, and the process may die. */
    method Interrupt() returns (alive: bool)
      requires Valid()
      modifies this
      ensures Valid() && old(log) <= log && BookMoves(old(w.book), w.book)
      ensures w == (if alive then old(w) else Restarted(old(w))).(book := w.book)
    {
      hide Step, Run, Inv, Valid, Advances, KeepsHolding;
      NothingMoves(w.book);
      var moves: nat := *;
      while moves > 0
        invariant Valid() && old(log) <= log
        invariant w == old(w).(book := w.book) && BookMoves(old(w.book), w.book)
      {
        var e: Event := *;
        if BrokerEvent(e) {
          ghost var before := w;
          var moved := Do(e);
          if moved {
            StepMovesBook(before, e);
            BookMovesOn(old(w.book), before.book, w.book);
          }
        }
        moves := moves - 1;
      }
      alive := *;
      if !alive {
        var died := Do(Crash);
      }
    }

    /** Stops coordinating or applying without having changed the position. */
    method Abandon()
      requires Valid()
      modifies this
      ensures Valid() && old(log) <= log && Intents(old(w), w, 0, 0) && w.cancels == old(w.cancels)
    {
      hide Step, Run, Inv, Valid;
      var ok := Do(GiveUp);
    }

    /** The durable reservation first, then the P&L, then the change in memory; nothing is saved yet. */
    method ReserveAndReduce() returns (alive: bool)
      requires Valid() && CanApply(w) && w.task.newly > 0
      modifies this
      ensures Valid() && old(log) <= log && |w.book| == |old(w.book)|
      ensures alive ==> w == Reduced(old(w)).(book := w.book)
      ensures !alive ==> w.task.Idle? && w.mem == w.file == old(w.file)
      ensures !alive ==> Intents(old(w), w, 0, 0) && w.cancels == old(w.cancels)
    {
      hide Step, Run, Inv, Valid, Frame, Reduced, UsableAverage;
      ghost var w0 := w;
      ReserveStage(w0);
      var ok := Do(ReserveFill);
      alive := Interrupt();
      if !alive {
        return;
      }
      if UsableAverage(w.task.result).Some? {
        BookStage(w0, w.book);
        ok := Do(BookFill);
        alive := Interrupt();
        if !alive {
          return;
        }
      }
      UpdateStage(w0, w.book);
      ok := Do(UpdateFromFill);
    }

    method SaveAndResolve() returns (alive: bool)
      requires Valid() && w.task.ApplyFill? && (w.task.fill.Updated? || (w.task.fill.Checked? && w.task.newly == 0))
      modifies this
      ensures Valid() && old(log) <= log && |w.book| == |old(w.book)|
      ensures alive ==> w == Finished(old(w)).(book := w.book)
      ensures !alive ==> w == old(w).(book := w.book, file := old(w.mem), task := Idle)
    {
      hide Step, Run, Inv, Valid, Frame, Finished;
      ghost var w0 := w;
      SaveStage(w0);
      var ok := Do(SaveFill);
      alive := Interrupt();
      if !alive {
        return;
      }
      FinishStage(w0, w.book);
      ok := Do(FinishFill);
    }

    /**
     `_apply_confirmed_protective_stop_fill`: reserve, book, change, save, resolve. Left
     alone it brings about the whole outcome; dying on the way it has saved either
     nothing or the whole position, and that only after the reservation.
     */
    method ApplyConfirmedStopFill() returns (alive: bool)
      requires Valid() && CanApply(w)
      modifies this
      ensures Valid() && old(log) <= log && Intents(old(w), w, 0, 0) && w.cancels == old(w.cancels)
      ensures alive ==> w == FillOutcome(old(w)).(book := w.book)
      ensures !alive ==> && w.task.Idle? && w.mem == w.file
                         && (w.file == old(w.file)
                             || (w.file == FillOutcome(old(w)).file
                                 && w.stop.applied == FillOutcome(old(w)).stop.applied))
    {
      hide Step, Run, Inv, Valid, Frame;
      OutcomeIs(w);
      alive := true;
      if w.task.newly > 0 {
        alive := ReserveAndReduce();
        if !alive {
          return;
        }
      }
      alive := SaveAndResolve();
    }

    /** The one cancel call, after its durable reservation. */
    method CancelOnce() returns (alive: bool)
      requires Valid()
      modifies this
      ensures Valid() && old(log) <= log && Intents(old(w), w, 0, 0) && w.cancels <= old(w.cancels) + 1
    {
      hide Step, Run, Inv, Valid;
      var ok := Do(ReserveCancel);
      alive := Interrupt();
      if !alive {
        return;
      }
      ok := Do(CallCancel);
      alive := Interrupt();
    }

    /** `coordinate_protective_stop_for_exit`: request, inspect, and cancel at most once. */
    method Coordinate(want: Wanted, reason: string, first: StopResult, second: StopResult) returns (alive: bool)
      requires Valid()
      modifies this
      ensures Valid() && old(log) <= log && Intents(old(w), w, 0, 0) && w.cancels <= old(w.cancels) + 1
    {
      hide Step, Run, Inv, Valid;
      alive := true;
      var ok := Do(RequestCoordination(want, reason));
      if !ok {
        return;
      }
      alive := Interrupt();
      if !alive {
        return;
      }
      ok := Do(CoordinationVerify(first));
      if ok && w.task.Coordinate? && w.task.coord.MayReserve? {
        alive := CancelOnce();
        if !alive {
          return;
        }
        ok := Do(CoordinationVerify(second));
      }
      if w.task.Coordinate? {
        Abandon();
      }
    }

    /**
     `_prepare_protective_stop_for_exit`. When it clears the exit, the stop can fill no
     more and the cleared quantity is still held and still covered.
     */
    method PrepareStopForExit(want: Wanted, reason: string, first: StopResult, second: StopResult)
      returns (cleared: bool)
      requires Valid()
      modifies this
      ensures Valid() && old(log) <= log && Intents(old(w), w, 0, 0) && w.cancels <= old(w.cancels) + 1
      ensures cleared && Sound() ==>
                && w.task.Cleared? && w.mem.Some? && 0 < w.task.quantity <= w.mem.value.qty
                && !LiveAt(w.book, w.stopIx) && w.mem.value.qty + StopFill(w) == w.stop.requested
    {
      hide Step, Run, Frame, FillOutcome;
      cleared := false;
      var alive := Coordinate(want, reason, first, second);
      if alive && CanApply(w) {
        alive := ApplyConfirmedStopFill();
        cleared := alive && w.task.Cleared?;
      }
      if Sound() {
        Safe();
      }
    }

    /**
     `_place_exit_order`: intent, submission, broker ID, verification. At most one order is
     sent, and only after its intent and for what a valid clearance allows; nothing is ever
     retried.
     */
    method PlaceExitOrder(accepted: bool, heard: bool, x: P.Execution) returns (alive: bool)
      requires Valid()
      modifies this
      ensures Valid() && old(log) <= log && Intents(old(w), w, 1, 0) && w.cancels == old(w.cancels)
      ensures SentFor(old(w), w)
    {
      hide Step, Run, Inv, Valid, SentFor, IntendedFor, KeepsHolding;
      alive := true;
      ghost var w0 := w;
      NothingSent(w0, w0);
      var ok := Do(CreateExit);
      if !ok {
        ok := Do(RefuseExit);
        NothingSent(w0, w);
        return;
      }
      CreateExitStage(w0);
      alive := Interrupt();
      if !alive {
        NothingSent(w0, w);
        return;
      }
      StillIntended(w0, Step(w0, CreateExit).value, w);
      ghost var w1 := w;
      ok := Do(SendExit(accepted, heard));
      SendExitStage(w1, accepted, heard);
      if ok && accepted {
        JustSent(w0, w1, w);
      } else {
        NothingSent(w0, w);
      }
      alive := FinishExitOrder(w0, x);
    }

    /** The broker ID and the verification of an order that was just sent. */
    method FinishExitOrder(ghost w0: World, x: P.Execution) returns (alive: bool)
      requires Valid() && SentFor(w0, w)
      modifies this
      ensures Valid() && old(log) <= log && Intents(old(w), w, 0, 0) && w.cancels == old(w.cancels)
      ensures SentFor(w0, w)
    {
      hide Step, Run, Inv, Valid, SentFor, KeepsHolding;
      ghost var w1 := w;
      alive := Interrupt();
      StillSent(w0, w1, w);
      if !alive {
        return;
      }
      ExitReplyStage(w, x);
      w1 := w;
      var ok := Do(AttachExit);
      NothingMoves(w.book);
      StillSent(w0, w1, w);
      w1 := w;
      alive := Interrupt();
      StillSent(w0, w1, w);
      if !alive {
        return;
      }
      ExitReplyStage(w, x);
      w1 := w;
      ok := Do(VerifyExit(x));
      NothingMoves(w.book);
      StillSent(w0, w1, w);
    }

    /** From the verified stop to the saved position. */
    method FinishProtection(r: StopResult, resolve: bool)
      requires Valid()
      modifies this
      ensures Valid() && old(log) <= log && Intents(old(w), w, 0, 0) && KeepsHolding(old(w), w)
      ensures w.held == old(w.held)
    {
      hide Step, Run, Inv, Valid, Holding;
      var ok := Do(VerifyStop(r));
      ok := Do(NameStop(ok));
      ok := Do(SaveProtection(resolve));
      if !ok && resolve {
        ok := Do(SaveProtection(false));
      }
    }

    /** `place_protective_stop` and its verification; a lost reply is looked up by its tag. */
    method ProtectPosition(trigger: real, tag: string, tick: real, accepted: bool, heard: bool, r: StopResult,
                           resolve: bool)
      returns (alive: bool)
      requires Valid()
      modifies this
      ensures Valid() && old(log) <= log && Intents(old(w), w, 0, 1) && KeepsHolding(old(w), w)
      ensures w.held == old(w.held)
    {
      hide Step, Run, Inv, Valid, Holding;
      alive := true;
      var ok := Do(CreateStop(trigger, tag, tick));
      if !ok {
        ok := Do(AbandonProtect);
        return;
      }
      alive := Interrupt();
      if !alive {
        return;
      }
      ok := Do(SendStop(accepted, heard));
      alive := Interrupt();
      if !alive {
        return;
      }
      if !(accepted && heard) {
        ok := Do(ReconcileStop);
      }
      ok := Do(AttachStop);
      alive := Interrupt();
      if !alive {
        return;
      }
      FinishProtection(r, resolve);
    }

    /** `_reprotect_remaining_live_position`: the old stop is resolved, the rest is saved and protected. */
    method Reprotect(trigger: real, tag: string, tick: real, r: StopResult) returns (alive: bool)
      requires Valid()
      modifies this
      ensures Valid() && old(log) <= log && Intents(old(w), w, 0, 1) && KeepsHolding(old(w), w)
    {
      hide Step, Run, Inv, Valid, Holding;
      var ok := Do(ResolveOldStop);
      alive := Interrupt();
      if !alive {
        return;
      }
      ok := Do(ResetProtection);
      alive := Interrupt();
      if !alive {
        return;
      }
      var resolve := w.task.Protect? && w.task.finalize;
      alive := ProtectPosition(trigger, tag, tick, true, true, r, resolve);
      if alive {
        alive := Interrupt();
      }
    }

    /**
     Book, change, save. The position ends up with so much less as is new, and with the
     operation's cursor at the cumulative fill; dying on the way saves that or nothing.
     */
    method CountExitFill() returns (alive: bool)
      requires Valid() && CanCount(w)
      modifies this
      ensures Valid() && old(log) <= log && Intents(old(w), w, 0, 0) && w.mem == w.file
      ensures alive ==> CountedIn(old(w), w.file) && w.task.Exit?
      ensures alive ==> w.exitBooked == old(w.exitBooked) + if BooksIt(old(w)) then NewlyConfirmed(old(w)) else 0
      ensures !alive ==> w.task.Idle? && (w.file == old(w.file) || CountedIn(old(w), w.file))
    {
      hide Step, Run, Inv, Valid, Frame, KeepsHolding, CanCount, BookedExit, UpdatedExit, CountedIn, BooksIt;
      ghost var w0 := w;
      CanCountFacts(w0);
      BookedFrame(w0);
      UpdateExitStage(w0, w.book);
      alive := true;
      var ok: bool;
      if BooksIt(w) {
        BookExitStage(w0);
        ok := Do(BookExit);
        alive := Interrupt();
        if !alive {
          return;
        }
      }
      assert w == BookedExit(w0).(book := w.book);
      UpdateExitStage(w0, w.book);
      ok := Do(UpdateFromExit);
      SaveExitStage(w0, w.book);
      ok := Do(SaveExit);
      alive := Interrupt();
    }

    /**
     The fill half of `check_position_exit`, with re-protection after a scalp that is over or
     was refused. A report that can be taken in is taken in exactly; a replaced stop changes
     nothing of what is held.
     */
    method ApplyExitFill(trigger: real, tag: string, tick: real, r: StopResult) returns (alive: bool)
      requires Valid()
      modifies this
      ensures Valid() && old(log) <= log && Intents(old(w), w, 0, 1)
      ensures CanCount(old(w)) && alive ==> CountedIn(old(w), w.file)
      ensures CanCount(old(w)) && !alive ==> Holding(old(w.file)) == Holding(w.file) || CountedIn(old(w), w.file)
      ensures !CanCount(old(w)) ==> KeepsHolding(old(w), w)
    {
      hide Step, Run, Inv, Valid, Frame, CanCount, CountedIn, BooksIt, KeepsHolding;
      ghost var w0 := w;
      alive := true;
      if CanCount(w) {
        alive := CountExitFill();
        if !alive {
          return;
        }
      } else {
        if w.task.Exit? && w.task.phase.ExitReported? && w.mem == w.file {
          RefusedCount(w0);
          var ended := Do(UpdateFromExit);
        }
        SameMeansHeld(w0, w);
      }
      ghost var w1 := w;
      alive := FinishExitFill(trigger, tag, tick, r);
      if CanCount(w0) {
        CountedOn(w0, w1, w);
      } else {
        StillHeld(w0, w1, w);
      }
    }

    /** Re-protection, if the exit asks for it, and the resolving write. */
    method FinishExitFill(trigger: real, tag: string, tick: real, r: StopResult) returns (alive: bool)
      requires Valid()
      modifies this
      ensures Valid() && old(log) <= log && Intents(old(w), w, 0, 1) && KeepsHolding(old(w), w)
    {
      hide Step, Run, Inv, Valid, KeepsHolding;
      alive := true;
      ghost var w0 := w;
      SameMeansHeld(w0, w0);
      if MayReprotect(w.task) {
        alive := Reprotect(trigger, tag, tick, r);
        if !alive {
          return;
        }
      }
      ghost var w1 := w;
      SameMeansHeld(w1, w1);
      var ok := Do(FinishExit);
      StillHeld(w0, w1, w);
    }

    /** `recover_unresolved_protective_stops`: no stop is ever sent again. */
    method RecoverStops(r: StopResult) returns (alive: bool)
      requires Valid()
      modifies this
      ensures Valid() && old(log) <= log && Intents(old(w), w, 0, 0) && KeepsHolding(old(w), w)
    {
      hide Step, Run, Inv, Valid, Holding;
      alive := true;
      var ok := Do(RecoverStop);
      if ok {
        ok := Do(ReconcileStop);
        ok := Do(AttachStop);
        alive := Interrupt();
        if alive {
          FinishProtection(r, false);
        }
      }
    }

    /**
     `recover_unresolved_exits`: no exit is ever sent again, and re-protection may send one
     stop. The position keeps what it held, or takes in exactly what `x` shows beyond its
     cursor: with a verified report that can be taken in, the latter.
     */
    method RecoverExits(x: P.Execution, trigger: real, tag: string, tick: real, r: StopResult)
      returns (alive: bool, verified: bool)
      requires Valid()
      modifies this
      ensures Valid() && old(log) <= log && Intents(old(w), w, 0, 1)
      ensures old(w).mem == old(w).file ==> Holding(old(w).file) == Holding(w.file) || Recounted(old(w), x, w.file)
      ensures alive && verified && old(w).mem == old(w).file && Recountable(old(w), x) ==> Recounted(old(w), x, w.file)
    {
      hide Step, Run, Inv, Valid, CountedIn, CanCount, Recounted, Recountable, KeepsHolding;
      alive, verified := true, false;
      ghost var w0 := w;
      RecoverExitStage(w0);
      var ok := Do(RecoverExit);
      if ok {
        alive := Interrupt();
        if alive {
          VerifyExitStage(w, x);
          verified := Do(VerifyExit(x));
          ghost var w2 := w;
          OnlyReportsCount(w2);
          if verified {
            RecountIs(w0, w2, x);
          }
          alive := ApplyExitFill(trigger, tag, tick, r);
          if w0.mem == w0.file {
            Concluded(w0, w2, w, x);
          }
        }
      }
    }

    /**
     `recover_unresolved_entries`: what the entry filled further is taken in, and a position
     without a stop is protected. No entry is ever sent again.
     */
    method RecoverEntries(total: nat, terminal: bool, settled: bool, trigger: real, tag: string, tick: real,
                          accepted: bool, heard: bool, r: StopResult)
      returns (alive: bool)
      requires Valid()
      modifies this
      ensures Valid() && old(log) <= log && Intents(old(w), w, 0, 1)
      ensures w.held == old(w.held) || w.held == total
      ensures old(w).mem.Some? && old(w).mem == old(w).file ==>
                && old(w.held) <= w.held && w.file.Some?
                && w.file.value.qty == old(w).file.value.qty + w.held - old(w.held)
    {
      hide Step, Run, Inv, Valid, KeepsHolding;
      alive := true;
      ghost var w0 := w;
      var ok := Do(RecoverEntry(total, terminal, settled));
      if !ok {
        return;
      }
      RecoverEntryStage(w0, total, terminal, settled);
      ghost var w1 := w;
      alive := Interrupt();
      RestartIsHeld(w1, w);
      if !alive || !(w.mem.Some? && w.mem.value.stopOp.None?) {
        if w1.mem == w1.file && w1.file.Some? {
          HoldsQuantity(w1, w);
        }
        return;
      }
      ghost var w2 := w;
      SameMeansHeld(w2, w2);
      ok := Do(BeginProtect);
      StillHeld(w1, w2, w);
      ghost var w3 := w;
      alive := ProtectPosition(trigger, tag, tick, accepted, heard, r, false);
      StillHeld(w1, w3, w);
      if w1.mem == w1.file && w1.file.Some? {
        HoldsQuantity(w1, w);
      }
    }

    /** The entry fills further at the broker, or ends there. */
    method EntryMoves()
      requires Valid()
      modifies this
      ensures Valid() && old(log) <= log
    {
      hide Step, Run, Inv, Valid;
      var moves: nat := *;
      while moves > 0
        invariant Valid() && old(log) <= log
      {
        var n: nat, status: Status := *, *;
        var filled := Do(EntryFill(n));
        if !filled {
          var ended := Do(EntryFinish(status));
        }
        moves := moves - 1;
      }
    }

    /**
     The trading day: any number of turns, each of them any of the operations with any
     arguments, dying and restarting anywhere. Under the three hypotheses, whatever has
     happened, what the broker has sold and may still sell is within what was bought.
     */
    method TradingDay(turns: nat)
      requires Valid()
      modifies this
      ensures Valid() && old(log) <= log
      ensures Sound() ==> SumFilled(w.book) <= Exposure(w.book) <= w.held <= w.entry.filled
    {
      hide Step, Run, Inv, Frame, Intents, FillOutcome, Exposure, SumFilled, KeepsHolding, SentFor, CountedIn, CanCount;
      hide Recounted, Recountable;
      for turn := 0 to turns
        invariant Valid() && old(log) <= log
      {
        var choice: nat := *;
        var want: Wanted, reason: string, r: StopResult, r': StopResult, x: P.Execution := *, *, *, *, *;
        var trigger: real, tag: string, tick: real, accepted: bool, heard: bool := *, *, *, *, *;
        var total: nat, terminal: bool, settled: bool := *, *, *;
        EntryMoves();
        if choice == 0 {
          var begun := Do(BeginProtect);
          var alive := ProtectPosition(trigger, tag, tick, accepted, heard, r, false);
        } else if choice == 1 {
          var inspected := Do(InspectStop(r));
          if CanApply(w) {
            var alive := ApplyConfirmedStopFill();
          }
        } else if choice == 2 {
          var cleared := PrepareStopForExit(want, reason, r, r');
          if cleared {
            var alive := PlaceExitOrder(accepted, heard, x);
            if alive {
              alive := ApplyExitFill(trigger, tag, tick, r);
            }
          }
        } else if choice == 3 {
          var crashed := Do(Crash);
          var alive := RecoverEntries(total, terminal, settled, trigger, tag, tick, accepted, heard, r);
          if alive {
            alive := RecoverStops(r);
          }
          if alive {
            var verified: bool;
            alive, verified := RecoverExits(x, trigger, tag, tick, r');
          }
        } else {
          var alive := Interrupt();
        }
      }
      if Sound() {
        Safe();
      }
    }
  }
}
