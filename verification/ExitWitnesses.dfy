/**
 Concrete runs of the exit protocol: what an undisturbed cycle does, and the three
 windows in which the code breaks its own accounting.
 */
module ExitWitnesses {
  import opened Wrappers
  import opened Broker
  import S = StopStore
  import P = PendingStore
  import opened StopVerification
  import opened StopExit
  import opened ExitProtocol
  import opened ExitInvariant
  import opened ExitSafety
  import opened ExitResults
  import opened ExitSteps
  import opened ExitReprotection
  import opened ExitEntry

  /** The worlds passed through, one step apart. */
  predicate Chain(ws: seq<World>, es: seq<Event>) {
    |ws| == |es| + 1 && forall i :: 0 <= i < |es| ==> Step(ws[i], es[i]) == Some(ws[i + 1])
  }

  lemma {:induction false} ChainRuns(ws: seq<World>, es: seq<Event>)
    requires Chain(ws, es)
    ensures Run(ws[0], es) == Some(ws[|es|])
    decreases |es|
  {
    hide Step;
    if es != [] {
      assert Chain(ws[1..], es[1..]) by {
        forall i | 0 <= i < |es[1..]| ensures Step(ws[1..][i], es[1..][i]) == Some(ws[1..][i + 1]) {
          assert Step(ws[i + 1], es[i + 1]) == Some(ws[i + 2]);
        }
      }
      ChainRuns(ws[1..], es[1..]);
      assert Step(ws[0], es[0]) == Some(ws[1]);
    }
  }

  const TAG := "KBSL1"

  function Armed(qty: nat): StopResult {
    StopResult(ACTIVE, 0, qty, 0, None, true, false, 1, 0)
  }

  function CancelledUnfilled(qty: nat): StopResult {
    StopResult(CANCELLED, 0, 0, qty, None, false, true, 1, 0)
  }

  // ----------------------------------------------------- an undisturbed protection

  function ProtectEvents(qty: nat, resolve: bool): seq<Event> {
    [CreateStop(95.0, TAG, 0.05), SendStop(true, true), AttachStop, VerifyStop(Armed(qty)), NameStop(true),
     SaveProtection(resolve)]
  }

  function ArmedStop(w: World, p: Position): S.StopRecord {
    S.NewRecord(w.gen + 1, S.StopIntent(w.symbol, p.exchange, p.direction, OppositeSide(p.direction), p.qty, 95.0,
                                        TAG, Some(0.05)))
      .(orderId := Some(|w.book|), status := "", active := true)
  }

  /** What the book, the stop store and the position look like after it. */
  function Protected(w: World, p: Position, task: Task): World
    requires p.qty >= 0
  {
    var q := p.(stopOp := Some(w.gen + 1));
    w.(gen := w.gen + 1, stop := ArmedStop(w, p), stopIx := Some(|w.book|),
       book := w.book + [Order(StopOrder(w.gen + 1), p.qty, 0, TriggerPending)],
       cancels := 0, late := 0, stopBooked := 0, mem := Some(q), file := Some(q), task := task)
  }

  predicate CanProtect(w: World, p: Position) {
    && w.task.Protect? && w.task.protect.Start? && w.mem == w.file == Some(p)
    && p.qty > 0 && (w.gen == 0 || w.stop.resolved)
    && w.symbol != "" && p.exchange != "" && p.direction != S.OtherSide
  }

  lemma TagIsLegal()
    ensures TAG != "" && |TAG| <= 20 && S.AlphaNumeric(TAG)
  {
  }

  lemma ProtectCreates(w: World, p: Position)
    requires CanProtect(w, p)
    ensures DoCreateStop(w, 95.0, TAG, 0.05)
            == Some(w.(gen := w.gen + 1, stopIx := None, cancels := 0, late := 0, stopBooked := 0,
                       stop := ArmedStop(w, p).(orderId := None, status := "INTENT_CREATED", active := false),
                       task := Protect(Intended, w.task.finalize)))
  {
    TagIsLegal();
    hide S.AlphaNumeric;
  }

  /** After the intent: the order is accepted, its ID attached, and the poll finds it armed. */
  lemma ProtectArms(w: World, w1: World, p: Position, resolve: bool)
    requires CanProtect(w, p) && (resolve ==> w.task.finalize) && DoCreateStop(w, 95.0, TAG, 0.05) == Some(w1)
    ensures DoSendStop(w1, true, true).Some?
    ensures var w2 := DoSendStop(w1, true, true).value;
            && DoAttachStop(w2).Some?
            && var w3 := DoAttachStop(w2).value;
               && DoVerifyStop(w3, Armed(p.qty)).Some?
               && var w4 := DoVerifyStop(w3, Armed(p.qty)).value;
                  && DoNameStop(w4, true).Some?
                  && var w5 := DoNameStop(w4, true).value;
                     DoSaveProtection(w5, resolve)
                     == Some(Protected(w, p, if resolve then Exit(ExitSaved(true, false), true, false) else Idle))
  {
    ProtectCreates(w, p);
    hide DoCreateStop;
  }

  lemma Protects(w: World, p: Position, resolve: bool)
    requires CanProtect(w, p) && (resolve ==> w.task.finalize)
    ensures Run(w, ProtectEvents(p.qty, resolve))
            == Some(Protected(w, p, if resolve then Exit(ExitSaved(true, false), true, false) else Idle))
  {
    hide Step, Run, Protected, DoCreateStop, DoSendStop, DoAttachStop, DoVerifyStop, DoNameStop, DoSaveProtection;
    hide ArmedStop;
    ProtectCreates(w, p);
    var w1 := DoCreateStop(w, 95.0, TAG, 0.05).value;
    ProtectArms(w, w1, p, resolve);
    var w2 := DoSendStop(w1, true, true).value;
    var w3 := DoAttachStop(w2).value;
    var w4 := DoVerifyStop(w3, Armed(p.qty)).value;
    var w5 := DoNameStop(w4, true).value;
    var w6 := DoSaveProtection(w5, resolve).value;
    var ws := [w, w1, w2, w3, w4, w5, w6];
    StepIs(w, 95.0, TAG, 0.05);
    StepIs(w1, 95.0, TAG, 0.05);
    SubmissionStepIs(w2, Armed(p.qty));
    SubmissionStepIs(w3, Armed(p.qty));
    SubmissionStepIs(w4, Armed(p.qty));
    SubmissionStepIs(w5, Armed(p.qty));
    ChainRuns(ws, ProtectEvents(p.qty, resolve));
  }

  // ----------------------------------------- an undisturbed cancellation and clearance

  function CancelEvents(want: Wanted, qty: nat, ix: nat): seq<Event> {
    [RequestCoordination(want, "x"), CoordinationVerify(Armed(qty)), ReserveCancel, CallCancel,
     BrokerFinish(ix, Cancelled), CoordinationVerify(CancelledUnfilled(qty)), SaveFill, FinishFill]
  }

  predicate CanCancel(w: World, p: Position, want: Wanted) {
    && w.task.Idle? && w.mem == w.file == Some(p) && w.gen > 0
    && p.stopOp == Some(w.gen) && p.direction == w.stop.direction && p.exchange == w.stop.exchange
    && w.stop.operationId == w.gen && w.stop.symbol == w.symbol
    && w.stop.orderId.Some? && w.stop.orderId == w.stopIx && w.stopIx.value < |w.book|
    && p.qty == w.stop.requested > 0 && w.stop.applied == 0 && w.stop.filled == 0
    && w.book[w.stopIx.value] == Order(StopOrder(w.gen), p.qty, 0, TriggerPending)
    && !w.stop.exitRequested && !w.stop.cancelAttempted && !w.stop.resolved
    && 0 < want.quantity <= p.qty && want.full == (want.quantity == p.qty)
    && (want.scalp ==> want.action == P.Exit) && (want.action == P.Exit || want.action == P.ForceExit)
  }

  function CancelledStop(s: S.StopRecord, want: Wanted): S.StopRecord {
    s.(exitRequested := true, exitAction := Some(ExitActionOf(want.action)), exitReason := Some("x"),
       exitQuantity := Some(s.requested), exitState := Some("CANCEL_REQUEST_RESERVED"), cancelAttempted := true,
       pending := 0, cancelled := s.requested, average := None, status := "", active := false, terminal := true,
       resolved := true)
  }

  function AfterCancel(w: World, want: Wanted): World
    requires w.stopIx.Some? && w.stopIx.value < |w.book|
  {
    var ix := w.stopIx.value;
    w.(stop := CancelledStop(w.stop, want), book := w.book[ix := w.book[ix].(status := Cancelled)],
       cancels := w.cancels + 1, task := Cleared(want, want.quantity, CANCELLED))
  }

  /** The first half: the stop is found armed, and the one cancel call is made. */
  lemma CancelIsCalled(w: World, p: Position, want: Wanted)
    requires CanCancel(w, p, want)
    ensures DoRequestCoordination(w, want, "x").Some?
    ensures var w1 := DoRequestCoordination(w, want, "x").value;
            && DoCoordinationVerify(w1, Armed(p.qty)).Some?
            && var w2 := DoCoordinationVerify(w1, Armed(p.qty)).value;
               && DoReserveCancel(w2).Some?
               && var w3 := DoReserveCancel(w2).value;
                  DoCallCancel(w3)
                  == Some(w.(cancels := w.cancels + 1, task := Coordinate(want, CancelCalled),
                             stop := CancelledStop(w.stop, want).(pending := p.qty, cancelled := 0, active := true,
                                                                  terminal := false, resolved := false)))
  {
    hide SumFilled;
  }

  /** The second half: the broker cancels, and the exit is cleared for all that was wanted. */
  lemma CancelIsConfirmed(w: World, w4: World, p: Position, want: Wanted)
    requires CanCancel(w, p, want)
    requires w4 == w.(cancels := w.cancels + 1, task := Coordinate(want, CancelCalled),
                      stop := CancelledStop(w.stop, want).(pending := p.qty, cancelled := 0, active := true,
                                                           terminal := false, resolved := false))
    ensures DoFinish(w4, w.stopIx.value, Cancelled).Some?
    ensures var w5 := DoFinish(w4, w.stopIx.value, Cancelled).value;
            && DoCoordinationVerify(w5, CancelledUnfilled(p.qty)).Some?
            && var w6 := DoCoordinationVerify(w5, CancelledUnfilled(p.qty)).value;
               && DoSaveFill(w6).Some?
               && DoFinishFill(DoSaveFill(w6).value) == Some(AfterCancel(w, want))
  {
    hide SumFilled;
  }

  lemma Cancels(w: World, p: Position, want: Wanted)
    requires CanCancel(w, p, want)
    ensures Run(w, CancelEvents(want, p.qty, w.stopIx.value)) == Some(AfterCancel(w, want))
  {
    hide Step, Run, AfterCancel, CancelledStop, DoRequestCoordination, DoCoordinationVerify, DoReserveCancel;
    hide DoCallCancel;
    hide DoFinish, DoSaveFill, DoFinishFill;
    CancelIsCalled(w, p, want);
    var ix := w.stopIx.value;
    var w1 := DoRequestCoordination(w, want, "x").value;
    var w2 := DoCoordinationVerify(w1, Armed(p.qty)).value;
    var w3 := DoReserveCancel(w2).value;
    var w4 := DoCallCancel(w3).value;
    CancelIsConfirmed(w, w4, p, want);
    var w5 := DoFinish(w4, ix, Cancelled).value;
    var w6 := DoCoordinationVerify(w5, CancelledUnfilled(p.qty)).value;
    var w7 := DoSaveFill(w6).value;
    var w8 := DoFinishFill(w7).value;
    CoordinationStepIs(w, want, "x", Armed(p.qty));
    CoordinationStepIs(w1, want, "x", Armed(p.qty));
    CancelStepIs(w2, ix);
    CancelStepIs(w3, ix);
    CancelStepIs(w4, ix);
    CoordinationStepIs(w5, want, "x", CancelledUnfilled(p.qty));
    FillStepIs(w6);
    FillStepIs(w7);
    ChainRuns([w, w1, w2, w3, w4, w5, w6, w7, w8], CancelEvents(want, p.qty, ix));
  }

  // ------------------------------------------------------ ten shares, five sold as a scalp

  const NEW := Init("INFY", "NSE", S.Buy, 10, Bought(10), false)
  const SCALP := Wanted(P.Exit, 5, false, true)
  const RUNNER := Wanted(P.Exit, 5, true, false)
  const SOLD := P.Execution(5, 0, 0, Some(101.0), "COMPLETE", true)
  const UNSEEN := P.Execution(0, 5, 0, None, "TIMEOUT", false)

  const HELD := Protected(NEW.(task := Protect(Start, false)), NEW.mem.value, Idle)
  const SCALP_CLEARED := AfterCancel(HELD, SCALP)

  const SELL_SCALP: seq<Event> := [CreateExit, SendExit(true, true), BrokerFill(1, 5), BrokerFinish(1, Complete),
                                   AttachExit]
  const BOOK_SCALP: seq<Event> := [VerifyExit(SOLD), BookExit, UpdateFromExit, SaveExit]

  const SCALP_SENT := SCALP_CLEARED.(
    book := [Order(StopOrder(1), 10, 0, Cancelled), Order(ExitOrder(1), 5, 5, Complete)],
    exitIx := Some(1), exits := 1, clearedGen := 1, task := Exit(ExitAttached, false, true),
    exit := P.NewRecord(1, P.OrderIntent("INFY", "NSE", P.Exit, S.Sell, 5, None)).(orderId := Some(1)))

  const RUNNER_POSITION := Position("NSE", S.Buy, 5, Some(1), Some(1), 5, Some(101.0), true, None, 0, None)

  const SCALP_SAVED := SCALP_SENT.(
    exit := SCALP_SENT.exit.(filled := 5, pending := 0, average := Some(101.0), status := "COMPLETE", terminal := true),
    exitBooked := 5, bookedTo := 5, mem := Some(RUNNER_POSITION), file := Some(RUNNER_POSITION),
    task := Exit(ExitSaved(true, true), false, true))

  lemma ScalpSent()
    ensures Run(SCALP_CLEARED, SELL_SCALP) == Some(SCALP_SENT)
  {
    hide Step, Run;
    var w0 := SCALP_CLEARED;
    var w1 := DoCreateExit(w0).value;
    var w2 := DoSendExit(w1, true, true).value;
    var w3 := DoFill(w2, 1, 5).value;
    var w4 := DoFinish(w3, 1, Complete).value;
    assert w1.exits == 1 && w2.exitIx == Some(1) && DoFill(w2, 1, 5).Some? && DoFinish(w3, 1, Complete).Some?;
    assert DoAttachExit(w4).Some? && DoAttachExit(w4).value.book == SCALP_SENT.book;
    assert DoAttachExit(w4) == Some(SCALP_SENT);
    SendStepIs(w0);
    SendStepIs(w1);
    BrokerStepIs(w2, 1, 5, Complete);
    BrokerStepIs(w3, 1, 5, Complete);
    SendStepIs(w4);
    ChainRuns([w0, w1, w2, w3, w4, SCALP_SENT], SELL_SCALP);
  }

  lemma ScalpSaved()
    ensures Run(SCALP_SENT, BOOK_SCALP) == Some(SCALP_SAVED)
  {
    hide Step, Run;
    var w0 := SCALP_SENT;
    var w1 := DoVerifyExit(w0, SOLD).value;
    var w2 := DoBookExit(w1).value;
    var w3 := DoUpdateFromExit(w2).value;
    assert w1 == w0.(exit := SCALP_SAVED.exit, task := Exit(ExitReported(5, true, Some(101.0)), false, true));
    assert w2 == w1.(exitBooked := 5, bookedTo := 5, task := Exit(ExitBooked(5, true, Some(101.0)), false, true));
    assert w3 == w2.(mem := Some(RUNNER_POSITION), task := Exit(ExitUpdated(true, true, true), false, true));
    assert DoSaveExit(w3) == Some(SCALP_SAVED);
    ExitStepIs(w0, SOLD);
    ExitStepIs(w1, SOLD);
    ExitSaveStepIs(w2);
    ExitSaveStepIs(w3);
    ChainRuns([w0, w1, w2, w3, SCALP_SAVED], BOOK_SCALP);
  }

  // ------------------------------------------------- the remaining five are re-protected

  /** The old stop is resolved and the position saved without a stop. */
  function Unprotected(w: World): World
    requires w.task.Exit? && w.task.phase.ExitSaved? && w.mem.Some?
  {
    var p := w.mem.value.(stopOp := None);
    w.(stop := w.stop.(resolved := true, active := false), mem := Some(p), file := Some(p),
       task := Protect(Start, w.task.phase.resolve))
  }

  lemma Unprotects(w: World)
    requires w.task.Exit? && w.task.phase.ExitSaved? && w.task.phase.reprotect && w.mem.Some?
    requires w.mem.value.stopOp == Some(w.gen)
    ensures Run(w, [ResolveOldStop, ResetProtection]) == Some(Unprotected(w))
  {
    hide Step, Run;
    var w1 := DoResolveOldStop(w).value;
    StepIs(w, 95.0, TAG, 0.05);
    StepIs(w1, 95.0, TAG, 0.05);
    ChainRuns([w, w1, Unprotected(w)], [ResolveOldStop, ResetProtection]);
  }

  const REPROTECTED := Protected(Unprotected(SCALP_SAVED), RUNNER_POSITION.(stopOp := None),
                                 Exit(ExitSaved(true, false), true, false))

  lemma Prefix(w: World, v: World, a: seq<Event>, b: seq<Event>)
    requires Run(w, a) == Some(v)
    ensures Run(w, a + b) == Run(v, b)
  {
    RunConcat(w, a, b);
  }

  lemma BeginIs(w: World)
    ensures Run(w, [BeginProtect]) == DoBeginProtect(w)
  {
    hide DoBeginProtect;
    assert [BeginProtect] == [BeginProtect] + [];
    assert [BeginProtect][1..] == [];
  }

  lemma ReachesHeld(rest: seq<Event>)
    ensures Run(NEW, [BeginProtect] + (ProtectEvents(10, false) + rest)) == Run(HELD, rest)
  {
    hide Run, ProtectEvents;
    BeginIs(NEW);
    var w1 := NEW.(task := Protect(Start, false));
    Prefix(NEW, w1, [BeginProtect], ProtectEvents(10, false) + rest);
    Protects(w1, NEW.mem.value, false);
    Prefix(w1, HELD, ProtectEvents(10, false), rest);
  }

  lemma ReachesScalpSent(rest: seq<Event>)
    ensures Run(HELD, CancelEvents(SCALP, 10, 0) + (SELL_SCALP + rest)) == Run(SCALP_SENT, rest)
  {
    hide Run, CancelEvents;
    Cancels(HELD, HELD.mem.value, SCALP);
    ScalpSent();
    Prefix(HELD, SCALP_CLEARED, CancelEvents(SCALP, 10, 0), SELL_SCALP + rest);
    Prefix(SCALP_CLEARED, SCALP_SENT, SELL_SCALP, rest);
  }

  lemma ReachesReprotected(rest: seq<Event>)
    ensures Run(SCALP_SENT, BOOK_SCALP + ([ResolveOldStop, ResetProtection] + (ProtectEvents(5, true) + rest)))
            == Run(REPROTECTED, rest)
  {
    hide Run, ProtectEvents;
    ScalpSaved();
    Unprotects(SCALP_SAVED);
    var w := Unprotected(SCALP_SAVED);
    Protects(w, w.mem.value, true);
    Prefix(SCALP_SENT, SCALP_SAVED, BOOK_SCALP, [ResolveOldStop, ResetProtection] + (ProtectEvents(5, true) + rest));
    Prefix(SCALP_SAVED, w, [ResolveOldStop, ResetProtection], ProtectEvents(5, true) + rest);
    Prefix(w, REPROTECTED, ProtectEvents(5, true), rest);
  }

  // -------------------------- window 1: a crash between re-protection and its last write

  const RECOVER: seq<Event> := [Crash, RecoverExit, VerifyExit(SOLD), UpdateFromExit, SaveExit]
  const BOTH_TRIGGER: seq<Event> := [BrokerTrigger(2), BrokerTrigger(3), BrokerFill(2, 5), BrokerFill(3, 5)]

  const WINDOW := REPROTECTED.(task := Exit(ExitSaved(true, true), true, true))
  const TWO_STOPS := Protected(Unprotected(WINDOW), RUNNER_POSITION.(stopOp := None),
                               Exit(ExitSaved(true, false), true, false))

  lemma WindowReached()
    ensures Run(REPROTECTED, RECOVER) == Some(WINDOW)
  {
    hide Step, Run;
    var w0 := REPROTECTED;
    var w1 := Restarted(w0);
    var w2 := w1.(task := Exit(ExitAttached, true, true));
    var w3 := w1.(task := Exit(ExitReported(5, true, Some(101.0)), true, true));
    var w4 := w1.(task := Exit(ExitUpdated(true, true, false), true, true));
    assert DoRecoverExit(w1) == Some(w2);
    assert DoVerifyExit(w2, SOLD) == Some(w3);
    assert DoUpdateFromExit(w3) == Some(w4);
    assert DoSaveExit(w4) == Some(WINDOW);
    ExitSaveStepIs(w0);
    ExitStepIs(w1, SOLD);
    ExitStepIs(w2, SOLD);
    ExitSaveStepIs(w3);
    ExitSaveStepIs(w4);
    ChainRuns([w0, w1, w2, w3, w4, WINDOW], RECOVER);
  }

  lemma FourFills(a: Order, b: Order, c: Order, d: Order)
    ensures SumFilled([a, b, c, d]) == a.filled + b.filled + c.filled + d.filled
  {
    assert [a, b, c, d] == [a, b, c] + [d];
    assert [a, b, c] == [a, b] + [c];
    assert [a, b] == [a] + [b];
    assert [a] == [] + [a];
    SumAppend([a, b, c], d);
    SumAppend([a, b], c);
    SumAppend([a], b);
    SumAppend([], a);
  }

  const BOTH_SOLD := TWO_STOPS.(book := [
    Order(StopOrder(1), 10, 0, Cancelled), Order(ExitOrder(1), 5, 5, Complete),
    Order(StopOrder(2), 5, 5, Open), Order(StopOrder(3), 5, 5, Open)])

  lemma BothTrigger()
    ensures Run(TWO_STOPS, BOTH_TRIGGER) == Some(BOTH_SOLD) && SumFilled(BOTH_SOLD.book) == 15
  {
    hide Step, Run, SumFilled;
    var b := BOTH_SOLD.book;
    FourFills(b[0], b[1], b[2], b[3]);
    assert TWO_STOPS.book == [b[0], b[1], Order(StopOrder(2), 5, 0, TriggerPending),
                              Order(StopOrder(3), 5, 0, TriggerPending)];
    var w1 := DoTrigger(TWO_STOPS, 2).value;
    var w2 := DoTrigger(w1, 3).value;
    var w3 := DoFill(w2, 2, 5).value;
    assert DoFill(w3, 3, 5).value.book == b;
    BrokerStepIs(TWO_STOPS, 2, 5, Complete);
    BrokerStepIs(w1, 3, 5, Complete);
    BrokerStepIs(w2, 2, 5, Complete);
    BrokerStepIs(w3, 3, 5, Complete);
    ChainRuns([TWO_STOPS, w1, w2, w3, BOTH_SOLD], BOTH_TRIGGER);
  }

  /** The scalp is sold and the runner re-protected; the process dies before the exit is resolved. */
  const CRASH_AFTER_REPROTECTION: seq<Event> :=
    [BeginProtect] + (ProtectEvents(10, false) + (CancelEvents(SCALP, 10, 0) + (SELL_SCALP + (BOOK_SCALP
    + ([ResolveOldStop, ResetProtection] + (ProtectEvents(5, true)
    + (RECOVER + ([ResolveOldStop, ResetProtection] + (ProtectEvents(5, true) + BOTH_TRIGGER)))))))))

  /** Recovery re-protects again, over the live replacement: fifteen shares are sold of ten. */
  lemma CrashAfterReprotectionOversells()
    ensures Run(NEW, CRASH_AFTER_REPROTECTION).Some?
    ensures var v := Run(NEW, CRASH_AFTER_REPROTECTION).value;
            SumFilled(v.book) == 15 > v.held == v.entry.filled && v.exits == 1
  {
    hide Run, Step, ProtectEvents, CancelEvents, SumFilled;
    WindowReached();
    Unprotects(WINDOW);
    var u := Unprotected(WINDOW);
    Protects(u, u.mem.value, true);
    BothTrigger();
    var r4 := BOTH_TRIGGER;
    var r3 := ProtectEvents(5, true) + r4;
    var r2 := [ResolveOldStop, ResetProtection] + r3;
    var r1 := RECOVER + r2;
    ReachesHeld(CancelEvents(SCALP, 10, 0)
                + (SELL_SCALP + (BOOK_SCALP + ([ResolveOldStop, ResetProtection] + (ProtectEvents(5, true) + r1)))));
    ReachesScalpSent(BOOK_SCALP + ([ResolveOldStop, ResetProtection] + (ProtectEvents(5, true) + r1)));
    ReachesReprotected(r1);
    Prefix(REPROTECTED, WINDOW, RECOVER, r2);
    Prefix(WINDOW, u, [ResolveOldStop, ResetProtection], r3);
    Prefix(u, TWO_STOPS, ProtectEvents(5, true), r4);
  }

  // The same without a crash in between: the replacement is live, but its poll times out.

  const TIMED_OUT := StopResult(TIMEOUT, 0, 5, 0, None, false, false, 1, 0)
  const UNCONFIRMED: seq<Event> :=
    [CreateStop(95.0, TAG, 0.05), SendStop(true, true), AttachStop, VerifyStop(TIMED_OUT), NameStop(true),
     SaveProtection(false)]

  const LEFT_UNCONFIRMED := REPROTECTED.(stop := REPROTECTED.stop.(active := false), task := Idle)

  const SENT_AGAIN := LEFT_UNCONFIRMED.(
    stop := LEFT_UNCONFIRMED.stop.(orderId := None, status := "INTENT_CREATED"),
    mem := Unprotected(SCALP_SAVED).mem, file := Unprotected(SCALP_SAVED).file, task := Protect(Sent(Some(2)), true))

  lemma SendsAgain()
    ensures var w0 := Unprotected(SCALP_SAVED);
            && DoCreateStop(w0, 95.0, TAG, 0.05).Some?
            && DoSendStop(DoCreateStop(w0, 95.0, TAG, 0.05).value, true, true) == Some(SENT_AGAIN)
  {
    ProtectCreates(Unprotected(SCALP_SAVED), Unprotected(SCALP_SAVED).mem.value);
    hide DoCreateStop;
  }

  lemma TimesOut()
    ensures DoAttachStop(SENT_AGAIN).Some?
    ensures var w3 := DoAttachStop(SENT_AGAIN).value;
            && DoVerifyStop(w3, TIMED_OUT).Some?
            && var w4 := DoVerifyStop(w3, TIMED_OUT).value;
               && DoNameStop(w4, true).Some?
               && DoSaveProtection(DoNameStop(w4, true).value, false) == Some(LEFT_UNCONFIRMED)
  {
  }

  lemma LeavesUnconfirmed()
    ensures Run(Unprotected(SCALP_SAVED), UNCONFIRMED) == Some(LEFT_UNCONFIRMED)
  {
    hide Step, Run, DoCreateStop, DoSendStop, DoAttachStop, DoVerifyStop, DoNameStop, DoSaveProtection, Unprotected;
    SendsAgain();
    TimesOut();
    var w0 := Unprotected(SCALP_SAVED);
    var w1 := DoCreateStop(w0, 95.0, TAG, 0.05).value;
    var w3 := DoAttachStop(SENT_AGAIN).value;
    var w4 := DoVerifyStop(w3, TIMED_OUT).value;
    var w5 := DoNameStop(w4, true).value;
    StepIs(w0, 95.0, TAG, 0.05);
    StepIs(w1, 95.0, TAG, 0.05);
    SubmissionStepIs(SENT_AGAIN, TIMED_OUT);
    SubmissionStepIs(w3, TIMED_OUT);
    SubmissionStepIs(w4, TIMED_OUT);
    SubmissionStepIs(w5, TIMED_OUT);
    assert Step(w5, SaveProtection(false)) == DoSaveProtection(w5, false);
    ChainRuns([w0, w1, SENT_AGAIN, w3, w4, w5, LEFT_UNCONFIRMED], UNCONFIRMED);
  }

  lemma UnconfirmedIsLost()
    ensures Lost(LEFT_UNCONFIRMED, SOLD) && Protectable(LEFT_UNCONFIRMED, 95.0, TAG, 0.05)
    ensures BookInv(LEFT_UNCONFIRMED) && ExitInv(LEFT_UNCONFIRMED)
  {
    var b := LEFT_UNCONFIRMED.book;
    assert b == [Order(StopOrder(1), 10, 0, Cancelled), Order(ExitOrder(1), 5, 5, Complete)]
                + [Order(StopOrder(2), 5, 0, TriggerPending)];
    FourFills(b[0], b[1], b[2], Order(StopOrder(0), 0, 0, Open));
    SumAppend(b, Order(StopOrder(0), 0, 0, Open));
    assert [b[0], b[1], b[2], Order(StopOrder(0), 0, 0, Open)] == b + [Order(StopOrder(0), 0, 0, Open)];
    TagIsLegal();
    hide SumFilled, S.AlphaNumeric;
  }

  /** The scalp is sold, the stop for the rest times out; the process is restarted at some later time. */
  const UNCONFIRMED_REPROTECTION: seq<Event> :=
    [BeginProtect] + (ProtectEvents(10, false) + (CancelEvents(SCALP, 10, 0) + (SELL_SCALP + (BOOK_SCALP
    + ([ResolveOldStop, ResetProtection] + (UNCONFIRMED
    + ([Crash] + (RecoveryPass(SOLD) + Reprotection(95.0, TAG, 0.05)))))))))

  lemma RestartsAsIs()
    ensures Run(LEFT_UNCONFIRMED, [Crash]) == Some(LEFT_UNCONFIRMED)
  {
    hide Step, Run;
    ExitSaveStepIs(LEFT_UNCONFIRMED);
    ChainRuns([LEFT_UNCONFIRMED, LEFT_UNCONFIRMED], [Crash]);
  }

  /** No crash falls into the window, and still two stops for five are live after five of ten were sold. */
  lemma UnconfirmedReprotectionDoubles()
    ensures Run(NEW, UNCONFIRMED_REPROTECTION).Some?
    ensures var v := Run(NEW, UNCONFIRMED_REPROTECTION).value;
            && LiveAt(v.book, Some(2)) && LiveAt(v.book, v.stopIx) && v.stopIx != Some(2)
            && v.book[2].qty == v.book[v.stopIx.value].qty == 5
  {
    hide Run, Step, ProtectEvents, CancelEvents, RecoveryPass, Reprotection, BookInv, ExitInv, Lost, Protectable;
    var r4 := RecoveryPass(SOLD) + Reprotection(95.0, TAG, 0.05);
    var r3 := [Crash] + r4;
    var r2 := UNCONFIRMED + r3;
    var r1 := [ResolveOldStop, ResetProtection] + r2;
    ReachesHeld(CancelEvents(SCALP, 10, 0) + (SELL_SCALP + (BOOK_SCALP + r1)));
    ReachesScalpSent(BOOK_SCALP + r1);
    ScalpSaved();
    Prefix(SCALP_SENT, SCALP_SAVED, BOOK_SCALP, r1);
    Unprotects(SCALP_SAVED);
    Prefix(SCALP_SAVED, Unprotected(SCALP_SAVED), [ResolveOldStop, ResetProtection], r2);
    LeavesUnconfirmed();
    Prefix(Unprotected(SCALP_SAVED), LEFT_UNCONFIRMED, UNCONFIRMED, r3);
    RestartsAsIs();
    Prefix(LEFT_UNCONFIRMED, LEFT_UNCONFIRMED, [Crash], r4);
    UnconfirmedIsLost();
    LostReprotectionIsRepeated(LEFT_UNCONFIRMED, SOLD, 95.0, TAG, 0.05);
    assert LEFT_UNCONFIRMED.stopIx == Some(2) && LEFT_UNCONFIRMED.book[2].qty == 5;
  }

  // ------------------------------- window 2: the cursor of an earlier exit is left behind

  const RUNNER_HELD := REPROTECTED.(exit := REPROTECTED.exit.(resolved := true), task := Idle)
  const RUNNER_CLEARED := AfterCancel(RUNNER_HELD, RUNNER)

  const STALE_POSITION := RUNNER_POSITION.(stopOp := Some(2), exitOp := Some(2), exitIsScalp := false)
  const RUNNER_EXIT := P.NewRecord(2, P.OrderIntent("INFY", "NSE", P.Exit, S.Sell, 5, None))
                        .(orderId := Some(3), status := "TIMEOUT")

  const RUNNER_SENT := RUNNER_CLEARED.(
    book := RUNNER_CLEARED.book + [Order(ExitOrder(2), 5, 0, Open)], exitIx := Some(3), exits := 2, clearedGen := 2,
    exitBooked := 0, bookedTo := 0, exit := RUNNER_EXIT.(status := "INTENT_CREATED"),
    task := Exit(ExitAttached, false, false))

  const STALE := RUNNER_SENT.(exit := RUNNER_EXIT, mem := Some(STALE_POSITION), file := Some(STALE_POSITION),
                              task := Idle)

  const SELL_RUNNER: seq<Event> := [CreateExit, SendExit(true, true), AttachExit]
  const SEE_NOTHING: seq<Event> := [VerifyExit(UNSEEN), UpdateFromExit, SaveExit, FinishExit]

  lemma RunnerSent()
    ensures Run(RUNNER_CLEARED, SELL_RUNNER) == Some(RUNNER_SENT)
  {
    hide Step, Run;
    var w0 := RUNNER_CLEARED;
    var w1 := DoCreateExit(w0).value;
    var w2 := DoSendExit(w1, true, true).value;
    assert w1.exits == 2 && w2.exitIx == Some(3);
    assert DoAttachExit(w2) == Some(RUNNER_SENT);
    SendStepIs(w0);
    SendStepIs(w1);
    SendStepIs(w2);
    ChainRuns([w0, w1, w2, RUNNER_SENT], SELL_RUNNER);
  }

  /** A report with no fill names the new operation and keeps the old cursor. */
  lemma UnseenFillLeavesStaleCursor()
    ensures Run(RUNNER_SENT, SEE_NOTHING) == Some(STALE)
  {
    hide Step, Run;
    var w4 := RUNNER_SENT.(exit := RUNNER_EXIT, task := Exit(ExitReported(0, false, None), false, false));
    var w5 := w4.(mem := Some(STALE_POSITION), task := Exit(ExitUpdated(false, false, false), false, false));
    var w6 := w5.(file := Some(STALE_POSITION), task := Exit(ExitSaved(false, false), false, false));
    assert DoVerifyExit(RUNNER_SENT, UNSEEN) == Some(w4);
    assert DoUpdateFromExit(w4) == Some(w5) && DoSaveExit(w5) == Some(w6);
    ExitStepIs(RUNNER_SENT, UNSEEN);
    ExitSaveStepIs(w4);
    ExitSaveStepIs(w5);
    ExitSaveStepIs(w6);
    ChainRuns([RUNNER_SENT, w4, w5, w6, STALE], SEE_NOTHING);
  }

  const FILL_LATE: seq<Event> := [BrokerFill(3, 5), BrokerFinish(3, Complete), Crash]
  const RECOVER_LATE: seq<Event> := [RecoverExit, VerifyExit(SOLD), UpdateFromExit, SaveExit, FinishExit]

  const FILLED_LATE := STALE.(book := RUNNER_CLEARED.book + [Order(ExitOrder(2), 5, 5, Complete)])

  const FORGOTTEN := FILLED_LATE.(
    exit := RUNNER_EXIT.(filled := 5, pending := 0, average := Some(101.0), status := "COMPLETE", terminal := true,
                         resolved := true))

  lemma FilledLate()
    ensures Run(STALE, FILL_LATE) == Some(FILLED_LATE)
  {
    hide Step, Run;
    var w1 := DoFill(STALE, 3, 5).value;
    var w2 := DoFinish(w1, 3, Complete).value;
    assert w2.book == FILLED_LATE.book;
    BrokerStepIs(STALE, 3, 5, Complete);
    BrokerStepIs(w1, 3, 5, Complete);
    ExitSaveStepIs(w2);
    ChainRuns([STALE, w1, w2, FILLED_LATE], FILL_LATE);
  }

  /** Recovery takes the whole new fill as already applied, and resolves the exit. */
  lemma RecoveryForgetsTheFill()
    ensures Run(FILLED_LATE, RECOVER_LATE) == Some(FORGOTTEN)
  {
    hide Step, Run;
    var w3 := FILLED_LATE;
    var w4 := w3.(task := Exit(ExitAttached, true, false));
    var w5 := w3.(exit := FORGOTTEN.exit.(resolved := false),
                  task := Exit(ExitReported(5, true, Some(101.0)), true, false));
    var w6 := w5.(task := Exit(ExitUpdated(true, false, false), true, false));
    var w7 := w5.(task := Exit(ExitSaved(true, false), true, false));
    assert DoRecoverExit(w3) == Some(w4);
    assert DoVerifyExit(w4, SOLD) == Some(w5);
    assert DoUpdateFromExit(w5) == Some(w6) && DoSaveExit(w6) == Some(w7);
    ExitStepIs(w3, SOLD);
    ExitStepIs(w4, SOLD);
    ExitSaveStepIs(w5);
    ExitSaveStepIs(w6);
    ExitSaveStepIs(w7);
    ChainRuns([w3, w4, w5, w6, w7, FORGOTTEN], RECOVER_LATE);
  }

  // The position still says five, so a third exit is cleared against the cancelled stop.

  const CLEAR_AGAIN: seq<Event> := [RequestCoordination(RUNNER, "x"), CoordinationVerify(CancelledUnfilled(5)),
                                    SaveFill, FinishFill]
  const SELL_AGAIN: seq<Event> := [CreateExit, SendExit(true, true), BrokerFill(4, 5)]

  const CLEARED_AGAIN := FORGOTTEN.(task := Cleared(RUNNER, 5, CANCELLED))

  lemma ClearedAgain()
    ensures Run(FORGOTTEN, CLEAR_AGAIN) == Some(CLEARED_AGAIN)
  {
    hide Step, Run;
    var w0 := FORGOTTEN;
    var w1 := w0.(task := Coordinate(RUNNER, Requested));
    var w2 := w0.(task := ApplyFill(Checked, CancelledUnfilled(5), 0, 5, Some(RUNNER)));
    var w3 := w0.(task := ApplyFill(Saved, CancelledUnfilled(5), 0, 5, Some(RUNNER)));
    assert DoRequestCoordination(w0, RUNNER, "x") == Some(w1);
    assert DoCoordinationVerify(w1, CancelledUnfilled(5)) == Some(w2);
    assert DoSaveFill(w2) == Some(w3) && DoFinishFill(w3) == Some(CLEARED_AGAIN);
    CoordinationStepIs(w0, RUNNER, "x", CancelledUnfilled(5));
    CoordinationStepIs(w1, RUNNER, "x", CancelledUnfilled(5));
    FillStepIs(w2);
    FillStepIs(w3);
    ChainRuns([w0, w1, w2, w3, CLEARED_AGAIN], CLEAR_AGAIN);
  }

  lemma SoldAgain()
    ensures Run(CLEARED_AGAIN, SELL_AGAIN).Some?
    ensures SumFilled(Run(CLEARED_AGAIN, SELL_AGAIN).value.book) == 15
  {
    hide Step, Run, SumFilled;
    var w0 := CLEARED_AGAIN;
    var w1 := DoCreateExit(w0).value;
    var w2 := DoSendExit(w1, true, true).value;
    var w3 := DoFill(w2, 4, 5).value;
    var b := [Order(StopOrder(1), 10, 0, Cancelled), Order(ExitOrder(1), 5, 5, Complete),
              Order(StopOrder(2), 5, 0, Cancelled), Order(ExitOrder(2), 5, 5, Complete)];
    assert w0.book == b && w1.exits == 3;
    assert w3.book == b + [Order(ExitOrder(3), 5, 5, Open)];
    FourFills(b[0], b[1], b[2], b[3]);
    SumAppend(b, Order(ExitOrder(3), 5, 5, Open));
    SendStepIs(w0);
    SendStepIs(w1);
    BrokerStepIs(w2, 4, 5, Complete);
    ChainRuns([w0, w1, w2, w3], SELL_AGAIN);
  }

  /** The runner exit of a scalped position times out with no fill seen, and fills later. */
  const TIMEOUT_AFTER_SCALP: seq<Event> :=
    [BeginProtect] + (ProtectEvents(10, false) + (CancelEvents(SCALP, 10, 0) + (SELL_SCALP + (BOOK_SCALP
    + ([ResolveOldStop, ResetProtection] + (ProtectEvents(5, true) + ([FinishExit] + (CancelEvents(RUNNER, 5, 2)
    + (SELL_RUNNER + (SEE_NOTHING + (FILL_LATE + (RECOVER_LATE + (CLEAR_AGAIN + SELL_AGAIN)))))))))))))

  lemma FinishesReprotection()
    ensures Run(REPROTECTED, [FinishExit]) == Some(RUNNER_HELD)
  {
    hide Step, Run;
    ExitSaveStepIs(REPROTECTED);
    ChainRuns([REPROTECTED, RUNNER_HELD], [FinishExit]);
  }

  lemma ReachesStale(rest: seq<Event>)
    ensures Run(REPROTECTED, [FinishExit] + (CancelEvents(RUNNER, 5, 2) + (SELL_RUNNER + (SEE_NOTHING + rest))))
            == Run(STALE, rest)
  {
    hide Run, CancelEvents;
    FinishesReprotection();
    Cancels(RUNNER_HELD, RUNNER_HELD.mem.value, RUNNER);
    RunnerSent();
    UnseenFillLeavesStaleCursor();
    Prefix(REPROTECTED, RUNNER_HELD, [FinishExit], CancelEvents(RUNNER, 5, 2) + (SELL_RUNNER + (SEE_NOTHING + rest)));
    Prefix(RUNNER_HELD, RUNNER_CLEARED, CancelEvents(RUNNER, 5, 2), SELL_RUNNER + (SEE_NOTHING + rest));
    Prefix(RUNNER_CLEARED, RUNNER_SENT, SELL_RUNNER, SEE_NOTHING + rest);
    Prefix(RUNNER_SENT, STALE, SEE_NOTHING, rest);
  }

  lemma ReachesClearedAgain(rest: seq<Event>)
    ensures Run(STALE, FILL_LATE + (RECOVER_LATE + (CLEAR_AGAIN + rest))) == Run(CLEARED_AGAIN, rest)
  {
    hide Run;
    FilledLate();
    RecoveryForgetsTheFill();
    ClearedAgain();
    Prefix(STALE, FILLED_LATE, FILL_LATE, RECOVER_LATE + (CLEAR_AGAIN + rest));
    Prefix(FILLED_LATE, FORGOTTEN, RECOVER_LATE, CLEAR_AGAIN + rest);
    Prefix(FORGOTTEN, CLEARED_AGAIN, CLEAR_AGAIN, rest);
  }

  /** The fill is never applied locally, and the position is sold a second time. */
  lemma TimeoutAfterScalpOversells()
    ensures Run(NEW, TIMEOUT_AFTER_SCALP).Some?
    ensures SumFilled(Run(NEW, TIMEOUT_AFTER_SCALP).value.book) == 15 > NEW.entry.filled
  {
    hide Run, Step, ProtectEvents, CancelEvents, SumFilled;
    var r2 := FILL_LATE + (RECOVER_LATE + (CLEAR_AGAIN + SELL_AGAIN));
    var r1 := [FinishExit] + (CancelEvents(RUNNER, 5, 2) + (SELL_RUNNER + (SEE_NOTHING + r2)));
    ReachesHeld(CancelEvents(SCALP, 10, 0)
                + (SELL_SCALP + (BOOK_SCALP + ([ResolveOldStop, ResetProtection] + (ProtectEvents(5, true) + r1)))));
    ReachesScalpSent(BOOK_SCALP + ([ResolveOldStop, ResetProtection] + (ProtectEvents(5, true) + r1)));
    ReachesReprotected(r1);
    ReachesStale(r2);
    ReachesClearedAgain(SELL_AGAIN);
    SoldAgain();
  }

  // --------------------------------------------- window 3: an exit's P&L is booked twice

  const BOOK_AND_DIE: seq<Event> := [VerifyExit(SOLD), BookExit, Crash]
  const BOOK_AGAIN: seq<Event> := [RecoverExit, VerifyExit(SOLD), BookExit]

  const SELL_AND_BOOK_TWICE: seq<Event> :=
    [BeginProtect] + (ProtectEvents(10, false)
                      + (CancelEvents(SCALP, 10, 0) + (SELL_SCALP + (BOOK_AND_DIE + BOOK_AGAIN))))

  const DIED_BOOKED := SCALP_SENT.(exit := SCALP_SAVED.exit, exitBooked := 5, bookedTo := 5, task := Idle)

  lemma BooksAndDies()
    ensures Run(SCALP_SENT, BOOK_AND_DIE) == Some(DIED_BOOKED)
  {
    hide Step, Run;
    var w1 := DIED_BOOKED.(exitBooked := 0, bookedTo := 0,
                           task := Exit(ExitReported(5, true, Some(101.0)), false, true));
    var w2 := DIED_BOOKED.(task := Exit(ExitBooked(5, true, Some(101.0)), false, true));
    assert DoVerifyExit(SCALP_SENT, SOLD) == Some(w1) && DoBookExit(w1) == Some(w2);
    ExitStepIs(SCALP_SENT, SOLD);
    ExitStepIs(w1, SOLD);
    ExitSaveStepIs(w2);
    ChainRuns([SCALP_SENT, w1, w2, DIED_BOOKED], BOOK_AND_DIE);
  }

  lemma BooksAgain()
    ensures Run(DIED_BOOKED, BOOK_AGAIN).Some?
    ensures Run(DIED_BOOKED, BOOK_AGAIN).value.exitBooked == 10 && ExitFill(Run(DIED_BOOKED, BOOK_AGAIN).value) == 5
  {
    hide Step, Run;
    var w4 := DIED_BOOKED.(task := Exit(ExitAttached, true, false));
    var w5 := DIED_BOOKED.(task := Exit(ExitReported(5, true, Some(101.0)), true, false));
    assert DoRecoverExit(DIED_BOOKED) == Some(w4);
    assert DoVerifyExit(w4, SOLD) == Some(w5) && DoBookExit(w5).Some?;
    ExitStepIs(DIED_BOOKED, SOLD);
    ExitStepIs(w4, SOLD);
    ExitStepIs(w5, SOLD);
    ChainRuns([DIED_BOOKED, w4, w5, DoBookExit(w5).value], BOOK_AGAIN);
  }

  /** Five shares are sold; the process dies between booking and saving; ten are booked. */
  lemma ExitMayBeBookedTwice()
    ensures Run(NEW, SELL_AND_BOOK_TWICE).Some?
    ensures var v := Run(NEW, SELL_AND_BOOK_TWICE).value; v.exitBooked == 10 > ExitFill(v)
  {
    hide Run, Step, ProtectEvents, CancelEvents;
    ReachesHeld(CancelEvents(SCALP, 10, 0) + (SELL_SCALP + (BOOK_AND_DIE + BOOK_AGAIN)));
    ReachesScalpSent(BOOK_AND_DIE + BOOK_AGAIN);
    BooksAndDies();
    Prefix(SCALP_SENT, DIED_BOOKED, BOOK_AND_DIE, BOOK_AGAIN);
    BooksAgain();
  }

  // ------------------------- window 4: an open entry of a position that is already sold

  const PARTIAL := Init("INFY", "NSE", S.Buy, 4, Order(EntryOrder(0), 10, 4, Open), true)
  const PROTECTED_PART := Protected(PARTIAL.(task := Protect(Start, false)), PARTIAL.mem.value, Idle)
  const STOPPED := StopResult(TRIGGERED, 4, 0, 0, Some(95.0), false, true, 1, 0)

  const STOP_SELLS: seq<Event> := [BrokerTrigger(0), BrokerFill(0, 4), BrokerFinish(0, Complete)]
  const STOP_CLOSES: seq<Event> :=
    [InspectStop(STOPPED), ReserveFill, BookFill, UpdateFromFill, SaveFill, FinishFill]
  const ENTRY_GOES_ON: seq<Event> := [EntryFill(6), EntryFinish(Complete), Crash]
  const REBUILT_STOP_SELLS: seq<Event> := [BrokerTrigger(1), BrokerFill(1, 10)]

  const SOLD_PART := PROTECTED_PART.(book := [Order(StopOrder(1), 4, 4, Complete)])
  const CLOSED_PART := SOLD_PART.(
    stop := SOLD_PART.stop.(filled := 4, pending := 0, average := Some(95.0),
                            applied := 4, appliedAverage := Some(95.0),
                            active := false, terminal := true, resolved := true),
    stopBooked := 4, mem := None, file := None)
  const BOUGHT_MORE := CLOSED_PART.(entry := Bought(10))
  const REBUILT := BOUGHT_MORE.(mem := Some(FreshPosition("NSE", S.Buy, 10)),
                                file := Some(FreshPosition("NSE", S.Buy, 10)),
                                held := 10, entryOpen := false)
  const REPROTECTED_ALL := Protected(REBUILT.(task := Protect(Start, false)), REBUILT.mem.value, Idle)

  lemma ProtectsPart(rest: seq<Event>)
    ensures Run(PARTIAL, [BeginProtect] + (ProtectEvents(4, false) + rest)) == Run(PROTECTED_PART, rest)
  {
    hide Run, ProtectEvents;
    BeginIs(PARTIAL);
    var w1 := PARTIAL.(task := Protect(Start, false));
    Prefix(PARTIAL, w1, [BeginProtect], ProtectEvents(4, false) + rest);
    Protects(w1, PARTIAL.mem.value, false);
    Prefix(w1, PROTECTED_PART, ProtectEvents(4, false), rest);
  }

  lemma StopSells()
    ensures Run(PROTECTED_PART, STOP_SELLS) == Some(SOLD_PART)
  {
    hide Step, Run;
    var w1 := DoTrigger(PROTECTED_PART, 0).value;
    var w2 := DoFill(w1, 0, 4).value;
    assert DoFinish(w2, 0, Complete).value.book == SOLD_PART.book;
    BrokerStepIs(PROTECTED_PART, 0, 4, Complete);
    BrokerStepIs(w1, 0, 4, Complete);
    BrokerStepIs(w2, 0, 4, Complete);
    ChainRuns([PROTECTED_PART, w1, w2, SOLD_PART], STOP_SELLS);
  }

  lemma InspectIs(w: World, r: StopResult)
    ensures Step(w, InspectStop(r)) == DoInspect(w, r)
  {
    hide DoInspect;
  }

  lemma StopCloses()
    ensures Run(SOLD_PART, STOP_CLOSES) == Some(CLOSED_PART)
  {
    hide Step, Run;
    var w1 := DoInspect(SOLD_PART, STOPPED).value;
    var w2 := DoReserveFill(w1).value;
    var w3 := DoBookFill(w2).value;
    var w4 := DoUpdateFromFill(w3).value;
    var w5 := DoSaveFill(w4).value;
    assert DoInspect(SOLD_PART, STOPPED).Some? && w1.task == ApplyFill(Checked, STOPPED, 4, 0, None);
    assert DoFinishFill(w5) == Some(CLOSED_PART);
    InspectIs(SOLD_PART, STOPPED);
    FillStepIs(w1);
    FillStepIs(w2);
    FillStepIs(w3);
    FillStepIs(w4);
    FillStepIs(w5);
    ChainRuns([SOLD_PART, w1, w2, w3, w4, w5, CLOSED_PART], STOP_CLOSES);
  }

  lemma EntryMovesAre(w: World, n: nat, status: Status)
    ensures Step(w, EntryFill(n)) == DoEntryFill(w, n) && Step(w, EntryFinish(status)) == DoEntryFinish(w, status)
  {
    hide DoEntryFill, DoEntryFinish;
  }

  lemma EntryGoesOn()
    ensures Run(CLOSED_PART, ENTRY_GOES_ON) == Some(BOUGHT_MORE)
  {
    hide Step, Run;
    var w1 := DoEntryFill(CLOSED_PART, 6).value;
    var w2 := DoEntryFinish(w1, Complete).value;
    EntryMovesAre(CLOSED_PART, 6, Complete);
    EntryMovesAre(w1, 6, Complete);
    ExitSaveStepIs(w2);
    ChainRuns([CLOSED_PART, w1, w2, BOUGHT_MORE], ENTRY_GOES_ON);
  }

  lemma EntryIsRebuilt()
    ensures Run(BOUGHT_MORE, [RecoverEntry(10, true, true)]) == Some(REBUILT)
  {
    hide Step, Run;
    EntryStepIs(BOUGHT_MORE, 10, true, true);
    ChainRuns([BOUGHT_MORE, REBUILT], [RecoverEntry(10, true, true)]);
  }

  lemma RebuiltStopSells()
    ensures Run(REPROTECTED_ALL, REBUILT_STOP_SELLS).Some?
    ensures var v := Run(REPROTECTED_ALL, REBUILT_STOP_SELLS).value;
            SumFilled(v.book) == 14 && v.entry == Bought(10) && v.exits == 0
  {
    hide Step, Run, SumFilled;
    var w1 := DoTrigger(REPROTECTED_ALL, 1).value;
    var w2 := DoFill(w1, 1, 10).value;
    assert w2.book == [] + [Order(StopOrder(1), 4, 4, Complete)] + [Order(StopOrder(2), 10, 10, Open)];
    SumAppend([], Order(StopOrder(1), 4, 4, Complete));
    SumAppend([] + [Order(StopOrder(1), 4, 4, Complete)], Order(StopOrder(2), 10, 10, Open));
    NothingFilled();
    BrokerStepIs(REPROTECTED_ALL, 1, 10, Complete);
    BrokerStepIs(w1, 1, 10, Complete);
    ChainRuns([REPROTECTED_ALL, w1, w2], REBUILT_STOP_SELLS);
  }

  lemma NothingFilled()
    ensures SumFilled([]) == 0
  {
  }

  const LATE_ENTRY: seq<Event> :=
    [BeginProtect] + (ProtectEvents(4, false) + (STOP_SELLS + (STOP_CLOSES + (ENTRY_GOES_ON
    + ([RecoverEntry(10, true, true)] + ([BeginProtect] + (ProtectEvents(10, false) + REBUILT_STOP_SELLS)))))))

  /**
   Four of ten are bought, protected and sold by their stop; the entry fills the other six.
   The restart rebuilds all ten, and fourteen are sold of ten, with no exit at all.
   */
  lemma LateEntryOversells()
    ensures Run(PARTIAL, LATE_ENTRY).Some?
    ensures var v := Run(PARTIAL, LATE_ENTRY).value; SumFilled(v.book) == 14 > v.entry.filled && v.exits == 0
  {
    hide Run, Step, ProtectEvents, SumFilled;
    var r6 := REBUILT_STOP_SELLS;
    var r5 := [BeginProtect] + (ProtectEvents(10, false) + r6);
    var r4 := [RecoverEntry(10, true, true)] + r5;
    var r3 := ENTRY_GOES_ON + r4;
    var r2 := STOP_CLOSES + r3;
    ProtectsPart(STOP_SELLS + r2);
    StopSells();
    Prefix(PROTECTED_PART, SOLD_PART, STOP_SELLS, r2);
    StopCloses();
    Prefix(SOLD_PART, CLOSED_PART, STOP_CLOSES, r3);
    EntryGoesOn();
    Prefix(CLOSED_PART, BOUGHT_MORE, ENTRY_GOES_ON, r4);
    EntryIsRebuilt();
    Prefix(BOUGHT_MORE, REBUILT, [RecoverEntry(10, true, true)], r5);
    BeginIs(REBUILT);
    var w1 := REBUILT.(task := Protect(Start, false));
    Prefix(REBUILT, w1, [BeginProtect], ProtectEvents(10, false) + r6);
    Protects(w1, REBUILT.mem.value, false);
    Prefix(w1, REPROTECTED_ALL, ProtectEvents(10, false), r6);
    RebuiltStopSells();
  }
}
