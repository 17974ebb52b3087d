/**
 Entries that go on filling: a position is gone only when all of it was sold, and rebuilding
 it from an entry that is still open sells the same shares again.
 */
module ExitEntry {
  import opened Wrappers
  import opened Broker
  import S = StopStore
  import P = PendingStore
  import V = OrderVerification
  import opened StopVerification
  import opened StopExit
  import opened ExitProtocol
  import opened ExitInvariant
  import opened ExitSafety
  import opened ExitSteps
  import opened ExitResults

  /** A position that is gone, from the file or from memory, was sold completely. */
  predicate GoneInv(w: World) {
    w.file.None? || w.mem.None? ==> SumFilled(w.book) >= w.held
  }

  lemma BrokerKeepsGone(w: World, e: Event)
    requires GoneInv(w) && BrokerStep(w, e).Some?
    ensures GoneInv(BrokerStep(w, e).value)
  {
    var v := BrokerStep(w, e).value;
    SumUpdate(w.book, e.ix, v.book[e.ix]);
    assert v.book == w.book[e.ix := v.book[e.ix]];
    hide SumFilled;
  }

  lemma SubmissionKeepsGone(w: World, e: Event)
    requires GoneInv(w) && SubmissionStep(w, e).Some?
    ensures GoneInv(SubmissionStep(w, e).value)
  {
    hide SumFilled, StopPolled;
    if w.stop.requested >= 0 {
      SumAppend(w.book, Order(StopOrder(w.gen), w.stop.requested, 0, TriggerPending));
    }
  }

  lemma SendExitKeepsGone(w: World, accepted: bool, heard: bool)
    requires GoneInv(w) && DoSendExit(w, accepted, heard).Some?
    ensures GoneInv(DoSendExit(w, accepted, heard).value)
  {
    hide SumFilled;
    if accepted {
      SumAppend(w.book, Order(ExitOrder(w.exits), w.exit.requested, 0, Open));
    }
  }

  /** A step that sends nothing, removes no position, and takes nothing more in. */
  predicate KeepsWhole(w: World, v: World) {
    && v.book == w.book && v.held == w.held
    && (v.file.None? || v.mem.None? ==> w.file.None? || w.mem.None?)
  }

  lemma EntryKeepsGone(w: World, e: Event)
    requires Inv(w) && GoneInv(w) && EntryStep(w, e).Some? && !Rebuilds(w, e)
    ensures GoneInv(EntryStep(w, e).value)
  {
    hide LedgerInv, PositionsInv, V.Sound, SumFilled;
  }

  lemma ProtectionKeepsWhole(w: World, e: Event)
    requires ProtectionStep(w, e).Some?
    ensures KeepsWhole(w, ProtectionStep(w, e).value)
  {
  }

  lemma CoordinationKeepsWhole(w: World, e: Event)
    requires CoordinationStep(w, e).Some?
    ensures KeepsWhole(w, CoordinationStep(w, e).value)
  {
    hide StopPolled, Identified, Decide;
  }

  lemma ExitOrderKeepsWhole(w: World, e: Event)
    requires ExitOrderStep(w, e).Some? && !e.SendExit?
    ensures KeepsWhole(w, ExitOrderStep(w, e).value)
  {
    hide ExitPolled;
  }

  lemma StopFillKeepsWhole(w: World, e: Event)
    requires StopFillStep(w, e).Some? && !e.UpdateFromFill?
    ensures KeepsWhole(w, StopFillStep(w, e).value)
  {
  }

  lemma ExitFillKeepsWhole(w: World, e: Event)
    requires ExitFillStep(w, e).Some? && !e.UpdateFromExit?
    ensures KeepsWhole(w, ExitFillStep(w, e).value)
  {
    hide AppliedExit;
  }

  lemma RestartKeepsWhole(w: World)
    ensures KeepsWhole(w, Restarted(w)) && (DoGiveUp(w).Some? ==> KeepsWhole(w, DoGiveUp(w).value))
  {
  }

  /** A stop fill that leaves nothing has sold all that was held. */
  lemma StopClosesSold(w: World)
    requires Inv(w) && DoUpdateFromFill(w).Some? && DoUpdateFromFill(w).value.mem.None?
    ensures SumFilled(w.book) >= w.held
  {
    hide PositionsInv, SumFilled;
  }

  lemma ClosingReport(w: World)
    requires TaskInv(w) && DoUpdateFromExit(w).Some? && w.mem.Some? && DoUpdateFromExit(w).value.mem.None?
    ensures AppliesExit(w)
  {
    hide LiveAt, FilledAt;
  }

  /** What is left after the newly confirmed fill is nothing. */
  lemma ClosedExactly(w: World)
    requires DoUpdateFromExit(w).Some? && AppliesExit(w) && DoUpdateFromExit(w).value.mem.None?
    ensures NewlyConfirmed(w) == w.mem.value.qty
  {
    hide AppliedExit;
  }

  /** An exit fill that leaves nothing has sold all that was held. */
  lemma ExitClosesSold(w: World)
    requires Inv(w) && DoUpdateFromExit(w).Some? && w.mem.Some? && DoUpdateFromExit(w).value.mem.None?
    ensures SumFilled(w.book) >= w.held
  {
    ClosingReport(w);
    ClosedExactly(w);
    ReportFitsHere(w);
    SoldByExit(w, w.mem.value);
    hide Inv, DoUpdateFromExit, SumFilled;
  }

  lemma SoldByExit(w: World, p: Position)
    requires LedgerInv(w) && PositionInv(w, p) && w.exits > 0 && !w.exit.resolved
    requires p.qty + AppliedExit(w, p) <= ExitFill(w) && p.qty > 0
    ensures SumFilled(w.book) >= w.held
  {
    hide SumFilled;
  }

  lemma StepKeepsGone(w: World, e: Event)
    requires Inv(w) && GoneInv(w) && Step(w, e).Some? && !Rebuilds(w, e)
    ensures GoneInv(Step(w, e).value)
  {
    hide Inv, Rebuilds, DoGiveUp, Restarted, SumFilled, KeepsWhole;
    hide BrokerStep, EntryStep, SubmissionStep, ProtectionStep, CoordinationStep, DoSendExit, DoUpdateFromFill;
    hide DoUpdateFromExit;
    if BrokerEvent(e) {
      BrokerKeepsGone(w, e);
    } else if EntryEvent(e) {
      EntryKeepsGone(w, e);
    } else if SubmissionEvent(e) {
      SubmissionKeepsGone(w, e);
    } else if e.SendExit? {
      SendExitKeepsGone(w, e.accepted, e.heard);
    } else if e.UpdateFromFill? {
      UpdateFromFillKeepsGone(w);
    } else if e.UpdateFromExit? {
      UpdateFromExitKeepsGone(w);
    } else {
      StepKeepsWhole(w, e);
      WholeKeepsGone(w, Step(w, e).value);
    }
  }

  lemma UpdateFromFillKeepsGone(w: World)
    requires Inv(w) && GoneInv(w) && DoUpdateFromFill(w).Some?
    ensures GoneInv(DoUpdateFromFill(w).value)
  {
    if DoUpdateFromFill(w).value.mem.None? {
      StopClosesSold(w);
    }
    hide Inv, SumFilled;
  }

  lemma UpdateFromExitKeepsGone(w: World)
    requires Inv(w) && GoneInv(w) && DoUpdateFromExit(w).Some?
    ensures GoneInv(DoUpdateFromExit(w).value)
  {
    if w.mem.Some? && DoUpdateFromExit(w).value.mem.None? {
      ExitClosesSold(w);
    }
    hide Inv, SumFilled, AppliedExit;
  }

  lemma WholeKeepsGone(w: World, v: World)
    requires GoneInv(w) && KeepsWhole(w, v)
    ensures GoneInv(v)
  {
    hide SumFilled;
  }

  lemma StepKeepsWhole(w: World, e: Event)
    requires Step(w, e).Some? && !BrokerEvent(e) && !EntryEvent(e) && !SubmissionEvent(e)
    requires !e.SendExit? && !e.UpdateFromFill? && !e.UpdateFromExit?
    ensures KeepsWhole(w, Step(w, e).value)
  {
    hide KeepsWhole, DoGiveUp, Restarted, ProtectionStep, CoordinationStep, StopFillStep, ExitOrderStep, ExitFillStep;
    if ProtectionEvent(e) {
      ProtectionKeepsWhole(w, e);
    } else if CoordinationEvent(e) {
      CoordinationKeepsWhole(w, e);
    } else if StopFillEvent(e) {
      StopFillKeepsWhole(w, e);
    } else if ExitOrderEvent(e) {
      ExitOrderKeepsWhole(w, e);
    } else if ExitFillEvent(e) {
      ExitFillKeepsWhole(w, e);
    } else {
      RestartKeepsWhole(w);
    }
  }

  lemma {:induction false} RunKeepsGone(w: World, es: seq<Event>)
    requires Inv(w) && GoneInv(w) && Run(w, es).Some? && SoundRun(w, es)
    ensures GoneInv(Run(w, es).value)
    decreases |es|
  {
    hide Inv, GoneInv, Step, OldStopAccounted, CursorOwned, NamesOnly, Rebuilds;
    if es != [] {
      StepKeepsGone(w, es[0]);
      StepKeepsInv(w, es[0]);
      RunKeepsGone(Step(w, es[0]).value, es[1..]);
    }
  }

  /** In every sound run from a saved entry, a position that is gone was sold exactly, and no order is left to fill. */
  lemma GoneMeansSold(
      symbol: string, exchange: string, direction: S.Side, held: int, entry: Order, open: bool, es: seq<Event>)
    requires CanStart(held, entry, open)
    requires Run(Init(symbol, exchange, direction, held, entry, open), es).Some?
    requires SoundRun(Init(symbol, exchange, direction, held, entry, open), es)
    ensures var v := Run(Init(symbol, exchange, direction, held, entry, open), es).value;
            v.file.None? ==> SumFilled(v.book) == Exposure(v.book) == v.held
  {
    hide Inv, Step, Run, SoundRun, Exposure, SumFilled, CanStart;
    var w := Init(symbol, exchange, direction, held, entry, open);
    InitInv(symbol, exchange, direction, held, entry, open);
    RunKeepsGone(w, es);
    NoOversell(w, es);
  }

  // -------------------------------------------------------- the third hypothesis, exactly

  /** The position is rebuilt, and its new stop is accepted. */
  function Rebuild(total: nat, terminal: bool, settled: bool, trigger: real, tag: string, tick: real): seq<Event> {
    [RecoverEntry(total, terminal, settled)]
    + ([BeginProtect] + ([CreateStop(trigger, tag, tick)] + ([SendStop(true, true)] + [])))
  }

  lemma RebuildSteps(w: World, w1: World, w2: World, w3: World, v: World, total: nat, terminal: bool, settled: bool,
                     trigger: real, tag: string, tick: real)
    requires w.mem.None? && total > 0 && DoRecoverEntry(w, total, terminal, settled) == Some(w1)
    requires DoBeginProtect(w1) == Some(w2) && DoCreateStop(w2, trigger, tag, tick) == Some(w3)
    requires DoSendStop(w3, true, true) == Some(v)
    ensures v.book == w.book + [Order(StopOrder(w.gen + 1), total, 0, TriggerPending)] && v.entry == w.entry
  {
    hide V.Sound;
  }

  lemma EntryStepIs(w: World, total: nat, terminal: bool, settled: bool)
    ensures Step(w, RecoverEntry(total, terminal, settled)) == DoRecoverEntry(w, total, terminal, settled)
    ensures Step(w, BeginProtect) == DoBeginProtect(w)
  {
    hide DoRecoverEntry, DoBeginProtect;
  }

  lemma RebuildRun(w: World, total: nat, terminal: bool, settled: bool, trigger: real, tag: string, tick: real)
    requires w.mem.None? && total > 0 && Run(w, Rebuild(total, terminal, settled, trigger, tag, tick)).Some?
    ensures var v := Run(w, Rebuild(total, terminal, settled, trigger, tag, tick)).value;
            v.book == w.book + [Order(StopOrder(w.gen + 1), total, 0, TriggerPending)] && v.entry == w.entry
  {
    hide DoRecoverEntry, DoBeginProtect, DoCreateStop, DoSendStop, Run, Step;
    var recover := RecoverEntry(total, terminal, settled);
    var create, send := CreateStop(trigger, tag, tick), SendStop(true, true);
    EntryStepIs(w, total, terminal, settled);
    RunStep(w, recover, [BeginProtect] + ([create] + ([send] + [])));
    var w1 := DoRecoverEntry(w, total, terminal, settled).value;
    EntryStepIs(w1, total, terminal, settled);
    RunStep(w1, BeginProtect, [create] + ([send] + []));
    var w2 := DoBeginProtect(w1).value;
    StepIs(w2, trigger, tag, tick);
    RunStep(w2, create, [send] + []);
    var w3 := DoCreateStop(w2, trigger, tag, tick).value;
    StepIs(w3, trigger, tag, tick);
    RunStep(w3, send, []);
    RunStep(DoSendStop(w3, true, true).value, send, []);
    RebuildSteps(w, w1, w2, w3, DoSendStop(w3, true, true).value, total, terminal, settled, trigger, tag, tick);
  }

  /**
   Rebuilding a sold position keeps what may be sold within what was bought if and only if
   the entry filled that much again since. On a report of its whole fill it never does.
   */
  lemma RebuildSafeIff(w: World, total: nat, terminal: bool, settled: bool, trigger: real, tag: string, tick: real)
    requires Inv(w) && GoneInv(w) && w.mem.None? && total > 0
    requires Run(w, Rebuild(total, terminal, settled, trigger, tag, tick)).Some?
    ensures var v := Run(w, Rebuild(total, terminal, settled, trigger, tag, tick)).value;
            && (Exposure(v.book) <= v.entry.filled <==> w.held + total <= w.entry.filled)
            && (total == w.entry.filled ==> Exposure(v.book) > v.entry.filled)
  {
    hide Run, Rebuild, Exposure, SumFilled, BookInv, StopInv, ExitInv, PositionsInv, TaskInv;
    RebuildRun(w, total, terminal, settled, trigger, tag, tick);
    SoldPosition(w);
    ExposureAppend(w.book, Order(StopOrder(w.gen + 1), total, 0, TriggerPending));
  }

  lemma SoldPosition(w: World)
    requires Inv(w) && GoneInv(w) && w.mem.None?
    ensures Exposure(w.book) == w.held > 0
  {
    ExposureWithinHeld(w);
    BookIsValid(w);
    SoldWithinExposure(w.book);
    hide BookInv, StopInv, ExitInv, PositionsInv, TaskInv, Exposure, SumFilled;
  }

  lemma BookIsValid(w: World)
    requires BookInv(w)
    ensures forall i :: 0 <= i < |w.book| ==> OrderInv(w.book[i])
  {
  }

  // --------------------------------------------------------- a stop that covers too little

  lemma LateIsNotIdentified(w: World)
    requires Inv(w) && w.gen > 0 && w.late > 0 && !ExitOfThisStop(w)
    ensures !Identified(w) && !w.task.Coordinate?
  {
    hide BookInv, StopInv, ExitInv;
  }

  /**
   Fail closed: once the entry has added shares that the newest stop does not cover, no stop
   is inspected, coordinated or cancelled, and so no exit is cleared, until a new stop is
   created. What is held and may be sold is still within what was bought.
   */
  lemma LateEntryBlocksExits(w: World, es: seq<Event>, e: Event)
    requires Inv(w) && Run(w, es).Some? && SoundRun(w, es)
    requires var v := Run(w, es).value; v.gen > 0 && v.late > 0 && !ExitOfThisStop(v)
    ensures CoordinationStep(Run(w, es).value, e).None?
  {
    hide Inv, Run, SoundRun, Identified, StopPolled;
    RunKeepsInv(w, es);
    LateIsNotIdentified(Run(w, es).value);
  }
}
