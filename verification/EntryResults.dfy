/** Entry fills are applied exactly once, and recovery never submits (main.py, executor.py). */
module EntryResults {
  import opened Wrappers
  import opened Broker
  import P = PendingStore
  import V = OrderVerification
  import opened EntryProtocol

  // ----------------------------------------------------------------- one submission

  lemma {:induction false} RecordedRunSendsNothing(w: World, es: seq<Event>)
    requires w.record.Some? && w.task != Placing(Intended) && Run(w, es).Some?
    ensures Run(w, es).value.sends == w.sends
    decreases |es|
  {
    if es != [] {
      RecordedStepSendsNothing(w, es[0]);
      hide Step;
      RecordedRunSendsNothing(Step(w, es[0]).value, es[1..]);
    }
  }

  lemma RecordedStepSendsNothing(w: World, e: Event)
    requires w.record.Some? && w.task != Placing(Intended) && Step(w, e).Some?
    ensures var v := Step(w, e).value; v.record.Some? && v.task != Placing(Intended) && v.sends == w.sends
  {
    hide Polled, Candidate;
  }

  /**
   Once the intent is durable and the process has died, no run of restarts, recoveries
   and broker moves ever calls `place_order` again: no hypothesis is needed.
   */
  lemma RecoveryNeverSubmits(w: World, es: seq<Event>)
    requires w.record.Some? && Run(Restarted(w), es).Some?
    ensures Run(Restarted(w), es).value.sends == w.sends
  {
    RecordedRunSendsNothing(Restarted(w), es);
  }

  // ------------------------------------------------------------------ exactly once

  /**
   In every sound run the local side never holds more than the broker filled, and each
   share it holds or has sold was added once. When the journal asks for nothing more,
   the order is over and the local fill is the broker's cumulative fill.
   */
  lemma EntryFillAppliedExactlyOnce(w: World, es: seq<Event>)
    requires Inv(w) && Run(w, es).Some? && SoundRun(w, es)
    ensures var v := Run(w, es).value;
            v.record.Some? ==>
              && v.record.value.applied <= Taken(v) <= BrokerFillOf(v)
              && (v.file.Some? ==> v.file.value.qty + v.sold == v.file.value.filled)
              && (v.closed.Some? ==> v.sold == v.closed.value)
              && (!Candidate(v.record.value) ==>
                    v.order.Some? && Terminal(v.order.value.status) && Taken(v) == BrokerFillOf(v))
              && v.sends <= 1
  {
    RunKeepsInv(w, es);
    hide Run, SoundRun;
  }

  // -------------------------------------------------------------- a whole recovery

  lemma RunStep(w: World, e: Event, es: seq<Event>)
    ensures Run(w, []) == Some(w)
    ensures Run(w, [e] + es) == if Step(w, e).None? then None else Run(Step(w, e).value, es)
  {
    assert ([e] + es)[1..] == es;
  }

  lemma {:induction false} RunConcat(w: World, a: seq<Event>, b: seq<Event>)
    requires Run(w, a).Some?
    ensures Run(w, a + b) == Run(Run(w, a).value, b)
    decreases |a|
  {
    hide Step;
    if a == [] {
      assert a + b == b;
    } else {
      assert (a + b)[1..] == a[1..] + b;
      RunConcat(Step(w, a[0]).value, a[1..], b);
    }
  }

  function FindEvents(r: P.OrderRecord): seq<Event> {
    if r.orderId.None? then [BeginRecovery] + ([Reconcile] + ([Attach] + [])) else [BeginRecovery] + []
  }

  /** The broker ID is known durably, by the client tag if it was never attached. */
  function Found(w: World): World
    requires w.record.Some?
  {
    w.(record := Some(w.record.value.(orderId := Some(w.brokerId))), task := Recovering(Attached))
  }

  /** All that a recovery needs of the state it starts from. */
  ghost predicate Recoverable(w: World, x: P.Execution) {
    && CanRecover(w, x) && w.mem == w.file
    && var r := w.record.value;
       && P.RecordInv(r) && r.action == P.Entry && (r.orderId.Some? ==> r.orderId == Some(w.brokerId))
       && (r.resolved ==> r.orderId.Some?)
       && w.order.value.qty == r.requested && OrderInv(w.order.value)
       && (Reading(r, x).filled >= LocalFill(w.file) ==> Reading(r, x).filled >= r.applied)
  }

  lemma InvRecoverable(w: World, x: P.Execution)
    requires Inv(w) && CanRecover(w, x)
    ensures Recoverable(w, x)
  {
  }

  lemma FindRuns(w: World, x: P.Execution)
    requires Recoverable(w, x)
    ensures Run(w, FindEvents(w.record.value)) == Some(Found(w))
  {
    RunStep(w, BeginRecovery, if w.record.value.orderId.None? then [Reconcile] + ([Attach] + []) else []);
    var w1 := DoBeginRecovery(w).value;
    if w.record.value.orderId.None? {
      RunStep(w1, Reconcile, [Attach] + []);
      var w2 := DoReconcile(w1).value;
      RunStep(w2, Attach, []);
      RunStep(Found(w), Attach, []);
    } else {
      RunStep(w1, Attach, []);
    }
    hide Run;
  }

  /** What a recovery goes by: the stored result of a resolved record, else the new report. */
  function Reading(r: P.OrderRecord, x: P.Execution): P.Execution {
    if r.resolved then StoredResult(r) else x
  }

  /** The report `x` describes the order as it stands. */
  predicate Observed(w: World, x: P.Execution) {
    && w.order.Some? && V.Sound(x.terminal, x.filled, w.order.value)
    && x.pending >= 0 && x.cancelled >= 0 && (x.average.Some? ==> x.filled > 0)
  }

  function Recorded(r: P.OrderRecord, x: P.Execution): P.OrderRecord {
    r.(filled := x.filled, pending := x.pending, cancelled := x.cancelled, average := x.average,
       status := x.status, terminal := x.terminal)
  }

  /** The position after a reading: only what is new is added. */
  function CaughtUp(p: Option<Position>, filled: int): Option<Position> {
    if filled <= LocalFill(p) then p
    else if p.Some? then Some(Position(p.value.qty + filled - p.value.filled, filled))
    else Some(Position(filled, filled))
  }

  /** The state after one whole recovery. */
  function Recovered(w: World, x: P.Execution): World
    requires w.record.Some?
  {
    var y := Reading(w.record.value, x);
    var r := Recorded(w.record.value.(orderId := Some(w.brokerId)), y);
    var r' := if y.filled >= LocalFill(w.file) then r.(applied := y.filled) else r;
    var p := CaughtUp(w.file, y.filled);
    w.(record := Some(if y.terminal then r'.(resolved := true) else r'), file := p, mem := p, task := Idle)
  }

  function RecoveryEvents(w: World, x: P.Execution): seq<Event>
    requires w.record.Some?
  {
    var y := Reading(w.record.value, x);
    FindEvents(w.record.value)
    + ([if w.record.value.resolved then UseStored else Verify(x)]
       + ((if y.filled > LocalFill(w.file) then [ApplyRecovered] + ([SavePosition] + ([MarkApplied] + []))
           else [NothingNew] + [])
          + [FinishRecovery]))
  }

  predicate CanRecover(w: World, x: P.Execution) {
    w.task.Idle? && w.record.Some? && Candidate(w.record.value) && Observed(w, x)
  }

  /** The reading, with the journal already brought up to date. */
  function ReadWorld(w: World, x: P.Execution): World
    requires w.record.Some?
  {
    var y := Reading(w.record.value, x);
    w.(record := Some(Recorded(w.record.value.(orderId := Some(w.brokerId)), y)), task := Recovering(Reported(y)))
  }

  lemma ReadRuns(w: World, x: P.Execution)
    requires Recoverable(w, x)
    ensures Step(Found(w), if w.record.value.resolved then UseStored else Verify(x)) == Some(ReadWorld(w, x))
  {
  }

  lemma ApplyRuns(w: World, x: P.Execution)
    requires Recoverable(w, x) && Reading(w.record.value, x).filled > LocalFill(w.file)
    ensures Run(ReadWorld(w, x), ([ApplyRecovered] + ([SavePosition] + ([MarkApplied] + []))) + [FinishRecovery])
            == Some(Recovered(w, x))
  {
    var w0 := ReadWorld(w, x);
    var w1 := DoApplyRecovered(w0).value;
    var w2 := DoSavePosition(w1).value;
    assert DoMarkApplied(w2).Some?;
    var w3 := DoMarkApplied(w2).value;
    assert DoFinishRecovery(w3) == Some(Recovered(w, x));
    assert ([ApplyRecovered] + ([SavePosition] + ([MarkApplied] + []))) + [FinishRecovery]
           == [ApplyRecovered] + ([SavePosition] + ([MarkApplied] + ([FinishRecovery] + [])));
    RunStep(w0, ApplyRecovered, [SavePosition] + ([MarkApplied] + ([FinishRecovery] + [])));
    RunStep(w1, SavePosition, [MarkApplied] + ([FinishRecovery] + []));
    RunStep(w2, MarkApplied, [FinishRecovery] + []);
    RunStep(w3, FinishRecovery, []);
    RunStep(Recovered(w, x), FinishRecovery, []);
    hide Run;
  }

  lemma NothingNewRuns(w: World, x: P.Execution)
    requires Recoverable(w, x) && Reading(w.record.value, x).filled <= LocalFill(w.file)
    ensures Run(ReadWorld(w, x), ([NothingNew] + []) + [FinishRecovery]) == Some(Recovered(w, x))
  {
    var w0 := ReadWorld(w, x);
    assert DoNothingNew(w0).Some?;
    var w1 := DoNothingNew(w0).value;
    assert DoFinishRecovery(w1) == Some(Recovered(w, x));
    assert ([NothingNew] + []) + [FinishRecovery] == [NothingNew] + ([FinishRecovery] + []);
    RunStep(w0, NothingNew, [FinishRecovery] + []);
    RunStep(w1, FinishRecovery, []);
    RunStep(Recovered(w, x), FinishRecovery, []);
    hide Run;
  }

  lemma RecoveryRuns(w: World, x: P.Execution)
    requires Recoverable(w, x)
    ensures Run(w, RecoveryEvents(w, x)) == Some(Recovered(w, x))
  {
    hide Run, Step, Recovered, FindEvents, ReadWorld, Found;
    FindRuns(w, x);
    ReadRuns(w, x);
    var y := Reading(w.record.value, x);
    var last := (if y.filled > LocalFill(w.file) then [ApplyRecovered] + ([SavePosition] + ([MarkApplied] + []))
                 else [NothingNew] + [])
                + [FinishRecovery];
    if y.filled > LocalFill(w.file) {
      ApplyRuns(w, x);
    } else {
      NothingNewRuns(w, x);
    }
    var read := if w.record.value.resolved then UseStored else Verify(x);
    RunStep(Found(w), read, last);
    RunConcat(w, FindEvents(w.record.value), [read] + last);
  }

  /**
   A recovery that is left alone goes through and catches up: the local fill becomes the
   larger of what it was and what was read, so a reading of the current cumulative fill
   leaves the local side equal to the broker.
   */
  lemma RecoveryCatchesUp(w: World, x: P.Execution)
    requires Inv(w) && CanRecover(w, x)
    ensures Run(w, RecoveryEvents(w, x)) == Some(Recovered(w, x))
    ensures var v, y := Recovered(w, x), Reading(w.record.value, x);
            && LocalFill(v.file) == (if y.filled > LocalFill(w.file) then y.filled else LocalFill(w.file))
            && (y.filled == BrokerFillOf(w) ==> LocalFill(v.file) == BrokerFillOf(v))
            && (y.terminal ==> !Candidate(v.record.value) && LocalFill(v.file) == BrokerFillOf(v))
            && (v.file.Some? ==> v.file.value.qty + v.sold == v.file.value.filled)
  {
    hide Run, Step;
    InvRecoverable(w, x);
    RecoveryRuns(w, x);
  }

  /** Recovering again on the same report changes nothing at all. */
  lemma RecoveryIsIdempotent(w: World, x: P.Execution)
    requires Inv(w) && CanRecover(w, x) && !Reading(w.record.value, x).terminal
    ensures CanRecover(Recovered(w, x), x)
    ensures Recovered(Recovered(w, x), x) == Recovered(w, x)
  {
  }

  // ------------------------------------------------------- closing while unresolved

  lemma {:induction false} SettledStaysClosed(w: World, es: seq<Event>)
    requires w.record.Some? && !Candidate(w.record.value) && w.mem.None? && w.file.None? && w.task.Idle?
    requires Run(w, es).Some?
    ensures Run(w, es).value.file.None?
    decreases |es|
  {
    if es != [] {
      assert var v := Step(w, es[0]).value;
             v.record == w.record && v.mem.None? && v.file.None? && v.task.Idle?;
      hide Step;
      SettledStaysClosed(Step(w, es[0]).value, es[1..]);
    }
  }

  function Closed(w: World): World
    requires w.mem.Some?
  {
    w.(mem := None, file := None, sold := w.sold + w.mem.value.qty, closed := Some(w.mem.value.filled))
  }

  /** A report of the order as it stands, from a poll that reached its deadline. */
  function CurrentFill(o: Order): P.Execution {
    P.Execution(o.filled, 0, 0, None, "TIMEOUT", false)
  }

  lemma ClosedIsRecoverable(w: World)
    requires Inv(w) && w.task.Idle? && w.mem.Some? && Candidate(w.record.value)
    ensures w.order.Some? && Recoverable(Closed(w), CurrentFill(w.order.value))
    ensures Recovered(Closed(w), CurrentFill(w.order.value)).file.Some?
  {
  }

  /** From `w`, some run of restarts and recoveries comes to hold a position again. */
  ghost predicate MayReopen(w: World) {
    exists es :: Run(w, es).Some? && Run(w, es).value.file.Some?
  }

  /**
   The hypothesis is exact. Closing a position is final if and only if its entry is
   resolved and its fill marked applied; otherwise the next recovery rebuilds the whole
   position that was just sold.
   */
  lemma CloseIsFinalIff(w: World)
    requires Inv(w) && DoClose(w).Some?
    ensures w.record.Some?
    ensures MayReopen(DoClose(w).value) <==> Candidate(w.record.value)
  {
    hide Run, Recoverable, Recovered;
    var c := DoClose(w).value;
    if Candidate(w.record.value) {
      ClosedIsRecoverable(w);
      RecoveryRuns(c, CurrentFill(w.order.value));
    } else {
      forall es | Run(c, es).Some? ensures Run(c, es).value.file.None? {
        SettledStaysClosed(c, es);
      }
    }
  }
}
