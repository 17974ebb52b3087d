/** Runs step by step, and which function takes each step: the vocabulary of the proofs about runs. */
module ExitSteps {
  import opened Wrappers
  import opened Broker
  import P = PendingStore
  import opened StopVerification
  import opened StopExit
  import opened ExitProtocol

  /** A run is its first step followed by the rest. */
  lemma RunStep(w: World, e: Event, es: seq<Event>)
    ensures Run(w, []) == Some(w)
    ensures Run(w, [e] + es) == if Step(w, e).None? then None else Run(Step(w, e).value, es)
  {
    assert ([e] + es)[1..] == es;
  }

  lemma RunConcat(w: World, a: seq<Event>, b: seq<Event>)
    requires Run(w, a).Some?
    ensures Run(w, a + b) == Run(Run(w, a).value, b)
    decreases |a|
  {
    if a == [] {
      assert a + b == b;
    } else {
      assert (a + b)[1..] == a[1..] + b;
      RunConcat(Step(w, a[0]).value, a[1..], b);
    }
  }

  /** Orders stay where they are, and each only moves on. */
  predicate BookMoves(a: seq<Order>, b: seq<Order>) {
    |a| == |b| && forall i :: 0 <= i < |a| ==> Advances(a[i], b[i])
  }

  lemma NothingMoves(a: seq<Order>)
    ensures BookMoves(a, a)
  {
  }

  /** Which function takes each step used below. */
  lemma StepIs(w: World, trigger: real, tag: string, tick: real)
    ensures Step(w, ResolveOldStop) == DoResolveOldStop(w) && Step(w, ResetProtection) == DoResetProtection(w)
    ensures Step(w, CreateStop(trigger, tag, tick)) == DoCreateStop(w, trigger, tag, tick)
    ensures Step(w, SendStop(true, true)) == DoSendStop(w, true, true)
  {
    hide DoResolveOldStop, DoResetProtection, DoCreateStop, DoSendStop;
  }

  lemma FillStepIs(w: World)
    ensures Step(w, ReserveFill) == DoReserveFill(w) && Step(w, BookFill) == DoBookFill(w)
    ensures Step(w, UpdateFromFill) == DoUpdateFromFill(w) && Step(w, SaveFill) == DoSaveFill(w)
    ensures Step(w, FinishFill) == DoFinishFill(w)
  {
    hide DoReserveFill, DoBookFill, DoUpdateFromFill, DoSaveFill, DoFinishFill;
  }

  lemma CoordinationStepIs(w: World, want: Wanted, reason: string, r: StopResult)
    ensures Step(w, RequestCoordination(want, reason)) == DoRequestCoordination(w, want, reason)
    ensures Step(w, CoordinationVerify(r)) == DoCoordinationVerify(w, r)
  {
    hide DoRequestCoordination, DoCoordinationVerify;
  }

  lemma SubmissionStepIs(w: World, r: StopResult)
    ensures Step(w, AttachStop) == DoAttachStop(w) && Step(w, VerifyStop(r)) == DoVerifyStop(w, r)
    ensures Step(w, NameStop(true)) == DoNameStop(w, true)
    ensures forall b :: Step(w, SaveProtection(b)) == DoSaveProtection(w, b)
  {
    hide DoAttachStop, DoVerifyStop, DoNameStop, DoSaveProtection;
  }

  lemma CancelStepIs(w: World, ix: nat)
    ensures Step(w, ReserveCancel) == DoReserveCancel(w) && Step(w, CallCancel) == DoCallCancel(w)
    ensures forall s :: Step(w, BrokerFinish(ix, s)) == DoFinish(w, ix, s)
  {
    hide DoReserveCancel, DoCallCancel, DoFinish;
  }

  lemma SendStepIs(w: World)
    ensures Step(w, CreateExit) == DoCreateExit(w) && Step(w, SendExit(true, true)) == DoSendExit(w, true, true)
    ensures Step(w, AttachExit) == DoAttachExit(w)
  {
    hide DoCreateExit, DoSendExit, DoAttachExit;
  }

  lemma ExitStepIs(w: World, x: P.Execution)
    ensures Step(w, VerifyExit(x)) == DoVerifyExit(w, x) && Step(w, RecoverExit) == DoRecoverExit(w)
    ensures Step(w, BookExit) == DoBookExit(w)
  {
    hide DoVerifyExit, DoRecoverExit, DoBookExit;
  }

  lemma ExitSaveStepIs(w: World)
    ensures Step(w, UpdateFromExit) == DoUpdateFromExit(w) && Step(w, SaveExit) == DoSaveExit(w)
    ensures Step(w, FinishExit) == DoFinishExit(w) && Step(w, Crash) == Some(Restarted(w))
  {
    hide DoUpdateFromExit, DoSaveExit, DoFinishExit, Restarted;
  }

  lemma BrokerStepIs(w: World, ix: nat, n: nat, s: Status)
    ensures Step(w, BrokerFill(ix, n)) == DoFill(w, ix, n) && Step(w, BrokerFinish(ix, s)) == DoFinish(w, ix, s)
    ensures Step(w, BrokerTrigger(ix)) == DoTrigger(w, ix)
  {
    hide DoFill, DoFinish, DoTrigger;
  }
}
