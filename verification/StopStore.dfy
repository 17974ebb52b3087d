/**
 The durable store of protective stops (protective_stop_store.py).

 A record is a value; a mutation of one record is the function `Mutate`, and the
 whole store is the class `StopStore`, whose methods find a record, check it and
 write it back, as the file under its lock does. A load-modify-save under the lock
 is one atomic assignment of the field `stops`.
 */
module StopStore {
  import opened Wrappers

  type OpId = nat
  type OrderId = nat

  datatype Side = Buy | Sell | OtherSide
  datatype ExitAction = Exit | ForceExit | OtherAction

  datatype StopError =
    | MissingIdentity | BadDirection | BadSide | SideNotOpposed | BadQuantity | BadTrigger
    | BadTick | BadTag | UnresolvedStopExists | MissingOrderId | UnknownOperation
    | OrderIdConflict | OrderIdTaken | NegativeQuantity | FillAboveRequested | FillBelowApplied
    | BadAction | BadPositionQuantity | QuantityAboveStop | CoordinationQuantityIncrease
    | CoordinationNotRequested | BadAppliedQuantity | BadAppliedPrice | AppliedBackwards
    | AppliedAboveConfirmed

  datatype StopRecord = StopRecord(
    operationId: OpId,
    orderId: Option<OrderId>,
    clientTag: string,
    symbol: string,
    exchange: string,
    direction: Side,
    stopSide: Side,
    requested: int,
    trigger: real,
    filled: int,
    applied: int,
    appliedAverage: Option<real>,
    pending: int,
    cancelled: int,
    average: Option<real>,
    status: string,
    active: bool,
    terminal: bool,
    resolved: bool,
    exitRequested: bool,
    exitAction: Option<ExitAction>,
    exitReason: Option<string>,
    exitQuantity: Option<int>,
    exitState: Option<string>,
    cancelAttempted: bool)

  /** What the broker history poll hands to `update_protective_stop_verification`. */
  datatype Verification = Verification(
    filled: int, pending: int, cancelled: int, average: Option<real>,
    status: string, active: bool, terminal: bool)

  /** The arguments of `create_protective_stop_intent`. */
  datatype StopIntent = StopIntent(
    symbol: string, exchange: string, direction: Side, stopSide: Side, requested: int,
    trigger: real, clientTag: string, tick: Option<real>)

  /** One durable change of an existing record. */
  datatype Mutation =
    | Attach(orderId: Option<OrderId>)
    | Verify(result: Verification)
    | RequestExit(action: ExitAction, reason: string, quantity: int)
    | ReserveCancel
    | SetExitState(state: string)
    | MarkApplied(quantity: int, average: Option<real>)
    | MarkResolved

  // ---------------------------------------------------------------- creation

  predicate AlphaNumeric(s: string) {
    forall i :: 0 <= i < |s| ==> 'a' <= s[i] <= 'z' || 'A' <= s[i] <= 'Z' || '0' <= s[i] <= '9'
  }

  function IntentError(i: StopIntent): Option<StopError> {
    if i.symbol == "" || i.exchange == "" then Some(MissingIdentity)
    else if i.direction == OtherSide then Some(BadDirection)
    else if i.stopSide == OtherSide then Some(BadSide)
    else if i.stopSide == i.direction then Some(SideNotOpposed)
    else if i.requested <= 0 then Some(BadQuantity)
    else if i.trigger <= 0.0 then Some(BadTrigger)
    else if i.tick.Some? && i.tick.value <= 0.0 then Some(BadTick)
    else if i.clientTag == "" || !AlphaNumeric(i.clientTag) || |i.clientTag| > 20 then Some(BadTag)
    else None
  }

  function NewRecord(id: OpId, i: StopIntent): StopRecord {
    StopRecord(id, None, i.clientTag, i.symbol, i.exchange, i.direction, i.stopSide, i.requested,
               i.trigger, 0, 0, None, i.requested, 0, None, "INTENT_CREATED", false, false, false,
               false, None, None, None, None, false)
  }

  predicate Blocks(r: StopRecord, symbol: string, exchange: string) {
    r.symbol == symbol && r.exchange == exchange && !r.resolved
  }

  ghost predicate HasUnresolvedStop(stops: seq<StopRecord>, symbol: string, exchange: string) {
    exists i :: 0 <= i < |stops| && Blocks(stops[i], symbol, exchange)
  }

  // --------------------------------------------------------------- mutations

  /** One record under one mutation, without the cross-record check of `Attach`. */
  function Mutate(r: StopRecord, m: Mutation): Result<StopRecord, StopError> {
    match m
    case Attach(id) =>
      if id.None? then Err(MissingOrderId)
      else if r.orderId.Some? && r.orderId != id then Err(OrderIdConflict)
      else Ok(r.(orderId := id))
    case Verify(v) =>
      if v.filled < 0 || v.pending < 0 || v.cancelled < 0 then Err(NegativeQuantity)
      else if v.filled > r.requested then Err(FillAboveRequested)
      else if v.filled < r.applied then Err(FillBelowApplied)
      else Ok(r.(filled := v.filled, pending := v.pending, cancelled := v.cancelled,
                 average := v.average, status := v.status, active := v.active,
                 terminal := v.terminal))
    case RequestExit(action, reason, quantity) =>
      if action == OtherAction then Err(BadAction)
      else if quantity <= 0 then Err(BadPositionQuantity)
      else if quantity > r.requested then Err(QuantityAboveStop)
      else if !r.exitRequested then
        Ok(r.(exitRequested := true, exitAction := Some(action), exitReason := Some(reason),
              exitQuantity := Some(quantity), exitState := Some("REQUESTED")))
      else if quantity > PreviousExitQuantity(r) then Err(CoordinationQuantityIncrease)
      else if action == ForceExit then
        Ok(r.(exitAction := Some(action), exitReason := Some(reason), exitQuantity := Some(quantity)))
      else Ok(r.(exitQuantity := Some(quantity)))
    case ReserveCancel =>
      if !r.exitRequested then Err(CoordinationNotRequested)
      else if r.cancelAttempted then Ok(r)
      else Ok(r.(cancelAttempted := true, exitState := Some("CANCEL_REQUEST_RESERVED")))
    case SetExitState(state) => Ok(r.(exitState := Some(state)))
    case MarkApplied(quantity, average) =>
      if quantity < 0 then Err(BadAppliedQuantity)
      else if average.Some? && average.value <= 0.0 then Err(BadAppliedPrice)
      else if quantity < r.applied then Err(AppliedBackwards)
      else if quantity > r.filled then Err(AppliedAboveConfirmed)
      else Ok(r.(applied := quantity, appliedAverage := average))
    case MarkResolved => Ok(r.(resolved := true, active := false))
  }

  function PreviousExitQuantity(r: StopRecord): int {
    if r.exitQuantity.Some? && r.exitQuantity.value != 0 then r.exitQuantity.value else r.requested
  }

  /** The index of the first record with this operation ID, or |stops|. */
  function Find(stops: seq<StopRecord>, id: OpId): (k: nat)
    ensures k <= |stops|
    ensures k < |stops| ==> stops[k].operationId == id
    ensures forall j :: 0 <= j < k ==> stops[j].operationId != id
  {
    if stops == [] then 0
    else if stops[0].operationId == id then 0
    else
      var k := Find(stops[1..], id);
      assert forall j :: 0 < j < k + 1 ==> stops[j] == stops[1..][j - 1];
      k + 1
  }

  predicate TakenElsewhere(stops: seq<StopRecord>, id: OpId, orderId: OrderId) {
    exists j :: 0 <= j < |stops| && stops[j].operationId != id && stops[j].orderId == Some(orderId)
  }

  /** The store after one mutation of the record `id`. */
  function Apply(stops: seq<StopRecord>, id: OpId, m: Mutation): Result<seq<StopRecord>, StopError> {
    // These argument checks come before the record is looked up.
    if m.Attach? && m.orderId.None? then Err(MissingOrderId)
    else if m.RequestExit? && m.action == OtherAction then Err(BadAction)
    else if m.RequestExit? && m.quantity <= 0 then Err(BadPositionQuantity)
    else if m.MarkApplied? && m.quantity < 0 then Err(BadAppliedQuantity)
    else if m.MarkApplied? && m.average.Some? && m.average.value <= 0.0 then Err(BadAppliedPrice)
    else
      var k := Find(stops, id);
      if k == |stops| then Err(UnknownOperation)
      else
        var r := Mutate(stops[k], m);
        if r.Err? then Err(r.error)
        else if m.Attach? && TakenElsewhere(stops, id, m.orderId.value) then Err(OrderIdTaken)
        else Ok(stops[k := r.value])
  }

  // -------------------------------------------------------------- invariants

  ghost predicate RecordInv(r: StopRecord) {
    && r.requested > 0
    && 0 <= r.applied <= r.filled <= r.requested
    && (r.cancelAttempted ==> r.exitRequested)
    && (r.exitRequested <==> r.exitQuantity.Some?)
    && (r.exitRequested ==> 0 < r.exitQuantity.value <= r.requested)
    && (r.exitRequested <==> r.exitAction.Some?)
    && r.exitAction != Some(OtherAction)
  }

  predicate SameInstrument(r: StopRecord, s: StopRecord) {
    r.symbol == s.symbol && r.exchange == s.exchange
  }

  ghost predicate StoreInv(stops: seq<StopRecord>) {
    && (forall i :: 0 <= i < |stops| ==> RecordInv(stops[i]))
    && (forall i, j :: 0 <= i < j < |stops| ==> stops[i].operationId != stops[j].operationId)
    && (forall i, j :: 0 <= i < j < |stops| && stops[i].orderId.Some? ==> stops[i].orderId != stops[j].orderId)
    && (forall i, j :: 0 <= i < j < |stops| && SameInstrument(stops[i], stops[j])
          ==> stops[i].resolved || stops[j].resolved)
  }

  /** How one record may look later in any run of the store. */
  ghost predicate Evolves(r: StopRecord, s: StopRecord) {
    && s.operationId == r.operationId && s.symbol == r.symbol && s.exchange == r.exchange
    && s.direction == r.direction && s.stopSide == r.stopSide
    && s.requested == r.requested && s.clientTag == r.clientTag && s.trigger == r.trigger
    && (r.orderId.Some? ==> s.orderId == r.orderId)
    && r.applied <= s.applied
    && (r.resolved ==> s.resolved)
    && (r.exitRequested ==> s.exitRequested)
    && (r.cancelAttempted ==> s.cancelAttempted)
    && (r.exitAction == Some(ForceExit) ==> s.exitAction == Some(ForceExit))
    && (r.exitQuantity.Some? ==> s.exitQuantity.Some? && s.exitQuantity.value <= r.exitQuantity.value)
  }

  /** No record disappears or moves, and each evolves. */
  ghost predicate StoreEvolves(a: seq<StopRecord>, b: seq<StopRecord>) {
    |a| <= |b| && forall i :: 0 <= i < |a| ==> Evolves(a[i], b[i])
  }

  lemma MutateKeepsRecord(r: StopRecord, m: Mutation)
    requires RecordInv(r) && Mutate(r, m).Ok?
    ensures RecordInv(Mutate(r, m).value) && Evolves(r, Mutate(r, m).value)
  {
  }

  // ------------------------------------------------------------ runs of ops

  /** A request to the store: a creation with the UUID drawn for it, or a mutation. */
  datatype StoreOp = Create(id: OpId, intent: StopIntent) | Change(id: OpId, change: Mutation)

  /** The store after one request; a request that raises leaves the file as it was. */
  ghost function After(stops: seq<StopRecord>, op: StoreOp): seq<StopRecord> {
    match op
    case Create(id, intent) =>
      if IntentError(intent).Some? || HasUnresolvedStop(stops, intent.symbol, intent.exchange) then stops
      else stops + [NewRecord(id, intent)]
    case Change(id, m) =>
      var r := Apply(stops, id, m);
      if r.Ok? then r.value else stops
  }

  ghost function AfterAll(stops: seq<StopRecord>, ops: seq<StoreOp>): seq<StopRecord>
    decreases |ops|
  {
    if ops == [] then stops else AfterAll(After(stops, ops[0]), ops[1..])
  }

  /** A drawn UUID is never one that the store already holds. */
  ghost predicate FreshIds(stops: seq<StopRecord>, ops: seq<StoreOp>)
    decreases |ops|
  {
    ops == [] ||
    (&& (ops[0].Create? ==> forall i :: 0 <= i < |stops| ==> stops[i].operationId != ops[0].id)
     && FreshIds(After(stops, ops[0]), ops[1..]))
  }

  lemma CreateKeepsStore(stops: seq<StopRecord>, id: OpId, intent: StopIntent)
    requires StoreInv(stops) && IntentError(intent).None?
    requires !HasUnresolvedStop(stops, intent.symbol, intent.exchange)
    requires forall i :: 0 <= i < |stops| ==> stops[i].operationId != id
    ensures StoreInv(stops + [NewRecord(id, intent)])
  {
    forall i | 0 <= i < |stops| && stops[i].symbol == intent.symbol && stops[i].exchange == intent.exchange
      ensures stops[i].resolved
    {
      assert !Blocks(stops[i], intent.symbol, intent.exchange);
    }
  }

  /** Writing back an evolved record keeps the store, if a newly attached broker ID is unused. */
  lemma WriteKeepsStore(stops: seq<StopRecord>, k: nat, r: StopRecord)
    requires StoreInv(stops) && k < |stops| && RecordInv(r) && Evolves(stops[k], r)
    requires r.orderId == stops[k].orderId
             || forall j :: 0 <= j < |stops| && j != k ==> stops[j].orderId != r.orderId
    ensures StoreInv(stops[k := r]) && StoreEvolves(stops, stops[k := r])
  {
  }

  lemma ChangeKeepsStore(stops: seq<StopRecord>, id: OpId, m: Mutation)
    requires StoreInv(stops) && Apply(stops, id, m).Ok?
    ensures StoreInv(Apply(stops, id, m).value) && StoreEvolves(stops, Apply(stops, id, m).value)
  {
    var k := Find(stops, id);
    MutateKeepsRecord(stops[k], m);
    WriteKeepsStore(stops, k, Mutate(stops[k], m).value);
  }

  lemma RequestKeepsStore(stops: seq<StopRecord>, op: StoreOp)
    requires StoreInv(stops)
    requires op.Create? ==> forall i :: 0 <= i < |stops| ==> stops[i].operationId != op.id
    ensures StoreInv(After(stops, op)) && StoreEvolves(stops, After(stops, op))
  {
    match op
    case Create(id, intent) =>
      if After(stops, op) != stops {
        CreateKeepsStore(stops, id, intent);
      }
    case Change(id, m) =>
      if Apply(stops, id, m).Ok? {
        ChangeKeepsStore(stops, id, m);
      }
  }

  lemma EvolvesIsTransitive(a: seq<StopRecord>, b: seq<StopRecord>, c: seq<StopRecord>)
    requires StoreEvolves(a, b) && StoreEvolves(b, c)
    ensures StoreEvolves(a, c)
  {
    forall i | 0 <= i < |a| ensures Evolves(a[i], c[i]) {
      assert Evolves(a[i], b[i]) && Evolves(b[i], c[i]);
    }
  }

  /**
   Over any sequence of store requests, in any order and with any arguments, the
   store invariant holds and every record only evolves: identity and broker ID are
   never rebound, the applied fill never moves back, the coordination quantity never
   grows, and FORCE_EXIT, cancel-attempted and resolved are absorbing.
   */
  lemma {:induction false} RunsKeepStore(stops: seq<StopRecord>, ops: seq<StoreOp>)
    requires StoreInv(stops) && FreshIds(stops, ops)
    ensures StoreInv(AfterAll(stops, ops)) && StoreEvolves(stops, AfterAll(stops, ops))
    decreases |ops|
  {
    if ops != [] {
      var next := After(stops, ops[0]);
      RequestKeepsStore(stops, ops[0]);
      RunsKeepStore(next, ops[1..]);
      EvolvesIsTransitive(stops, next, AfterAll(next, ops[1..]));
    }
  }

  /** Two unresolved stops of one exchange and symbol are the same stop, after any run. */
  lemma OneUnresolvedStop(ops: seq<StoreOp>, i: nat, j: nat, symbol: string, exchange: string)
    requires FreshIds([], ops)
    requires i < |AfterAll([], ops)| && j < |AfterAll([], ops)|
    requires Blocks(AfterAll([], ops)[i], symbol, exchange)
    requires Blocks(AfterAll([], ops)[j], symbol, exchange)
    ensures i == j
  {
    RunsKeepStore([], ops);
  }

  // ------------------------------------------------------------ the store file

  /** The unresolved records, in the order of the file. */
  function Unresolved(stops: seq<StopRecord>): seq<StopRecord> {
    if stops == [] then []
    else
      var n := |stops| - 1;
      Unresolved(stops[..n]) + if stops[n].resolved then [] else [stops[n]]
  }

  class StopStore {
    var stops: seq<StopRecord>

    constructor ()
      ensures stops == []
    {
      stops := [];
    }

    /** The scan of `_find`. */
    method Locate(id: OpId) returns (k: nat)
      ensures k == Find(stops, id)
    {
      k := 0;
      while k < |stops| && stops[k].operationId != id
        invariant k <= |stops|
        invariant Find(stops, id) == k + Find(stops[k..], id)
      {
        assert stops[k..][1..] == stops[k + 1..];
        k := k + 1;
      }
    }

    method HasUnresolved(symbol: string, exchange: string) returns (found: bool)
      ensures found <==> HasUnresolvedStop(stops, symbol, exchange)
    {
      for i := 0 to |stops|
        invariant forall j :: 0 <= j < i ==> !Blocks(stops[j], symbol, exchange)
      {
        if Blocks(stops[i], symbol, exchange) {
          return true;
        }
      }
      found := false;
    }

    method ListUnresolved() returns (open: seq<StopRecord>)
      ensures open == Unresolved(stops)
      ensures forall r :: r in open <==> r in stops && !r.resolved
    {
      open := [];
      for i := 0 to |stops|
        invariant open == Unresolved(stops[..i])
        invariant forall r :: r in open <==> r in stops[..i] && !r.resolved
      {
        assert stops[..i + 1][..i] == stops[..i];
        if !stops[i].resolved {
          open := open + [stops[i]];
        }
      }
      assert stops[..|stops|] == stops;
    }

    method Create(id: OpId, intent: StopIntent) returns (r: Result<OpId, StopError>)
      modifies this
      ensures stops == After(old(stops), StoreOp.Create(id, intent))
      ensures r.Ok? <==> IntentError(intent).None?
                         && !HasUnresolvedStop(old(stops), intent.symbol, intent.exchange)
      ensures r.Ok? ==> r.value == id && stops == old(stops) + [NewRecord(id, intent)]
    {
      var bad := IntentError(intent);
      if bad.Some? {
        return Err(bad.value);
      }
      var blocked := HasUnresolved(intent.symbol, intent.exchange);
      if blocked {
        return Err(UnresolvedStopExists);
      }
      stops := stops + [NewRecord(id, intent)];
      r := Ok(id);
    }

    method AttachOrderId(id: OpId, orderId: Option<OrderId>) returns (e: Option<StopError>)
      modifies this
      ensures Outcome(old(stops), id, Attach(orderId), e, stops)
    {
      if orderId.None? {
        return Some(MissingOrderId);
      }
      var k := Locate(id);
      if k == |stops| {
        return Some(UnknownOperation);
      }
      var existing := stops[k].orderId;
      if existing.Some? && existing != orderId {
        return Some(OrderIdConflict);
      }
      for j := 0 to |stops|
        invariant forall i :: 0 <= i < j ==> !(stops[i].operationId != id && stops[i].orderId == orderId)
      {
        if stops[j].operationId != id && stops[j].orderId == orderId {
          return Some(OrderIdTaken);
        }
      }
      stops := stops[k := stops[k].(orderId := orderId)];
      e := None;
    }

    method UpdateVerification(id: OpId, v: Verification) returns (e: Option<StopError>)
      modifies this
      ensures Outcome(old(stops), id, Verify(v), e, stops)
    {
      var k := Locate(id);
      if k == |stops| {
        return Some(UnknownOperation);
      }
      var record := stops[k];
      if v.filled < 0 || v.pending < 0 || v.cancelled < 0 {
        return Some(NegativeQuantity);
      }
      if v.filled > record.requested {
        return Some(FillAboveRequested);
      }
      if v.filled < record.applied {
        return Some(FillBelowApplied);
      }
      record := record.(filled := v.filled, pending := v.pending, cancelled := v.cancelled);
      record := record.(average := v.average, status := v.status);
      record := record.(active := v.active, terminal := v.terminal);
      stops := stops[k := record];
      e := None;
    }

    method RequestExitCoordination(id: OpId, action: ExitAction, reason: string, quantity: int)
      returns (e: Option<StopError>, created: bool)
      modifies this
      ensures Outcome(old(stops), id, RequestExit(action, reason, quantity), e, stops)
      ensures e.None? ==> (created <==> !old(stops)[Find(old(stops), id)].exitRequested)
    {
      created := false;
      if action == OtherAction {
        return Some(BadAction), false;
      }
      if quantity <= 0 {
        return Some(BadPositionQuantity), false;
      }
      var k := Locate(id);
      if k == |stops| {
        return Some(UnknownOperation), false;
      }
      var record := stops[k];
      if quantity > record.requested {
        return Some(QuantityAboveStop), false;
      }
      created := !record.exitRequested;
      if created {
        record := record.(exitRequested := true, exitAction := Some(action));
        record := record.(exitReason := Some(reason), exitState := Some("REQUESTED"));
      } else {
        if quantity > PreviousExitQuantity(record) {
          return Some(CoordinationQuantityIncrease), false;
        }
        if action == ForceExit {
          record := record.(exitAction := Some(action), exitReason := Some(reason));
        }
      }
      record := record.(exitQuantity := Some(quantity));
      stops := stops[k := record];
      e := None;
    }

    /** True only for the one call that made the reservation. */
    method ReserveCancelAttempt(id: OpId) returns (e: Option<StopError>, reserved: bool)
      modifies this
      ensures Outcome(old(stops), id, ReserveCancel, e, stops)
      ensures reserved ==> e.None? && !old(stops)[Find(old(stops), id)].cancelAttempted
      ensures e.None? && !reserved ==> old(stops)[Find(old(stops), id)].cancelAttempted
    {
      reserved := false;
      var k := Locate(id);
      if k == |stops| {
        return Some(UnknownOperation), false;
      }
      if !stops[k].exitRequested {
        return Some(CoordinationNotRequested), false;
      }
      if stops[k].cancelAttempted {
        assert stops[k := stops[k]] == stops;
        return None, false;
      }
      stops := stops[k := stops[k].(cancelAttempted := true, exitState := Some("CANCEL_REQUEST_RESERVED"))];
      e, reserved := None, true;
    }

    method UpdateExitCoordination(id: OpId, state: string) returns (e: Option<StopError>)
      modifies this
      ensures Outcome(old(stops), id, SetExitState(state), e, stops)
    {
      var k := Locate(id);
      if k == |stops| {
        return Some(UnknownOperation);
      }
      stops := stops[k := stops[k].(exitState := Some(state))];
      e := None;
    }

    method MarkFillApplied(id: OpId, quantity: int, average: Option<real>) returns (e: Option<StopError>)
      modifies this
      ensures Outcome(old(stops), id, MarkApplied(quantity, average), e, stops)
    {
      if quantity < 0 {
        return Some(BadAppliedQuantity);
      }
      if average.Some? && average.value <= 0.0 {
        return Some(BadAppliedPrice);
      }
      var k := Locate(id);
      if k == |stops| {
        return Some(UnknownOperation);
      }
      if quantity < stops[k].applied {
        return Some(AppliedBackwards);
      }
      if quantity > stops[k].filled {
        return Some(AppliedAboveConfirmed);
      }
      stops := stops[k := stops[k].(applied := quantity, appliedAverage := average)];
      e := None;
    }

    method MarkStopResolved(id: OpId) returns (e: Option<StopError>)
      modifies this
      ensures Outcome(old(stops), id, MarkResolved, e, stops)
    {
      var k := Locate(id);
      if k == |stops| {
        return Some(UnknownOperation);
      }
      stops := stops[k := stops[k].(resolved := true, active := false)];
      e := None;
    }
  }

  /** A mutator either raises and leaves the file alone, or writes what `Apply` says. */
  predicate Outcome(before: seq<StopRecord>, id: OpId, m: Mutation, e: Option<StopError>, after: seq<StopRecord>) {
    match Apply(before, id, m)
    case Err(error) => e == Some(error) && after == before
    case Ok(value) => e == None && after == value
  }
}
