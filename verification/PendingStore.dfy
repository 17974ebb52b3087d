/**
 The durable journal of entry and exit orders (pending_order_store.py).
 EXIT and FORCE_EXIT are one family: an unresolved order of either kind blocks both.
 */
module PendingStore {
  import opened Wrappers
  import S = StopStore

  type OpId = S.OpId
  type OrderId = S.OrderId

  datatype Action = Entry | Exit | ForceExit | OtherAction

  datatype OrderError =
    | BadSymbol | BadExchange | BadAction | BadSide | BadQuantity | BadTag | UnresolvedOrderExists
    | DuplicateOperation | NoSuchOperation | OrderIdConflict | OrderIdTaken | NegativeQuantity
    | FillAboveRequested | PriceWithoutFill | BadAppliedQuantity | NotAnEntry | AppliedBackwards
    | AppliedAboveConfirmed

  datatype OrderRecord = OrderRecord(
    operationId: OpId,
    orderId: Option<OrderId>,
    clientTag: Option<string>,
    symbol: string,
    exchange: string,
    action: Action,
    side: S.Side,
    requested: int,
    filled: int,
    pending: int,
    cancelled: int,
    applied: int,
    average: Option<real>,
    status: string,
    terminal: bool,
    resolved: bool)

  /** `OrderExecutionResult`: what the broker history poll reports. */
  datatype Execution = Execution(
    filled: int, pending: int, cancelled: int, average: Option<real>, status: string, terminal: bool)

  datatype OrderIntent = OrderIntent(
    symbol: string, exchange: string, action: Action, side: S.Side, requested: int, clientTag: Option<string>)

  datatype Mutation =
    | Attach(orderId: OrderId)
    | Verify(result: Execution)
    | MarkResolved
    | MarkEntryApplied(quantity: int)

  function IntentError(i: OrderIntent): Option<OrderError> {
    if i.symbol == "" then Some(BadSymbol)
    else if i.exchange == "" then Some(BadExchange)
    else if i.action == OtherAction then Some(BadAction)
    else if i.side == S.OtherSide then Some(BadSide)
    else if i.requested <= 0 then Some(BadQuantity)
    else if i.clientTag.Some?
            && (i.clientTag.value == "" || !S.AlphaNumeric(i.clientTag.value) || |i.clientTag.value| > 20)
    then Some(BadTag)
    else None
  }

  function NewRecord(id: OpId, i: OrderIntent): OrderRecord {
    OrderRecord(id, None, i.clientTag, i.symbol, i.exchange, i.action, i.side, i.requested, 0,
                i.requested, 0, 0, None, "INTENT_CREATED", false, false)
  }

  predicate SameFamily(a: Action, b: Action) {
    a == Entry <==> b == Entry
  }

  predicate Blocks(r: OrderRecord, symbol: string, exchange: string, action: Action) {
    r.symbol == symbol && r.exchange == exchange && !r.resolved && SameFamily(r.action, action)
  }

  ghost predicate HasUnresolvedOrder(orders: seq<OrderRecord>, symbol: string, exchange: string, action: Action) {
    exists i :: 0 <= i < |orders| && Blocks(orders[i], symbol, exchange, action)
  }

  function Mutate(r: OrderRecord, m: Mutation): Result<OrderRecord, OrderError> {
    match m
    case Attach(id) =>
      if r.orderId.Some? && r.orderId != Some(id) then Err(OrderIdConflict)
      else Ok(r.(orderId := Some(id)))
    case Verify(x) =>
      if x.filled < 0 || x.pending < 0 || x.cancelled < 0 then Err(NegativeQuantity)
      else if x.filled > r.requested then Err(FillAboveRequested)
      else if x.average.Some? && x.filled == 0 then Err(PriceWithoutFill)
      else Ok(r.(filled := x.filled, pending := x.pending, cancelled := x.cancelled,
                 average := x.average, status := x.status, terminal := x.terminal))
    case MarkResolved => Ok(r.(resolved := true))
    case MarkEntryApplied(quantity) =>
      if quantity < 0 then Err(BadAppliedQuantity)
      else if r.action != Entry then Err(NotAnEntry)
      else if quantity < r.applied then Err(AppliedBackwards)
      else if quantity > r.filled then Err(AppliedAboveConfirmed)
      else Ok(r.(applied := quantity))
  }

  function Find(orders: seq<OrderRecord>, id: OpId): (k: nat)
    ensures k <= |orders|
    ensures k < |orders| ==> orders[k].operationId == id
    ensures forall j :: 0 <= j < k ==> orders[j].operationId != id
  {
    if orders == [] then 0
    else if orders[0].operationId == id then 0
    else
      var k := Find(orders[1..], id);
      assert forall j :: 0 < j < k + 1 ==> orders[j] == orders[1..][j - 1];
      k + 1
  }

  predicate TakenElsewhere(orders: seq<OrderRecord>, id: OpId, orderId: OrderId) {
    exists j :: 0 <= j < |orders| && orders[j].operationId != id && orders[j].orderId == Some(orderId)
  }

  function Apply(orders: seq<OrderRecord>, id: OpId, m: Mutation): Result<seq<OrderRecord>, OrderError> {
    if m.MarkEntryApplied? && m.quantity < 0 then Err(BadAppliedQuantity)
    else
      var k := Find(orders, id);
      if k == |orders| then Err(NoSuchOperation)
      else
        var r := Mutate(orders[k], m);
        if r.Err? then Err(r.error)
        else if m.Attach? && TakenElsewhere(orders, id, m.orderId) then Err(OrderIdTaken)
        else Ok(orders[k := r.value])
  }

  // -------------------------------------------------------------- invariants

  /** Note that `applied <= filled` is not here: see `AppliedMayExceedFilled`. */
  ghost predicate RecordInv(r: OrderRecord) {
    && r.requested > 0
    && 0 <= r.filled <= r.requested
    && 0 <= r.applied <= r.requested
    && (r.action != Entry ==> r.applied == 0)
    && (r.average.Some? ==> r.filled > 0)
  }

  ghost predicate StoreInv(orders: seq<OrderRecord>) {
    && (forall i :: 0 <= i < |orders| ==> RecordInv(orders[i]))
    && (forall i, j :: 0 <= i < j < |orders| ==> orders[i].operationId != orders[j].operationId)
    && (forall i, j :: 0 <= i < j < |orders| && orders[i].orderId.Some? ==> orders[i].orderId != orders[j].orderId)
    && (forall i, j :: 0 <= i < j < |orders| && Compete(orders[i], orders[j])
          ==> orders[i].resolved || orders[j].resolved)
  }

  predicate Compete(r: OrderRecord, s: OrderRecord) {
    r.symbol == s.symbol && r.exchange == s.exchange && SameFamily(r.action, s.action)
  }

  ghost predicate Evolves(r: OrderRecord, s: OrderRecord) {
    && s.operationId == r.operationId && s.symbol == r.symbol && s.exchange == r.exchange
    && s.action == r.action && s.side == r.side && s.requested == r.requested
    && s.clientTag == r.clientTag
    && (r.orderId.Some? ==> s.orderId == r.orderId)
    && r.applied <= s.applied
    && (r.resolved ==> s.resolved)
  }

  ghost predicate StoreEvolves(a: seq<OrderRecord>, b: seq<OrderRecord>) {
    |a| <= |b| && forall i :: 0 <= i < |a| ==> Evolves(a[i], b[i])
  }

  lemma MutateKeepsRecord(r: OrderRecord, m: Mutation)
    requires RecordInv(r) && Mutate(r, m).Ok?
    ensures RecordInv(Mutate(r, m).value) && Evolves(r, Mutate(r, m).value)
  {
  }

  datatype StoreOp = Create(id: OpId, intent: OrderIntent) | Change(id: OpId, change: Mutation)

  /** Unlike the stop store, a colliding operation ID is refused here. */
  ghost predicate CreateSucceeds(orders: seq<OrderRecord>, id: OpId, i: OrderIntent) {
    && IntentError(i).None?
    && !HasUnresolvedOrder(orders, i.symbol, i.exchange, i.action)
    && Find(orders, id) == |orders|
  }

  ghost function After(orders: seq<OrderRecord>, op: StoreOp): seq<OrderRecord> {
    match op
    case Create(id, intent) =>
      if CreateSucceeds(orders, id, intent) then orders + [NewRecord(id, intent)] else orders
    case Change(id, m) =>
      var r := Apply(orders, id, m);
      if r.Ok? then r.value else orders
  }

  ghost function AfterAll(orders: seq<OrderRecord>, ops: seq<StoreOp>): seq<OrderRecord>
    decreases |ops|
  {
    if ops == [] then orders else AfterAll(After(orders, ops[0]), ops[1..])
  }

  lemma CreateKeepsStore(orders: seq<OrderRecord>, id: OpId, intent: OrderIntent)
    requires StoreInv(orders) && CreateSucceeds(orders, id, intent)
    ensures StoreInv(orders + [NewRecord(id, intent)])
  {
    forall i | 0 <= i < |orders| && Compete(orders[i], NewRecord(id, intent))
      ensures orders[i].resolved
    {
      assert !Blocks(orders[i], intent.symbol, intent.exchange, intent.action);
    }
  }

  lemma WriteKeepsStore(orders: seq<OrderRecord>, k: nat, r: OrderRecord)
    requires StoreInv(orders) && k < |orders| && RecordInv(r) && Evolves(orders[k], r)
    requires r.orderId == orders[k].orderId
             || forall j :: 0 <= j < |orders| && j != k ==> orders[j].orderId != r.orderId
    ensures StoreInv(orders[k := r]) && StoreEvolves(orders, orders[k := r])
  {
  }

  lemma RequestKeepsStore(orders: seq<OrderRecord>, op: StoreOp)
    requires StoreInv(orders)
    ensures StoreInv(After(orders, op)) && StoreEvolves(orders, After(orders, op))
  {
    if op.Create? {
      if After(orders, op) != orders {
        CreateKeepsStore(orders, op.id, op.intent);
      }
    } else if Apply(orders, op.id, op.change).Ok? {
      var k := Find(orders, op.id);
      MutateKeepsRecord(orders[k], op.change);
      WriteKeepsStore(orders, k, Mutate(orders[k], op.change).value);
    }
  }

  lemma EvolvesIsTransitive(a: seq<OrderRecord>, b: seq<OrderRecord>, c: seq<OrderRecord>)
    requires StoreEvolves(a, b) && StoreEvolves(b, c)
    ensures StoreEvolves(a, c)
  {
    forall i | 0 <= i < |a| ensures Evolves(a[i], c[i]) {
      assert Evolves(a[i], b[i]) && Evolves(b[i], c[i]);
    }
  }

  /** Every sequence of journal requests keeps the invariant, and every record only evolves. */
  lemma {:induction false} RunsKeepStore(orders: seq<OrderRecord>, ops: seq<StoreOp>)
    requires StoreInv(orders)
    ensures StoreInv(AfterAll(orders, ops)) && StoreEvolves(orders, AfterAll(orders, ops))
    decreases |ops|
  {
    if ops != [] {
      var next := After(orders, ops[0]);
      RequestKeepsStore(orders, ops[0]);
      RunsKeepStore(next, ops[1..]);
      EvolvesIsTransitive(orders, next, AfterAll(next, ops[1..]));
    }
  }

  /**
   A remark on one write: the journal does not refuse a verification whose fill is below
   the fill already applied, so `applied <= filled` survives a change exactly when a
   verification reports no less than what was applied.
   */
  lemma AppliedWithinFilled(r: OrderRecord, m: Mutation)
    requires RecordInv(r) && r.applied <= r.filled && Mutate(r, m).Ok?
    ensures Mutate(r, m).value.applied <= Mutate(r, m).value.filled
            <==> (m.Verify? ==> r.applied <= m.result.filled)
  {
  }

  /** The report of a poll that never saw a readable record: nothing filled, not terminal. */
  const UNKNOWN_10 := Execution(0, 10, 0, None, "UNKNOWN", false)

  /** Intent, attach, a partial fill of 4 applied locally, then an unreadable broker. */
  const UNREADABLE_AFTER_PARTIAL: seq<StoreOp> := [
    StoreOp.Create(1, OrderIntent("INFY", "NSE", Entry, S.Buy, 10, Some("KBE1"))),
    StoreOp.Change(1, Attach(77)),
    StoreOp.Change(1, Verify(Execution(4, 6, 0, Some(100.0), "TIMEOUT", false))),
    StoreOp.Change(1, MarkEntryApplied(4)),
    StoreOp.Change(1, Verify(UNKNOWN_10))]

  /** A concrete run in which the journal ends with 4 applied and 0 filled. */
  lemma AppliedMayExceedFilled()
    ensures var orders := AfterAll([], UNREADABLE_AFTER_PARTIAL);
            |orders| == 1 && orders[0].applied == 4 && orders[0].filled == 0
  {
    var ops := UNREADABLE_AFTER_PARTIAL;
    var s1 := After([], ops[0]);
    var s2 := After(s1, ops[1]);
    var s3 := After(s2, ops[2]);
    var s4 := After(s3, ops[3]);
    var s5 := After(s4, ops[4]);
    assert |s1| == 1 && Find(s1, 1) == 0;
    assert |s2| == 1 && s2[0].orderId == Some(77);
    assert |s3| == 1 && s3[0].filled == 4;
    assert |s4| == 1 && s4[0].applied == 4;
    assert ops[1..][0] == ops[1] && ops[1..][1..] == ops[2..];
    assert ops[2..][0] == ops[2] && ops[2..][1..] == ops[3..];
    assert ops[3..][0] == ops[3] && ops[3..][1..] == ops[4..];
    assert ops[4..][0] == ops[4] && ops[4..][1..] == [];
    calc {
      AfterAll([], ops);
      AfterAll(s1, ops[1..]);
      AfterAll(s2, ops[2..]);
      AfterAll(s3, ops[3..]);
      AfterAll(s4, ops[4..]);
      AfterAll(s5, []);
      s5;
    }
  }

  // ---------------------------------------------------------- the journal file

  predicate Outcome(before: seq<OrderRecord>, id: OpId, m: Mutation, e: Option<OrderError>, after: seq<OrderRecord>) {
    match Apply(before, id, m)
    case Err(error) => e == Some(error) && after == before
    case Ok(value) => e == None && after == value
  }

  /** The unresolved records, in the order of the file. */
  function Unresolved(orders: seq<OrderRecord>): seq<OrderRecord> {
    if orders == [] then []
    else
      var n := |orders| - 1;
      Unresolved(orders[..n]) + if orders[n].resolved then [] else [orders[n]]
  }

  /** The entries with a fill that is not marked applied, in the order of the file. */
  function RequiringApplication(orders: seq<OrderRecord>): seq<OrderRecord> {
    if orders == [] then []
    else
      var n := |orders| - 1;
      RequiringApplication(orders[..n])
      + if orders[n].action == Entry && orders[n].filled > orders[n].applied then [orders[n]] else []
  }

  class PendingStore {
    var orders: seq<OrderRecord>

    constructor ()
      ensures orders == []
    {
      orders := [];
    }

    method Locate(id: OpId) returns (k: nat)
      ensures k == Find(orders, id)
    {
      k := 0;
      while k < |orders| && orders[k].operationId != id
        invariant k <= |orders|
        invariant Find(orders, id) == k + Find(orders[k..], id)
      {
        assert orders[k..][1..] == orders[k + 1..];
        k := k + 1;
      }
    }

    method HasUnresolved(symbol: string, exchange: string, action: Action) returns (found: bool)
      ensures found <==> HasUnresolvedOrder(orders, symbol, exchange, action)
    {
      for i := 0 to |orders|
        invariant forall j :: 0 <= j < i ==> !Blocks(orders[j], symbol, exchange, action)
      {
        if Blocks(orders[i], symbol, exchange, action) {
          return true;
        }
      }
      found := false;
    }

    method CreateIntent(id: OpId, intent: OrderIntent) returns (r: Result<OpId, OrderError>)
      modifies this
      ensures orders == After(old(orders), StoreOp.Create(id, intent))
      ensures r.Ok? <==> CreateSucceeds(old(orders), id, intent)
      ensures r.Ok? ==> r.value == id && orders == old(orders) + [NewRecord(id, intent)]
    {
      var bad := IntentError(intent);
      if bad.Some? {
        return Err(bad.value);
      }
      var blocked := HasUnresolved(intent.symbol, intent.exchange, intent.action);
      if blocked {
        return Err(UnresolvedOrderExists);
      }
      var k := Locate(id);
      if k != |orders| {
        return Err(DuplicateOperation);
      }
      orders := orders + [NewRecord(id, intent)];
      r := Ok(id);
    }

    method AttachBrokerOrderId(id: OpId, orderId: OrderId) returns (e: Option<OrderError>)
      modifies this
      ensures Outcome(old(orders), id, Attach(orderId), e, orders)
    {
      var k := Locate(id);
      if k == |orders| {
        return Some(NoSuchOperation);
      }
      if orders[k].orderId.Some? && orders[k].orderId != Some(orderId) {
        return Some(OrderIdConflict);
      }
      for j := 0 to |orders|
        invariant forall i :: 0 <= i < j ==> !(orders[i].operationId != id && orders[i].orderId == Some(orderId))
      {
        if orders[j].operationId != id && orders[j].orderId == Some(orderId) {
          return Some(OrderIdTaken);
        }
      }
      orders := orders[k := orders[k].(orderId := Some(orderId))];
      e := None;
    }

    method UpdateVerification(id: OpId, x: Execution) returns (e: Option<OrderError>)
      modifies this
      ensures Outcome(old(orders), id, Verify(x), e, orders)
    {
      var k := Locate(id);
      if k == |orders| {
        return Some(NoSuchOperation);
      }
      var record := orders[k];
      if x.filled < 0 || x.pending < 0 || x.cancelled < 0 {
        return Some(NegativeQuantity);
      }
      if x.filled > record.requested {
        return Some(FillAboveRequested);
      }
      if x.average.Some? && x.filled == 0 {
        return Some(PriceWithoutFill);
      }
      record := record.(filled := x.filled, pending := x.pending, cancelled := x.cancelled);
      record := record.(average := x.average, status := x.status, terminal := x.terminal);
      orders := orders[k := record];
      e := None;
    }

    method MarkOrderResolved(id: OpId) returns (e: Option<OrderError>)
      modifies this
      ensures Outcome(old(orders), id, MarkResolved, e, orders)
    {
      var k := Locate(id);
      if k == |orders| {
        return Some(NoSuchOperation);
      }
      orders := orders[k := orders[k].(resolved := true)];
      e := None;
    }

    method MarkEntryFillApplied(id: OpId, quantity: int) returns (e: Option<OrderError>)
      modifies this
      ensures Outcome(old(orders), id, MarkEntryApplied(quantity), e, orders)
    {
      if quantity < 0 {
        return Some(BadAppliedQuantity);
      }
      var k := Locate(id);
      if k == |orders| {
        return Some(NoSuchOperation);
      }
      var record := orders[k];
      if record.action != Entry {
        return Some(NotAnEntry);
      }
      if quantity < record.applied {
        return Some(AppliedBackwards);
      }
      if quantity > record.filled {
        return Some(AppliedAboveConfirmed);
      }
      orders := orders[k := record.(applied := quantity)];
      e := None;
    }

    method ListUnresolved() returns (open: seq<OrderRecord>)
      ensures open == Unresolved(orders)
      ensures forall r :: r in open <==> r in orders && !r.resolved
    {
      open := [];
      for i := 0 to |orders|
        invariant open == Unresolved(orders[..i])
        invariant forall r :: r in open <==> r in orders[..i] && !r.resolved
      {
        assert orders[..i + 1][..i] == orders[..i];
        if !orders[i].resolved {
          open := open + [orders[i]];
        }
      }
      assert orders[..|orders|] == orders;
    }

    /** Confirmed entry fills that local state does not hold yet, resolved or not. */
    method ListEntriesRequiringApplication() returns (open: seq<OrderRecord>)
      ensures open == RequiringApplication(orders)
      ensures forall r :: r in open <==> r in orders && r.action == Entry && r.filled > r.applied
    {
      open := [];
      for i := 0 to |orders|
        invariant open == RequiringApplication(orders[..i])
        invariant forall r :: r in open <==> r in orders[..i] && r.action == Entry && r.filled > r.applied
      {
        assert orders[..i + 1][..i] == orders[..i];
        if orders[i].action == Entry && orders[i].filled > orders[i].applied {
          open := open + [orders[i]];
        }
      }
      assert orders[..|orders|] == orders;
    }
  }
}
