/** The pure parts of exit clearance (protective_stop_exit.py). */
module StopExit {
  import opened Wrappers
  import S = StopStore
  import P = PendingStore
  import opened StopVerification

  type OpId = S.OpId

  /**
   The fields of a local position that the exit protocol reads or writes. The pair
   (exitOp, exitFilled) is the cursor of normal exits: how much of that operation's
   cumulative fill is already in `qty`. FORCE_EXIT keeps its own cursor.
   */
  datatype Position = Position(
    exchange: string,
    direction: S.Side,
    qty: int,
    stopOp: Option<OpId>,
    exitOp: Option<OpId>,
    exitFilled: int,
    exitAverage: Option<real>,
    exitIsScalp: bool,
    forceOp: Option<OpId>,
    forceFilled: int,
    forceAverage: Option<real>)

  datatype IdentityError =
    | NoOperation | RecordMissing | OperationMismatch | SymbolMismatch | ExchangeMismatch
    | DirectionMismatch | OrderUnresolved | QuantitiesInvalid | QuantityMismatch

  function ValidateIdentity(symbol: string, p: Position, record: Option<S.StopRecord>): Option<IdentityError> {
    if p.stopOp.None? then Some(NoOperation)
    else if record.None? then Some(RecordMissing)
    else
      var r := record.value;
      if Some(r.operationId) != p.stopOp then Some(OperationMismatch)
      else if r.symbol != symbol then Some(SymbolMismatch)
      else if r.exchange != p.exchange then Some(ExchangeMismatch)
      else if r.direction != p.direction then Some(DirectionMismatch)
      else if r.orderId.None? then Some(OrderUnresolved)
      else if r.requested <= 0 || r.applied < 0 || p.qty <= 0 then Some(QuantitiesInvalid)
      else if p.qty + r.applied != r.requested then Some(QuantityMismatch)
      else None
  }

  datatype Clearance = Clearance(
    safe: bool, symbol: string, exchange: string, quantity: int, action: P.Action, stopState: StopState)

  predicate ClearanceState(s: StopState) {
    s == CANCELLED || s == REJECTED || s == TRIGGERED || s == PARTIALLY_TRIGGERED
  }

  /** Live clearances only: the paper branch is not part of this model. */
  predicate ValidExitClearance(c: Option<Clearance>, symbol: string, exchange: string, quantity: int,
                               action: P.Action) {
    && c.Some? && c.value.safe
    && c.value.symbol == symbol && c.value.exchange == exchange
    && c.value.quantity == quantity && c.value.action == action
    && ClearanceState(c.value.stopState)
  }

  /** What one exit asks for: all of the position, or a part of it. */
  datatype Wanted = Wanted(action: P.Action, quantity: int, full: bool, scalp: bool)

  datatype Decision = Blocked(reason: string) | Decided(newly: int, remaining: int, clearance: int)

  /** The arithmetic of `coordinate_protective_stop_for_exit` once the stop is terminal. */
  function Decide(total: int, applied: int, positionQty: int, exitQty: int): Decision {
    var newly := total - applied;
    var remaining := positionQty - newly;
    if newly < 0 || newly > positionQty then Blocked("STOP_FILL_QUANTITY_MISMATCH")
    else if exitQty < positionQty && newly != 0 then Blocked("PARTIAL_EXIT_STOP_FILL_CONFLICT")
    else
      var clear := if exitQty == positionQty then remaining else exitQty;
      if clear > remaining then Blocked("EXIT_CLEARANCE_QUANTITY_MISMATCH")
      else Decided(newly, remaining, if remaining > 0 then clear else 0)
  }

  // ------------------------------------------------------------- exit cursors

  function CursorOp(p: Position, a: P.Action): Option<OpId> {
    if a == P.ForceExit then p.forceOp else p.exitOp
  }

  function CursorFilled(p: Position, a: P.Action): int {
    if a == P.ForceExit then p.forceFilled else p.exitFilled
  }

  function CursorAverage(p: Position, a: P.Action): Option<real> {
    if a == P.ForceExit then p.forceAverage else p.exitAverage
  }

  /** The metadata write that names the operation but leaves the cursor where it was. */
  function NameExit(p: Position, a: P.Action, op: OpId): Position {
    if a == P.ForceExit then p.(forceOp := Some(op)) else p.(exitOp := Some(op))
  }

  function MoveCursor(p: Position, a: P.Action, filled: int, average: Option<real>): Position {
    if a == P.ForceExit then p.(forceFilled := filled, forceAverage := average)
    else p.(exitFilled := filled, exitAverage := average)
  }
}
