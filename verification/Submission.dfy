/**
 Submission exclusion over the whole order journal, all symbols together: what a live
 entry or exit at the broker says about the journal (executor.py, pending_order_store.py).

 The broker ID of an order is its position in `book`. `unsent` holds the intents that
 this process has created and not yet sent; a crash forgets them, and nothing that was
 forgotten is ever sent.
 */
module Submission {
  import opened Wrappers
  import opened Broker
  import P = PendingStore
  import V = OrderVerification

  datatype Placed = Placed(op: P.OpId, order: Order)

  datatype World = World(journal: seq<P.OrderRecord>, book: seq<Placed>, unsent: set<P.OpId>)

  datatype Event =
    | BrokerMoves(ix: nat, order: Order)
    | CreateIntent(id: P.OpId, intent: P.OrderIntent)
    | Submit(id: P.OpId, accepted: bool)
    | Attach(id: P.OpId, ix: nat)
    | Verify(id: P.OpId, result: P.Execution)
    | Resolve(id: P.OpId)
    | MarkApplied(id: P.OpId, quantity: int)
    | Crash

  function Origin(r: P.OrderRecord): Broker.Origin {
    if r.action == P.Entry then EntryOrder(r.operationId) else ExitOrder(r.operationId)
  }

  predicate Known(w: World, id: P.OpId) {
    P.Find(w.journal, id) < |w.journal|
  }

  function RecordOf(w: World, id: P.OpId): P.OrderRecord
    requires Known(w, id)
  {
    w.journal[P.Find(w.journal, id)]
  }

  function Write(w: World, id: P.OpId, m: P.Mutation): Option<World> {
    var r := P.Apply(w.journal, id, m);
    if r.Err? then None else Some(w.(journal := r.value))
  }

  ghost function Step(w: World, e: Event): Option<World> {
    match e
    case BrokerMoves(ix, o) =>
      if ix < |w.book| && Advances(w.book[ix].order, o) && OrderInv(o)
      then Some(w.(book := w.book[ix := w.book[ix].(order := o)])) else None
    case CreateIntent(id, intent) =>
      if P.CreateSucceeds(w.journal, id, intent)
      then Some(w.(journal := w.journal + [P.NewRecord(id, intent)], unsent := w.unsent + {id})) else None
    case Submit(id, accepted) =>
      if id !in w.unsent || !Known(w, id) || RecordOf(w, id).requested < 0 then None
      else
        var r := RecordOf(w, id);
        var placed := Placed(id, Order(Origin(r), r.requested, 0, Open));
        Some(w.(unsent := w.unsent - {id}, book := if accepted then w.book + [placed] else w.book))
    case Attach(id, ix) =>
      // The reply, or the one order that carries this operation's client tag.
      if ix < |w.book| && w.book[ix].op == id then Write(w, id, P.Attach(ix)) else None
    case Verify(id, x) =>
      if Known(w, id) && Polled(w, RecordOf(w, id), x) then Write(w, id, P.Verify(x)) else None
    case Resolve(id) =>
      if Known(w, id) && RecordOf(w, id).terminal && RecordOf(w, id).orderId.Some? then Write(w, id, P.MarkResolved)
      else None
    case MarkApplied(id, quantity) => Write(w, id, P.MarkEntryApplied(quantity))
    case Crash => Some(w.(unsent := {}))
  }

  /** The report agrees with the broker: see OrderVerification.ResultIsSound. */
  predicate Polled(w: World, r: P.OrderRecord, x: P.Execution) {
    && r.orderId.Some? && r.orderId.value < |w.book|
    && V.Sound(x.terminal, x.filled, w.book[r.orderId.value].order)
  }

  ghost function Run(w: World, es: seq<Event>): Option<World>
    decreases |es|
  {
    if es == [] then Some(w)
    else
      var next := Step(w, es[0]);
      if next.None? then None else Run(next.value, es[1..])
  }

  // ------------------------------------------------------------------ the invariant

  /** A journal record speaks of at most one order, and is resolved only when that order is over. */
  ghost predicate RecordInv(w: World, r: P.OrderRecord) {
    && (r.orderId.Some? ==> r.orderId.value < |w.book| && w.book[r.orderId.value].op == r.operationId)
    && (r.terminal && r.orderId.Some? ==> Terminal(w.book[r.orderId.value].order.status))
    && (r.orderId.None? ==> !r.terminal)
    && (r.resolved ==> r.orderId.Some? && Terminal(w.book[r.orderId.value].order.status))
  }

  /** The order came from a durable intent, which is still unresolved while the order is live. */
  ghost predicate PlacedInv(w: World, p: Placed) {
    && Known(w, p.op) && p.op !in w.unsent && OrderInv(p.order)
    && p.order.origin == Origin(RecordOf(w, p.op)) && p.order.qty == RecordOf(w, p.op).requested
    && (Live(p.order) ==> !RecordOf(w, p.op).resolved)
  }

  ghost predicate Inv(w: World) {
    && P.StoreInv(w.journal)
    && (forall k :: 0 <= k < |w.journal| ==> RecordInv(w, w.journal[k]))
    && (forall i :: 0 <= i < |w.book| ==> PlacedInv(w, w.book[i]))
    && (forall i, j :: 0 <= i < j < |w.book| ==> w.book[i].op != w.book[j].op)
    && (forall id :: id in w.unsent ==> Known(w, id) && RecordOf(w, id).orderId.None?)
  }

  /** Operation IDs are unique, so a written record is found where it was. */
  lemma {:induction false} FindAt(journal: seq<P.OrderRecord>, k: nat)
    requires k < |journal|
    requires forall i, j :: 0 <= i < j < |journal| ==> journal[i].operationId != journal[j].operationId
    ensures P.Find(journal, journal[k].operationId) == k
  {
  }

  lemma FindAfterWrite(journal: seq<P.OrderRecord>, k: nat, r: P.OrderRecord, id: P.OpId)
    requires k < |journal| && r.operationId == journal[k].operationId
    requires forall i, j :: 0 <= i < j < |journal| ==> journal[i].operationId != journal[j].operationId
    ensures P.Find(journal[k := r], id) == P.Find(journal, id)
  {
    var f := P.Find(journal, id);
    if f < |journal| {
      assert journal[k := r][f].operationId == id;
      FindAt(journal[k := r], f);
    } else if P.Find(journal[k := r], id) < |journal| {
      var g := P.Find(journal[k := r], id);
      FindAt(journal, g);
    }
  }

  lemma FindAfterAppend(journal: seq<P.OrderRecord>, r: P.OrderRecord, id: P.OpId)
    requires P.Find(journal, r.operationId) == |journal|
    ensures P.Find(journal + [r], id) == if id == r.operationId then |journal| else
              if P.Find(journal, id) == |journal| then |journal| + 1 else P.Find(journal, id)
  {
    assert forall j :: 0 <= j < |journal| ==> (journal + [r])[j] == journal[j];
    assert (journal + [r])[|journal|] == r;
    assert P.Find(journal, id) < |journal| ==> (journal + [r])[P.Find(journal, id)].operationId == id;
  }

  /** The written record still says no more than the broker does. */
  lemma WrittenRecord(w: World, r: P.OrderRecord, m: P.Mutation)
    requires P.RecordInv(r) && RecordInv(w, r) && P.Mutate(r, m).Ok?
    requires m.Attach? ==> m.orderId < |w.book| && w.book[m.orderId].op == r.operationId
    requires m.Attach? ==> r.orderId.Some? || !r.terminal
    requires m.Verify? ==> Polled(w, r, m.result)
    requires m.MarkResolved? ==> r.terminal && r.orderId.Some?
    ensures RecordInv(w, P.Mutate(r, m).value)
  {
  }

  /** A journal write that keeps the record's own invariant keeps everything. */
  lemma WriteFrame(w: World, k: nat, r: P.OrderRecord)
    requires Inv(w) && k < |w.journal| && P.Evolves(w.journal[k], r) && P.StoreInv(w.journal[k := r]) && RecordInv(w, r)
    requires r.orderId == w.journal[k].orderId || w.journal[k].operationId !in w.unsent
    ensures Inv(w.(journal := w.journal[k := r]))
  {
    hide P.RecordInv;
    var v := w.(journal := w.journal[k := r]);
    forall j ensures P.Find(v.journal, j) == P.Find(w.journal, j) {
      FindAfterWrite(w.journal, k, r, j);
    }
    forall i | 0 <= i < |w.book| ensures PlacedInv(v, w.book[i]) {
      PlacedAfterWrite(w, k, r, i);
    }
  }

  /** An order's own record may be written: the order is over if it becomes resolved. */
  lemma PlacedAfterWrite(w: World, k: nat, r: P.OrderRecord, i: nat)
    requires Inv(w) && k < |w.journal| && P.Evolves(w.journal[k], r) && RecordInv(w, r) && i < |w.book|
    requires forall j :: P.Find(w.journal[k := r], j) == P.Find(w.journal, j)
    ensures PlacedInv(w.(journal := w.journal[k := r]), w.book[i])
  {
    hide P.RecordInv, P.Find, P.StoreInv;
    assert PlacedInv(w, w.book[i]);
    var f := P.Find(w.journal, w.book[i].op);
    assert RecordInv(w, w.journal[f]);
    if f == k && r.resolved {
      assert w.book[r.orderId.value].op == r.operationId == w.book[i].op;
    }
  }

  lemma WriteKeepsInv(w: World, id: P.OpId, m: P.Mutation)
    requires Inv(w) && Write(w, id, m).Some?
    requires m.Attach? ==> m.orderId < |w.book| && w.book[m.orderId].op == id
    requires m.Verify? ==> Polled(w, RecordOf(w, id), m.result)
    requires m.MarkResolved? ==> RecordOf(w, id).terminal && RecordOf(w, id).orderId.Some?
    ensures Inv(Write(w, id, m).value)
  {
    hide P.RecordInv, P.Evolves, Polled;
    var k := P.Find(w.journal, id);
    P.RequestKeepsStore(w.journal, P.StoreOp.Change(id, m));
    P.MutateKeepsRecord(w.journal[k], m);
    assert RecordInv(w, w.journal[k]);
    WrittenRecord(w, w.journal[k], m);
    WriteFrame(w, k, P.Mutate(w.journal[k], m).value);
  }

  lemma CreateKeepsInv(w: World, id: P.OpId, intent: P.OrderIntent)
    requires Inv(w) && P.CreateSucceeds(w.journal, id, intent)
    ensures Inv(Step(w, CreateIntent(id, intent)).value)
  {
    hide P.RecordInv, P.StoreInv, P.HasUnresolvedOrder, P.IntentError;
    var r := P.NewRecord(id, intent);
    var v := Step(w, CreateIntent(id, intent)).value;
    P.CreateKeepsStore(w.journal, id, intent);
    forall k | 0 <= k < |v.journal| ensures RecordInv(v, v.journal[k]) {
      assert k < |w.journal| ==> RecordInv(w, w.journal[k]);
    }
    forall i | 0 <= i < |w.book| ensures PlacedInv(v, w.book[i]) {
      assert PlacedInv(w, w.book[i]);
      FindAfterAppend(w.journal, r, w.book[i].op);
    }
    forall j | j in v.unsent ensures Known(v, j) && RecordOf(v, j).orderId.None? {
      FindAfterAppend(w.journal, r, j);
    }
  }

  lemma SubmitKeepsInv(w: World, id: P.OpId, accepted: bool)
    requires Inv(w) && Step(w, Submit(id, accepted)).Some?
    ensures Inv(Step(w, Submit(id, accepted)).value)
  {
    var v := Step(w, Submit(id, accepted)).value;
    assert P.RecordInv(RecordOf(w, id)) && RecordInv(w, RecordOf(w, id));
    forall i | 0 <= i < |w.book| ensures w.book[i].op != id && PlacedInv(v, w.book[i]) {
      assert PlacedInv(w, w.book[i]);
    }
    forall k | 0 <= k < |w.journal| ensures RecordInv(v, w.journal[k]) {
      assert RecordInv(w, w.journal[k]);
    }
  }

  lemma BrokerKeepsInv(w: World, ix: nat, o: Order)
    requires Inv(w) && Step(w, BrokerMoves(ix, o)).Some?
    ensures Inv(Step(w, BrokerMoves(ix, o)).value)
  {
    var v := Step(w, BrokerMoves(ix, o)).value;
    assert PlacedInv(w, w.book[ix]);
    forall k | 0 <= k < |w.journal| ensures RecordInv(v, w.journal[k]) {
      assert RecordInv(w, w.journal[k]);
    }
  }

  lemma StepKeepsInv(w: World, e: Event)
    requires Inv(w) && Step(w, e).Some?
    ensures Inv(Step(w, e).value)
  {
    hide P.StoreInv, Polled;
    match e
    case BrokerMoves(ix, o) => BrokerKeepsInv(w, ix, o);
    case CreateIntent(id, intent) => CreateKeepsInv(w, id, intent);
    case Submit(id, accepted) => SubmitKeepsInv(w, id, accepted);
    case Attach(id, ix) => WriteKeepsInv(w, id, P.Attach(ix));
    case Verify(id, x) => WriteKeepsInv(w, id, P.Verify(x));
    case Resolve(id) => WriteKeepsInv(w, id, P.MarkResolved);
    case MarkApplied(id, quantity) => WriteKeepsInv(w, id, P.MarkEntryApplied(quantity));
    case Crash =>
      forall i | 0 <= i < |w.book| ensures PlacedInv(w.(unsent := {}), w.book[i]) {
        assert PlacedInv(w, w.book[i]);
      }
  }

  lemma {:induction false} RunKeepsInv(w: World, es: seq<Event>)
    requires Inv(w) && Run(w, es).Some?
    ensures Inv(Run(w, es).value)
    decreases |es|
  {
    hide Inv, Step;
    if es != [] {
      StepKeepsInv(w, es[0]);
      RunKeepsInv(Step(w, es[0]).value, es[1..]);
    }
  }

  // --------------------------------------------------------------------- the results

  /**
   In every run, with crashes anywhere, each order that is live at the broker belongs
   to exactly one durable intent, and that intent is unresolved.
   */
  lemma LiveOrderIsUnresolved(es: seq<Event>, i: nat)
    requires Run(World([], [], {}), es).Some?
    requires i < |Run(World([], [], {}), es).value.book|
    ensures var v := Run(World([], [], {}), es).value;
            && Known(v, v.book[i].op)
            && (forall j :: 0 <= j < |v.book| && v.book[j].op == v.book[i].op ==> j == i)
            && (Live(v.book[i].order) ==> !RecordOf(v, v.book[i].op).resolved)
  {
    RunKeepsInv(World([], [], {}), es);
    var v := Run(World([], [], {}), es).value;
    assert PlacedInv(v, v.book[i]);
  }

  /**
   Two live orders of one symbol and exchange are the same order, unless one is an
   ENTRY and the other an exit: each symbol has at most one live ENTRY and at most one
   live order among EXIT and FORCE_EXIT.
   */
  lemma OneLiveOrderPerFamily(es: seq<Event>, i: nat, j: nat)
    requires Run(World([], [], {}), es).Some?
    requires var v := Run(World([], [], {}), es).value;
             && i < |v.book| && j < |v.book| && Live(v.book[i].order) && Live(v.book[j].order)
             && Known(v, v.book[i].op) && Known(v, v.book[j].op)
             && P.Compete(RecordOf(v, v.book[i].op), RecordOf(v, v.book[j].op))
    ensures i == j
  {
    LiveOrderIsUnresolved(es, i);
    LiveOrderIsUnresolved(es, j);
    RunKeepsInv(World([], [], {}), es);
  }
}
