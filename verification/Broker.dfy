/**
 The broker's side of an order, and what one poll of its history shows.

 An order fills in whole shares up to its quantity. COMPLETE, CANCELLED and REJECTED
 are final, a rejected order carries no fill, and a stop leaves TRIGGER PENDING
 before it fills. A poll may also fail, return nothing, or return a record that does
 not parse.
 */
module Broker {
  import opened Wrappers

  datatype Status = TriggerPending | Open | Complete | Cancelled | Rejected

  /** Which durable operation an order was submitted for. */
  datatype Origin = EntryOrder(op: nat) | StopOrder(gen: nat) | ExitOrder(op: nat)

  datatype Order = Order(origin: Origin, qty: nat, filled: nat, status: Status)

  predicate Terminal(s: Status) {
    s == Complete || s == Cancelled || s == Rejected
  }

  predicate Live(o: Order) {
    !Terminal(o.status)
  }

  predicate OrderInv(o: Order) {
    && o.filled <= o.qty
    && (o.status == TriggerPending || o.status == Rejected ==> o.filled == 0)
    && (o.status == Complete ==> o.filled > 0)
  }

  /** `o` may have become `p` at the broker. */
  predicate Advances(o: Order, p: Order) {
    && p.origin == o.origin && p.qty == o.qty && o.filled <= p.filled
    && (Terminal(o.status) ==> p == o)
    && (o.status != TriggerPending ==> p.status != TriggerPending)
  }

  // ------------------------------------------------------- polling the history

  datatype Raw = Raw(status: Status, filled: int, pending: int, cancelled: int, average: Option<real>)

  datatype Reply = ApiError | NoRecords | Malformed | LastRecord(raw: Raw)

  /** One turn of a polling loop: the reply, and the time elapsed when it was checked. */
  datatype Poll = Poll(reply: Reply, elapsed: real)

  /** The last well-formed record among the polls, if any. */
  function LastRead(polls: seq<Poll>): (r: Option<Raw>)
    decreases |polls|
  {
    if polls == [] then None
    else
      var last := polls[|polls| - 1].reply;
      if last.LastRecord? then Some(last.raw) else LastRead(polls[..|polls| - 1])
  }

  /** Replies that raised or did not parse; an empty history counts as neither. */
  function Failures(polls: seq<Poll>): nat
    decreases |polls|
  {
    if polls == [] then 0
    else
      var last := polls[|polls| - 1].reply;
      Failures(polls[..|polls| - 1]) + if last.ApiError? || last.Malformed? then 1 else 0
  }

  lemma NothingPolled(polls: seq<Poll>)
    ensures LastRead(polls[..0]) == None && Failures(polls[..0]) == 0
  {
  }

  /** What one more poll adds to the last readable record and to the failure count. */
  lemma OneMorePoll(polls: seq<Poll>, k: nat)
    requires k < |polls|
    ensures LastRead(polls[..k + 1])
            == if polls[k].reply.LastRecord? then Some(polls[k].reply.raw) else LastRead(polls[..k])
    ensures Failures(polls[..k + 1])
            == Failures(polls[..k]) + if polls[k].reply.ApiError? || polls[k].reply.Malformed? then 1 else 0
  {
    assert polls[..k + 1][..k] == polls[..k];
  }

  /** The clock reaches the deadline at the last of these polls. */
  predicate ReachesDeadline(polls: seq<Poll>, maxWait: real) {
    polls != [] && polls[|polls| - 1].elapsed >= maxWait
  }

  /** The order as it stood at each poll; every readable reply shows that state. */
  ghost predicate Observes(polls: seq<Poll>, states: seq<Order>) {
    && |states| == |polls|
    && (forall i :: 0 <= i < |polls| && polls[i].reply.LastRecord? ==>
          && polls[i].reply.raw.status == states[i].status
          && polls[i].reply.raw.filled == states[i].filled)
    && (forall i, j :: 0 <= i <= j < |states| ==> Advances(states[i], states[j]))
  }

  /** Whatever the last readable record says lies in the order's past. */
  lemma {:induction false} LastReadIsPast(polls: seq<Poll>, states: seq<Order>, now: Order)
    requires Observes(polls, states)
    requires forall i :: 0 <= i < |states| ==> Advances(states[i], now)
    ensures var r := LastRead(polls);
            r.Some? ==> && 0 <= r.value.filled <= now.filled
                        && (Terminal(r.value.status) ==> now.status == r.value.status && now.filled == r.value.filled)
    decreases |polls|
  {
    if polls != [] {
      var n := |polls| - 1;
      if polls[n].reply.LastRecord? {
        assert Advances(states[n], now);
      } else {
        LastReadIsPast(polls[..n], states[..n], now);
      }
    }
  }
}
