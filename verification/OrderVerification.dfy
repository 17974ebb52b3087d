/** The polling verifier of entry and exit orders (order_verification.py). */
module OrderVerification {
  import opened Wrappers
  import opened Broker

  datatype NormStatus = COMPLETE | REJECTED | CANCELLED | PARTIALLY_FILLED | TIMEOUT | UNKNOWN

  datatype ExecutionResult = ExecutionResult(
    status: NormStatus, filled: int, pending: int, cancelled: int, average: Option<real>,
    terminal: bool, attempts: nat, apiErrors: nat)

  predicate Settled(last: Option<Raw>) {
    last.Some? && Terminal(last.value.status)
  }

  function BuildResult(last: Option<Raw>, expected: int, status: NormStatus, terminal: bool,
                       attempts: nat, apiErrors: nat): ExecutionResult {
    match last
    case None => ExecutionResult(status, 0, expected, 0, None, terminal, attempts, apiErrors)
    case Some(raw) =>
      ExecutionResult(status, raw.filled, raw.pending, raw.cancelled,
                      if raw.filled > 0 then raw.average else None, terminal, attempts, apiErrors)
  }

  /** After k polls no terminal record has been read, and time is left. */
  predicate Undecided(polls: seq<Poll>, k: nat, maxWait: real)
    requires 0 < k <= |polls|
  {
    !Settled(LastRead(polls[..k])) && polls[k - 1].elapsed < maxWait
  }

  /**
   Polls until the last well-formed record is terminal at the broker, or the deadline
   has passed. The result is terminal exactly in the first case, and then it carries
   that record's fill; a cancelled or complete order with part of the quantity filled
   is never reported as a full fill or as none.
   */
  method VerifyOrderExecution(polls: seq<Poll>, expected: int, maxWait: real) returns (r: ExecutionResult)
    requires ReachesDeadline(polls, maxWait)
    ensures 1 <= r.attempts <= |polls|
    ensures r.apiErrors == Failures(polls[..r.attempts])
    ensures forall k :: 0 < k < r.attempts ==> Undecided(polls, k, maxWait)
    ensures var last := LastRead(polls[..r.attempts]);
            && r.terminal == Settled(last)
            && (last.None? ==> r.status == UNKNOWN && r.filled == 0 && r.pending == expected)
            && (last.Some? ==> r.filled == last.value.filled && r.pending == last.value.pending
                               && r.cancelled == last.value.cancelled)
            && (last.Some? && !r.terminal ==> r.status == TIMEOUT)
            && (r.terminal ==> match last.value.status
                               case Rejected => r.status == REJECTED
                               case Cancelled => r.status == if r.filled > 0 then PARTIALLY_FILLED else CANCELLED
                               case _ => r.status == if 0 < r.filled < expected then PARTIALLY_FILLED else COMPLETE)
            && (!r.terminal ==> polls[r.attempts - 1].elapsed >= maxWait)
    ensures r.average.Some? ==> r.filled > 0
  {
    hide LastRead, Failures;
    NothingPolled(polls);
    var attempts, apiErrors := 0, 0;
    var lastParsed: Option<Raw> := None;
    while true
      invariant attempts < |polls|
      invariant lastParsed == LastRead(polls[..attempts]) && apiErrors == Failures(polls[..attempts])
      invariant forall k :: 0 < k <= attempts ==> Undecided(polls, k, maxWait)
      decreases |polls| - attempts
    {
      var poll := polls[attempts];
      OneMorePoll(polls, attempts);
      attempts := attempts + 1;
      match poll.reply {
        case ApiError => apiErrors := apiErrors + 1;
        case NoRecords =>
        case Malformed => apiErrors := apiErrors + 1;
        case LastRecord(raw) => lastParsed := Some(raw);
      }
      if lastParsed.Some? {
        var filled := lastParsed.value.filled;
        if lastParsed.value.status == Complete {
          var norm := if 0 < filled < expected then PARTIALLY_FILLED else COMPLETE;
          return BuildResult(lastParsed, expected, norm, true, attempts, apiErrors);
        }
        if lastParsed.value.status == Rejected {
          return BuildResult(lastParsed, expected, REJECTED, true, attempts, apiErrors);
        }
        if lastParsed.value.status == Cancelled {
          var norm := if filled > 0 then PARTIALLY_FILLED else CANCELLED;
          return BuildResult(lastParsed, expected, norm, true, attempts, apiErrors);
        }
      }
      if poll.elapsed >= maxWait {
        var final := if lastParsed.Some? then TIMEOUT else UNKNOWN;
        return BuildResult(lastParsed, expected, final, false, attempts, apiErrors);
      }
    }
  }

  /** What a caller may rely on about the order `now` once a result is in hand. */
  predicate Sound(terminal: bool, filled: int, now: Order) {
    && 0 <= filled <= now.filled
    && (terminal ==> Terminal(now.status) && filled == now.filled)
  }

  /**
   Against a broker whose fills only grow and whose terminal states are final, a
   terminal result is exact for ever and a non-terminal one never overstates the fill.
   */
  lemma ResultIsSound(polls: seq<Poll>, attempts: nat, states: seq<Order>, now: Order)
    requires 1 <= attempts <= |polls| == |states| && Observes(polls, states)
    requires forall i :: 0 <= i < |states| ==> Advances(states[i], now)
    ensures var last := LastRead(polls[..attempts]);
            Sound(Settled(last), if last.Some? then last.value.filled else 0, now)
  {
    LastReadIsPast(polls[..attempts], states[..attempts], now);
  }
}
