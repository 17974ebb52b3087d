/** The polling verifier of protective stops (protective_stop.py). */
module StopVerification {
  import opened Wrappers
  import opened Broker
  import V = OrderVerification

  datatype StopState = ACTIVE | TRIGGERED | PARTIALLY_TRIGGERED | CANCELLED | REJECTED | TIMEOUT | UNKNOWN

  datatype StopResult = StopResult(
    state: StopState, filled: int, pending: int, cancelled: int, average: Option<real>,
    active: bool, terminal: bool, attempts: nat, apiErrors: nat)

  /** A record with a negative quantity is unreadable here. */
  predicate Readable(raw: Raw) {
    raw.filled >= 0 && raw.pending >= 0 && raw.cancelled >= 0
  }

  function Parsed(poll: Poll): Poll {
    match poll.reply
    case LastRecord(raw) => if Readable(raw) then poll else poll.(reply := Malformed)
    case _ => poll
  }

  function ParsedAll(polls: seq<Poll>): (r: seq<Poll>)
    ensures |r| == |polls| && forall i :: 0 <= i < |polls| ==> r[i] == Parsed(polls[i])
  {
    seq(|polls|, i requires 0 <= i < |polls| => Parsed(polls[i]))
  }

  predicate Armed(last: Option<Raw>) {
    last.Some? && last.value.status == TriggerPending && last.value.filled == 0
  }

  function TerminalState(raw: Raw, expected: int): StopState
    requires Terminal(raw.status)
  {
    match raw.status
    case Rejected => REJECTED
    case Cancelled => if raw.filled > 0 then PARTIALLY_TRIGGERED else CANCELLED
    case _ => if raw.filled >= expected then TRIGGERED else PARTIALLY_TRIGGERED
  }

  function BuildResult(last: Option<Raw>, expected: int, state: StopState, active: bool, terminal: bool,
                       attempts: nat, apiErrors: nat): StopResult {
    match last
    case None => StopResult(state, 0, expected, 0, None, active, terminal, attempts, apiErrors)
    case Some(raw) =>
      StopResult(state, raw.filled, raw.pending, raw.cancelled,
                 if raw.filled > 0 then raw.average else None, active, terminal, attempts, apiErrors)
  }

  /** After k polls the stop is known neither as armed nor as terminal, and time is left. */
  predicate Undecided(history: seq<Poll>, k: nat, maxWait: real)
    requires 0 < k <= |history|
  {
    var last := LastRead(ParsedAll(history)[..k]);
    !Armed(last) && !V.Settled(last) && history[k - 1].elapsed < maxWait
  }

  /** What a result says about the polls it was made from. */
  ghost predicate Reports(r: StopResult, polled: seq<Poll>, expected: int) {
    var polls := ParsedAll(polled);
    var last := LastRead(polls);
    && r.apiErrors == Failures(polls)
    && (r.active <==> r.state == ACTIVE) && (r.active <==> Armed(last))
    && (r.terminal <==> V.Settled(last))
    && (r.terminal ==> r.state == TerminalState(last.value, expected))
    && (!r.active && !r.terminal ==> r.state == if last.Some? then TIMEOUT else UNKNOWN)
    && (last.None? ==> r.filled == 0 && r.pending == expected && r.cancelled == 0 && r.average.None?)
    && (last.Some? ==> && r.filled == last.value.filled && r.pending == last.value.pending
                       && r.cancelled == last.value.cancelled
                       && r.average == if r.filled > 0 then last.value.average else None)
  }

  lemma BuiltReports(polled: seq<Poll>, last: Option<Raw>, expected: int, state: StopState, active: bool,
                     terminal: bool, attempts: nat, errors: nat)
    requires last == LastRead(ParsedAll(polled)) && errors == Failures(ParsedAll(polled))
    requires (active <==> state == ACTIVE) && (active <==> Armed(last)) && (terminal <==> V.Settled(last))
    requires terminal ==> state == TerminalState(last.value, expected)
    requires !active && !terminal ==> state == if last.Some? then TIMEOUT else UNKNOWN
    ensures Reports(BuildResult(last, expected, state, active, terminal, attempts, errors), polled, expected)
    ensures var r := BuildResult(last, expected, state, active, terminal, attempts, errors);
            r.attempts == attempts && r.active == active && r.terminal == terminal
  {
  }

  /**
   Polls until the stop is armed with no fill, or terminal at the broker, or the
   deadline has passed. ACTIVE, a terminal state and TIMEOUT/UNKNOWN exclude one
   another, and each says what the last readable record was.
   */
  method VerifyProtectiveStopActive(history: seq<Poll>, expected: int, maxWait: real) returns (r: StopResult)
    requires ReachesDeadline(history, maxWait)
    ensures 1 <= r.attempts <= |history|
    ensures forall k :: 0 < k < r.attempts ==> Undecided(history, k, maxWait)
    ensures Reports(r, history[..r.attempts], expected)
    ensures !r.active && !r.terminal ==> history[r.attempts - 1].elapsed >= maxWait
  {
    hide LastRead, Failures, Reports, BuildResult;
    ghost var polls := ParsedAll(history);
    assert forall k :: 0 <= k <= |history| ==> ParsedAll(history[..k]) == polls[..k];
    NothingPolled(polls);
    var attempts, errors := 0, 0;
    var latest: Option<Raw> := None;
    while true
      invariant attempts < |history|
      invariant latest == LastRead(polls[..attempts]) && errors == Failures(polls[..attempts])
      invariant forall k :: 0 < k <= attempts ==> Undecided(history, k, maxWait)
      decreases |history| - attempts
    {
      var poll := history[attempts];
      OneMorePoll(polls, attempts);
      attempts := attempts + 1;
      match poll.reply {
        case ApiError => errors := errors + 1;
        case NoRecords =>
        case Malformed => errors := errors + 1;
        case LastRecord(raw) =>
          if Readable(raw) {
            latest := Some(raw);
          } else {
            errors := errors + 1;
          }
      }
      assert latest == LastRead(polls[..attempts]);
      if latest.Some? {
        var status, filled := latest.value.status, latest.value.filled;
        if status == TriggerPending && filled == 0 {
          BuiltReports(history[..attempts], latest, expected, ACTIVE, true, false, attempts, errors);
          return BuildResult(latest, expected, ACTIVE, true, false, attempts, errors);
        }
        if status == Complete {
          var state := if filled >= expected then TRIGGERED else PARTIALLY_TRIGGERED;
          BuiltReports(history[..attempts], latest, expected, state, false, true, attempts, errors);
          return BuildResult(latest, expected, state, false, true, attempts, errors);
        }
        if status == Cancelled {
          var state := if filled > 0 then PARTIALLY_TRIGGERED else CANCELLED;
          BuiltReports(history[..attempts], latest, expected, state, false, true, attempts, errors);
          return BuildResult(latest, expected, state, false, true, attempts, errors);
        }
        if status == Rejected {
          BuiltReports(history[..attempts], latest, expected, REJECTED, false, true, attempts, errors);
          return BuildResult(latest, expected, REJECTED, false, true, attempts, errors);
        }
      }
      if poll.elapsed >= maxWait {
        var state := if latest.Some? then TIMEOUT else UNKNOWN;
        BuiltReports(history[..attempts], latest, expected, state, false, false, attempts, errors);
        return BuildResult(latest, expected, state, false, false, attempts, errors);
      }
      assert Undecided(history, attempts, maxWait);
    }
  }

  /** A terminal stop result is exact for ever; any other one never overstates the fill. */
  lemma StopResultIsSound(history: seq<Poll>, attempts: nat, states: seq<Order>, now: Order)
    requires 1 <= attempts <= |history| == |states| && Observes(history, states)
    requires forall i :: 0 <= i < |states| ==> Advances(states[i], now)
    ensures var last := LastRead(ParsedAll(history)[..attempts]);
            V.Sound(V.Settled(last), if last.Some? then last.value.filled else 0, now)
  {
    assert Observes(ParsedAll(history), states);
    V.ResultIsSound(ParsedAll(history), attempts, states, now);
  }
}
