/** What the polling loops return is what the exit protocol takes: from a history of polls to a step. */
module ExitPolls {
  import opened Wrappers
  import opened Broker
  import V = OrderVerification
  import opened StopVerification
  import opened StopExit
  import opened ExitProtocol

  lemma {:induction false} LastReadIsReadable(polls: seq<Poll>)
    ensures var last := LastRead(ParsedAll(polls)); last.Some? ==> Readable(last.value)
    decreases |polls|
  {
    if polls != [] {
      var n := |polls| - 1;
      LastReadIsReadable(polls[..n]);
      assert ParsedAll(polls)[..n] == ParsedAll(polls[..n]);
    }
  }

  /** A result made from true polls fits the order as it stands now, however far it has moved on. */
  lemma ResultFits(r: StopResult, polls: seq<Poll>, states: seq<Order>, requested: int, now: Order)
    requires polls != [] && Reports(r, polls, requested) && requested >= 0
    requires Observes(polls, states) && forall i :: 0 <= i < |states| ==> Advances(states[i], now)
    ensures Fits(r, requested, now)
  {
    assert ParsedAll(polls)[..|polls|] == ParsedAll(polls);
    StopResultIsSound(polls, |polls|, states, now);
    LastReadIsReadable(polls);
    TerminalIsCurrent(polls, states, now);
    hide LastRead, Observes, Advances, Failures;
  }

  lemma TerminalIsCurrent(polls: seq<Poll>, states: seq<Order>, now: Order)
    requires Observes(polls, states) && forall i :: 0 <= i < |states| ==> Advances(states[i], now)
    ensures var last := LastRead(ParsedAll(polls));
            last.Some? && Terminal(last.value.status) ==>
              now.status == last.value.status && now.filled == last.value.filled
  {
    assert Observes(ParsedAll(polls), states);
    LastReadIsPast(ParsedAll(polls), states, now);
  }

  /** It goes on fitting while the broker moves, so it may be written down later. */
  lemma FitsStays(r: StopResult, requested: int, o: Order, p: Order)
    requires Fits(r, requested, o) && Advances(o, p)
    ensures Fits(r, requested, p)
  {
  }
}
