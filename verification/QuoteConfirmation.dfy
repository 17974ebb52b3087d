/** Full-path confirmation from a frozen batch (matmon_quote_confirmation.py). */
module QuoteConfirmation {
  import opened Wrappers
  import opened Freeze

  datatype Direction = BUY | SELL | OtherDirection

  datatype Row = Row(receivedAt: real, bid: real, ask: real)

  datatype Verdict = InvalidDirection | InsufficientTicks | NotClean | Confirmed

  datatype QuoteEvidence = QuoteEvidence(verdict: Verdict, ticks: seq<Tick>)

  function RowOf(t: Tick): Row {
    Row(Received(t), Best(t.bids), Best(t.asks))
  }

  function Rows(ticks: seq<Tick>): (r: seq<Row>)
    ensures |r| == |ticks|
  {
    seq(|ticks|, i requires 0 <= i < |ticks| => RowOf(ticks[i]))
  }

  /** Neither price falls from one row to the next. */
  predicate NeverFalls(rows: seq<Row>) {
    forall i :: 0 < i < |rows| ==> rows[i].bid >= rows[i - 1].bid && rows[i].ask >= rows[i - 1].ask
  }

  predicate NeverRises(rows: seq<Row>) {
    forall i :: 0 < i < |rows| ==> rows[i].bid <= rows[i - 1].bid && rows[i].ask <= rows[i - 1].ask
  }

  predicate FullPathClean(rows: seq<Row>, d: Direction) {
    && |rows| >= 2
    && var first, last := rows[0], rows[|rows| - 1];
       match d
       case BUY => last.bid > first.bid && last.ask > first.ask && NeverFalls(rows)
       case SELL => last.bid < first.bid && last.ask < first.ask && NeverRises(rows)
       case OtherDirection => false
  }

  function ValidTicks(ticks: seq<Tick>): seq<Tick> {
    if ticks == [] then []
    else
      var n := |ticks| - 1;
      ValidTicks(ticks[..n]) + if ValidDepth(ticks[n]) then [ticks[n]] else []
  }

  /** The evidence for one direction: the first three valid ticks, judged end to end. */
  function EvidenceOf(ticks: seq<Tick>, d: Direction): QuoteEvidence {
    var valid := SortTicks(ValidTicks(ticks));
    if d == OtherDirection then QuoteEvidence(InvalidDirection, [])
    else if |valid| < 3 then QuoteEvidence(InsufficientTicks, [])
    else QuoteEvidence(if FullPathClean(Rows(valid[..3]), d) then Confirmed else NotClean, valid[..3])
  }

  /** `_evaluate_from_frozen`. */
  method EvaluateFromFrozen(ticks: seq<Tick>, d: Direction) returns (r: QuoteEvidence)
    ensures r == EvidenceOf(ticks, d)
  {
    if d == OtherDirection {
      return QuoteEvidence(InvalidDirection, []);
    }
    var valid: seq<Tick> := [];
    for i := 0 to |ticks|
      invariant valid == ValidTicks(ticks[..i])
    {
      assert ticks[..i + 1][..i] == ticks[..i];
      if ValidDepth(ticks[i]) {
        valid := valid + [ticks[i]];
      }
    }
    assert ticks[..|ticks|] == ticks;
    valid := SortTicks(valid);
    if |valid| < 3 {
      return QuoteEvidence(InsufficientTicks, []);
    }
    var window := valid[..3];
    var confirmed := FullPathClean(Rows(window), d);
    r := QuoteEvidence(if confirmed then Confirmed else NotClean, window);
  }

  // --------------------------------------------------------------- what it means

  lemma {:induction false} AllValidStay(ticks: seq<Tick>)
    requires forall i :: 0 <= i < |ticks| ==> ValidDepth(ticks[i])
    ensures ValidTicks(ticks) == ticks
    decreases |ticks|
  {
    hide ValidDepth;
    if ticks != [] {
      var n := |ticks| - 1;
      AllValidStay(ticks[..n]);
      assert ticks == ticks[..n] + [ticks[n]];
    }
  }

  lemma {:induction false} InOrderStay(ticks: seq<Tick>)
    requires InOrder(ticks)
    ensures SortTicks(ticks) == ticks
    decreases |ticks|
  {
    if ticks != [] {
      var n := |ticks| - 1;
      InOrderStay(ticks[..n]);
      assert ticks == ticks[..n] + [ticks[n]];
    }
  }

  /** A batch that the freezing protocol returned is judged as it stands. */
  lemma BatchIsJudged(seen: set<Tick>, symbol: string, t0: real, window: real, batch: seq<Tick>, d: Direction)
    requires Batch(seen, symbol, t0, window, batch) && d != OtherDirection
    ensures EvidenceOf(batch, d) == QuoteEvidence(if FullPathClean(Rows(batch), d) then Confirmed else NotClean, batch)
  {
    hide FullPathClean, ValidDepth, Within, Rows;
    BatchIsValid(seen, symbol, t0, window, batch);
    AllValidStay(batch);
    InOrderStay(batch);
    assert batch[..3] == batch;
  }

  lemma BatchIsValid(seen: set<Tick>, symbol: string, t0: real, window: real, batch: seq<Tick>)
    requires Batch(seen, symbol, t0, window, batch)
    ensures forall i :: 0 <= i < |batch| ==> ValidDepth(batch[i])
  {
    assert forall i :: 0 <= i < |batch| ==> batch[i] in batch;
  }

  predicate Rising(b: seq<Tick>)
    requires |b| == 3
  {
    && Best(b[0].bids) <= Best(b[1].bids) <= Best(b[2].bids) && Best(b[0].bids) < Best(b[2].bids)
    && Best(b[0].asks) <= Best(b[1].asks) <= Best(b[2].asks) && Best(b[0].asks) < Best(b[2].asks)
  }

  predicate Falling(b: seq<Tick>)
    requires |b| == 3
  {
    && Best(b[0].bids) >= Best(b[1].bids) >= Best(b[2].bids) && Best(b[0].bids) > Best(b[2].bids)
    && Best(b[0].asks) >= Best(b[1].asks) >= Best(b[2].asks) && Best(b[0].asks) > Best(b[2].asks)
  }

  lemma CleanIsMonotone(b: seq<Tick>)
    requires |b| == 3
    ensures FullPathClean(Rows(b), BUY) <==> Rising(b)
    ensures FullPathClean(Rows(b), SELL) <==> Falling(b)
  {
    var r := Rows(b);
    assert r[0] == RowOf(b[0]) && r[1] == RowOf(b[1]) && r[2] == RowOf(b[2]);
    hide Best;
  }

  /**
   A returned batch confirms BUY if and only if neither best price ever falls across it
   and both end strictly higher, and SELL in the mirror image; so never both.
   */
  lemma BatchVerdict(seen: set<Tick>, symbol: string, t0: real, window: real, batch: seq<Tick>)
    requires Batch(seen, symbol, t0, window, batch)
    ensures EvidenceOf(batch, BUY).ticks == batch && EvidenceOf(batch, SELL).ticks == batch
    ensures EvidenceOf(batch, BUY).verdict == Confirmed <==> Rising(batch)
    ensures EvidenceOf(batch, SELL).verdict == Confirmed <==> Falling(batch)
    ensures EvidenceOf(batch, BUY).verdict == Confirmed ==> EvidenceOf(batch, SELL).verdict == NotClean
  {
    hide EvidenceOf, FullPathClean, Rows, Evidence;
    BatchIsJudged(seen, symbol, t0, window, batch, BUY);
    BatchIsJudged(seen, symbol, t0, window, batch, SELL);
    CleanIsMonotone(batch);
  }

  /** From T0 to the verdict: what any consumer receives, in any interleaving, and what a BUY then means. */
  lemma ConfirmedBuyIsFreshAndRising(window: real, es: seq<Event>, c: nat)
    requires Run(EMPTY.(window := window), es).Some?
    requires var v := Run(EMPTY.(window := window), es).value;
             && c < |v.consumers| && v.consumers[c].phase.Returned? && v.consumers[c].phase.result.Some?
             && EvidenceOf(v.consumers[c].phase.result.value, BUY).verdict == Confirmed
    ensures var v := Run(EMPTY.(window := window), es).value; var k := v.consumers[c]; var b := k.phase.result.value;
            && |b| == 3 && (forall t :: t in b ==> Usable(t, k.symbol, k.t0, k.t0 + window) && t in v.seen)
            && Rising(b) && EvidenceOf(b, SELL).verdict == NotClean
  {
    hide EvidenceOf, Run, Usable, Rising;
    FrozenEvidenceIsFresh(window, es, c);
    var v := Run(EMPTY.(window := window), es).value;
    var k := v.consumers[c];
    BatchVerdict(v.seen, k.symbol, k.t0, window, k.phase.result.value);
  }
}
