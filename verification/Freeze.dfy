/**
 Evidence captured at the moment a signal passes (matmon_post_di_freeze.py): one capture
 worker for each signal, a tick producer, consumers, and newer signals, interleaved at
 every shared access.

 An entry's position in `entries` is its identity. `seen` is history: all ticks that
 were ever received.
 */
module Freeze {
  import opened Wrappers

  /** The fields of a tick that decide whether it is evidence; None does not parse as a number. */
  datatype Tick = Tick(symbol: string, receivedAt: Option<real>, bids: seq<Option<real>>, asks: seq<Option<real>>)

  function Received(t: Tick): real {
    if t.receivedAt.Some? then t.receivedAt.value else 0.0
  }

  function Best(prices: seq<Option<real>>): real {
    if prices != [] && prices[0].Some? then prices[0].value else 0.0
  }

  predicate Within(t: Tick, start: real, end: real) {
    t.receivedAt.Some? && start <= t.receivedAt.value <= end
  }

  predicate ValidDepth(t: Tick) {
    && t.receivedAt.Some? && t.bids != [] && t.asks != [] && t.bids[0].Some? && t.asks[0].Some?
    && t.receivedAt.value > 0.0 && t.bids[0].value > 0.0 && t.asks[0].value > 0.0
    && t.asks[0].value >= t.bids[0].value
  }

  predicate Usable(t: Tick, symbol: string, start: real, end: real) {
    t.symbol == symbol && Within(t, start, end) && ValidDepth(t)
  }

  function UsableOf(rows: seq<Tick>, symbol: string, start: real, end: real): (r: seq<Tick>)
    ensures forall t :: t in r <==> t in rows && Usable(t, symbol, start, end)
  {
    if rows == [] then []
    else
      var n := |rows| - 1;
      UsableOf(rows[..n], symbol, start, end) + if Usable(rows[n], symbol, start, end) then [rows[n]] else []
  }

  ghost predicate InOrder(ticks: seq<Tick>) {
    forall i, j :: 0 <= i < j < |ticks| ==> Received(ticks[i]) <= Received(ticks[j])
  }

  function InsertTick(sorted: seq<Tick>, t: Tick): (r: seq<Tick>)
    ensures |r| == |sorted| + 1 && forall x :: x in r <==> x == t || x in sorted
  {
    if sorted == [] || Received(sorted[|sorted| - 1]) <= Received(t) then sorted + [t]
    else InsertTick(sorted[..|sorted| - 1], t) + [sorted[|sorted| - 1]]
  }

  /** A stable sort by arrival. */
  function SortTicks(ticks: seq<Tick>): (r: seq<Tick>)
    ensures |r| == |ticks| && forall x :: x in r <==> x in ticks
  {
    if ticks == [] then [] else InsertTick(SortTicks(ticks[..|ticks| - 1]), ticks[|ticks| - 1])
  }

  lemma {:induction false} InsertInOrder(sorted: seq<Tick>, t: Tick)
    requires InOrder(sorted)
    ensures InOrder(InsertTick(sorted, t))
    decreases |sorted|
  {
    if sorted != [] && Received(sorted[|sorted| - 1]) > Received(t) {
      var n := |sorted| - 1;
      InsertInOrder(sorted[..n], t);
      var r := InsertTick(sorted[..n], t);
      forall i | 0 <= i < |r| ensures Received(r[i]) <= Received(sorted[n]) {
        assert r[i] in r;
      }
    }
  }

  lemma {:induction false} SortInOrder(ticks: seq<Tick>)
    ensures InOrder(SortTicks(ticks))
    decreases |ticks|
  {
    if ticks != [] {
      SortInOrder(ticks[..|ticks| - 1]);
      InsertInOrder(SortTicks(ticks[..|ticks| - 1]), ticks[|ticks| - 1]);
    }
  }

  // ------------------------------------------------------------------ the worker

  datatype Reason = Pending | FirstThree | Insufficient | Failed

  /** What one turn of the worker reads: the rows of the buffer, or an exception, and the time left. */
  datatype Turn = Turn(rows: Option<seq<Tick>>, remaining: real)

  function ValidOf(rows: seq<Tick>, symbol: string, t0: real, window: real): seq<Tick> {
    SortTicks(UsableOf(rows, symbol, t0, t0 + window))
  }

  class FrozenEntry {
    const symbol: string
    const t0: real
    var ready: bool
    var ticks: seq<Tick>
    var reason: Reason

    constructor (symbol: string, t0: real)
      ensures this.symbol == symbol && this.t0 == t0 && !ready && ticks == [] && reason == Pending
    {
      this.symbol, this.t0, ready, ticks, reason := symbol, t0, false, [], Pending;
    }

    /** No earlier turn decided anything. */
    ghost predicate Undecided(turns: seq<Turn>, k: nat, window: real)
      requires k <= |turns|
    {
      forall i :: 0 <= i < k ==> turns[i].rows.Some? && turns[i].remaining > 0.0
                                 && |ValidOf(turns[i].rows.value, symbol, t0, window)| < 3
    }

    /** Polls until three valid ticks are there, the window is over, or a read fails. */
    method CaptureWorker(turns: seq<Turn>, window: real) returns (polls: nat)
      requires turns != [] && turns[|turns| - 1].remaining <= 0.0 && !ready && ticks == []
      modifies this
      ensures ready && 0 < polls <= |turns| && Undecided(turns, polls - 1, window)
      ensures var last := turns[polls - 1];
              match reason
              case Pending => false
              case Failed => last.rows.None? && ticks == []
              case FirstThree => && last.rows.Some? && |ValidOf(last.rows.value, symbol, t0, window)| >= 3
                                 && ticks == ValidOf(last.rows.value, symbol, t0, window)[..3]
              case Insufficient => && last.rows.Some? && last.remaining <= 0.0 && |ticks| < 3
                                   && ticks == ValidOf(last.rows.value, symbol, t0, window)
    {
      polls := 0;
      var frozen: seq<Tick> := [];
      while true
        invariant polls < |turns| && Undecided(turns, polls, window) && ticks == []
        decreases |turns| - polls
      {
        var turn := turns[polls];
        polls := polls + 1;
        if turn.rows.None? {
          reason, ready := Failed, true;
          return;
        }
        var valid := SortTicks(UsableOf(turn.rows.value, symbol, t0, t0 + window));
        if |valid| >= 3 {
          frozen, reason := valid[..3], FirstThree;
          break;
        }
        if turn.remaining <= 0.0 {
          frozen, reason := valid, Insufficient;
          break;
        }
      }
      ticks := frozen;
      ready := true;
    }
  }

  // --------------------------------------------------------------- the interleaving

  datatype Entry = Entry(symbol: string, t0: real, ready: bool, ticks: seq<Tick>, reason: Reason)

  datatype Worker = Polling | Snapshot(valid: seq<Tick>) | Frozen(frozen: seq<Tick>) | Stored | Done

  datatype Phase = Waiting(ix: nat) | Woken(ix: nat) | Removed(ix: nat) | Returned(result: Option<seq<Tick>>)

  datatype Consumer = Consumer(symbol: string, t0: real, phase: Phase)

  datatype World = World(
    window: real, buffer: seq<Tick>, seen: set<Tick>,
    entries: seq<Entry>, workers: seq<Worker>, table: map<string, nat>, consumers: seq<Consumer>)

  datatype Event =
    | Produce(tick: Tick) | Evict(ix: nat)
    | StartCapture(symbol: string, t0: real)
    | Poll(ix: nat) | FreezeThree(ix: nat) | Retry(ix: nat) | TimeUp(ix: nat) | Fail(ix: nat) | Store(ix: nat)
    | SetReady(ix: nat)
    | Ask(symbol: string, t0: real) | Wake(ix: nat) | WaitTimeout(ix: nat) | Remove(ix: nat) | Return(ix: nat)

  predicate WorkerAt(w: World, i: nat) {
    i < |w.entries| && i < |w.workers|
  }

  function WorkerStep(w: World, e: Event): Option<World> {
    match e
    case Poll(i) =>
      if WorkerAt(w, i) && w.workers[i].Polling? then
        var valid := ValidOf(w.buffer, w.entries[i].symbol, w.entries[i].t0, w.window);
        Some(w.(workers := w.workers[i := Snapshot(valid)]))
      else None
    case FreezeThree(i) =>
      if WorkerAt(w, i) && w.workers[i].Snapshot? && |w.workers[i].valid| >= 3 then
        Some(w.(entries := w.entries[i := w.entries[i].(reason := FirstThree)],
                workers := w.workers[i := Frozen(w.workers[i].valid[..3])]))
      else None
    case Retry(i) =>
      if WorkerAt(w, i) && w.workers[i].Snapshot? && |w.workers[i].valid| < 3
      then Some(w.(workers := w.workers[i := Polling])) else None
    case TimeUp(i) =>
      if WorkerAt(w, i) && w.workers[i].Snapshot? && |w.workers[i].valid| < 3 then
        Some(w.(entries := w.entries[i := w.entries[i].(reason := Insufficient)],
                workers := w.workers[i := Frozen(w.workers[i].valid)]))
      else None
    case Fail(i) =>
      if WorkerAt(w, i) && (w.workers[i].Polling? || w.workers[i].Snapshot?) then
        Some(w.(entries := w.entries[i := w.entries[i].(reason := Failed, ready := true)],
                workers := w.workers[i := Done]))
      else None
    case Store(i) =>
      if WorkerAt(w, i) && w.workers[i].Frozen? then
        Some(w.(entries := w.entries[i := w.entries[i].(ticks := w.workers[i].frozen)],
                workers := w.workers[i := Stored]))
      else None
    case SetReady(i) =>
      if WorkerAt(w, i) && w.workers[i].Stored? then
        Some(w.(entries := w.entries[i := w.entries[i].(ready := true)], workers := w.workers[i := Done]))
      else None
    case _ => None
  }

  function WithPhase(w: World, c: nat, ph: Phase): World
    requires c < |w.consumers|
  {
    w.(consumers := w.consumers[c := w.consumers[c].(phase := ph)])
  }

  function ConsumerStep(w: World, e: Event): Option<World> {
    match e
    case Ask(symbol, t0) =>
      // The entry is looked up under the lock; its timestamp must be this signal's own.
      var ph := if symbol in w.table && w.table[symbol] < |w.entries| && w.entries[w.table[symbol]].t0 == t0
                then Waiting(w.table[symbol]) else Returned(None);
      Some(w.(consumers := w.consumers + [Consumer(symbol, t0, ph)]))
    case Wake(c) =>
      if c < |w.consumers| && w.consumers[c].phase.Waiting? && w.consumers[c].phase.ix < |w.entries|
         && w.entries[w.consumers[c].phase.ix].ready
      then Some(WithPhase(w, c, Woken(w.consumers[c].phase.ix))) else None
    case WaitTimeout(c) =>
      if c < |w.consumers| && w.consumers[c].phase.Waiting? then Some(WithPhase(w, c, Returned(None))) else None
    case Remove(c) =>
      if c < |w.consumers| && w.consumers[c].phase.Woken? then
        var symbol, ix := w.consumers[c].symbol, w.consumers[c].phase.ix;
        var table := if symbol in w.table && w.table[symbol] == ix then w.table - {symbol} else w.table;
        Some(WithPhase(w.(table := table), c, Removed(ix)))
      else None
    case Return(c) =>
      if c < |w.consumers| && w.consumers[c].phase.Removed? && w.consumers[c].phase.ix < |w.entries| then
        var entry := w.entries[w.consumers[c].phase.ix];
        Some(WithPhase(w, c, Returned(if entry.reason == FirstThree then Some(entry.ticks) else None)))
      else None
    case _ => None
  }

  function Step(w: World, e: Event): Option<World> {
    match e
    case Produce(t) => Some(w.(buffer := w.buffer + [t], seen := w.seen + {t}))
    case Evict(k) => if k < |w.buffer| then Some(w.(buffer := w.buffer[..k] + w.buffer[k + 1..])) else None
    case StartCapture(symbol, t0) =>
      Some(w.(entries := w.entries + [Entry(symbol, t0, false, [], Pending)], workers := w.workers + [Polling],
              table := w.table[symbol := |w.entries|]))
    case Ask(_, _) => ConsumerStep(w, e)
    case Wake(_) => ConsumerStep(w, e)
    case WaitTimeout(_) => ConsumerStep(w, e)
    case Remove(_) => ConsumerStep(w, e)
    case Return(_) => ConsumerStep(w, e)
    case _ => WorkerStep(w, e)
  }

  function Run(w: World, es: seq<Event>): Option<World>
    decreases |es|
  {
    if es == [] then Some(w)
    else
      var next := Step(w, es[0]);
      if next.None? then None else Run(next.value, es[1..])
  }

  // ------------------------------------------------------------------ the invariant

  /** Valid ticks of the symbol from its own window, all really received, in order of arrival. */
  ghost predicate Evidence(seen: set<Tick>, symbol: string, t0: real, window: real, ticks: seq<Tick>) {
    && InOrder(ticks)
    && forall t :: t in ticks ==> t in seen && Usable(t, symbol, t0, t0 + window)
  }

  ghost predicate Batch(seen: set<Tick>, symbol: string, t0: real, window: real, ticks: seq<Tick>) {
    |ticks| == 3 && Evidence(seen, symbol, t0, window, ticks)
  }

  ghost predicate WorkerInv(w: World, e: Entry, worker: Worker) {
    match worker
    case Polling => !e.ready && e.reason == Pending
    case Snapshot(valid) => !e.ready && e.reason == Pending && Evidence(w.seen, e.symbol, e.t0, w.window, valid)
    case Frozen(frozen) => !e.ready && (e.reason == FirstThree ==> Batch(w.seen, e.symbol, e.t0, w.window, frozen))
    case Stored => !e.ready && (e.reason == FirstThree ==> Batch(w.seen, e.symbol, e.t0, w.window, e.ticks))
    case Done => e.ready && (e.reason == FirstThree ==> Batch(w.seen, e.symbol, e.t0, w.window, e.ticks))
  }

  predicate Captured(w: World, i: nat, c: Consumer, ticks: seq<Tick>) {
    && i < |w.entries| && w.entries[i].symbol == c.symbol && w.entries[i].t0 == c.t0
    && w.entries[i].ready && w.entries[i].reason == FirstThree && w.entries[i].ticks == ticks
  }

  ghost predicate ConsumerInv(w: World, c: Consumer) {
    match c.phase
    case Waiting(i) => i < |w.entries| && w.entries[i].symbol == c.symbol && w.entries[i].t0 == c.t0
    case Woken(i) => i < |w.entries| && w.entries[i].symbol == c.symbol && w.entries[i].t0 == c.t0 && w.entries[i].ready
    case Removed(i) =>
      i < |w.entries| && w.entries[i].symbol == c.symbol && w.entries[i].t0 == c.t0 && w.entries[i].ready
    case Returned(result) => result.Some? ==> exists i: nat :: Captured(w, i, c, result.value)
  }

  ghost predicate Inv(w: World) {
    && |w.workers| == |w.entries|
    && (forall t :: t in w.buffer ==> t in w.seen)
    && (forall i :: 0 <= i < |w.entries| ==> WorkerInv(w, w.entries[i], w.workers[i]))
    && (forall c :: 0 <= c < |w.consumers| ==> ConsumerInv(w, w.consumers[c]))
    && (forall s :: s in w.table ==> w.table[s] < |w.entries| && w.entries[w.table[s]].symbol == s)
  }

  /** Entries only gain: identity stays, and a ready entry never changes again. */
  ghost predicate EntriesGrow(a: seq<Entry>, b: seq<Entry>) {
    && |a| <= |b|
    && (forall i :: 0 <= i < |a| ==> b[i].symbol == a[i].symbol && b[i].t0 == a[i].t0)
    && (forall i :: 0 <= i < |a| && a[i].ready ==> b[i] == a[i])
  }

  lemma ConsumersKept(w: World, v: World, c: Consumer)
    requires ConsumerInv(w, c) && EntriesGrow(w.entries, v.entries)
    ensures ConsumerInv(v, c)
  {
    if c.phase.Returned? && c.phase.result.Some? {
      var i: nat :| Captured(w, i, c, c.phase.result.value);
      assert Captured(v, i, c, c.phase.result.value);
    }
  }

  lemma PolledEvidence(w: World, e: Entry)
    requires forall t :: t in w.buffer ==> t in w.seen
    ensures Evidence(w.seen, e.symbol, e.t0, w.window, ValidOf(w.buffer, e.symbol, e.t0, w.window))
  {
    SortInOrder(UsableOf(w.buffer, e.symbol, e.t0, e.t0 + w.window));
  }

  lemma FirstThreeIsBatch(seen: set<Tick>, symbol: string, t0: real, window: real, valid: seq<Tick>)
    requires Evidence(seen, symbol, t0, window, valid) && |valid| >= 3
    ensures Batch(seen, symbol, t0, window, valid[..3])
  {
  }

  lemma WorkerStepKeepsInv(w: World, e: Event)
    requires Inv(w) && WorkerStep(w, e).Some?
    ensures Inv(WorkerStep(w, e).value) && EntriesGrow(w.entries, WorkerStep(w, e).value.entries)
  {
    hide Evidence, Batch, ConsumerInv, ValidOf;
    var v := WorkerStep(w, e).value;
    var i := e.ix;
    assert WorkerInv(w, w.entries[i], w.workers[i]);
    PolledEvidence(w, w.entries[i]);
    if e.FreezeThree? {
      FirstThreeIsBatch(w.seen, w.entries[i].symbol, w.entries[i].t0, w.window, w.workers[i].valid);
    }
    forall j | 0 <= j < |v.entries| ensures WorkerInv(v, v.entries[j], v.workers[j]) {
      assert WorkerInv(w, w.entries[j], w.workers[j]);
    }
    forall c | 0 <= c < |v.consumers| ensures ConsumerInv(v, v.consumers[c]) {
      ConsumersKept(w, v, w.consumers[c]);
    }
  }

  lemma ConsumerStepKeepsInv(w: World, e: Event)
    requires Inv(w) && ConsumerStep(w, e).Some?
    ensures Inv(ConsumerStep(w, e).value) && ConsumerStep(w, e).value.entries == w.entries
  {
    hide Evidence, Batch;
    var v := ConsumerStep(w, e).value;
    forall j | 0 <= j < |v.entries| ensures WorkerInv(v, v.entries[j], v.workers[j]) {
      assert WorkerInv(w, w.entries[j], w.workers[j]);
    }
    forall c | 0 <= c < |v.consumers| ensures ConsumerInv(v, v.consumers[c]) {
      if c < |w.consumers| {
        assert ConsumerInv(w, w.consumers[c]);
        ConsumersKept(w, v, w.consumers[c]);
        if e.Return? && c == e.ix && v.consumers[c].phase.result.Some? {
          assert Captured(v, w.consumers[c].phase.ix, v.consumers[c], v.consumers[c].phase.result.value);
        }
      }
    }
  }

  lemma EvidenceKept(w: World, seen: set<Tick>, e: Entry, worker: Worker)
    requires WorkerInv(w, e, worker) && w.seen <= seen
    ensures WorkerInv(w.(seen := seen), e, worker)
  {
  }

  lemma StepKeepsInv(w: World, e: Event)
    requires Inv(w) && Step(w, e).Some?
    ensures Inv(Step(w, e).value) && EntriesGrow(w.entries, Step(w, e).value.entries)
    ensures Step(w, e).value.window == w.window && w.seen <= Step(w, e).value.seen
  {
    hide Evidence, Batch;
    var v := Step(w, e).value;
    if WorkerStep(w, e).Some? {
      WorkerStepKeepsInv(w, e);
    } else if ConsumerStep(w, e).Some? {
      ConsumerStepKeepsInv(w, e);
    } else {
      forall j | 0 <= j < |w.entries| ensures WorkerInv(v, v.entries[j], v.workers[j]) {
        EvidenceKept(w, v.seen, w.entries[j], w.workers[j]);
        assert WorkerInv(w, w.entries[j], w.workers[j]);
      }
      forall c | 0 <= c < |v.consumers| ensures ConsumerInv(v, v.consumers[c]) {
        ConsumersKept(w, v, w.consumers[c]);
      }
    }
  }

  lemma {:induction false} RunKeepsInv(w: World, es: seq<Event>)
    requires Inv(w) && Run(w, es).Some?
    ensures Inv(Run(w, es).value) && EntriesGrow(w.entries, Run(w, es).value.entries)
    ensures Run(w, es).value.window == w.window
    decreases |es|
  {
    hide Inv, Step;
    if es != [] {
      StepKeepsInv(w, es[0]);
      RunKeepsInv(Step(w, es[0]).value, es[1..]);
    }
  }

  const EMPTY := World(3.0, [], {}, [], [], map[], [])

  /**
   In every interleaving, what a consumer gets for its signal is three valid ticks of
   its symbol that really arrived between that signal and the end of its window, in
   order, as frozen by that signal's own worker: never those of an older or newer one.
   */
  lemma FrozenEvidenceIsFresh(window: real, es: seq<Event>, c: nat)
    requires Run(EMPTY.(window := window), es).Some?
    requires var v := Run(EMPTY.(window := window), es).value;
             c < |v.consumers| && v.consumers[c].phase.Returned? && v.consumers[c].phase.result.Some?
    ensures var v := Run(EMPTY.(window := window), es).value; var k := v.consumers[c];
            && Batch(v.seen, k.symbol, k.t0, window, k.phase.result.value)
            && exists i: nat :: Captured(v, i, k, k.phase.result.value)
  {
    RunKeepsInv(EMPTY.(window := window), es);
    var v := Run(EMPTY.(window := window), es).value;
    var k := v.consumers[c];
    assert ConsumerInv(v, k);
    var i: nat :| Captured(v, i, k, k.phase.result.value);
    assert WorkerInv(v, v.entries[i], v.workers[i]);
  }

  /** Once ready, a capture is immutable: every consumer of it gets the same batch. */
  lemma ReadyIsFinal(w: World, es: seq<Event>, i: nat)
    requires Inv(w) && Run(w, es).Some? && i < |w.entries| && w.entries[i].ready
    ensures i < |Run(w, es).value.entries| && Run(w, es).value.entries[i] == w.entries[i]
  {
    RunKeepsInv(w, es);
  }
}
