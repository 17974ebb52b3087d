/**
 Finding an order again after its submission reply was lost: by unique client tag and by
 every immutable detail (executor.py for entries, protective_stop.py for stops).
 */
module Reconciliation {
  import opened Wrappers

  datatype Side = Buy | Sell

  /** A row of the broker's order list; a row that does not parse is skipped. */
  datatype Listed = Listed(
    tag: string, symbol: string, exchange: string, side: Side, quantity: int, product: string, orderType: string,
    trigger: real, orderId: Option<nat>) | Unreadable

  /** What was submitted. A stop also pins its trigger price, to within half a tick. */
  datatype Wanted =
    | Entry(tag: string, symbol: string, exchange: string, side: Side, quantity: int, product: string,
            orderType: string)
    | Stop(tag: string, symbol: string, exchange: string, side: Side, quantity: int, product: string, trigger: real,
           tick: real)

  function Abs(x: real): real { if x >= 0.0 then x else -x }

  function Tolerance(tick: real): real {
    if tick / 2.0 > 0.0000001 then tick / 2.0 else 0.0000001
  }

  predicate Matches(o: Listed, w: Wanted) {
    && o.Listed? && o.tag == w.tag && o.symbol == w.symbol && o.exchange == w.exchange && o.side == w.side
    && o.quantity == w.quantity && o.product == w.product && o.orderId.Some?
    && (w.Entry? ==> o.orderType == w.orderType)
    && (w.Stop? ==> (o.orderType == "SL-M" || o.orderType == "SLM") && Abs(o.trigger - w.trigger) <= Tolerance(w.tick))
  }

  function MatchesIn(rows: seq<Listed>, w: Wanted): seq<Listed> {
    if rows == [] then []
    else
      var n := |rows| - 1;
      MatchesIn(rows[..n], w) + if Matches(rows[n], w) then [rows[n]] else []
  }

  /** One listing, empty when the call raised, and the time elapsed when it was checked. */
  datatype Listing = Listing(rows: seq<Listed>, raised: bool, elapsed: real)

  datatype Outcome = Found(order: Listed) | Ambiguous | NotFound

  function Seen(l: Listing): seq<Listed> {
    if l.raised then [] else l.rows
  }

  method Scan(rows: seq<Listed>, w: Wanted) returns (matches: seq<Listed>)
    ensures matches == MatchesIn(rows, w)
  {
    hide Matches;
    matches := [];
    for i := 0 to |rows|
      invariant matches == MatchesIn(rows[..i], w)
    {
      assert rows[..i + 1][..i] == rows[..i];
      if Matches(rows[i], w) {
        matches := matches + [rows[i]];
      }
    }
    assert rows[..|rows|] == rows;
  }

  /**
   Looks until exactly one order matches, more than one does, or the time is up. Nothing
   before that listing matched, and no order is ever sent.
   */
  method Reconcile(listings: seq<Listing>, w: Wanted, maxWait: real) returns (r: Outcome, attempts: nat, errors: nat)
    requires listings != [] && listings[|listings| - 1].elapsed >= maxWait
    ensures 0 < attempts <= |listings| && errors <= attempts
    ensures forall k :: 0 <= k < attempts - 1 ==> MatchesIn(Seen(listings[k]), w) == [] && listings[k].elapsed < maxWait
    ensures var last := MatchesIn(Seen(listings[attempts - 1]), w);
            match r
            case Found(o) => last == [o]
            case Ambiguous => |last| > 1
            case NotFound => last == [] && listings[attempts - 1].elapsed >= maxWait
  {
    hide MatchesIn;
    attempts, errors := 0, 0;
    while true
      invariant attempts < |listings| && errors <= attempts
      invariant forall k :: 0 <= k < attempts ==> MatchesIn(Seen(listings[k]), w) == [] && listings[k].elapsed < maxWait
      decreases |listings| - attempts
    {
      var listing := listings[attempts];
      attempts := attempts + 1;
      if listing.raised {
        errors := errors + 1;
      }
      var matches := Scan(Seen(listing), w);
      if |matches| == 1 {
        return Found(matches[0]), attempts, errors;
      }
      if |matches| > 1 {
        return Ambiguous, attempts, errors;
      }
      if listing.elapsed >= maxWait {
        return NotFound, attempts, errors;
      }
    }
  }

  /** At most one row of the listing carries the tag. */
  ghost predicate TagIsUnique(rows: seq<Listed>, tag: string) {
    forall i, j :: 0 <= i < j < |rows| && rows[i].Listed? && rows[j].Listed? && rows[i].tag == tag ==>
      rows[j].tag != tag
  }

  /**
   With fresh tags a lookup is never ambiguous, and it finds an order if and only if the
   order that carries the tag is listed with all its details.
   */
  lemma {:induction false} UniqueTagDecides(rows: seq<Listed>, w: Wanted)
    requires TagIsUnique(rows, w.tag)
    ensures |MatchesIn(rows, w)| <= 1
    ensures MatchesIn(rows, w) != [] <==> exists i :: 0 <= i < |rows| && Matches(rows[i], w)
    decreases |rows|
  {
    if rows != [] {
      var n := |rows| - 1;
      UniqueTagDecides(rows[..n], w);
      assert forall i :: 0 <= i < n ==> rows[..n][i] == rows[i];
      if Matches(rows[n], w) {
        assert forall i :: 0 <= i < n ==> !Matches(rows[..n][i], w);
        NothingMatches(rows[..n], w);
      }
    }
  }

  lemma {:induction false} NothingMatches(rows: seq<Listed>, w: Wanted)
    requires forall i :: 0 <= i < |rows| ==> !Matches(rows[i], w)
    ensures MatchesIn(rows, w) == []
    decreases |rows|
  {
    hide Matches;
    if rows != [] {
      NothingMatches(rows[..|rows| - 1], w);
    }
  }
}
