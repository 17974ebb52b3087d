/** Combining finalized entry candles into exact 15-minute bars (candle_engine.py). */
module CandleCombination {
  import opened Wrappers
  import opened Candle

  // ------------------------------------------------------------- the specification

  /** The candles of one 15-minute bucket, in the order given. */
  function InBucket(cs: seq<Candle>, b: int): seq<Candle> {
    if cs == [] then []
    else
      var n := |cs| - 1;
      InBucket(cs[..n], b) + if IntervalStart(cs[n].date, 15) == b then [cs[n]] else []
  }

  function InsertByDate(sorted: seq<Candle>, c: Candle): seq<Candle> {
    if sorted == [] || sorted[|sorted| - 1].date <= c.date then sorted + [c]
    else InsertByDate(sorted[..|sorted| - 1], c) + [sorted[|sorted| - 1]]
  }

  /** A stable sort by date. */
  function SortByDate(cs: seq<Candle>): seq<Candle> {
    if cs == [] then [] else InsertByDate(SortByDate(cs[..|cs| - 1]), cs[|cs| - 1])
  }

  function Dates(cs: seq<Candle>): (r: seq<int>)
    ensures |r| == |cs|
  {
    seq(|cs|, i requires 0 <= i < |cs| => cs[i].date)
  }

  function Expected(b: int, k: int): seq<int>
    requires k > 0
  {
    seq(15 / k, i => b + i * k)
  }

  function Legs(cs: seq<Candle>, b: int): seq<Candle> {
    SortByDate(InBucket(cs, b))
  }

  /** Every leg of the bucket is there, once, and nothing else is. */
  predicate Complete(cs: seq<Candle>, b: int, k: int)
    requires k > 0
  {
    Dates(Legs(cs, b)) == Expected(b, k)
  }

  function HighOf(cs: seq<Candle>): real
    requires cs != []
  {
    var n := |cs| - 1;
    if n == 0 then cs[0].high else Max(HighOf(cs[..n]), cs[n].high)
  }

  function LowOf(cs: seq<Candle>): real
    requires cs != []
  {
    var n := |cs| - 1;
    if n == 0 then cs[0].low else Min(LowOf(cs[..n]), cs[n].low)
  }

  function VolumeOf(cs: seq<Candle>): real {
    if cs == [] then 0.0 else VolumeOf(cs[..|cs| - 1]) + cs[|cs| - 1].volume
  }

  /** The bar of a bucket from its legs in order. */
  function Bar(legs: seq<Candle>, b: int): Candle
    requires legs != []
  {
    Candle(b, legs[0].open, HighOf(legs), LowOf(legs), legs[|legs| - 1].close, VolumeOf(legs))
  }

  function InsertStart(starts: seq<int>, b: int): seq<int> {
    if starts == [] || starts[|starts| - 1] < b then starts + [b]
    else if starts[|starts| - 1] == b then starts
    else InsertStart(starts[..|starts| - 1], b) + [starts[|starts| - 1]]
  }

  /** The distinct bucket starts, ascending. */
  function Starts(cs: seq<Candle>): seq<int> {
    if cs == [] then [] else InsertStart(Starts(cs[..|cs| - 1]), IntervalStart(cs[|cs| - 1].date, 15))
  }

  /** One bar for each complete bucket; an incomplete one is left out. */
  function Bars(starts: seq<int>, cs: seq<Candle>, k: int): seq<Candle>
    requires k > 0
  {
    if starts == [] then []
    else
      var b := starts[|starts| - 1];
      Bars(starts[..|starts| - 1], cs, k)
      + if Complete(cs, b, k) && Legs(cs, b) != [] then [Bar(Legs(cs, b), b)] else []
  }

  function Combined(cs: seq<Candle>, k: int): seq<Candle>
    requires k > 0
  {
    Bars(Starts(cs), cs, k)
  }

  // ------------------------------------------------------------------- the method

  ghost predicate Ascending(s: seq<int>) {
    forall i, j :: 0 <= i < j < |s| ==> s[i] < s[j]
  }

  lemma {:induction false} InsertStartIs(starts: seq<int>, b: int)
    requires Ascending(starts)
    ensures Ascending(InsertStart(starts, b))
    ensures forall x :: x in InsertStart(starts, b) <==> x == b || x in starts
    decreases |starts|
  {
    if starts != [] && starts[|starts| - 1] > b {
      var n := |starts| - 1;
      InsertStartIs(starts[..n], b);
      assert starts == starts[..n] + [starts[n]];
      var r := InsertStart(starts[..n], b);
      forall i | 0 <= i < |r| ensures r[i] < starts[n] {
        assert r[i] in r;
        assert r[i] in starts[..n] ==> r[i] < starts[n];
      }
    }
  }

  lemma {:induction false} StartsAre(cs: seq<Candle>)
    ensures Ascending(Starts(cs))
    ensures forall b :: b in Starts(cs) <==> InBucket(cs, b) != []
    decreases |cs|
  {
    if cs != [] {
      var n := |cs| - 1;
      StartsAre(cs[..n]);
      InsertStartIs(Starts(cs[..n]), IntervalStart(cs[n].date, 15));
    }
  }

  lemma FirstMember(t: seq<int>)
    ensures t == [] || t[0] in t
  {
  }

  lemma {:induction false} AscendingUnique(s: seq<int>, t: seq<int>)
    requires Ascending(s) && Ascending(t) && forall x :: x in s <==> x in t
    ensures s == t
    decreases |s|
  {
    if s == [] {
      FirstMember(t);
    } else {
      var m, n := |s| - 1, |t| - 1;
      assert s[m] in t && t != [];
      assert t[n] in s;
      assert s[m] == t[n];
      forall x ensures x in s[..m] <==> x in t[..n] {
        assert x in s[..m] <==> x in s && x != s[m];
        assert x in t[..n] <==> x in t && x != t[n];
      }
      AscendingUnique(s[..m], t[..n]);
      assert s == s[..m] + [s[m]] && t == t[..n] + [t[n]];
    }
  }

  lemma SomeMember(s: set<int>)
    ensures s == {} || exists x :: x in s
  {
    if forall x :: x !in s {
      assert s == {};
    }
  }

  /** `sorted` over the keys of the groups. */
  method SortedKeys(keys: set<int>) returns (r: seq<int>)
    ensures Ascending(r) && forall x :: x in r <==> x in keys
  {
    var rest := keys;
    r := [];
    while rest != {}
      invariant rest <= keys
      invariant forall x :: x in r <==> x in keys && x !in rest
      invariant Ascending(r)
      decreases |rest|
    {
      SomeMember(rest);
      var x :| x in rest;
      rest := rest - {x};
      InsertStartIs(r, x);
      r := InsertStart(r, x);
    }
  }

  /** `combine_entry_into_15m`; an interval that does not divide 15 is an error. */
  method CombineEntryInto15m(cs: seq<Candle>, k: int) returns (r: Result<seq<Candle>, string>)
    ensures r.Ok? <==> k > 0 && 15 % k == 0
    ensures r.Ok? ==> r.value == Combined(cs, k)
  {
    hide IntervalStart, Bar, HighOf, LowOf, VolumeOf, Starts, InsertStart, SortByDate, InsertByDate, Dates;
    hide Expected, Ascending;
    if k <= 0 || 15 % k != 0 {
      return Err("entry interval must divide 15 minutes exactly");
    }
    var groups: map<int, seq<Candle>> := map[];
    for i := 0 to |cs|
      invariant forall b :: b in groups <==> InBucket(cs[..i], b) != []
      invariant forall b :: b in groups ==> groups[b] == InBucket(cs[..i], b)
    {
      var b := IntervalStart(cs[i].date, 15);
      assert cs[..i + 1][..i] == cs[..i];
      groups := groups[b := (if b in groups then groups[b] else []) + [cs[i]]];
    }
    assert cs[..|cs|] == cs;
    var starts := SortedKeys(groups.Keys);
    StartsAre(cs);
    AscendingUnique(starts, Starts(cs));
    var out: seq<Candle> := [];
    for i := 0 to |starts|
      invariant out == Bars(starts[..i], cs, k)
    {
      assert starts[i] in starts && starts[..i + 1][..i] == starts[..i];
      var legs := SortByDate(groups[starts[i]]);
      if Dates(legs) == Expected(starts[i], k) && legs != [] {
        out := out + [Bar(legs, starts[i])];
      }
    }
    assert starts[..|starts|] == starts;
    r := Ok(out);
  }
}
