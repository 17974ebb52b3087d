/** Rank-based normalization with averaged ties (matmon_watchlist_scoring.py). */
module PercentileRank {

  // ----------------------------------------------------------- the reference rank

  function Below(values: seq<real>, v: real): set<nat> {
    set i: nat | i < |values| && values[i] < v
  }

  function Ties(values: seq<real>, v: real): set<nat> {
    set i: nat | i < |values| && values[i] == v
  }

  /** How many values are smaller, plus half of the other values that are equal. */
  function Rank(values: seq<real>, v: real): real {
    |Below(values, v)| as real + (|Ties(values, v)| - 1) as real / 2.0
  }

  /** A sort of the row indices by value; ties may come in any order. */
  ghost predicate SortsIndices(order: seq<nat>, values: seq<real>) {
    && |order| == |values|
    && (forall k :: 0 <= k < |order| ==> order[k] < |values|)
    && (forall k, l :: 0 <= k < l < |order| ==> order[k] != order[l])
    && (forall k, l :: 0 <= k < l < |order| ==> values[order[k]] <= values[order[l]])
  }

  function Image(order: seq<nat>): set<nat> {
    set k | 0 <= k < |order| :: order[k]
  }

  lemma {:induction false} ImageSize(order: seq<nat>)
    requires forall k, l :: 0 <= k < l < |order| ==> order[k] != order[l]
    ensures |Image(order)| == |order|
    decreases |order|
  {
    if order != [] {
      var n := |order| - 1;
      ImageSize(order[..n]);
      assert Image(order) == Image(order[..n]) + {order[n]};
    }
  }

  function Range(n: nat): (r: set<nat>)
    ensures |r| == n && forall i :: i in r <==> 0 <= i < n
  {
    if n == 0 then {} else Range(n - 1) + {n - 1}
  }

  lemma SubsetOfSameSize(a: set<nat>, b: set<nat>)
    requires a <= b && |a| == |b|
    ensures a == b
  {
    assert |b - a| == 0;
  }

  /** Every row is somewhere in the order. */
  lemma OrderCovers(order: seq<nat>, values: seq<real>)
    requires SortsIndices(order, values)
    ensures forall i :: 0 <= i < |values| ==> i in order
  {
    ImageSize(order);
    SubsetOfSameSize(Image(order), Range(|values|));
    forall i | 0 <= i < |values| ensures i in order {
      assert i in Image(order);
    }
  }

  /** A maximal run of equal values at positions i..j of the order. */
  ghost predicate IsRun(order: seq<nat>, values: seq<real>, i: nat, j: nat)
    requires SortsIndices(order, values)
  {
    && i <= j < |order|
    && (forall k :: i <= k <= j ==> values[order[k]] == values[order[i]])
    && (i > 0 ==> values[order[i - 1]] != values[order[i]])
    && (j + 1 < |order| ==> values[order[j + 1]] != values[order[i]])
  }

  lemma BelowRun(order: seq<nat>, values: seq<real>, i: nat, j: nat)
    requires SortsIndices(order, values) && IsRun(order, values, i, j)
    ensures forall k :: 0 <= k < |order| ==> (values[order[k]] < values[order[i]] <==> k < i)
  {
    forall k | 0 <= k < i ensures values[order[k]] < values[order[i]] {
      assert values[order[k]] <= values[order[i - 1]];
    }
  }

  lemma TiesOfRun(order: seq<nat>, values: seq<real>, i: nat, j: nat)
    requires SortsIndices(order, values) && IsRun(order, values, i, j)
    ensures forall k :: 0 <= k < |order| ==> (values[order[k]] == values[order[i]] <==> i <= k <= j)
  {
    BelowRun(order, values, i, j);
    forall k | j < k < |order| ensures values[order[k]] != values[order[i]] {
      assert values[order[j + 1]] <= values[order[k]] && values[order[i]] <= values[order[j + 1]];
    }
  }

  /** The rows at a stretch of positions are as distinct as all of them. */
  lemma StretchSize(order: seq<nat>, values: seq<real>, lo: nat, hi: nat)
    requires SortsIndices(order, values) && lo <= hi <= |order|
    ensures |Image(order[lo..hi])| == hi - lo
  {
    forall k, l | 0 <= k < l < hi - lo ensures order[lo..hi][k] != order[lo..hi][l] {
      assert order[lo..hi][k] == order[lo + k] && order[lo..hi][l] == order[lo + l];
    }
    ImageSize(order[lo..hi]);
  }

  /** The mean position of the run is the reference rank, whatever the order within ties. */
  lemma RunRank(order: seq<nat>, values: seq<real>, i: nat, j: nat)
    requires SortsIndices(order, values) && IsRun(order, values, i, j)
    ensures Rank(values, values[order[i]]) == (i + j) as real / 2.0
  {
    var v := values[order[i]];
    BelowRun(order, values, i, j);
    TiesOfRun(order, values, i, j);
    PositionsOf(order, values, 0, i, Below(values, v));
    PositionsOf(order, values, i, j + 1, Ties(values, v));
    StretchSize(order, values, 0, i);
    StretchSize(order, values, i, j + 1);
  }

  /** A set of rows that is exactly what stands at some positions. */
  lemma PositionsOf(order: seq<nat>, values: seq<real>, lo: nat, hi: nat, rows: set<nat>)
    requires SortsIndices(order, values) && lo <= hi <= |order|
    requires forall k :: 0 <= k < |order| ==> (order[k] in rows <==> lo <= k < hi)
    requires forall r :: r in rows ==> r < |values|
    ensures rows == Image(order[lo..hi])
  {
    OrderCovers(order, values);
    forall r | r in rows ensures r in Image(order[lo..hi]) {
      assert r in order;
      var k :| 0 <= k < |order| && order[k] == r;
      assert order[lo..hi][k - lo] == r;
    }
  }

  // -------------------------------------------------------------------- the loops

  /** The nested loops over any sort permutation give every row its reference rank. */
  method AverageRanks(values: seq<real>, order: seq<nat>) returns (r: seq<real>)
    requires SortsIndices(order, values)
    ensures |r| == |values|
    ensures forall i :: 0 <= i < |values| ==> r[i] == Rank(values, values[i])
  {
    var n := |values|;
    var ranks := new real[n](_ => 0.0);
    var i := 0;
    while i < n
      invariant 0 <= i <= n
      invariant 0 < i < n ==> values[order[i - 1]] != values[order[i]]
      invariant forall k :: 0 <= k < i ==> ranks[order[k]] == Rank(values, values[order[k]])
    {
      var j := i;
      while j + 1 < n && values[order[j + 1]] == values[order[i]]
        invariant i <= j < n
        invariant forall k :: i <= k <= j ==> values[order[k]] == values[order[i]]
      {
        j := j + 1;
      }
      var avg := (i + j) as real / 2.0;
      RunRank(order, values, i, j);
      hide Rank;
      for k := i to j + 1
        invariant forall l :: 0 <= l < i ==> ranks[order[l]] == Rank(values, values[order[l]])
        invariant forall l :: i <= l < k ==> ranks[order[l]] == avg
      {
        ranks[order[k]] := avg;
      }
      i := j + 1;
    }
    OrderCovers(order, values);
    r := ranks[..];
    forall row | 0 <= row < n ensures r[row] == Rank(values, values[row]) {
      assert row in order;
    }
  }

  /** Inserting the next row after those that are not larger. */
  lemma InsertKeepsSorted(order: seq<nat>, values: seq<real>, v: real, k: nat)
    requires SortsIndices(order, values) && k <= |order|
    requires forall l :: 0 <= l < k ==> values[order[l]] <= v
    requires forall l :: k <= l < |order| ==> values[order[l]] > v
    ensures SortsIndices(order[..k] + [|order|] + order[k..], values + [v])
  {
    var next := order[..k] + [|order|] + order[k..];
    forall l | 0 <= l < |next| ensures next[l] == if l < k then order[l] else if l == k then |order| else order[l - 1] {
    }
  }

  method PlaceOf(order: seq<nat>, values: seq<real>, v: real) returns (k: nat)
    requires SortsIndices(order, values)
    ensures k <= |order|
    ensures forall l :: 0 <= l < k ==> values[order[l]] <= v
    ensures forall l :: k <= l < |order| ==> values[order[l]] > v
  {
    k := |order|;
    while k > 0 && values[order[k - 1]] > v
      invariant 0 <= k <= |order|
      invariant forall l :: k <= l < |order| ==> values[order[l]] > v
    {
      k := k - 1;
    }
  }

  lemma NothingSorted(values: seq<real>)
    requires values == []
    ensures SortsIndices([], values)
  {
  }

  /** `sorted` over the row indices by value. */
  method SortedOrder(values: seq<real>) returns (order: seq<nat>)
    ensures SortsIndices(order, values)
  {
    hide SortsIndices;
    order := [];
    NothingSorted(values[..0]);
    for i := 0 to |values|
      invariant |order| == i && SortsIndices(order, values[..i])
    {
      var k := PlaceOf(order, values[..i], values[i]);
      InsertKeepsSorted(order, values[..i], values[i], k);
      assert values[..i] + [values[i]] == values[..i + 1];
      order := order[..k] + [i] + order[k..];
    }
    assert values[..|values|] == values;
  }

  /** No row gives no output, a single row gives 1; otherwise every rank is scaled by n - 1. */
  method PercentileNormalize(values: seq<real>) returns (out: seq<real>)
    ensures |out| == |values|
    ensures |values| == 1 ==> out == [1.0]
    ensures |values| >= 2 ==> forall r :: 0 <= r < |values| ==> out[r] == Scaled(values, r)
  {
    var n := |values|;
    if n == 0 {
      return [];
    }
    if n == 1 {
      return [1.0];
    }
    var order := SortedOrder(values);
    var ranks := AverageRanks(values, order);
    out := [];
    for r := 0 to n
      invariant |out| == r
      invariant forall l :: 0 <= l < r ==> out[l] == Scaled(values, l)
    {
      out := out + [ranks[r] / (n - 1) as real];
    }
  }

  function Scaled(values: seq<real>, r: nat): real
    requires |values| >= 2 && r < |values|
  {
    Rank(values, values[r]) / (|values| - 1) as real
  }

  // ------------------------------------------------------------- what the rank means

  lemma DisjointSizes(a: set<nat>, b: set<nat>, n: nat)
    requires a !! b && forall i :: i in a + b ==> i < n
    ensures |a| + |b| <= n
  {
    assert a + b <= Range(n);
    SubsetSize(a + b, Range(n));
    assert |a + b| == |a| + |b|;
  }

  lemma SubsetSize(a: set<nat>, b: set<nat>)
    requires a <= b
    ensures |a| <= |b|
  {
    assert b == a + (b - a);
  }

  lemma DivideOrdered(a: real, b: real, d: real)
    requires a < b && d > 0.0
    ensures a / d < b / d
  {
  }

  /** Strictly larger values get strictly larger results, equal values equal ones. */
  lemma OrderIsKept(values: seq<real>, a: nat, b: nat)
    requires |values| >= 2 && a < |values| && b < |values|
    ensures values[a] < values[b] <==> Scaled(values, a) < Scaled(values, b)
    ensures values[a] == values[b] <==> Scaled(values, a) == Scaled(values, b)
  {
    if values[a] < values[b] {
      StrictlyOrdered(values, a, b);
    } else if values[b] < values[a] {
      StrictlyOrdered(values, b, a);
    }
  }

  lemma StrictlyOrdered(values: seq<real>, a: nat, b: nat)
    requires |values| >= 2 && a < |values| && b < |values| && values[a] < values[b]
    ensures Scaled(values, a) < Scaled(values, b)
  {
    var x, y := Below(values, values[a]), Ties(values, values[a]);
    assert x + y <= Below(values, values[b]) && x !! y;
    SubsetSize(x + y, Below(values, values[b]));
    assert |x + y| == |x| + |y|;
    assert a in y && b in Ties(values, values[b]);
    assert Rank(values, values[a]) < Rank(values, values[b]);
    DivideOrdered(Rank(values, values[a]), Rank(values, values[b]), (|values| - 1) as real);
  }

  lemma DivideInRange(x: real, d: real)
    requires 0.0 <= x <= d && d > 0.0
    ensures 0.0 <= x / d <= 1.0
  {
  }

  lemma InUnitRange(values: seq<real>, r: nat)
    requires |values| >= 2 && r < |values|
    ensures 0.0 <= Scaled(values, r) <= 1.0
  {
    var v := values[r];
    assert r in Ties(values, v) && Below(values, v) !! Ties(values, v);
    DisjointSizes(Below(values, v), Ties(values, v), |values|);
    DivideInRange(Rank(values, v), (|values| - 1) as real);
  }

  // ------------------------------------------------------------- the total is n / 2

  function Cmp(x: real, v: real): int {
    if x < v then 2 else if x == v then 1 else 0
  }

  /** Twice the smaller values plus the equal ones. */
  function Row(values: seq<real>, v: real): int {
    if values == [] then 0 else Row(values[..|values| - 1], v) + Cmp(values[|values| - 1], v)
  }

  lemma {:induction false} RowIs(values: seq<real>, v: real)
    ensures Row(values, v) == 2 * |Below(values, v)| + |Ties(values, v)|
    decreases |values|
  {
    if values != [] {
      var n := |values| - 1;
      var rest := values[..n];
      RowIs(rest, v);
      assert Below(values, v) == if values[n] < v then Below(rest, v) + {n} else Below(rest, v);
      assert Ties(values, v) == if values[n] == v then Ties(rest, v) + {n} else Ties(rest, v);
    }
  }

  function SumRows(xs: seq<real>, values: seq<real>): int {
    if xs == [] then 0 else SumRows(xs[..|xs| - 1], values) + Row(values, xs[|xs| - 1])
  }

  lemma {:induction false} NewColumn(xs: seq<real>, values: seq<real>, x: real)
    ensures SumRows(xs, values + [x]) + Row(xs, x) == SumRows(xs, values) + 2 * |xs|
    decreases |xs|
  {
    if xs != [] {
      var n := |xs| - 1;
      NewColumn(xs[..n], values, x);
      assert (values + [x])[..|values|] == values;
    }
  }

  lemma {:induction false} RowsAreSquare(values: seq<real>)
    ensures SumRows(values, values) == |values| * |values|
    decreases |values|
  {
    if values != [] {
      var n := |values| - 1;
      var rest, x := values[..n], values[n];
      RowsAreSquare(rest);
      NewColumn(rest, rest, x);
      assert values == rest + [x];
    }
  }

  function SumRanks(xs: seq<real>, values: seq<real>): real {
    if xs == [] then 0.0 else SumRanks(xs[..|xs| - 1], values) + Rank(values, xs[|xs| - 1])
  }

  lemma {:induction false} RanksAreRows(xs: seq<real>, values: seq<real>)
    ensures 2.0 * SumRanks(xs, values) == (SumRows(xs, values) - |xs|) as real
    decreases |xs|
  {
    if xs != [] {
      RanksAreRows(xs[..|xs| - 1], values);
      RowIs(values, xs[|xs| - 1]);
    }
  }

  function SumScaled(values: seq<real>, n: nat): real
    requires |values| >= 2 && n <= |values|
  {
    if n == 0 then 0.0 else SumScaled(values, n - 1) + Scaled(values, n - 1)
  }

  lemma {:induction false} ScaledSum(values: seq<real>, n: nat)
    requires |values| >= 2 && n <= |values|
    ensures SumScaled(values, n) * (|values| - 1) as real == SumRanks(values[..n], values)
    decreases n
  {
    hide Rank, Scaled;
    if n > 0 {
      ScaledSum(values, n - 1);
      SumRanksLast(values, n);
      ScaledTimes(values, n - 1);
      Distribute(SumScaled(values, n - 1), Scaled(values, n - 1), (|values| - 1) as real,
                 SumRanks(values[..n - 1], values), Rank(values, values[n - 1]));
    }
  }

  lemma SumRanksLast(values: seq<real>, n: nat)
    requires 0 < n <= |values|
    ensures SumRanks(values[..n], values) == SumRanks(values[..n - 1], values) + Rank(values, values[n - 1])
  {
    hide Rank;
    assert values[..n][..n - 1] == values[..n - 1];
  }

  lemma ScaledTimes(values: seq<real>, r: nat)
    requires |values| >= 2 && r < |values|
    ensures Scaled(values, r) * (|values| - 1) as real == Rank(values, values[r])
  {
    hide Rank;
    UndoDivision(Rank(values, values[r]), (|values| - 1) as real);
  }

  lemma UndoDivision(x: real, d: real)
    requires d > 0.0
    ensures x / d * d == x
  {
  }

  lemma Distribute(a: real, b: real, d: real, x: real, y: real)
    requires a * d == x && b * d == y
    ensures (a + b) * d == x + y
  {
  }

  /** Whatever the values, the results of n rows add up to n / 2. */
  lemma TotalIsHalf(values: seq<real>)
    requires |values| >= 2
    ensures SumScaled(values, |values|) == |values| as real / 2.0
  {
    ScaledSum(values, |values|);
    assert values[..|values|] == values;
    RanksAreRows(values, values);
    RowsAreSquare(values);
    CancelFactor(SumScaled(values, |values|), |values|);
  }

  lemma CancelFactor(x: real, n: nat)
    requires n >= 2 && 2.0 * (x * (n - 1) as real) == (n * n - n) as real
    ensures x == n as real / 2.0
  {
    assert n * n - n == n * (n - 1);
    assert (n * (n - 1)) as real == n as real * (n - 1) as real;
    var d := (n - 1) as real;
    assert (2.0 * x - n as real) * d == 0.0;
  }
}
