/**
 * The quantile pandas computes for `DataFrame.quantile(q=[0.25, 0.5, 0.75])`
 * (app_RFV_2.py line 134): sort the column and interpolate linearly at
 * position p * (n - 1), the "type 7" definition of Hyndman and Fan.
 */
module Quantiles {

  predicate Sorted(s: seq<real>)
  {
    forall i, j :: 0 <= i <= j < |s| ==> s[i] <= s[j]
  }

  /** The smallest element of a non-empty column. */
  function Min(s: seq<real>): (m: real)
    requires |s| > 0
    ensures m in s
    ensures forall i :: 0 <= i < |s| ==> m <= s[i]
  {
    if |s| == 1 then s[0]
    else var rest := Min(s[1..]); if s[0] <= rest then s[0] else rest
  }

  /** The largest element of a non-empty column. */
  function Max(s: seq<real>): (m: real)
    requires |s| > 0
    ensures m in s
    ensures forall i :: 0 <= i < |s| ==> s[i] <= m
  {
    if |s| == 1 then s[0]
    else var rest := Max(s[1..]); if rest <= s[0] then s[0] else rest
  }

  /** Puts x into a sorted sequence at its place. */
  function Insert(x: real, s: seq<real>): (r: seq<real>)
    requires Sorted(s)
    ensures |r| == |s| + 1
    ensures r[0] == if s == [] || x <= s[0] then x else s[0]
    ensures Sorted(r)
    ensures multiset(r) == multiset(s) + multiset{x}
  {
    if s == [] || x <= s[0] then
      ConsSorted(x, s);
      [x] + s
    else
      TailOf(s);
      var tail := Insert(x, s[1..]);
      ConsSorted(s[0], tail);
      [s[0]] + tail
  }

  /** A head no larger than the first element of a sorted tail keeps it sorted. */
  lemma ConsSorted(x: real, s: seq<real>)
    requires Sorted(s) && (s == [] || x <= s[0])
    ensures Sorted([x] + s)
  {
    var r := [x] + s;
    forall i, j | 0 <= i <= j < |r| ensures r[i] <= r[j] {
      if i == 0 && j > 0 {
        assert r[j] == s[j - 1] && s[0] <= s[j - 1];
      }
    }
  }

  /** The column in ascending order. */
  function Sort(s: seq<real>): (r: seq<real>)
    ensures Sorted(r)
    ensures multiset(r) == multiset(s)
  {
    if s == [] then []
    else
      assert s == [s[0]] + s[1..];
      Insert(s[0], Sort(s[1..]))
  }

  /** The sorted column has the column's length. */
  lemma SortLength(s: seq<real>)
    ensures |Sort(s)| == |s|
  {
    assert |multiset(Sort(s))| == |multiset(s)|;
  }

  /** Where type-7 interpolation looks: p * (n - 1), between 0 and n - 1. */
  function Position(n: nat, p: real): (h: real)
    requires n > 0 && 0.0 <= p <= 1.0
    ensures 0.0 <= h <= (n - 1) as real
  {
    var m := (n - 1) as real;
    ScaleBelow(p, m);
    p * m
  }

  lemma PositionMonotone(n: nat, p1: real, p2: real)
    requires n > 0 && 0.0 <= p1 <= p2 <= 1.0
    ensures Position(n, p1) <= Position(n, p2)
  {
    ScaleMonotone(p1, p2, (n - 1) as real);
  }

  lemma ScaleBelow(p: real, m: real)
    requires 0.0 <= p <= 1.0 && 0.0 <= m
    ensures 0.0 <= p * m <= m
  {
    NonNegativeProduct(p, m);
    NonNegativeProduct(1.0 - p, m);
    assert m - p * m == (1.0 - p) * m;
  }

  /**
   * Linear interpolation in a sorted column at a fractional position h: the
   * order statistic at the floor of h plus the fraction of h times the gap to
   * the next one; at the last position there is no next one.
   */
  function Interpolate(s: seq<real>, h: real): real
    requires 0.0 <= h <= (|s| - 1) as real
  {
    var j := h.Floor;
    if j + 1 < |s| then Lerp(s[j], s[j + 1], h - j as real) else s[j]
  }

  /** The quantile of a column at level p, computed as pandas does by default. */
  function Quantile(col: seq<real>, p: real): real
    requires |col| > 0 && 0.0 <= p <= 1.0
  {
    SortLength(col);
    Interpolate(Sort(col), Position(|col|, p))
  }

  /** The point at fraction t of the way from a to b. */
  function Lerp(a: real, b: real, t: real): real
  {
    a + t * (b - a)
  }

  /** Moving further along from a towards b never goes back. */
  lemma LerpMonotone(a: real, b: real, t1: real, t2: real)
    requires a <= b && t1 <= t2
    ensures Lerp(a, b, t1) <= Lerp(a, b, t2)
  {
    assert Lerp(a, b, t2) - Lerp(a, b, t1) == (t2 - t1) * (b - a);
    NonNegativeProduct(t2 - t1, b - a);
  }

  lemma Between(a: real, b: real, t: real)
    requires a <= b && 0.0 <= t <= 1.0
    ensures a <= Lerp(a, b, t) <= b
  {
    NonNegativeProduct(t, b - a);
    NonNegativeProduct(1.0 - t, b - a);
    assert b - Lerp(a, b, t) == (1.0 - t) * (b - a);
  }

  lemma NonNegativeProduct(x: real, y: real)
    requires 0.0 <= x && 0.0 <= y
    ensures 0.0 <= x * y
  {
  }

  lemma ScaleMonotone(t1: real, t2: real, d: real)
    requires t1 <= t2 && 0.0 <= d
    ensures t1 * d <= t2 * d
  {
    assert t2 * d - t1 * d == (t2 - t1) * d;
  }

  /** An interpolated value lies between the order statistics around its position. */
  lemma {:induction false} InterpolateBetween(s: seq<real>, h: real)
    requires Sorted(s) && 0.0 <= h <= (|s| - 1) as real
    ensures s[h.Floor] <= Interpolate(s, h)
    ensures h.Floor + 1 < |s| ==> Interpolate(s, h) <= s[h.Floor + 1]
  {
    var j := h.Floor;
    if j + 1 < |s| {
      Between(s[j], s[j + 1], h - j as real);
    }
  }

  /** Interpolation in a sorted column never decreases as the position moves right. */
  lemma {:induction false} InterpolateMonotone(s: seq<real>, h1: real, h2: real)
    requires Sorted(s) && 0.0 <= h1 <= h2 <= (|s| - 1) as real
    ensures Interpolate(s, h1) <= Interpolate(s, h2)
  {
    var j1, j2 := h1.Floor, h2.Floor;
    InterpolateBetween(s, h1);
    InterpolateBetween(s, h2);
    if j1 == j2 {
      if j1 + 1 < |s| {
        LerpMonotone(s[j1], s[j1 + 1], h1 - j1 as real, h2 - j2 as real);
      }
    } else {
      assert j1 + 1 <= j2;
      assert s[j1 + 1] <= s[j2];
    }
  }

  /** The first and last order statistics are the minimum and the maximum. */
  lemma SortEnds(col: seq<real>)
    requires |col| > 0
    ensures |Sort(col)| == |col|
    ensures Sort(col)[0] == Min(col) && Sort(col)[|col| - 1] == Max(col)
  {
    SortLength(col);
    var s := Sort(col);
    assert s[0] in multiset(col) && s[|s| - 1] in multiset(col);
    assert Min(col) in multiset(s) && Max(col) in multiset(s);
  }

  /** Every quantile lies between the column's minimum and maximum. */
  lemma {:induction false} QuantileWithinRange(col: seq<real>, p: real)
    requires |col| > 0 && 0.0 <= p <= 1.0
    ensures Min(col) <= Quantile(col, p) <= Max(col)
  {
    SortEnds(col);
    var s, h := Sort(col), Position(|col|, p);
    InterpolateBetween(s, h);
    InterpolateMonotone(s, 0.0, h);
    InterpolateMonotone(s, h, (|s| - 1) as real);
  }

  /** A higher level never gives a lower quantile; so Q0.25 <= Q0.50 <= Q0.75. */
  lemma {:induction false} QuantileMonotone(col: seq<real>, p1: real, p2: real)
    requires |col| > 0 && 0.0 <= p1 <= p2 <= 1.0
    ensures Quantile(col, p1) <= Quantile(col, p2)
  {
    SortLength(col);
    var s := Sort(col);
    PositionMonotone(|col|, p1, p2);
    InterpolateMonotone(s, Position(|col|, p1), Position(|col|, p2));
  }

  /** Levels 0 and 1 give the minimum and the maximum. */
  lemma {:induction false} QuantileExtremes(col: seq<real>)
    requires |col| > 0
    ensures Quantile(col, 0.0) == Min(col) && Quantile(col, 1.0) == Max(col)
  {
    SortEnds(col);
    assert Position(|col|, 0.0) == 0.0;
    assert Position(|col|, 1.0) == (|col| - 1) as real;
  }

  /** A one-row column has every quantile equal to its single value. */
  lemma {:induction false} QuantileOfOne(col: seq<real>, p: real)
    requires |col| == 1 && 0.0 <= p <= 1.0
    ensures Quantile(col, p) == col[0]
  {
    SortEnds(col);
  }

  /** The head of a sorted sequence is at most any of its elements. */
  lemma HeadIsLeast(s: seq<real>, x: real)
    requires Sorted(s) && x in multiset(s)
    ensures |s| > 0 && s[0] <= x
  {
    var k :| 0 <= k < |s| && s[k] == x;
  }

  /** Dropping the head keeps a sequence sorted and removes one copy of the head. */
  lemma TailOf(s: seq<real>)
    requires Sorted(s) && |s| > 0
    ensures Sorted(s[1..])
    ensures multiset(s) == multiset{s[0]} + multiset(s[1..])
  {
    assert s == [s[0]] + s[1..];
  }

  /** Two sorted sequences with the same elements are the same sequence. */
  lemma {:induction false} SortedUnique(a: seq<real>, b: seq<real>)
    requires Sorted(a) && Sorted(b) && multiset(a) == multiset(b)
    ensures a == b
  {
    if a == [] {
      assert |b| == |multiset(b)| == 0;
    } else {
      assert |b| == |multiset(b)| == |multiset(a)| > 0;
      HeadIsLeast(b, a[0]);
      HeadIsLeast(a, b[0]);
      var x := a[0];
      assert b[0] == x;
      TailOf(a);
      TailOf(b);
      assert multiset(a[1..]) == multiset(a) - multiset{x};
      assert multiset(b[1..]) == multiset(b) - multiset{x};
      SortedUnique(a[1..], b[1..]);
      assert a == [x] + a[1..] && b == [x] + b[1..];
    }
  }

  /** The quantile depends on the column's values only, not on the order of its rows. */
  lemma {:induction false} QuantileOrderFree(a: seq<real>, b: seq<real>, p: real)
    requires |a| > 0 && multiset(a) == multiset(b) && 0.0 <= p <= 1.0
    ensures |b| == |a| && Quantile(a, p) == Quantile(b, p)
  {
    assert |b| == |multiset(b)| == |multiset(a)| == |a|;
    SortedUnique(Sort(a), Sort(b));
  }
}
