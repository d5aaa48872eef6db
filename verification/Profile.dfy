/** Interval arithmetic of the profiler and the self times of a table of spans. */
module Profile {
  import opened Base

  /** Half-open: from the left end up to, not including, the right end. */
  type Interval = (int, int)

  function Min(a: int, b: int): int { if a < b then a else b }

  // ---------------------------------------------------------------- points

  ghost predicate Covered(xs: seq<Interval>, t: int) {
    exists i :: 0 <= i < |xs| && xs[i].0 <= t < xs[i].1
  }

  function Range(a: int, b: int): (r: set<int>)
    ensures forall t :: t in r <==> a <= t < b
    decreases b - a
  {
    if b <= a then {} else Range(a, b - 1) + {b - 1}
  }

  /** The points from `lo` on that some interval covers. */
  function Points(xs: seq<Interval>, lo: int): set<int> {
    if xs == [] then {} else Range(Max(xs[0].0, lo), xs[0].1) + Points(xs[1..], lo)
  }

  lemma {:induction false} PointsAreCovered(xs: seq<Interval>, lo: int, t: int)
    ensures t in Points(xs, lo) <==> lo <= t && Covered(xs, t)
  {
    if xs != [] {
      PointsAreCovered(xs[1..], lo, t);
      if i :| 0 <= i < |xs| && xs[i].0 <= t < xs[i].1 {
        assert i == 0 || xs[1..][i - 1] == xs[i];
      }
      if j :| 0 <= j < |xs| - 1 && xs[1..][j].0 <= t < xs[1..][j].1 {
        assert xs[j + 1] == xs[1..][j];
      }
    }
  }

  lemma {:induction false} RangeSize(a: int, b: int)
    ensures |Range(a, b)| == Max(0, b - a)
    decreases b - a
  {
    if a < b {
      RangeSize(a, b - 1);
      assert b - 1 !in Range(a, b - 1);
    }
  }

  // ---------------------------------------------------------------- the sweep

  /** Python's order on pairs. */
  predicate Before(a: Interval, b: Interval) {
    a.0 < b.0 || (a.0 == b.0 && a.1 <= b.1)
  }

  ghost predicate Ascending(xs: seq<Interval>) {
    forall i, j :: 0 <= i < j < |xs| ==> Before(xs[i], xs[j])
  }

  function Insert(x: Interval, xs: seq<Interval>): seq<Interval> {
    if xs == [] || Before(x, xs[0]) then [x] + xs else [xs[0]] + Insert(x, xs[1..])
  }

  /** What `sorted` returns. */
  function Sorted(xs: seq<Interval>): seq<Interval> {
    if xs == [] then [] else Insert(xs[0], Sorted(xs[1..]))
  }

  lemma {:induction false} InsertPermutes(x: Interval, xs: seq<Interval>)
    ensures multiset(Insert(x, xs)) == multiset(xs) + multiset{x}
  {
    if xs != [] && !Before(x, xs[0]) {
      InsertPermutes(x, xs[1..]);
      assert xs == [xs[0]] + xs[1..];
    }
  }

  lemma {:induction false} InsertAscends(x: Interval, xs: seq<Interval>)
    requires Ascending(xs)
    ensures Ascending(Insert(x, xs))
  {
    if xs != [] && !Before(x, xs[0]) {
      InsertAscends(x, xs[1..]);
      InsertPermutes(x, xs[1..]);
      var rest := Insert(x, xs[1..]);
      forall k | 0 <= k < |rest| ensures Before(xs[0], rest[k]) {
        assert rest[k] in multiset(rest);
        assert rest[k] == x || rest[k] in xs[1..];
      }
    }
  }

  lemma {:induction false} SortedIsOrderedPermutation(xs: seq<Interval>)
    ensures multiset(Sorted(xs)) == multiset(xs) && Ascending(Sorted(xs))
  {
    if xs != [] {
      SortedIsOrderedPermutation(xs[1..]);
      InsertPermutes(xs[0], Sorted(xs[1..]));
      InsertAscends(xs[0], Sorted(xs[1..]));
      assert xs == [xs[0]] + xs[1..];
    }
  }

  /** One interval in left order adds exactly its new points. */
  lemma SweepStep(xs: seq<Interval>, end: int)
    requires xs != [] && forall i :: 0 < i < |xs| ==> xs[0].0 <= xs[i].0
    ensures |Points(xs, end)| == Max(0, xs[0].1 - Max(xs[0].0, end)) + |Points(xs[1..], Max(end, xs[0].1))|
  {
    var l, r := xs[0].0, xs[0].1;
    var head := Range(Max(l, end), r);
    var tail := Points(xs[1..], Max(end, r));
    RangeSize(Max(l, end), r);
    forall t ensures t in Points(xs, end) <==> t in head || t in tail {
      PointsAreCovered(xs, end, t);
      PointsAreCovered(xs[1..], Max(end, r), t);
      if Covered(xs[1..], t) {
        var j :| 0 <= j < |xs| - 1 && xs[1..][j].0 <= t < xs[1..][j].1;
        assert xs[j + 1] == xs[1..][j];
      }
      if i :| 0 <= i < |xs| && xs[i].0 <= t < xs[i].1 {
        assert i == 0 || xs[1..][i - 1] == xs[i];
      }
    }
    assert Points(xs, end) == head + tail;
    forall t | t in tail ensures t !in head {
      PointsAreCovered(xs[1..], Max(end, r), t);
    }
    assert head !! tail;
  }

  /** Covering does not depend on the order. */
  lemma SamePoints(xs: seq<Interval>, ys: seq<Interval>, lo: int)
    requires multiset(xs) == multiset(ys)
    ensures Points(xs, lo) == Points(ys, lo)
  {
    forall t ensures t in Points(xs, lo) <==> t in Points(ys, lo) {
      PointsAreCovered(xs, lo, t);
      PointsAreCovered(ys, lo, t);
      CoveredByMember(xs, ys, t);
      CoveredByMember(ys, xs, t);
    }
  }

  lemma CoveredByMember(xs: seq<Interval>, ys: seq<Interval>, t: int)
    requires multiset(xs) == multiset(ys)
    ensures Covered(xs, t) ==> Covered(ys, t)
  {
    if i :| 0 <= i < |xs| && xs[i].0 <= t < xs[i].1 {
      assert xs[i] in multiset(xs);
      assert xs[i] in ys;
    }
  }

  /** For every list of intervals, overlapping, nested, inverted or negative, the result is
      the number of covered points from zero on. */
  method UnionNs(intervals: seq<Interval>) returns (total: int)
    ensures total == |Points(intervals, 0)|
  {
    var xs := Sorted(intervals);
    SortedIsOrderedPermutation(intervals);
    var end, i := 0, 0;
    total := 0;
    while i < |xs|
      invariant 0 <= i <= |xs|
      invariant total + |Points(xs[i..], end)| == |Points(xs, 0)|
    {
      var left, right := xs[i].0, xs[i].1;
      SweepStep(xs[i..], end);
      assert xs[i..][1..] == xs[i + 1..];
      total := total + Max(0, right - Max(left, end));
      end := Max(end, right);
      i := i + 1;
    }
    SamePoints(xs, intervals, 0);
  }

  function Union(xs: seq<Interval>): nat { |Points(xs, 0)| }

  lemma UnionIgnoresOrder(xs: seq<Interval>, ys: seq<Interval>)
    requires multiset(xs) == multiset(ys)
    ensures Union(xs) == Union(ys)
  {
    SamePoints(xs, ys, 0);
  }

  /** It is the size of everything covered exactly when no interval that is not inverted or
      empty starts below zero. */
  lemma UnionIsFullExactly(xs: seq<Interval>, lo: int)
    requires lo <= 0 && forall i :: 0 <= i < |xs| ==> lo <= xs[i].0
    ensures Union(xs) == |Points(xs, lo)| <==> forall i :: 0 <= i < |xs| && xs[i].0 < xs[i].1 ==> 0 <= xs[i].0
  {
    var all, some := Points(xs, lo), Points(xs, 0);
    forall t ensures (t in all <==> Covered(xs, t)) && (t in some <==> 0 <= t && Covered(xs, t)) {
      PointsAreCovered(xs, lo, t);
      PointsAreCovered(xs, 0, t);
    }
    if forall i :: 0 <= i < |xs| && xs[i].0 < xs[i].1 ==> 0 <= xs[i].0 {
      assert all == some;
    } else {
      var i :| 0 <= i < |xs| && xs[i].0 < xs[i].1 && xs[i].0 < 0;
      assert Covered(xs, xs[i].0);
      SubsetSize(some, all - {xs[i].0});
    }
  }

  /** For instance, two of the three points of this interval are not measured. */
  lemma NegativePointsAreIgnored()
    ensures Union([(-2, 1)]) == 1 && |Points([(-2, 1)], -2)| == 3
  {
    var xs: seq<Interval> := [(-2, 1)];
    assert xs[1..] == [];
    assert Points(xs, 0) == Range(0, 1) && Points(xs, -2) == Range(-2, 1);
    RangeSize(0, 1);
    RangeSize(-2, 1);
  }

  lemma SubsetSize(a: set<int>, b: set<int>)
    requires a <= b
    ensures |a| <= |b|
  {
    assert b == a + (b - a) && a !! (b - a);
  }

  // ---------------------------------------------------------------- overlap

  function Length(x: Interval): nat { Max(0, x.1 - x.0) }

  function Lengths(xs: seq<Interval>): nat {
    if xs == [] then 0 else Length(xs[0]) + Lengths(xs[1..])
  }

  ghost predicate NonNegative(xs: seq<Interval>) {
    forall i :: 0 <= i < |xs| ==> 0 <= xs[i].0
  }

  predicate Meet(a: Interval, b: Interval) {
    Max(a.0, b.0) < Min(a.1, b.1)
  }

  /** No point lies in two of the intervals. */
  ghost predicate Apart(xs: seq<Interval>) {
    forall i, j :: 0 <= i < j < |xs| ==> !Meet(xs[i], xs[j])
  }

  lemma InclusionExclusion(a: set<int>, b: set<int>)
    ensures |a + b| + |a * b| == |a| + |b|
  {
    assert a + b == a + (b - a * b) && a !! (b - a * b);
    assert b == (b - a * b) + a * b;
  }

  lemma MeetHasPoint(a: Interval, b: Interval)
    requires 0 <= a.0
    ensures Meet(a, b) <==> exists t :: t in Range(Max(a.0, 0), a.1) && b.0 <= t < b.1
  {
    if Meet(a, b) {
      assert Max(a.0, b.0) in Range(Max(a.0, 0), a.1);
    }
  }

  /** The union is at most the sum of the lengths, with equality exactly when no two
      intervals share a point. */
  lemma {:induction false} UnionAgainstLengths(xs: seq<Interval>)
    requires NonNegative(xs)
    ensures Union(xs) <= Lengths(xs)
    ensures Union(xs) == Lengths(xs) <==> Apart(xs)
  {
    if xs != [] {
      var rest := xs[1..];
      assert NonNegative(rest);
      UnionAgainstLengths(rest);
      var head, tail := Range(Max(xs[0].0, 0), xs[0].1), Points(rest, 0);
      RangeSize(Max(xs[0].0, 0), xs[0].1);
      InclusionExclusion(head, tail);
      assert Union(xs) + |head * tail| == Length(xs[0]) + Union(rest);
      HeadMeets(xs);
      ApartSplit(xs);
    }
  }

  lemma HeadMeets(xs: seq<Interval>)
    requires xs != [] && NonNegative(xs)
    ensures |Range(Max(xs[0].0, 0), xs[0].1) * Points(xs[1..], 0)| == 0
            <==> forall j :: 0 < j < |xs| ==> !Meet(xs[0], xs[j])
  {
    var common := Range(Max(xs[0].0, 0), xs[0].1) * Points(xs[1..], 0);
    forall j | 0 < j < |xs| && Meet(xs[0], xs[j]) ensures common != {} {
      MeetHasPoint(xs[0], xs[j]);
      var t :| t in Range(Max(xs[0].0, 0), xs[0].1) && xs[j].0 <= t < xs[j].1;
      PointsAreCovered(xs[1..], 0, t);
      assert xs[1..][j - 1] == xs[j];
      assert t in common;
    }
    if common != {} {
      var t :| t in common;
      PointsAreCovered(xs[1..], 0, t);
      var k :| 0 <= k < |xs| - 1 && xs[1..][k].0 <= t < xs[1..][k].1;
      assert xs[1..][k] == xs[k + 1] && Meet(xs[0], xs[k + 1]);
    }
  }

  lemma ApartSplit(xs: seq<Interval>)
    requires xs != []
    ensures Apart(xs) <==> Apart(xs[1..]) && forall j :: 0 < j < |xs| ==> !Meet(xs[0], xs[j])
  {
    if Apart(xs[1..]) && forall j :: 0 < j < |xs| ==> !Meet(xs[0], xs[j]) {
      forall i, j | 0 <= i < j < |xs| ensures !Meet(xs[i], xs[j]) {
        if i > 0 { assert xs[1..][i - 1] == xs[i] && xs[1..][j - 1] == xs[j]; }
      }
    }
  }
}
