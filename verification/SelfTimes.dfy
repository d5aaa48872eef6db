/** Self times over a table of spans: what a span spent outside its children. */
module SelfTimes {
  import opened Base
  import opened Profile

  type SpanId = string

  /** Agent, Session and trace. */
  type Trace = (string, string, string)

  /** What the self time depends on. The store never yields a span that ends before it starts. */
  datatype Row = Row(trace: Trace, span: SpanId, parent: Option<SpanId>, clock: string, start: nat, end: Option<nat>)
  {
    function Key(): (Trace, SpanId) { (trace, span) }

    predicate Ordered() { end.Some? ==> start <= end.value }

    function Duration(): int
      requires end.Some?
    {
      end.value - start
    }

    predicate ChildOf(p: Row) { trace == p.trace && parent == Some(p.span) }
  }

  /** The rows grouped under a span, in table order. */
  function Children(rows: seq<Row>, p: Row): seq<Row> {
    if rows == [] then []
    else (if rows[0].ChildOf(p) then [rows[0]] else []) + Children(rows[1..], p)
  }

  predicate Measured(row: Row, child: Row)
  {
    child.clock == row.clock && child.end.Some?
  }

  /** The timing of a child is usable. */
  predicate Fits(row: Row, child: Row)
    requires row.end.Some?
  {
    Measured(row, child) && row.start <= child.start && child.end.value <= row.end.value
  }

  predicate AllFit(row: Row, cs: seq<Row>)
    requires row.end.Some?
  {
    forall i :: 0 <= i < |cs| ==> Fits(row, cs[i])
  }

  function Clipped(row: Row, child: Row): Interval
    requires row.end.Some? && Measured(row, child)
  {
    (Max(row.start, child.start), Min(row.end.value, child.end.value))
  }

  function Intervals(row: Row, cs: seq<Row>): seq<Interval>
    requires row.end.Some?
  {
    if cs == [] then []
    else (if Measured(row, cs[0]) then [Clipped(row, cs[0])] else []) + Intervals(row, cs[1..])
  }

  /** None stands for an unusable child timing. */
  function SelfTime(rows: seq<Row>, row: Row): Option<int>
    requires row.end.Some?
  {
    var cs := Children(rows, row);
    if AllFit(row, cs) then Some(row.Duration() - Union(Intervals(row, cs))) else None
  }

  // ---------------------------------------------------------------- one span

  ghost predicate Within(xs: seq<Interval>, lo: int, hi: int) {
    forall i :: 0 <= i < |xs| ==> lo <= xs[i].0 && xs[i].1 <= hi
  }

  lemma UnionWithin(xs: seq<Interval>, lo: int, hi: int)
    requires Within(xs, lo, hi) && lo <= hi
    ensures Union(xs) <= hi - lo
  {
    forall t | t in Points(xs, 0) ensures t in Range(lo, hi) {
      PointsAreCovered(xs, 0, t);
    }
    SubsetSize(Points(xs, 0), Range(lo, hi));
    RangeSize(lo, hi);
  }

  lemma {:induction false} FittingIntervals(row: Row, cs: seq<Row>)
    requires row.end.Some? && AllFit(row, cs)
    ensures var xs := Intervals(row, cs);
            && |xs| == |cs| && Within(xs, row.start, row.end.value)
            && forall i :: 0 <= i < |cs| ==> cs[i].end.Some? && xs[i] == (cs[i].start, cs[i].end.value)
  {
    if cs != [] {
      assert forall i :: 0 <= i < |cs| - 1 ==> cs[1..][i] == cs[i + 1];
      FittingIntervals(row, cs[1..]);
      var xs := Intervals(row, cs);
      assert Fits(row, cs[0]);
      assert xs == [(cs[0].start as int, cs[0].end.value as int)] + Intervals(row, cs[1..]);
    }
  }

  /** A usable self time lies between zero and the span's duration. */
  lemma SelfTimeInRange(rows: seq<Row>, row: Row)
    requires row.end.Some? && row.Ordered()
    ensures SelfTime(rows, row).Some? ==> 0 <= SelfTime(rows, row).value <= row.Duration()
  {
    var cs := Children(rows, row);
    if AllFit(row, cs) {
      FittingIntervals(row, cs);
      UnionWithin(Intervals(row, cs), row.start, row.end.value);
    }
  }

  // ---------------------------------------------------------------- the whole table

  /** The profile has no warning: every span ended and every child timing is usable. */
  ghost predicate Complete(rows: seq<Row>) {
    forall i :: 0 <= i < |rows| ==> rows[i].end.Some? && SelfTime(rows, rows[i]).Some?
  }

  /** Spans are unique, ordered in time, and every parent is in the table. */
  ghost predicate WellFormed(rows: seq<Row>) {
    && (forall i, j :: 0 <= i < j < |rows| ==> rows[i].Key() != rows[j].Key())
    && (forall i :: 0 <= i < |rows| ==> rows[i].Ordered())
    && (forall i :: 0 <= i < |rows| ==> HasParent(rows, rows[i]))
  }

  ghost predicate HasParent(ps: seq<Row>, c: Row) {
    c.parent.Some? ==> exists j :: 0 <= j < |ps| && c.ChildOf(ps[j])
  }

  function Weight(row: Row): int {
    if row.end.Some? then row.Duration() else 0
  }

  function Work(rows: seq<Row>): int {
    if rows == [] then 0 else Weight(rows[0]) + Work(rows[1..])
  }

  function RootWork(rows: seq<Row>): int {
    if rows == [] then 0 else (if rows[0].parent.None? then Weight(rows[0]) else 0) + RootWork(rows[1..])
  }

  /** The work of the children of each of `ps`, summed. */
  function ChildWork(ps: seq<Row>, rows: seq<Row>): int {
    if ps == [] then 0 else Work(Children(rows, ps[0])) + ChildWork(ps[1..], rows)
  }

  function SelfSum(ps: seq<Row>, rows: seq<Row>): int
    requires forall i :: 0 <= i < |ps| ==> ps[i].end.Some? && SelfTime(rows, ps[i]).Some?
  {
    if ps == [] then 0 else SelfTime(rows, ps[0]).value + SelfSum(ps[1..], rows)
  }

  /** How much the children of a span ran at the same time. */
  function Excess(rows: seq<Row>, p: Row): int
    requires p.end.Some?
  {
    var cs := Children(rows, p);
    Work(cs) - Union(Intervals(p, cs))
  }

  function ExcessSum(ps: seq<Row>, rows: seq<Row>): int
    requires forall i :: 0 <= i < |ps| ==> ps[i].end.Some?
  {
    if ps == [] then 0 else Excess(rows, ps[0]) + ExcessSum(ps[1..], rows)
  }

  /** No two children of one span run at the same time. */
  ghost predicate SiblingsApart(rows: seq<Row>, p: Row)
    requires p.end.Some?
  {
    Apart(Intervals(p, Children(rows, p)))
  }

  /** How many of `ps` a row is a child of. */
  function Parents(ps: seq<Row>, c: Row): nat {
    if ps == [] then 0 else (if c.ChildOf(ps[0]) then 1 else 0) + Parents(ps[1..], c)
  }

  lemma OneMore(n: nat, w: int)
    ensures (1 + n) * w == w + n * w
  {
  }

  /** A row adds its weight to the work of each of its parents. */
  lemma ChildrenStep(p: Row, rows: seq<Row>)
    requires rows != []
    ensures Work(Children(rows, p))
         == (if rows[0].ChildOf(p) then Weight(rows[0]) else 0) + Work(Children(rows[1..], p))
  {
    var rest := Children(rows[1..], p);
    if rows[0].ChildOf(p) {
      assert Children(rows, p) == [rows[0]] + rest && ([rows[0]] + rest)[1..] == rest;
    } else {
      assert Children(rows, p) == rest;
    }
  }

  lemma {:induction false} ChildWorkStep(ps: seq<Row>, rows: seq<Row>)
    requires rows != []
    ensures ChildWork(ps, rows) == Parents(ps, rows[0]) * Weight(rows[0]) + ChildWork(ps, rows[1..])
  {
    if ps != [] {
      hide Weight, Work, Children;
      ChildWorkStep(ps[1..], rows);
      ChildrenStep(ps[0], rows);
      OneMore(Parents(ps[1..], rows[0]), Weight(rows[0]));
    }
  }

  lemma {:induction false} NoParent(ps: seq<Row>, c: Row)
    requires forall j :: 0 <= j < |ps| ==> !c.ChildOf(ps[j])
    ensures Parents(ps, c) == 0
  {
    if ps != [] {
      assert forall j :: 0 <= j < |ps| - 1 ==> ps[1..][j] == ps[j + 1];
      NoParent(ps[1..], c);
    }
  }

  lemma {:induction false} OneParent(ps: seq<Row>, c: Row, k: nat)
    requires forall i, j :: 0 <= i < j < |ps| ==> ps[i].Key() != ps[j].Key()
    requires k < |ps| && c.ChildOf(ps[k])
    ensures Parents(ps, c) == 1
  {
    assert forall j :: 0 <= j < |ps| - 1 ==> ps[1..][j] == ps[j + 1];
    if k == 0 {
      forall j | 0 <= j < |ps| - 1 ensures !c.ChildOf(ps[1..][j]) {
        assert ps[0].Key() != ps[j + 1].Key();
      }
      NoParent(ps[1..], c);
    } else {
      assert ps[0].Key() != ps[k].Key();
      OneParent(ps[1..], c, k - 1);
    }
  }

  lemma ParentsOfRow(ps: seq<Row>, c: Row)
    requires forall i, j :: 0 <= i < j < |ps| ==> ps[i].Key() != ps[j].Key()
    requires HasParent(ps, c)
    ensures Parents(ps, c) == if c.parent.Some? then 1 else 0
  {
    if c.parent.Some? {
      var k :| 0 <= k < |ps| && c.ChildOf(ps[k]);
      OneParent(ps, c, k);
    } else {
      NoParent(ps, c);
    }
  }

  /** Every span but the roots is somebody's child exactly once. */
  lemma {:induction false} WorkSplits(ps: seq<Row>, rows: seq<Row>)
    requires forall i, j :: 0 <= i < j < |ps| ==> ps[i].Key() != ps[j].Key()
    requires forall i :: 0 <= i < |rows| ==> HasParent(ps, rows[i])
    ensures Work(rows) == RootWork(rows) + ChildWork(ps, rows)
  {
    hide HasParent;
    if rows == [] {
      NoChildWork(ps);
    } else {
      assert forall i :: 0 <= i < |rows| - 1 ==> rows[1..][i] == rows[i + 1];
      WorkSplits(ps, rows[1..]);
      ChildWorkStep(ps, rows);
      ParentsOfRow(ps, rows[0]);
      hide ChildWork, Parents;
    }
  }

  lemma {:induction false} NoChildWork(ps: seq<Row>)
    ensures ChildWork(ps, []) == 0
  {
    if ps != [] { NoChildWork(ps[1..]); }
  }

  lemma {:induction false} SumsAgree(ps: seq<Row>, rows: seq<Row>)
    requires forall i :: 0 <= i < |ps| ==> ps[i].end.Some? && SelfTime(rows, ps[i]).Some?
    ensures SelfSum(ps, rows) == Work(ps) - ChildWork(ps, rows) + ExcessSum(ps, rows)
  {
    if ps != [] {
      assert forall i :: 0 <= i < |ps| - 1 ==> ps[1..][i] == ps[i + 1];
      SumsAgree(ps[1..], rows);
    }
  }

  lemma {:induction false} WorkIsLengths(row: Row, cs: seq<Row>)
    requires row.end.Some? && AllFit(row, cs) && forall i :: 0 <= i < |cs| ==> cs[i].Ordered()
    ensures Work(cs) == Lengths(Intervals(row, cs))
  {
    if cs != [] {
      assert forall i :: 0 <= i < |cs| - 1 ==> cs[1..][i] == cs[i + 1];
      WorkIsLengths(row, cs[1..]);
      assert Fits(row, cs[0]) && cs[0].Ordered();
      assert Intervals(row, cs) == [Clipped(row, cs[0])] + Intervals(row, cs[1..]);
      assert Lengths(Intervals(row, cs)) == Length(Clipped(row, cs[0])) + Lengths(Intervals(row, cs[1..]));
    }
  }

  lemma {:induction false} ChildrenAreRows(rows: seq<Row>, p: Row)
    ensures forall i :: 0 <= i < |Children(rows, p)| ==> Children(rows, p)[i] in rows
  {
    if rows != [] { ChildrenAreRows(rows[1..], p); }
  }

  lemma ExcessMeansOverlap(rows: seq<Row>, p: Row)
    requires p.end.Some? && SelfTime(rows, p).Some? && forall i :: 0 <= i < |rows| ==> rows[i].Ordered()
    ensures Excess(rows, p) >= 0 && (Excess(rows, p) == 0 <==> SiblingsApart(rows, p))
  {
    var cs := Children(rows, p);
    ChildrenAreRows(rows, p);
    FittingIntervals(p, cs);
    WorkIsLengths(p, cs);
    UnionAgainstLengths(Intervals(p, cs));
  }

  lemma {:induction false} ExcessSumZero(ps: seq<Row>, rows: seq<Row>)
    requires forall i :: 0 <= i < |rows| ==> rows[i].Ordered()
    requires forall i :: 0 <= i < |ps| ==> ps[i].end.Some? && SelfTime(rows, ps[i]).Some?
    ensures ExcessSum(ps, rows) >= 0
    ensures ExcessSum(ps, rows) == 0 <==> forall i :: 0 <= i < |ps| ==> SiblingsApart(rows, ps[i])
  {
    if ps != [] {
      assert forall i :: 0 <= i < |ps| - 1 ==> ps[1..][i] == ps[i + 1];
      ExcessSumZero(ps[1..], rows);
      ExcessMeansOverlap(rows, ps[0]);
      assert (forall i :: 0 <= i < |ps| ==> SiblingsApart(rows, ps[i])) ==>
               forall i :: 0 <= i < |ps| - 1 ==> SiblingsApart(rows, ps[1..][i]);
      if SiblingsApart(rows, ps[0]) && forall i :: 0 <= i < |ps| - 1 ==> SiblingsApart(rows, ps[1..][i]) {
        forall i | 0 <= i < |ps| ensures SiblingsApart(rows, ps[i]) {
          assert i == 0 || ps[i] == ps[1..][i - 1];
        }
      }
    }
  }

  /** Over a complete, well-formed table the self times add up to the duration of the roots
      plus what siblings did at the same time; so to at least the roots' duration, and to
      exactly that when and only when no two siblings overlap. */
  lemma SelfTimesCoverRoots(rows: seq<Row>)
    requires WellFormed(rows) && Complete(rows)
    ensures SelfSum(rows, rows) == RootWork(rows) + ExcessSum(rows, rows)
    ensures SelfSum(rows, rows) >= RootWork(rows)
    ensures SelfSum(rows, rows) == RootWork(rows) <==> forall i :: 0 <= i < |rows| ==> SiblingsApart(rows, rows[i])
  {
    SumsAgree(rows, rows);
    WorkSplits(rows, rows);
    ExcessSumZero(rows, rows);
  }

  lemma {:induction false} ChildrenExactly(rows: seq<Row>, p: Row, c: Row)
    ensures c in Children(rows, p) <==> c in rows && c.ChildOf(p)
  {
    if rows != [] {
      assert rows == [rows[0]] + rows[1..];
      ChildrenExactly(rows[1..], p, c);
    }
  }

  /** A profile has no warning exactly if every span ended, and each child of a span was timed by
      the span's clock, started no earlier and ended no later than the span. */
  lemma CompleteExactly(rows: seq<Row>)
    ensures Complete(rows) <==>
              && (forall i :: 0 <= i < |rows| ==> rows[i].end.Some?)
              && (forall i, j :: 0 <= i < |rows| && 0 <= j < |rows| && rows[j].ChildOf(rows[i]) ==>
                    && rows[i].end.Some? && rows[j].end.Some? && rows[j].clock == rows[i].clock
                    && rows[i].start <= rows[j].start && rows[j].end.value <= rows[i].end.value)
  {
    forall i | 0 <= i < |rows| && rows[i].end.Some?
      ensures SelfTime(rows, rows[i]).Some? <==>
                forall j :: 0 <= j < |rows| && rows[j].ChildOf(rows[i]) ==> Fits(rows[i], rows[j])
    {
      FitsExactly(rows, rows[i]);
    }
    hide SelfTime;
  }

  /** A child of the span is running at this time. */
  ghost predicate Busy(rows: seq<Row>, p: Row, t: int) {
    exists j :: 0 <= j < |rows| && rows[j].ChildOf(p) && rows[j].end.Some? && rows[j].start <= t < rows[j].end.value
  }

  /** A usable self time is the number of time units of the span in which no child is running. */
  lemma SelfTimeIsIdleTime(rows: seq<Row>, p: Row)
    requires p.end.Some? && p.Ordered() && SelfTime(rows, p).Some?
    ensures SelfTime(rows, p).value == |set t | t in Range(p.start, p.end.value) && !Busy(rows, p, t)|
  {
    var cs := Children(rows, p);
    var points := Points(Intervals(p, cs), 0);
    FittingIntervals(p, cs);
    forall t ensures t in points <==> t >= 0 && Busy(rows, p, t) {
      PointsAreCovered(Intervals(p, cs), 0, t);
      CoveredIsBusy(rows, p, t);
    }
    hide Children, Intervals, Points, Busy, AllFit;
    forall t | t in points ensures t in Range(p.start, p.end.value) {
      PointsAreCovered(Intervals(p, cs), 0, t);
    }
    assert (set t | t in Range(p.start, p.end.value) && !Busy(rows, p, t)) == Range(p.start, p.end.value) - points;
    RangeSize(p.start, p.end.value);
    DifferenceSize(Range(p.start, p.end.value), points);
  }

  lemma DifferenceSize(a: set<int>, b: set<int>)
    requires b <= a
    ensures |a - b| == |a| - |b|
  {
    assert a == b + (a - b);
  }

  lemma CoveredIsBusy(rows: seq<Row>, p: Row, t: int)
    requires p.end.Some? && AllFit(p, Children(rows, p))
    ensures Covered(Intervals(p, Children(rows, p)), t) <==> Busy(rows, p, t)
  {
    var cs := Children(rows, p);
    var xs := Intervals(p, cs);
    FittingIntervals(p, cs);
    hide Children, Intervals, AllFit;
    if i :| 0 <= i < |xs| && xs[i].0 <= t < xs[i].1 {
      assert cs[i] in cs;
      ChildrenExactly(rows, p, cs[i]);
      var j :| 0 <= j < |rows| && rows[j] == cs[i];
    }
    if j :| 0 <= j < |rows| && rows[j].ChildOf(p) && rows[j].end.Some? && rows[j].start <= t < rows[j].end.value {
      ChildrenExactly(rows, p, rows[j]);
      var i :| 0 <= i < |cs| && cs[i] == rows[j];
      assert xs[i].0 <= t < xs[i].1;
    }
  }

  lemma FitsExactly(rows: seq<Row>, p: Row)
    requires p.end.Some?
    ensures SelfTime(rows, p).Some? <==> forall j :: 0 <= j < |rows| && rows[j].ChildOf(p) ==> Fits(p, rows[j])
  {
    var cs := Children(rows, p);
    hide Children, Fits;
    if AllFit(p, cs) {
      forall j | 0 <= j < |rows| && rows[j].ChildOf(p) ensures Fits(p, rows[j]) {
        ChildrenExactly(rows, p, rows[j]);
        var i :| 0 <= i < |cs| && cs[i] == rows[j];
      }
    }
    if forall j :: 0 <= j < |rows| && rows[j].ChildOf(p) ==> Fits(p, rows[j]) {
      forall i | 0 <= i < |cs| ensures Fits(p, cs[i]) {
        assert cs[i] in cs;
        ChildrenExactly(rows, p, cs[i]);
        var j :| 0 <= j < |rows| && rows[j] == cs[i];
      }
    }
  }

  // ---------------------------------------------------------------- the loops

  type ChildKey = (Trace, Option<SpanId>)

  function ChildrenAt(rows: seq<Row>, key: ChildKey): seq<Row> {
    if rows == [] then []
    else ChildrenAt(rows[..|rows| - 1], key)
         + (if (rows[|rows| - 1].trace, rows[|rows| - 1].parent) == key then [rows[|rows| - 1]] else [])
  }

  lemma {:induction false} ChildrenConcat(a: seq<Row>, b: seq<Row>, p: Row)
    ensures Children(a + b, p) == Children(a, p) + Children(b, p)
  {
    if a == [] {
      assert a + b == b;
    } else {
      assert (a + b)[1..] == a[1..] + b;
      ChildrenConcat(a[1..], b, p);
    }
  }

  lemma {:induction false} ChildrenAreGrouped(rows: seq<Row>, p: Row)
    ensures ChildrenAt(rows, (p.trace, Some(p.span))) == Children(rows, p)
    decreases |rows|
  {
    if rows != [] {
      var last := rows[|rows| - 1];
      assert rows == rows[..|rows| - 1] + [last];
      ChildrenAreGrouped(rows[..|rows| - 1], p);
      ChildrenConcat(rows[..|rows| - 1], [last], p);
      assert Children([last], p) == if last.ChildOf(p) then [last] else [];
    }
  }

  /** The first loop of `profile`: rows by trace and parent. */
  method GroupChildren(rows: seq<Row>) returns (children: map<ChildKey, seq<Row>>)
    ensures Grouped(rows, children)
  {
    children := map[];
    var i := 0;
    while i < |rows|
      invariant 0 <= i <= |rows|
      invariant forall key :: ChildrenAt(rows[..i], key) == if key in children then children[key] else []
    {
      var key := (rows[i].trace, rows[i].parent);
      assert rows[..i + 1][..i] == rows[..i];
      children := children[key := (if key in children then children[key] else []) + [rows[i]]];
      i := i + 1;
    }
    assert rows[..i] == rows;
    forall p: Row ensures Children(rows, p) == if (p.trace, Some(p.span)) in children then children[(p.trace, Some(p.span))] else [] {
      ChildrenAreGrouped(rows, p);
    }
  }

  lemma {:induction false} IntervalsSnoc(row: Row, cs: seq<Row>, n: nat)
    requires row.end.Some? && n < |cs|
    ensures Intervals(row, cs[..n + 1])
         == Intervals(row, cs[..n]) + (if Measured(row, cs[n]) then [Clipped(row, cs[n])] else [])
    decreases n
  {
    assert cs[..n + 1][0] == cs[0] && cs[..n + 1][1..] == cs[1..][..n];
    if n > 0 {
      assert cs[..n][0] == cs[0] && cs[..n][1..] == cs[1..][..n - 1];
      IntervalsSnoc(row, cs[1..], n - 1);
    }
  }

  /** The inner loop: clips the measured children and notes whether all timings are usable. */
  method Measure(row: Row, cs: seq<Row>) returns (valid: bool, intervals: seq<Interval>)
    requires row.end.Some?
    ensures valid <==> AllFit(row, cs)
    ensures intervals == Intervals(row, cs)
  {
    valid, intervals := true, [];
    var i := 0;
    while i < |cs|
      invariant 0 <= i <= |cs|
      invariant valid <==> AllFit(row, cs[..i])
      invariant intervals == Intervals(row, cs[..i])
    {
      var child := cs[i];
      IntervalsSnoc(row, cs, i);
      assert AllFit(row, cs[..i + 1]) <==> AllFit(row, cs[..i]) && Fits(row, child) by {
        assert cs[..i + 1] == cs[..i] + [child];
        if AllFit(row, cs[..i + 1]) {
          assert cs[..i + 1][i] == child;
          assert forall k :: 0 <= k < i ==> cs[..i][k] == cs[..i + 1][k];
        }
      }
      if child.clock != row.clock || child.end.None? {
        valid := false;
      } else {
        if child.start < row.start || child.end.value > row.end.value {
          valid := false;
        }
        intervals := intervals + [(Max(row.start, child.start), Min(row.end.value, child.end.value))];
      }
      i := i + 1;
    }
    assert cs[..i] == cs;
  }

  /** The self times after the first n rows; a repeated key keeps its last row. */
  function Recorded(rows: seq<Row>, n: nat): map<(Trace, SpanId), Option<int>>
    requires n <= |rows|
  {
    if n == 0 then map[]
    else if rows[n - 1].end.None? then Recorded(rows, n - 1)
    else Recorded(rows, n - 1)[rows[n - 1].Key() := SelfTime(rows, rows[n - 1])]
  }

  /** With unique keys, as the store has them, every finished span has its own self time,
      and nothing else is recorded. */
  lemma {:induction false} RecordedIsSelfTime(rows: seq<Row>, n: nat)
    requires n <= |rows| && forall i, j :: 0 <= i < j < |rows| ==> rows[i].Key() != rows[j].Key()
    ensures forall i :: 0 <= i < n && rows[i].end.Some? ==>
              rows[i].Key() in Recorded(rows, n) && Recorded(rows, n)[rows[i].Key()] == SelfTime(rows, rows[i])
    ensures forall key :: key in Recorded(rows, n) ==> exists i :: 0 <= i < n && rows[i].end.Some? && rows[i].Key() == key
  {
    hide SelfTime;
    if n > 0 { RecordedIsSelfTime(rows, n - 1); }
  }

  ghost predicate CompleteUpTo(rows: seq<Row>, n: nat)
    requires n <= |rows|
  {
    forall i :: 0 <= i < n ==> rows[i].end.Some? && SelfTime(rows, rows[i]).Some?
  }

  /** `children` is the grouping of `rows`. */
  ghost predicate Grouped(rows: seq<Row>, children: map<ChildKey, seq<Row>>) {
    forall p: Row :: Children(rows, p) == if (p.trace, Some(p.span)) in children then children[(p.trace, Some(p.span))] else []
  }

  /** The body of the second loop for a finished span. */
  method SelfTimeOf(ghost rows: seq<Row>, children: map<ChildKey, seq<Row>>, row: Row) returns (self: Option<int>)
    requires row.end.Some? && Grouped(rows, children)
    ensures self == SelfTime(rows, row)
  {
    var cs := if (row.trace, Some(row.span)) in children then children[(row.trace, Some(row.span))] else [];
    assert cs == Children(rows, row);
    var valid, intervals := Measure(row, cs);
    var union := UnionNs(intervals);
    self := if valid then Some(row.Duration() - union) else None;
  }

  /** The self time of every finished span, and whether there was no warning. */
  method Profiled(rows: seq<Row>) returns (selfTimes: map<(Trace, SpanId), Option<int>>, complete: bool)
    ensures complete <==> Complete(rows)
    ensures selfTimes == Recorded(rows, |rows|)
  {
    hide SelfTime, Grouped, Children;
    var children := GroupChildren(rows);
    selfTimes, complete := map[], true;
    var n := 0;
    while n < |rows|
      invariant 0 <= n <= |rows|
      invariant complete <==> CompleteUpTo(rows, n)
      invariant selfTimes == Recorded(rows, n)
    {
      if rows[n].end.None? {
        complete := false;
      } else {
        var self := SelfTimeOf(rows, children, rows[n]);
        selfTimes := selfTimes[rows[n].Key() := self];
        complete := complete && self.Some?;
      }
      n := n + 1;
    }
  }
}
