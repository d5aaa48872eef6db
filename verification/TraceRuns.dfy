/** What holds of the span table after any sequence of requests. */
module TraceRuns {
  import opened Base
  import opened TraceStore
  import SelfTimes

  datatype Request =
    | Single(who: Sender, e: Event)
    | Batch(who: Sender, b: Envelope)

  function After(s: Store, r: Request): Store {
    match r
    case Single(who, e) => AfterIngest(s, who, e)
    case Batch(who, b) => AfterBatch(s, who, b)
  }

  function Replay(s: Store, rs: seq<Request>): Store
    decreases |rs|
  {
    if rs == [] then s else Replay(After(s, rs[0]), rs[1..])
  }

  // ---------------------------------------------------------------- the table

  ghost predicate Unique(rows: seq<Span>) {
    forall i, j :: 0 <= i < j < |rows| ==> !rows[j].Is(rows[i].trace, rows[i].span)
  }

  /** Parent and links of a row are earlier rows of the same trace. */
  ghost predicate RefersBack(rows: seq<Span>, i: nat)
    requires i < |rows|
  {
    && (rows[i].parent.Some? ==> Has(rows[..i], rows[i].trace, rows[i].parent.value))
    && forall k :: 0 <= k < |rows[i].links| ==> Has(rows[..i], rows[i].trace, rows[i].links[k])
  }

  /** Running spans have no end; the others ended not before their start. */
  predicate Timed(row: Span) {
    if row.status.Running? then row.end.None? && row.duration.None?
    else
      && row.status.status in STATUSES
      && row.end.Some? && row.duration == Some(row.end.value - row.start) && row.duration.value >= 0
  }

  ghost predicate Table(rows: seq<Span>, maxSpans: nat) {
    && Unique(rows)
    && (forall i :: 0 <= i < |rows| ==> RefersBack(rows, i) && Timed(rows[i]))
    && (forall t :: Count(rows, t) <= maxSpans)
  }

  /** The same span, possibly ended since; once ended it does not change. */
  predicate Continues(a: Span, b: Span) {
    && b == a.(status := b.status, end := b.end, duration := b.duration)
    && (!a.status.Running? ==> b == a)
  }

  ghost predicate Grows(a: seq<Span>, b: seq<Span>) {
    |a| <= |b| && forall i :: 0 <= i < |a| ==> Continues(a[i], b[i])
  }

  // ---------------------------------------------------------------- one event

  /** The related spans of an accepted start exist. */
  lemma {:induction false} RelativesExist(rows: seq<Span>, t: Trace, parent: Option<Id>, related: seq<Option<string>>)
    requires RelativesError(rows, t, parent, related).None?
    ensures forall k :: 0 <= k < |related| ==>
              && related[k].Some? && Has(rows, t, related[k].value)
              && (parent == related[k] ==> rows[Find(rows, t, related[k].value)].status.Running?)
  {
    if related != [] {
      RelativesExist(rows, t, parent, related[1..]);
      assert forall k :: 0 < k < |related| ==> related[k] == related[1..][k - 1];
    }
  }

  lemma {:induction false} TextsOfAll(items: seq<Option<string>>)
    requires forall k :: 0 <= k < |items| ==> items[k].Some?
    ensures |Texts(items)| == |items| && forall k :: 0 <= k < |items| ==> Texts(items)[k] == items[k].value
  {
    if items != [] {
      assert forall k :: 0 <= k < |items| - 1 ==> items[1..][k] == items[k + 1];
      TextsOfAll(items[1..]);
    }
  }

  lemma CountSnoc(rows: seq<Span>, row: Span, t: Trace)
    ensures Count(rows + [row], t) == Count(rows, t) + (if row.trace == t then 1 else 0)
  {
    assert (rows + [row])[..|rows|] == rows;
  }

  lemma {:induction false} CountSameTraces(a: seq<Span>, b: seq<Span>, t: Trace)
    requires |a| == |b| && forall i :: 0 <= i < |a| ==> a[i].trace == b[i].trace
    ensures Count(a, t) == Count(b, t)
    decreases |a|
  {
    if a != [] { CountSameTraces(a[..|a| - 1], b[..|b| - 1], t); }
  }

  lemma HasInPrefix(a: seq<Span>, b: seq<Span>, n: nat, t: Trace, s: Id)
    requires n <= |a| && n <= |b| && forall i :: 0 <= i < n ==> a[i].trace == b[i].trace && a[i].span == b[i].span
    ensures Has(a[..n], t, s) ==> Has(b[..n], t, s)
  {
    if i :| 0 <= i < n && a[..n][i].Is(t, s) {
      assert b[..n][i].Is(t, s);
    }
  }

  /** A table that keeps every row's identity and references keeps its order. */
  lemma ReferencesKept(a: seq<Span>, b: seq<Span>, i: nat)
    requires Grows(a, b) && i < |a| && RefersBack(a, i)
    ensures RefersBack(b, i)
  {
    forall s | Has(a[..i], a[i].trace, s) ensures Has(b[..i], a[i].trace, s) {
      HasInPrefix(a, b, i, a[i].trace, s);
    }
  }

  lemma StartRefersBack(rows: seq<Span>, who: Sender, t: Trace, s: Id, e: Event)
    requires StartError(rows, t, e).None?
    ensures var row := Started(who, t, s, e);
            RefersBack(rows + [row], |rows|) && Timed(row)
  {
    var row := Started(who, t, s, e);
    var related := Related(e);
    RelativesExist(rows, t, Parent(e), related);
    var links := Items(e.links);
    var shift := if e.parent.Value? then 1 else 0;
    assert forall k :: 0 <= k < |links| ==> links[k] == related[k + shift];
    TextsOfAll(links);
    assert (rows + [row])[..|rows|] == rows;
    if e.parent.Value? { assert related[0] == Some(e.parent.v); }
  }

  lemma StartKeeps(rows: seq<Span>, maxSpans: nat, who: Sender, t: Trace, s: Id, e: Event)
    requires Table(rows, maxSpans) && StartError(rows, t, e).None? && !Has(rows, t, s) && Count(rows, t) < maxSpans
    ensures var v := rows + [Started(who, t, s, e)]; Table(v, maxSpans) && Grows(rows, v)
  {
    var row := Started(who, t, s, e);
    var v := rows + [row];
    StartRefersBack(rows, who, t, s, e);
    hide StartError;
    forall i | 0 <= i < |v| ensures RefersBack(v, i) && Timed(v[i]) {
      if i < |rows| { ReferencesKept(rows, v, i); }
    }
    forall u ensures Count(v, u) <= maxSpans {
      CountSnoc(rows, row, u);
    }
  }

  lemma EndKeeps(rows: seq<Span>, maxSpans: nat, i: nat, who: Sender, e: Event)
    requires Table(rows, maxSpans) && i < |rows| && EndError(rows[i], who, e).None?
    ensures var v := rows[i := Closed(rows[i], e)]; Table(v, maxSpans) && Grows(rows, v)
  {
    var v := rows[i := Closed(rows[i], e)];
    assert Grows(rows, v);
    forall j | 0 <= j < |v| ensures RefersBack(v, j) && Timed(v[j]) {
      ReferencesKept(rows, v, j);
    }
    forall t ensures Count(v, t) <= maxSpans {
      CountSameTraces(rows, v, t);
    }
  }

  lemma EventKeeps(rows: seq<Span>, maxSpans: nat, who: Sender, e: Event)
    requires Table(rows, maxSpans) && Ingested(rows, maxSpans, who, e).Ok?
    ensures var v := Ingested(rows, maxSpans, who, e).value; Table(v, maxSpans) && Grows(rows, v)
  {
    var t := (who.agent, who.session, e.trace.v);
    hide Table, StartError, EndError;
    if e.event.StartEvent? {
      StartKeeps(rows, maxSpans, who, t, e.span.v, e);
    } else {
      EndKeeps(rows, maxSpans, Find(rows, t, e.span.v), who, e);
    }
  }

  lemma GrowsAgain(a: seq<Span>, b: seq<Span>, c: seq<Span>)
    requires Grows(a, b) && Grows(b, c)
    ensures Grows(a, c)
  {
    forall i | 0 <= i < |a| ensures Continues(a[i], c[i]) {
      assert Continues(a[i], b[i]) && Continues(b[i], c[i]);
    }
  }

  lemma {:induction false} EventsKeep(rows: seq<Span>, maxSpans: nat, who: Sender, es: seq<Event>)
    requires Table(rows, maxSpans) && IngestedAll(rows, maxSpans, who, es).Ok?
    ensures var v := IngestedAll(rows, maxSpans, who, es).value; Table(v, maxSpans) && Grows(rows, v)
    decreases |es|
  {
    if es != [] {
      hide Ingested, Table, Grows;
      EventKeeps(rows, maxSpans, who, es[0]);
      var next := Ingested(rows, maxSpans, who, es[0]).value;
      EventsKeep(next, maxSpans, who, es[1..]);
      GrowsAgain(rows, next, IngestedAll(rows, maxSpans, who, es).value);
    } else {
      assert forall i :: 0 <= i < |rows| ==> Continues(rows[i], rows[i]);
    }
  }

  lemma RequestKeeps(s: Store, r: Request)
    requires Table(s.rows, s.maxSpans)
    ensures var v := After(s, r); v.maxSpans == s.maxSpans && Table(v.rows, v.maxSpans) && Grows(s.rows, v.rows)
  {
    assert forall i :: 0 <= i < |s.rows| ==> Continues(s.rows[i], s.rows[i]);
    assert Grows(s.rows, s.rows);
    hide Ingested, Table, Grows;
    match r
    case Single(who, e) =>
      if Ingested(s.rows, s.maxSpans, who, e).Ok? { EventKeeps(s.rows, s.maxSpans, who, e); }
    case Batch(who, b) =>
      if EnvelopeError(b).None? && IngestedAll(s.rows, s.maxSpans, who, Events(b)).Ok? {
        EventsKeep(s.rows, s.maxSpans, who, Events(b));
      }
  }

  // ---------------------------------------------------------------- runs

  /** Whatever is sent: spans stay unique, refer back within their trace, end at most once and
      not before their start, and no trace exceeds its limit. */
  lemma {:induction false} RunKeepsTable(s: Store, rs: seq<Request>)
    requires Table(s.rows, s.maxSpans)
    ensures var v := Replay(s, rs); v.maxSpans == s.maxSpans && Table(v.rows, v.maxSpans) && Grows(s.rows, v.rows)
    decreases |rs|
  {
    if rs == [] {
      assert forall i :: 0 <= i < |s.rows| ==> Continues(s.rows[i], s.rows[i]);
    } else {
      RequestKeeps(s, rs[0]);
      hide After, Table, Grows;
      RunKeepsTable(After(s, rs[0]), rs[1..]);
      GrowsAgain(s.rows, After(s, rs[0]).rows, Replay(s, rs).rows);
    }
  }

  function Empty(maxSpans: nat): Store { Store([], 0, 0, 0, maxSpans) }

  lemma Reachable(maxSpans: nat, rs: seq<Request>)
    ensures Table(Replay(Empty(maxSpans), rs).rows, maxSpans)
  {
    RunKeepsTable(Empty(maxSpans), rs);
  }

  /** Following parents strictly descends in the table, so the spans form a forest: the n-th
      ancestor of row i, if there is one, is no later than row i - n. */
  function Ancestor(rows: seq<Span>, i: nat, n: nat): Option<nat>
    requires i < |rows|
    ensures Ancestor(rows, i, n).Some? ==> Ancestor(rows, i, n).value < |rows|
  {
    if n == 0 then Some(i)
    else
      var p := Ancestor(rows, i, n - 1);
      if p.None? || rows[p.value].parent.None? then None
      else
        var j := Find(rows, rows[p.value].trace, rows[p.value].parent.value);
        if j == |rows| then None else Some(j)
  }

  lemma {:induction false} AncestorsDescend(rows: seq<Span>, maxSpans: nat, i: nat, n: nat)
    requires Table(rows, maxSpans) && i < |rows|
    ensures Ancestor(rows, i, n).Some? ==>
              Ancestor(rows, i, n).value + n <= i && rows[Ancestor(rows, i, n).value].trace == rows[i].trace
    decreases n
  {
    hide Table;
    if n > 0 {
      AncestorsDescend(rows, maxSpans, i, n - 1);
      var p := Ancestor(rows, i, n - 1);
      if p.Some? && rows[p.value].parent.Some? {
        ParentIsEarlier(rows, maxSpans, p.value);
      }
    }
  }

  lemma ParentsDescend(maxSpans: nat, rs: seq<Request>, i: nat, n: nat)
    requires i < |Replay(Empty(maxSpans), rs).rows|
    ensures var rows := Replay(Empty(maxSpans), rs).rows;
            && (Ancestor(rows, i, n).Some? ==>
                  Ancestor(rows, i, n).value + n <= i && rows[Ancestor(rows, i, n).value].trace == rows[i].trace)
            && (n > i ==> Ancestor(rows, i, n).None?)
  {
    Reachable(maxSpans, rs);
    hide Table, Replay, Ancestor;
    AncestorsDescend(Replay(Empty(maxSpans), rs).rows, maxSpans, i, n);
  }

  lemma ParentIsEarlier(rows: seq<Span>, maxSpans: nat, i: nat)
    requires Table(rows, maxSpans) && i < |rows| && rows[i].parent.Some?
    ensures Find(rows, rows[i].trace, rows[i].parent.value) < i
  {
    assert RefersBack(rows, i);
    var j :| 0 <= j < i && rows[..i][j].Is(rows[i].trace, rows[i].parent.value);
    assert rows[j].Is(rows[i].trace, rows[i].parent.value);
    var k := Find(rows, rows[i].trace, rows[i].parent.value);
    UniquePosition(rows, j, k, rows[i].trace, rows[i].parent.value);
  }

  lemma UniquePosition(rows: seq<Span>, j: nat, k: nat, t: Trace, s: Id)
    requires Unique(rows) && j < |rows| && k < |rows| && rows[j].Is(t, s) && rows[k].Is(t, s)
    ensures j == k
  {
  }

  // ---------------------------------------------------------------- what the profiler gets

  function AsRow(s: Span): SelfTimes.Row {
    SelfTimes.Row(s.trace, s.span, s.parent, s.clock, s.start, if s.end.Some? && s.end.value >= 0 then Some(s.end.value) else None)
  }

  /** `spans`: the rows of a Session, or of one of its traces, in table order. */
  function Query(rows: seq<Span>, agent: string, session: string, trace: Option<string>): seq<SelfTimes.Row>
    decreases |rows|
  {
    if rows == [] then []
    else
      var s := rows[|rows| - 1];
      Query(rows[..|rows| - 1], agent, session, trace)
      + (if s.trace.0 == agent && s.trace.1 == session && (trace.None? || s.trace.2 == trace.value) then [AsRow(s)] else [])
  }

  predicate Selected(s: Span, agent: string, session: string, trace: Option<string>) {
    s.trace.0 == agent && s.trace.1 == session && (trace.None? || s.trace.2 == trace.value)
  }

  lemma {:induction false} QueryIsSelection(rows: seq<Span>, agent: string, session: string, trace: Option<string>, row: SelfTimes.Row)
    ensures row in Query(rows, agent, session, trace)
            <==> exists i :: 0 <= i < |rows| && Selected(rows[i], agent, session, trace) && AsRow(rows[i]) == row
    decreases |rows|
  {
    if rows != [] {
      var front := rows[..|rows| - 1];
      QueryIsSelection(front, agent, session, trace, row);
      if i :| 0 <= i < |rows| && Selected(rows[i], agent, session, trace) && AsRow(rows[i]) == row {
        if i < |rows| - 1 { assert front[i] == rows[i]; }
      }
    }
  }

  lemma {:induction false} QueryIsUnique(rows: seq<Span>, agent: string, session: string, trace: Option<string>)
    requires Unique(rows)
    ensures var q := Query(rows, agent, session, trace);
            forall i, j :: 0 <= i < j < |q| ==> q[i].Key() != q[j].Key()
    decreases |rows|
  {
    if rows != [] {
      var front := rows[..|rows| - 1];
      var last := rows[|rows| - 1];
      QueryIsUnique(front, agent, session, trace);
      var q := Query(front, agent, session, trace);
      forall i | 0 <= i < |q| ensures q[i].Key() != AsRow(last).Key() {
        QueryIsSelection(front, agent, session, trace, q[i]);
        var k :| 0 <= k < |front| && Selected(front[k], agent, session, trace) && AsRow(front[k]) == q[i];
        assert !rows[|rows| - 1].Is(rows[k].trace, rows[k].span);
      }
    }
  }

  /** So any answer to a query, after any requests, is a table to which the profiler's
      accounting of self times applies. */
  lemma QueryIsWellFormed(maxSpans: nat, rs: seq<Request>, agent: string, session: string, trace: Option<string>)
    ensures SelfTimes.WellFormed(Query(Replay(Empty(maxSpans), rs).rows, agent, session, trace))
  {
    Reachable(maxSpans, rs);
    var rows := Replay(Empty(maxSpans), rs).rows;
    var q := Query(rows, agent, session, trace);
    QueryIsUnique(rows, agent, session, trace);
    forall n | 0 <= n < |q| ensures q[n].Ordered() && SelfTimes.HasParent(q, q[n]) {
      assert q[n] in q;
      QueryIsSelection(rows, agent, session, trace, q[n]);
      var i :| 0 <= i < |rows| && Selected(rows[i], agent, session, trace) && AsRow(rows[i]) == q[n];
      assert Timed(rows[i]);
      if rows[i].parent.Some? {
        ParentIsEarlier(rows, maxSpans, i);
        var j := Find(rows, rows[i].trace, rows[i].parent.value);
        var p := AsRow(rows[j]);
        assert Selected(rows[j], agent, session, trace);
        QueryIsSelection(rows, agent, session, trace, p);
        var m :| 0 <= m < |q| && q[m] == p;
        assert q[n].ChildOf(q[m]);
      }
    }
  }

  /** From the wire to the profile: if the profile of a query has no warning, its self times
      add up to the roots' durations plus the time siblings shared. */
  lemma ProfileAccountsForRoots(maxSpans: nat, rs: seq<Request>, agent: string, session: string, trace: Option<string>)
    requires SelfTimes.Complete(Query(Replay(Empty(maxSpans), rs).rows, agent, session, trace))
    ensures var q := Query(Replay(Empty(maxSpans), rs).rows, agent, session, trace);
            && SelfTimes.SelfSum(q, q) == SelfTimes.RootWork(q) + SelfTimes.ExcessSum(q, q) >= SelfTimes.RootWork(q)
            && (SelfTimes.SelfSum(q, q) == SelfTimes.RootWork(q) <==>
                  forall i :: 0 <= i < |q| ==> SelfTimes.SiblingsApart(q, q[i]))
  {
    QueryIsWellFormed(maxSpans, rs, agent, session, trace);
    SelfTimes.SelfTimesCoverRoots(Query(Replay(Empty(maxSpans), rs).rows, agent, session, trace));
  }
}
