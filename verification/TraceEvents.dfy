/** That the span table says what the accepted events said, over every sequence of requests. */
module TraceEvents {
  import opened Base
  import opened TraceStore
  import opened TraceRuns

  /** Where a sender's event belongs. */
  predicate Belongs(t: Trace, s: Id, who: Sender, e: Event) {
    t == (who.agent, who.session, t.2) && e.trace == Value(t.2) && e.span == Value(s)
  }

  /** The row is the one this start event describes, whatever has become of the span since. */
  predicate StartedBy(row: Span, who: Sender, e: Event) {
    && e.event.StartEvent? && Belongs(row.trace, row.span, who, e)
    && e.start == Value(row.start) && e.clock == Value(row.clock)
    && e.kind == Value(row.kind) && e.name == Value(row.name)
    && row.parent == (if e.parent.Value? then Some(e.parent.v) else None)
    && |row.links| == |Items(e.links)|
    && (forall k :: 0 <= k < |row.links| ==> Items(e.links)[k] == Some(row.links[k]))
    && row.source == who.source && row.run == who.run
  }

  /** And it ended as this end event says. */
  predicate EndedBy(row: Span, who: Sender, e: Event) {
    && e.event.EndEvent? && Belongs(row.trace, row.span, who, e)
    && row.status.Ended? && e.status == Value(row.status.status)
    && row.end.Some? && e.end == Value(row.end.value)
    && row.duration == Some(row.end.value - row.start) && row.start <= row.end.value
    && e.clock == Value(row.clock) && row.source == who.source && (who.source == SESSION_SDK ==> row.run == who.run)
  }

  /** The table has a row for the event. */
  ghost predicate Recorded(rows: seq<Span>, who: Sender, e: Event) {
    exists k :: 0 <= k < |rows| && (StartedBy(rows[k], who, e) || EndedBy(rows[k], who, e))
  }

  // ---------------------------------------------------------------- one event

  lemma {:induction false} RelativesHaveNames(rows: seq<Span>, t: Trace, parent: Option<Id>, related: seq<Option<string>>)
    requires RelativesError(rows, t, parent, related).None?
    ensures forall k :: 0 <= k < |related| ==> related[k].Some?
  {
    if related != [] {
      RelativesHaveNames(rows, t, parent, related[1..]);
      assert forall k :: 0 < k < |related| ==> related[k] == related[1..][k - 1];
    }
  }

  lemma LinksAreStored(rows: seq<Span>, t: Trace, e: Event)
    requires RelativesError(rows, t, Parent(e), Related(e)).None?
    ensures var links := Texts(Items(e.links));
            |links| == |Items(e.links)| && forall k :: 0 <= k < |links| ==> Items(e.links)[k] == Some(links[k])
  {
    var links := Items(e.links);
    RelativesHaveNames(rows, t, Parent(e), Related(e));
    hide RelativesError;
    if e.parent.Value? {
      forall k | 0 <= k < |links| ensures links[k].Some? {
        assert Related(e)[k + 1] == links[k];
      }
    } else {
      assert Related(e) == links;
    }
    hide Related;
    TextsOfAll(links);
  }

  lemma StartedIsTheEvents(rows: seq<Span>, t: Trace, who: Sender, e: Event)
    requires e.event.StartEvent? && StartError(rows, t, e).None?
    requires e.trace.Value? && e.span.Value? && t == (who.agent, who.session, e.trace.v)
    ensures var row := Started(who, t, e.span.v, e);
            StartedBy(row, who, e) && row.status.Running? && row.end == None && row.duration == None
  {
    hide RelativesError, GoodPath, GoodText, SessionDisk.ValidId, Texts, Related;
    assert RelativesError(rows, t, Parent(e), Related(e)).None?;
    LinksAreStored(rows, t, e);
    hide StartError;
  }

  /** An accepted start appends one running row, and it is the event's. */
  lemma StartIsAppended(rows: seq<Span>, maxSpans: nat, who: Sender, e: Event)
    requires e.event.StartEvent? && Ingested(rows, maxSpans, who, e).Ok?
    ensures var v := Ingested(rows, maxSpans, who, e).value;
            && |v| == |rows| + 1 && v[..|rows|] == rows
            && StartedBy(v[|rows|], who, e) && v[|rows|].status.Running? && v[|rows|].end == None && v[|rows|].duration == None
  {
    hide StartError, Started, StartedBy, GoodPath, SessionDisk.ValidId;
    StartedIsTheEvents(rows, (who.agent, who.session, e.trace.v), who, e);
  }

  /** An accepted end changes one row, the running one of its span, and that row ended as the
      event says. */
  lemma EndIsWritten(rows: seq<Span>, maxSpans: nat, who: Sender, e: Event) returns (i: nat)
    requires e.event.EndEvent? && Ingested(rows, maxSpans, who, e).Ok?
    ensures var v := Ingested(rows, maxSpans, who, e).value;
            && i < |rows| && |v| == |rows| && rows[i].status.Running? && EndedBy(v[i], who, e)
            && v == rows[i := v[i]] && Continues(rows[i], v[i])
  {
    i := Find(rows, (who.agent, who.session, e.trace.v), e.span.v);
  }

  lemma EventIsRecorded(rows: seq<Span>, maxSpans: nat, who: Sender, e: Event)
    requires Ingested(rows, maxSpans, who, e).Ok?
    ensures Recorded(Ingested(rows, maxSpans, who, e).value, who, e)
  {
    hide Ingested, StartedBy, EndedBy;
    if e.event.StartEvent? {
      StartIsAppended(rows, maxSpans, who, e);
    } else if e.event.EndEvent? {
      var i := EndIsWritten(rows, maxSpans, who, e);
    } else {
      OthersAreRefused(rows, maxSpans, who, e);
    }
  }

  lemma OthersAreRefused(rows: seq<Span>, maxSpans: nat, who: Sender, e: Event)
    requires e.event.OtherEvent?
    ensures Ingested(rows, maxSpans, who, e).Err?
  {
  }

  /** What is recorded stays recorded while the table grows. */
  lemma RecordedStays(a: seq<Span>, b: seq<Span>, who: Sender, e: Event)
    requires Recorded(a, who, e) && Grows(a, b)
    ensures Recorded(b, who, e)
  {
    var k :| 0 <= k < |a| && (StartedBy(a[k], who, e) || EndedBy(a[k], who, e));
    assert Continues(a[k], b[k]);
    assert StartedBy(b[k], who, e) || EndedBy(b[k], who, e);
  }

  // ---------------------------------------------------------------- requests

  /** The request carries the event. */
  predicate Carries(r: Request, who: Sender, e: Event) {
    match r
    case Single(w, f) => w == who && f == e
    case Batch(w, b) => w == who && b.events.Some? && Some(e) in b.events.value
  }

  /** The request is accepted: it is counted as such. */
  predicate Accepts(s: Store, r: Request) {
    After(s, r).accepted > s.accepted
  }

  lemma {:induction false} BatchIsRecorded(rows: seq<Span>, maxSpans: nat, who: Sender, es: seq<Event>, e: Event)
    requires Table(rows, maxSpans) && IngestedAll(rows, maxSpans, who, es).Ok? && e in es
    ensures Recorded(IngestedAll(rows, maxSpans, who, es).value, who, e)
    decreases |es|
  {
    hide Ingested, Table, Grows, Recorded;
    var next := Ingested(rows, maxSpans, who, es[0]).value;
    EventKeeps(rows, maxSpans, who, es[0]);
    if e == es[0] {
      EventIsRecorded(rows, maxSpans, who, e);
      EventsKeep(next, maxSpans, who, es[1..]);
      RecordedStays(next, IngestedAll(next, maxSpans, who, es[1..]).value, who, e);
    } else {
      BatchIsRecorded(next, maxSpans, who, es[1..], e);
    }
  }

  lemma RequestIsRecorded(s: Store, r: Request, who: Sender, e: Event)
    requires Table(s.rows, s.maxSpans) && Accepts(s, r) && Carries(r, who, e)
    ensures Recorded(After(s, r).rows, who, e)
  {
    hide Ingested, Table, Recorded;
    match r
    case Single(_, _) => EventIsRecorded(s.rows, s.maxSpans, who, e);
    case Batch(_, b) =>
      var k :| 0 <= k < |b.events.value| && b.events.value[k] == Some(e);
      assert Events(b)[k] == e;
      BatchIsRecorded(s.rows, s.maxSpans, who, Events(b), e);
  }

  // ---------------------------------------------------------------- runs

  /** The i-th request of the run carries the event and is accepted. */
  predicate AcceptedAt(s: Store, rs: seq<Request>, i: nat, who: Sender, e: Event)
    requires i < |rs|
    decreases |rs|
  {
    if i == 0 then Accepts(s, rs[0]) && Carries(rs[0], who, e)
    else AcceptedAt(After(s, rs[0]), rs[1..], i - 1, who, e)
  }

  lemma {:induction false} AcceptedIsRecorded(s: Store, rs: seq<Request>, i: nat, who: Sender, e: Event)
    requires Table(s.rows, s.maxSpans) && i < |rs| && AcceptedAt(s, rs, i, who, e)
    ensures Recorded(Replay(s, rs).rows, who, e)
    decreases |rs|
  {
    hide Table, Recorded, Accepts, Carries, After, Grows;
    RequestKeeps(s, rs[0]);
    if i == 0 {
      RequestIsRecorded(s, rs[0], who, e);
      RunKeepsTable(After(s, rs[0]), rs[1..]);
      RecordedStays(After(s, rs[0]).rows, Replay(s, rs).rows, who, e);
    } else {
      AcceptedIsRecorded(After(s, rs[0]), rs[1..], i - 1, who, e);
    }
  }

  /** After any requests: a span whose start was accepted has what that event said, and if an
      end of it was accepted too, singly or in a batch, it has ended as that event said. Its
      duration is the difference of the two times that were sent. */
  lemma SpanSaysWhatWasSent(maxSpans: nat, rs: seq<Request>, i: nat, who: Sender, start: Event,
                            j: nat, closer: Sender, end: Event)
    returns (k: nat)
    requires i < |rs| && AcceptedAt(Empty(maxSpans), rs, i, who, start) && start.event.StartEvent?
    requires j < |rs| && AcceptedAt(Empty(maxSpans), rs, j, closer, end) && end.event.EndEvent?
    requires who.agent == closer.agent && who.session == closer.session && start.trace == end.trace && start.span == end.span
    ensures var rows := Replay(Empty(maxSpans), rs).rows;
            && k < |rows| && StartedBy(rows[k], who, start) && EndedBy(rows[k], closer, end)
            && start.start.Value? && end.end.Value?
            && rows[k].duration == Some(end.end.v - start.start.v)
  {
    hide AcceptedAt, Replay, RefersBack, Timed;
    var rows := Replay(Empty(maxSpans), rs).rows;
    Reachable(maxSpans, rs);
    assert Table(Empty(maxSpans).rows, maxSpans);
    AcceptedIsRecorded(Empty(maxSpans), rs, i, who, start);
    AcceptedIsRecorded(Empty(maxSpans), rs, j, closer, end);
    k :| 0 <= k < |rows| && StartedBy(rows[k], who, start);
    var m :| 0 <= m < |rows| && EndedBy(rows[m], closer, end);
    assert rows[m].Is(rows[k].trace, rows[k].span);
    UniquePosition(rows, k, m, rows[k].trace, rows[k].span);
  }

  /** And so do the rows of any query of its Session or trace. */
  lemma QuerySaysWhatWasSent(maxSpans: nat, rs: seq<Request>, i: nat, who: Sender, start: Event,
                             j: nat, closer: Sender, end: Event, trace: Option<string>)
    requires i < |rs| && AcceptedAt(Empty(maxSpans), rs, i, who, start) && start.event.StartEvent?
    requires j < |rs| && AcceptedAt(Empty(maxSpans), rs, j, closer, end) && end.event.EndEvent?
    requires who.agent == closer.agent && who.session == closer.session && start.trace == end.trace && start.span == end.span
    requires trace.Some? ==> start.trace == Value(trace.value)
    ensures start.trace.Value? && start.span.Value? && start.clock.Value? && start.start.Value? && end.end.Value?
    ensures 0 <= start.start.v <= end.end.v
    ensures SelfTimes.Row((who.agent, who.session, start.trace.v), start.span.v,
                          if start.parent.Value? then Some(start.parent.v) else None, start.clock.v,
                          start.start.v, Some(end.end.v))
            in Query(Replay(Empty(maxSpans), rs).rows, who.agent, who.session, trace)
  {
    var rows := Replay(Empty(maxSpans), rs).rows;
    var k := SpanSaysWhatWasSent(maxSpans, rs, i, who, start, j, closer, end);
    hide Replay, AcceptedAt, Query;
    assert Selected(rows[k], who.agent, who.session, trace);
    QueryIsSelection(rows, who.agent, who.session, trace, AsRow(rows[k]));
  }

  // ---------------------------------------------------------------- nothing else is in the table

  lemma {:induction false} BatchRowWasSent(rows: seq<Span>, maxSpans: nat, who: Sender, es: seq<Event>, k: nat) returns (e: Event)
    requires Table(rows, maxSpans) && IngestedAll(rows, maxSpans, who, es).Ok?
    requires |rows| <= k < |IngestedAll(rows, maxSpans, who, es).value|
    ensures e in es && StartedBy(IngestedAll(rows, maxSpans, who, es).value[k], who, e)
    decreases |es|
  {
    hide Ingested, Table, StartedBy;
    var next := Ingested(rows, maxSpans, who, es[0]).value;
    var last := IngestedAll(next, maxSpans, who, es[1..]).value;
    EventKeeps(rows, maxSpans, who, es[0]);
    EventsKeep(next, maxSpans, who, es[1..]);
    if k < |next| {
      e := es[0];
      OneRowWasSent(rows, maxSpans, who, e, k);
      StartedStays(next[k], last[k], who, e);
    } else {
      e := BatchRowWasSent(next, maxSpans, who, es[1..], k);
    }
  }

  lemma OneRowWasSent(rows: seq<Span>, maxSpans: nat, who: Sender, e: Event, k: nat)
    requires Ingested(rows, maxSpans, who, e).Ok? && |rows| <= k < |Ingested(rows, maxSpans, who, e).value|
    ensures StartedBy(Ingested(rows, maxSpans, who, e).value[k], who, e)
  {
    hide StartedBy;
    if e.event.StartEvent? {
      StartIsAppended(rows, maxSpans, who, e);
    }
  }

  lemma StartedStays(a: Span, b: Span, who: Sender, e: Event)
    requires StartedBy(a, who, e) && Continues(a, b)
    ensures StartedBy(b, who, e)
  {
  }

  lemma RequestRowWasSent(s: Store, r: Request, k: nat) returns (who: Sender, e: Event)
    requires Table(s.rows, s.maxSpans) && |s.rows| <= k < |After(s, r).rows|
    ensures Accepts(s, r) && Carries(r, who, e) && StartedBy(After(s, r).rows[k], who, e)
  {
    hide Ingested, Table, StartedBy;
    who := r.who;
    match r
    case Single(_, f) =>
      e := f;
      OneRowWasSent(s.rows, s.maxSpans, who, e, k);
    case Batch(_, b) =>
      e := BatchRowWasSent(s.rows, s.maxSpans, who, Events(b), k);
      var n :| 0 <= n < |Events(b)| && Events(b)[n] == e;
      assert b.events.value[n] == Some(e);
  }

  /** Every row comes from a start event that was accepted. */
  lemma {:induction false} RowsWereSent(s: Store, rs: seq<Request>, k: nat) returns (i: nat, who: Sender, e: Event)
    requires Table(s.rows, s.maxSpans) && |s.rows| <= k < |Replay(s, rs).rows|
    ensures i < |rs| && AcceptedAt(s, rs, i, who, e) && StartedBy(Replay(s, rs).rows[k], who, e)
    decreases |rs|
  {
    hide Table, StartedBy, Accepts, Carries, After;
    var v := After(s, rs[0]);
    RequestKeeps(s, rs[0]);
    if k < |v.rows| {
      i := 0;
      who, e := RequestRowWasSent(s, rs[0], k);
      RunKeepsTable(v, rs[1..]);
      StartedStays(v.rows[k], Replay(s, rs).rows[k], who, e);
    } else {
      i, who, e := RowsWereSent(v, rs[1..], k);
      i := i + 1;
    }
  }

  // ---------------------------------------------------------------- what is accepted

  /** The sender and the event can be identified, and the event has JSON text within the limit. */
  predicate Addressed(who: Sender, e: Event) {
    && SessionDisk.ValidId(who.agent) && SessionDisk.ValidId(who.session)
    && e.finite && e.size <= LIMIT && ValidField(e.trace) && ValidField(e.span)
  }

  /** The members of a start event that refer to nothing are in order. */
  ghost predicate StartInOrder(e: Event) {
    && e.kind.Value? && e.kind.v in KINDS && e.name.Value? && 0 < |e.name.v| <= 256
    && (e.kind.v == "phase" ==> e.name.v in PHASES)
    && e.start.Value? && e.start.v >= 0 && ValidField(e.clock) && GoodPath(e)
    && (e.parent.Missing? || ValidField(e.parent)) && !e.links.IllTyped? && |Items(e.links)| <= 128
    && (forall i :: 0 <= i < |e.texts| ==> GoodText(e.texts[i]))
    && !e.iteration.IllTyped? && (e.iteration.Value? ==> e.iteration.v >= 0)
  }

  /** The spans a start refers to are in the table, and its parent is still running. */
  ghost predicate RelativesThere(rows: seq<Span>, t: Trace, e: Event) {
    forall n :: 0 <= n < |Related(e)| ==>
      && Related(e)[n].Some? && SessionDisk.ValidId(Related(e)[n].value)
      && exists k :: 0 <= k < |rows| && rows[k].Is(t, Related(e)[n].value)
                     && (Parent(e) == Related(e)[n] ==> rows[k].status.Running?)
  }

  lemma {:induction false} RelativesExactly(rows: seq<Span>, t: Trace, parent: Option<Id>, related: seq<Option<string>>)
    requires Unique(rows)
    ensures RelativesError(rows, t, parent, related).None? <==>
              forall n :: 0 <= n < |related| ==>
                && related[n].Some? && SessionDisk.ValidId(related[n].value)
                && exists k :: 0 <= k < |rows| && rows[k].Is(t, related[n].value)
                               && (parent == related[n] ==> rows[k].status.Running?)
  {
    if related != [] {
      RelativesExactly(rows, t, parent, related[1..]);
      assert forall n :: 0 <= n < |related| - 1 ==> related[1..][n] == related[n + 1];
      assert forall n :: 0 < n < |related| ==> related[n] == related[1..][n - 1];
      if related[0].Some? {
        FoundRow(rows, t, related[0].value, parent == related[0]);
      }
      hide Unique;
    }
  }

  lemma FoundRow(rows: seq<Span>, t: Trace, s: Id, running: bool)
    requires Unique(rows)
    ensures var i := Find(rows, t, s);
            (i < |rows| && (running ==> rows[i].status.Running?))
            <==> exists k :: 0 <= k < |rows| && rows[k].Is(t, s) && (running ==> rows[k].status.Running?)
  {
    var i := Find(rows, t, s);
    if k :| 0 <= k < |rows| && rows[k].Is(t, s) && (running ==> rows[k].status.Running?) {
      UniquePosition(rows, i, k, t, s);
    }
  }

  lemma NoMemberError(rows: seq<Span>, t: Trace, e: Event)
    requires RelativesError(rows, t, Parent(e), Related(e)).None?
    ensures StartError(rows, t, e).None? <==> StartInOrder(e)
  {
    hide RelativesError, GoodPath, GoodText, SessionDisk.ValidId;
  }

  lemma StartErrorExactly(rows: seq<Span>, t: Trace, e: Event)
    requires Unique(rows)
    ensures StartError(rows, t, e).None? <==> StartInOrder(e) && RelativesThere(rows, t, e)
  {
    RelativesExactly(rows, t, Parent(e), Related(e));
    hide Unique, StartInOrder, Related;
    if RelativesError(rows, t, Parent(e), Related(e)).None? {
      NoMemberError(rows, t, e);
      hide StartError, RelativesError;
    } else {
      hide RelativesError, GoodPath, GoodText;
    }
  }

  /** A start is accepted exactly if it is addressed and in order, its span is new, its trace is
      not full, and what it refers to is there. */
  lemma StartIsAcceptedExactly(rows: seq<Span>, maxSpans: nat, who: Sender, e: Event)
    requires Unique(rows) && e.event.StartEvent?
    ensures Ingested(rows, maxSpans, who, e).Ok? <==>
              && Addressed(who, e) && StartInOrder(e)
              && var t := (who.agent, who.session, e.trace.v);
                 !Has(rows, t, e.span.v) && Count(rows, t) < maxSpans && RelativesThere(rows, t, e)
  {
    hide StartError, StartInOrder, RelativesThere, Unique, Started, SessionDisk.ValidId;
    if Addressed(who, e) {
      StartErrorExactly(rows, (who.agent, who.session, e.trace.v), e);
    }
  }

  /** An end is accepted exactly if it is addressed, its span is running and was started by the
      same sender, it ends no earlier than it started and on the same clock, and its status and
      metrics are in order. */
  lemma EndIsAcceptedExactly(rows: seq<Span>, maxSpans: nat, who: Sender, e: Event)
    requires Unique(rows) && e.event.EndEvent?
    ensures Ingested(rows, maxSpans, who, e).Ok? <==>
              && Addressed(who, e) && e.end.Value? && e.status.Value? && e.status.v in STATUSES
              && !e.metrics.IllTyped? && (e.metrics.Value? ==> GoodMetrics(e.metrics.v))
              && exists k :: 0 <= k < |rows| && rows[k].Is((who.agent, who.session, e.trace.v), e.span.v)
                   && rows[k].status.Running? && rows[k].source == who.source
                   && (who.source == SESSION_SDK ==> rows[k].run == who.run)
                   && rows[k].start <= e.end.v && e.clock == Value(rows[k].clock)
  {
    if Addressed(who, e) {
      var t := (who.agent, who.session, e.trace.v);
      var i := Find(rows, t, e.span.v);
      forall k | 0 <= k < |rows| && rows[k].Is(t, e.span.v) ensures k == i {
        UniquePosition(rows, i, k, t, e.span.v);
      }
    }
    hide GoodMetrics, SessionDisk.ValidId;
  }
}
