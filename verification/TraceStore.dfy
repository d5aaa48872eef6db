/** The collector's span table: single events, batches, and what a start may refer to. */
module TraceStore {
  import opened Base
  import SessionDisk

  type Id = string

  /** A JSON member: absent (or null where null means absent), of the wrong type, or a value. */
  datatype Field<+T> = Missing | IllTyped | Value(v: T)

  datatype EventKind = StartEvent | EndEvent | OtherEvent

  /** An incoming event object. `size` is the length of its JSON text; `finite` says that it
      has one at all. */
  datatype Event = Event(event: EventKind, finite: bool, size: nat, trace: Field<string>, span: Field<string>,
                         kind: Field<string>, name: Field<string>, start: Field<int>, clock: Field<string>,
                         semantic: Field<seq<Option<string>>>, parent: Field<string>, links: Field<seq<Option<string>>>,
                         texts: seq<Field<string>>, iteration: Field<int>,
                         end: Field<int>, status: Field<string>, metrics: Field<seq<(string, Option<real>)>>)

  datatype Status = Running | Ended(status: string)

  type Trace = (string, string, string)

  /** A stored span. */
  datatype Span = Span(trace: Trace, span: Id, parent: Option<Id>, links: seq<Id>, kind: string, name: string,
                       start: nat, clock: string, source: string, run: Option<string>,
                       status: Status, end: Option<int>, duration: Option<int>)
  {
    predicate Is(t: Trace, s: Id) { trace == t && span == s }
  }

  datatype TraceError =
    | InvalidId | NotFinite | TooLarge | DuplicateStart | SpanLimit | InvalidKind | InvalidName | InvalidStart
    | InvalidPath | InvalidLinks | UnknownRelative | ParentEnded | InvalidText | InvalidIteration | UnknownPhase
    | NoStart | DuplicateEnd | SourceMismatch | RunMismatch | InvalidEnd | ClockMismatch | InvalidStatus
    | InvalidMetrics | NotAnEvent | BadBatch

  /** Who sends: framework collector or session socket, and the run bound to the latter. */
  datatype Sender = Sender(agent: string, session: string, source: string, run: Option<string>)

  const KINDS := {"run", "turn", "llm", "tool", "subagent", "phase", "process"}
  const PHASES := {"approval", "executor_queue", "tool_execution", "transport", "mcp_initialize",
                   "mcp_discovery", "mcp_call", "server_queue", "server_ttft", "server_generation"}
  const STATUSES := {"ok", "error", "cancelled"}
  const SESSION_SDK := "session-sdk"
  const LIMIT := 65536

  predicate ValidField(f: Field<string>) { f.Value? && SessionDisk.ValidId(f.v) }

  // ---------------------------------------------------------------- the table

  predicate Has(rows: seq<Span>, t: Trace, s: Id) {
    exists i :: 0 <= i < |rows| && rows[i].Is(t, s)
  }

  /** The position of a span, or the length of the table. */
  function Find(rows: seq<Span>, t: Trace, s: Id): (i: nat)
    ensures i <= |rows| && (i < |rows| ==> rows[i].Is(t, s))
    ensures i == |rows| <==> !Has(rows, t, s)
  {
    if rows == [] then 0
    else if rows[0].Is(t, s) then 0
    else
      var i := Find(rows[1..], t, s);
      assert forall k :: 0 < k < |rows| ==> rows[k] == rows[1..][k - 1];
      i + 1
  }

  function Count(rows: seq<Span>, t: Trace): nat {
    if rows == [] then 0 else Count(rows[..|rows| - 1], t) + (if rows[|rows| - 1].trace == t then 1 else 0)
  }

  // ---------------------------------------------------------------- starts

  function Items(f: Field<seq<Option<string>>>): seq<Option<string>> {
    if f.Value? then f.v else []
  }

  function Parent(e: Event): Option<Id> {
    if e.parent.Value? then Some(e.parent.v) else None
  }

  predicate GoodPath(e: Event) {
    && !e.semantic.IllTyped? && |Items(e.semantic)| <= 32
    && forall i :: 0 <= i < |Items(e.semantic)| ==> Items(e.semantic)[i].Some? && 0 < |Items(e.semantic)[i].value| <= 128
  }

  /** The first complaint about the spans a start refers to, parent first. */
  function RelativesError(rows: seq<Span>, t: Trace, parent: Option<Id>, related: seq<Option<string>>): Option<TraceError> {
    if related == [] then None
    else if related[0].None? || !SessionDisk.ValidId(related[0].value) then Some(InvalidId)
    else
      var i := Find(rows, t, related[0].value);
      if i == |rows| then Some(UnknownRelative)
      else if parent == related[0] && !rows[i].status.Running? then Some(ParentEnded)
      else RelativesError(rows, t, parent, related[1..])
  }

  predicate GoodText(f: Field<string>) { f.Missing? || (f.Value? && |f.v| <= 256) }

  function Related(e: Event): seq<Option<string>> {
    (if e.parent.Value? then [Some(e.parent.v)] else []) + Items(e.links)
  }

  function StartError(rows: seq<Span>, t: Trace, e: Event): Option<TraceError> {
    if !e.kind.Value? || e.kind.v !in KINDS then Some(InvalidKind)
    else if !e.name.Value? || !(0 < |e.name.v| <= 256) then Some(InvalidName)
    else if !e.start.Value? || e.start.v < 0 then Some(InvalidStart)
    else if !ValidField(e.clock) then Some(InvalidId)
    else if !GoodPath(e) then Some(InvalidPath)
    else if e.parent.IllTyped? || (e.parent.Value? && !SessionDisk.ValidId(e.parent.v)) then Some(InvalidId)
    else if e.links.IllTyped? || |Items(e.links)| > 128 then Some(InvalidLinks)
    else if RelativesError(rows, t, Parent(e), Related(e)).Some? then RelativesError(rows, t, Parent(e), Related(e))
    else if exists i :: 0 <= i < |e.texts| && !GoodText(e.texts[i]) then Some(InvalidText)
    else if e.iteration.IllTyped? || (e.iteration.Value? && e.iteration.v < 0) then Some(InvalidIteration)
    else if e.kind.v == "phase" && e.name.v !in PHASES then Some(UnknownPhase)
    else None
  }

  function Texts(items: seq<Option<string>>): seq<string> {
    if items == [] then [] else (if items[0].Some? then [items[0].value] else []) + Texts(items[1..])
  }

  function Started(who: Sender, t: Trace, s: Id, e: Event): Span
    requires e.kind.Value? && e.name.Value? && e.start.Value? && e.start.v >= 0 && e.clock.Value?
  {
    Span(t, s, Parent(e), Texts(Items(e.links)), e.kind.v, e.name.v, e.start.v, e.clock.v, who.source, who.run, Running, None, None)
  }

  // ---------------------------------------------------------------- ends

  predicate GoodMetrics(ms: seq<(string, Option<real>)>) {
    forall i :: 0 <= i < |ms| ==> ms[i].0 != "" && ms[i].1.Some? && ms[i].1.value >= 0.0
  }

  function EndError(row: Span, who: Sender, e: Event): Option<TraceError> {
    if !row.status.Running? then Some(DuplicateEnd)
    else if row.source != who.source then Some(SourceMismatch)
    else if who.source == SESSION_SDK && row.run != who.run then Some(RunMismatch)
    else if !e.end.Value? || e.end.v < row.start then Some(InvalidEnd)
    else if e.clock != Value(row.clock) then Some(ClockMismatch)
    else if !e.status.Value? || e.status.v !in STATUSES then Some(InvalidStatus)
    else if e.metrics.IllTyped? || (e.metrics.Value? && !GoodMetrics(e.metrics.v)) then Some(InvalidMetrics)
    else None
  }

  function Closed(row: Span, e: Event): Span
    requires e.end.Value? && e.status.Value?
  {
    row.(status := Ended(e.status.v), end := Some(e.end.v), duration := Some(e.end.v - row.start))
  }

  // ---------------------------------------------------------------- one event

  /** The spans after one event, or why it is refused. */
  function Ingested(rows: seq<Span>, maxSpans: nat, who: Sender, e: Event): Result<seq<Span>, TraceError> {
    if !SessionDisk.ValidId(who.agent) || !SessionDisk.ValidId(who.session) then Err(InvalidId)
    else if !e.finite then Err(NotFinite)
    else if e.size > LIMIT then Err(TooLarge)
    else if !ValidField(e.trace) || !ValidField(e.span) then Err(InvalidId)
    else
      var t := (who.agent, who.session, e.trace.v);
      var i := Find(rows, t, e.span.v);
      match e.event
      case StartEvent =>
        if i < |rows| then Err(DuplicateStart)
        else if Count(rows, t) >= maxSpans then Err(SpanLimit)
        else if StartError(rows, t, e).Some? then Err(StartError(rows, t, e).value)
        else Ok(rows + [Started(who, t, e.span.v, e)])
      case EndEvent =>
        if i == |rows| then Err(NoStart)
        else if EndError(rows[i], who, e).Some? then Err(EndError(rows[i], who, e).value)
        else Ok(rows[i := Closed(rows[i], e)])
      case OtherEvent => Err(NotAnEvent)
  }

  /** Ingesting events one by one until one is refused. */
  function IngestedAll(rows: seq<Span>, maxSpans: nat, who: Sender, es: seq<Event>): Result<seq<Span>, TraceError>
    decreases |es|
  {
    if es == [] then Ok(rows)
    else
      var r := Ingested(rows, maxSpans, who, es[0]);
      if r.Err? then Err(r.error) else IngestedAll(r.value, maxSpans, who, es[1..])
  }

  /** A batch object: its events (None for a member that is no object), whether it has other
      members, whether it has JSON text, and the length of that text. */
  datatype Envelope = Envelope(exact: bool, events: Option<seq<Option<Event>>>, finite: bool, size: nat)

  function EnvelopeError(b: Envelope): Option<TraceError> {
    if !b.exact || b.events.None? || !(1 <= |b.events.value| <= 64) then Some(BadBatch)
    else if !b.finite then Some(NotFinite)
    else if b.size > LIMIT then Some(TooLarge)
    else if exists i :: 0 <= i < |b.events.value| && (b.events.value[i].None? || b.events.value[i].value.event.OtherEvent?) then
      Some(NotAnEvent)
    else None
  }

  function Events(b: Envelope): (es: seq<Event>)
    requires EnvelopeError(b).None?
    ensures |es| == |b.events.value| && forall i :: 0 <= i < |es| ==> Some(es[i]) == b.events.value[i]
  {
    seq(|b.events.value|, i requires 0 <= i < |b.events.value| => b.events.value[i].value)
  }

  /** The collector's state. */
  datatype Store = Store(rows: seq<Span>, accepted: nat, rejected: nat, transactions: nat, maxSpans: nat)

  function AfterIngest(s: Store, who: Sender, e: Event): Store {
    match Ingested(s.rows, s.maxSpans, who, e)
    case Ok(rows) => s.(rows := rows, accepted := s.accepted + 1, transactions := s.transactions + 1)
    case Err(_) => s.(rejected := s.rejected + 1)
  }

  function AfterBatch(s: Store, who: Sender, b: Envelope): Store {
    if EnvelopeError(b).Some? then s
    else
      match IngestedAll(s.rows, s.maxSpans, who, Events(b))
      case Ok(rows) => s.(rows := rows, accepted := s.accepted + |Events(b)|, transactions := s.transactions + 1)
      case Err(_) => s.(rejected := s.rejected + |Events(b)|)
  }

  /** Sending the events of a batch one at a time. */
  function AfterSingles(s: Store, who: Sender, es: seq<Event>): Store
    decreases |es|
  {
    if es == [] then s else AfterSingles(AfterIngest(s, who, es[0]), who, es[1..])
  }

  // ---------------------------------------------------------------- batches refine single events

  lemma {:induction false} AllAccepted(s: Store, who: Sender, es: seq<Event>)
    requires IngestedAll(s.rows, s.maxSpans, who, es).Ok?
    ensures var v := AfterSingles(s, who, es);
            && v.rows == IngestedAll(s.rows, s.maxSpans, who, es).value
            && v.accepted == s.accepted + |es| && v.rejected == s.rejected
    decreases |es|
  {
    hide Ingested;
    if es != [] { AllAccepted(AfterIngest(s, who, es[0]), who, es[1..]); }
  }

  lemma {:induction false} SomeRefused(s: Store, who: Sender, es: seq<Event>)
    requires IngestedAll(s.rows, s.maxSpans, who, es).Err?
    ensures AfterSingles(s, who, es).rejected > s.rejected
    decreases |es|
  {
    hide Ingested;
    if Ingested(s.rows, s.maxSpans, who, es[0]).Err? {
      RejectedGrows(AfterIngest(s, who, es[0]), who, es[1..]);
    } else {
      SomeRefused(AfterIngest(s, who, es[0]), who, es[1..]);
    }
  }

  lemma {:induction false} RejectedGrows(s: Store, who: Sender, es: seq<Event>)
    ensures AfterSingles(s, who, es).rejected >= s.rejected
    decreases |es|
  {
    hide Ingested;
    if es != [] { RejectedGrows(AfterIngest(s, who, es[0]), who, es[1..]); }
  }

  /** All or nothing: when every event would be accepted on its own, in order, the batch has
      the same effect on spans and counters in one transaction; when some event would be
      refused, spans and the accepted count stay as they were. */
  lemma BatchIsAllOrNothing(s: Store, who: Sender, b: Envelope)
    requires EnvelopeError(b).None?
    ensures var singles := AfterSingles(s, who, Events(b));
            var v := AfterBatch(s, who, b);
            && (singles.rejected == s.rejected ==>
                  v == singles.(transactions := s.transactions + 1) && v.accepted == s.accepted + |Events(b)|)
            && (singles.rejected != s.rejected ==> v == s.(rejected := s.rejected + |Events(b)|))
  {
    var es := Events(b);
    SinglesKeepLimit(s, who, es);
    if IngestedAll(s.rows, s.maxSpans, who, es).Ok? {
      AllAccepted(s, who, es);
    } else {
      SomeRefused(s, who, es);
    }
  }

  lemma {:induction false} SinglesKeepLimit(s: Store, who: Sender, es: seq<Event>)
    ensures AfterSingles(s, who, es).maxSpans == s.maxSpans
    decreases |es|
  {
    hide Ingested;
    if es != [] { SinglesKeepLimit(AfterIngest(s, who, es[0]), who, es[1..]); }
  }

  // ---------------------------------------------------------------- the object

  /** Each method runs under the collector's lock; the table is what SQLite holds, and a
      transaction that raises puts it back. */
  class TraceCollector {
    const maxSpans: nat
    var rows: seq<Span>
    var accepted: nat
    var rejected: nat
    var transactions: nat
    var batching: bool

    function View(): Store
      reads this
    {
      Store(rows, accepted, rejected, transactions, maxSpans)
    }

    constructor (maxSpans: nat)
      ensures View() == Store([], 0, 0, 0, maxSpans) && !batching
    {
      this.maxSpans := maxSpans;
      rows, accepted, rejected, transactions, batching := [], 0, 0, 0, false;
    }

    /** One event, in its own transaction unless a batch is open. */
    method IngestOne(who: Sender, e: Event) returns (r: Result<(), TraceError>)
      modifies this`rows, this`accepted, this`transactions
      ensures r.Ok? <==> Ingested(old(rows), maxSpans, who, e).Ok?
      ensures r.Err? ==> r.error == Ingested(old(rows), maxSpans, who, e).error && View() == old(View())
      ensures r.Ok? ==> View() == old(View()).(rows := Ingested(old(rows), maxSpans, who, e).value, accepted := old(accepted) + 1,
                                               transactions := if batching then old(transactions) else old(transactions) + 1)
    {
      if !SessionDisk.ValidId(who.agent) || !SessionDisk.ValidId(who.session) { return Err(InvalidId); }
      if !e.finite { return Err(NotFinite); }
      if e.size > LIMIT { return Err(TooLarge); }
      if !ValidField(e.trace) || !ValidField(e.span) { return Err(InvalidId); }
      var t := (who.agent, who.session, e.trace.v);
      var i := Find(rows, t, e.span.v);
      match e.event {
      case StartEvent =>
        if i < |rows| { return Err(DuplicateStart); }
        if Count(rows, t) >= maxSpans { return Err(SpanLimit); }
        var error := StartError(rows, t, e);
        if error.Some? { return Err(error.value); }
        rows := rows + [Started(who, t, e.span.v, e)];
      case EndEvent =>
        if i == |rows| { return Err(NoStart); }
        var error := EndError(rows[i], who, e);
        if error.Some? { return Err(error.value); }
        rows := rows[i := Closed(rows[i], e)];
      case OtherEvent =>
        return Err(NotAnEvent);
      }
      accepted := accepted + 1;
      if !batching {
        transactions := transactions + 1;
      }
      r := Ok(());
    }

    method Ingest(who: Sender, e: Event) returns (r: Result<(), TraceError>)
      requires !batching
      modifies this
      ensures View() == AfterIngest(old(View()), who, e) && !batching
      ensures r.Ok? <==> accepted == old(accepted) + 1
    {
      r := IngestOne(who, e);
      if r.Err? {
        rejected := rejected + 1;
      }
    }

    /** All events in one transaction; the first refused one undoes the others. */
    method IngestBatch(who: Sender, b: Envelope) returns (r: Result<nat, TraceError>)
      requires !batching
      modifies this
      ensures View() == AfterBatch(old(View()), who, b) && !batching
      ensures r.Ok? <==> EnvelopeError(b).None? && IngestedAll(old(rows), maxSpans, who, Events(b)).Ok?
      ensures r.Ok? ==> r.value == |Events(b)|
    {
      var error := EnvelopeError(b);
      if error.Some? { return Err(error.value); }
      var es := Events(b);
      var before, acceptedBefore := rows, accepted;
      batching := true;
      var i := 0;
      while i < |es|
        invariant 0 <= i <= |es| && batching
        invariant IngestedAll(old(rows), maxSpans, who, es) == IngestedAll(rows, maxSpans, who, es[i..])
        invariant accepted == old(accepted) + i && rejected == old(rejected) && transactions == old(transactions)
      {
        var one := IngestOne(who, es[i]);
        if one.Err? {
          rows, accepted, batching := before, acceptedBefore, false;
          rejected := rejected + |es|;
          return Err(one.error);
        }
        assert es[i..][1..] == es[i + 1..];
        i := i + 1;
      }
      transactions := transactions + 1;
      batching := false;
      r := Ok(|es|);
    }
  }
}
