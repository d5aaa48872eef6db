/** The bounded background exporter: submitters and one worker over a shared queue. */
module Exporter {
  import opened Base

  /** One event as JSON text; `json.dumps` only produces ASCII, so a character is a byte. */
  type Encoded = string

  const EVENT_LIMIT := 60000
  const MESSAGE_LIMIT := 65536

  datatype Settings = Settings(batchSize: nat, capacity: nat, maxBytes: nat)
  {
    /** What the constructors of exporter and tracer insist on. */
    predicate Valid() {
      1 <= batchSize <= 64 && 1 <= capacity <= 65536 && 65536 <= maxBytes <= 64 * 1024 * 1024
    }
  }

  /** The worker thread: not started, between batches, waiting for one acknowledgement, gone. */
  datatype Worker = Absent | Idle | InFlight(batch: seq<Encoded>) | Exited

  /** The exporter's fields. */
  datatype State = State(settings: Settings, queue: seq<Encoded>, worker: Worker, closing: bool, error: bool,
                         forceTarget: nat, attempted: nat, acknowledged: nat, failed: nat, pendingBytes: nat,
                         wireBytes: nat, peakEvents: nat, peakBytes: nat)

  datatype Outcome = Accepted | Unencodable | TimedOut | Rejected

  function Bytes(es: seq<Encoded>): nat {
    if es == [] then 0 else |es[0]| + Bytes(es[1..])
  }

  function Pending(x: State): int {
    x.attempted - x.acknowledged - x.failed
  }

  function Flying(x: State): seq<Encoded> {
    if x.worker.InFlight? then x.worker.batch else []
  }

  predicate Full(x: State, e: Encoded) {
    Pending(x) >= x.settings.capacity || x.pendingBytes + |e| > x.settings.maxBytes
  }

  // ---------------------------------------------------------------- what each operation computes

  /** How a submission ends that found the exporter in this state when it stopped waiting. */
  function OutcomeOf(x: State, e: Option<Encoded>): Outcome {
    if e.None? || |e.value| > EVENT_LIMIT then Unencodable
    else if x.closing || x.error then Rejected
    else if Full(x, e.value) then TimedOut
    else Accepted
  }

  function Submitted(x: State, e: Option<Encoded>): State {
    if !OutcomeOf(x, e).Accepted? then x.(attempted := x.attempted + 1, failed := x.failed + 1)
    else
      var pending := Max(x.peakEvents, if Pending(x) + 1 < 0 then 0 else Pending(x) + 1);
      x.(attempted := x.attempted + 1, wireBytes := x.wireBytes + |e.value|, pendingBytes := x.pendingBytes + |e.value|,
         queue := x.queue + [e.value], worker := if x.worker.Absent? then Idle else x.worker,
         peakEvents := pending, peakBytes := Max(x.peakBytes, x.pendingBytes + |e.value|))
  }

  /** The size the worker reckons for a batch. */
  function Estimate(batch: seq<Encoded>): nat {
    64 + Bytes(batch) + 2 * |batch|
  }

  /** The next batch takes n events: as many as fit, but always one. */
  predicate IsBatch(queue: seq<Encoded>, batchSize: nat, n: nat) {
    && 1 <= n <= |queue| && n <= batchSize
    && (n > 1 ==> Estimate(queue[..n]) <= MESSAGE_LIMIT)
    && (n < |queue| && n < batchSize ==> Estimate(queue[..n + 1]) > MESSAGE_LIMIT)
  }

  function Taken(x: State, n: nat): State
    requires n <= |x.queue|
  {
    x.(queue := x.queue[n..], worker := InFlight(x.queue[..n]))
  }

  function Settled(x: State, acknowledged: bool): State
    requires x.worker.InFlight?
  {
    if acknowledged then
      x.(worker := Idle, acknowledged := x.acknowledged + |x.worker.batch|,
         pendingBytes := if x.pendingBytes < Bytes(x.worker.batch) then 0 else x.pendingBytes - Bytes(x.worker.batch))
    else
      x.(worker := Exited, failed := x.failed + |x.worker.batch| + |x.queue|, pendingBytes := 0, queue := [], error := true)
  }

  /** `flush` returns normally for a barrier at `target`. */
  predicate FlushOk(x: State, target: nat) {
    x.acknowledged + x.failed >= target && x.failed == 0
  }

  // ---------------------------------------------------------------- runs

  /** The exporter together with what happened so far: every submission, every accepted
      event, every batch handed to the emitter, every acknowledged event. */
  datatype World = World(x: State, submissions: nat, accepted: seq<Encoded>, batches: seq<seq<Encoded>>, acked: seq<Encoded>)

  datatype Event =
    | Submit(e: Option<Encoded>)
    | Take(n: nat)
    | Settle(acknowledged: bool)
    | Leave
    | FlushBegin
    | CloseBegin

  ghost predicate Enabled(w: World, e: Event) {
    match e
    case Take(n) => w.x.worker.Idle? && IsBatch(w.x.queue, w.x.settings.batchSize, n)
    case Settle(_) => w.x.worker.InFlight?
    case Leave => w.x.worker.Idle? && w.x.queue == [] && w.x.closing
    case _ => true
  }

  ghost function Next(w: World, e: Event): World
    requires Enabled(w, e)
  {
    match e
    case Submit(event) =>
      w.(x := Submitted(w.x, event), submissions := w.submissions + 1,
         accepted := if OutcomeOf(w.x, event).Accepted? then w.accepted + [event.value] else w.accepted)
    case Take(n) => w.(x := Taken(w.x, n), batches := w.batches + [w.x.queue[..n]])
    case Settle(acknowledged) =>
      w.(x := Settled(w.x, acknowledged), acked := if acknowledged then w.acked + w.x.worker.batch else w.acked)
    case Leave => w.(x := w.x.(worker := Exited))
    case FlushBegin => w.(x := w.x.(forceTarget := Max(w.x.forceTarget, w.x.attempted)))
    case CloseBegin => w.(x := w.x.(closing := true))
  }

  function Flatten(batches: seq<seq<Encoded>>): seq<Encoded> {
    if batches == [] then [] else Flatten(batches[..|batches| - 1]) + batches[|batches| - 1]
  }

  /** Every event handed to the emitter, in that order. */
  function Emitted(w: World): seq<Encoded> { Flatten(w.batches) }

  function Init(settings: Settings): World {
    World(State(settings, [], Absent, false, false, 0, 0, 0, 0, 0, 0, 0, 0), 0, [], [], [])
  }

  // ---------------------------------------------------------------- the invariant

  predicate Small(es: seq<Encoded>) {
    forall i :: 0 <= i < |es| ==> |es[i]| <= EVENT_LIMIT
  }

  predicate BatchOk(batch: seq<Encoded>, settings: Settings) {
    1 <= |batch| <= settings.batchSize && Small(batch) && Estimate(batch) <= MESSAGE_LIMIT
  }

  /** Nothing is lost or counted twice, and the bounds hold. */
  ghost predicate Counted(w: World) {
    && w.x.settings.Valid()
    && w.x.attempted == w.submissions
    && w.x.attempted == w.x.acknowledged + w.x.failed + |w.x.queue| + |Flying(w.x)|
    && w.x.acknowledged == |w.acked|
    && w.x.pendingBytes == Bytes(w.x.queue) + Bytes(Flying(w.x))
    && w.x.wireBytes == Bytes(w.accepted)
    && |w.x.queue| + |Flying(w.x)| <= w.x.settings.capacity && w.x.pendingBytes <= w.x.settings.maxBytes
    && w.x.peakEvents <= w.x.settings.capacity && w.x.peakBytes <= w.x.settings.maxBytes
  }

  /** Events leave in the order in which they were accepted. */
  ghost predicate Ordered(w: World) {
    && Small(w.x.queue) && Small(Flying(w.x))
    && (forall i :: 0 <= i < |w.batches| ==> BatchOk(w.batches[i], w.x.settings))
    && (if w.x.error then
          && w.x.worker.Exited? && w.x.queue == []
          && Emitted(w) <= w.accepted && w.acked <= Emitted(w) && |w.acked| < |w.accepted| <= |w.acked| + w.x.failed
        else
          && w.accepted == Emitted(w) + w.x.queue && Emitted(w) == w.acked + Flying(w.x)
          && w.submissions == |w.accepted| + w.x.failed)
    && (w.x.worker.Absent? ==> w.x.queue == [] && w.accepted == [])
    && (w.x.worker.Exited? ==> w.x.queue == [] && (w.x.closing || w.x.error))
    && (w.x.worker.InFlight? ==> BatchOk(w.x.worker.batch, w.x.settings))
  }

  ghost predicate Inv(w: World) { Counted(w) && Ordered(w) }

  lemma {:induction false} BytesConcat(a: seq<Encoded>, b: seq<Encoded>)
    ensures Bytes(a + b) == Bytes(a) + Bytes(b)
  {
    if a == [] {
      assert a + b == b;
    } else {
      assert (a + b)[0] == a[0] && (a + b)[1..] == a[1..] + b;
      BytesConcat(a[1..], b);
    }
  }

  lemma BytesSplit(es: seq<Encoded>, n: nat)
    requires n <= |es|
    ensures Bytes(es) == Bytes(es[..n]) + Bytes(es[n..])
  {
    assert es == es[..n] + es[n..];
    BytesConcat(es[..n], es[n..]);
  }

  lemma EstimateEmpty()
    ensures Estimate([]) == 64
  {
  }

  lemma EstimateSnoc(es: seq<Encoded>, n: nat)
    requires n < |es|
    ensures es[..n + 1] == es[..n] + [es[n]] && Estimate(es[..n + 1]) == Estimate(es[..n]) + |es[n]| + 2
  {
    assert es[..n + 1] == es[..n] + [es[n]];
    BytesConcat(es[..n], [es[n]]);
    assert Bytes([es[n]]) == |es[n]| by { assert [es[n]][1..] == []; }
  }

  lemma FlattenSnoc(batches: seq<seq<Encoded>>, batch: seq<Encoded>)
    ensures Flatten(batches + [batch]) == Flatten(batches) + batch
  {
    assert (batches + [batch])[..|batches|] == batches;
  }

  /** One event always fits. */
  lemma BatchIsSmall(queue: seq<Encoded>, settings: Settings, n: nat)
    requires Small(queue) && settings.Valid() && IsBatch(queue, settings.batchSize, n)
    ensures BatchOk(queue[..n], settings)
  {
    if n == 1 {
      assert queue[..1][0] == queue[0] && queue[..1][1..] == [];
      assert Bytes(queue[..1]) == |queue[0]|;
    }
  }

  lemma SubmitKeepsCount(w: World, e: Option<Encoded>)
    requires Counted(w)
    ensures Counted(Next(w, Submit(e)))
  {
    if OutcomeOf(w.x, e).Accepted? {
      BytesConcat(w.x.queue, [e.value]);
      BytesConcat(w.accepted, [e.value]);
      assert Bytes([e.value]) == |e.value| by { assert [e.value][1..] == []; }
    }
  }

  lemma SubmitKeepsOrder(w: World, e: Option<Encoded>)
    requires Ordered(w)
    ensures Ordered(Next(w, Submit(e)))
  {
    hide Flatten, BatchOk;
    if OutcomeOf(w.x, e).Accepted? {
      assert Emitted(w) + (w.x.queue + [e.value]) == Emitted(w) + w.x.queue + [e.value];
    }
  }

  lemma SubmitKeeps(w: World, e: Option<Encoded>)
    requires Inv(w)
    ensures Inv(Next(w, Submit(e)))
  {
    hide Counted, Ordered, Next;
    SubmitKeepsCount(w, e);
    SubmitKeepsOrder(w, e);
  }

  lemma TakeKeepsCount(w: World, n: nat)
    requires Counted(w) && Enabled(w, Take(n))
    ensures Counted(Next(w, Take(n)))
  {
    BytesSplit(w.x.queue, n);
  }

  lemma TakeKeepsOrder(w: World, n: nat)
    requires Ordered(w) && w.x.settings.Valid() && Enabled(w, Take(n))
    ensures Ordered(Next(w, Take(n)))
  {
    var v := Next(w, Take(n));
    FlattenSnoc(w.batches, w.x.queue[..n]);
    BatchIsSmall(w.x.queue, w.x.settings, n);
    hide IsBatch, BatchOk, Flatten;
    assert w.x.queue == w.x.queue[..n] + w.x.queue[n..];
    assert Emitted(v) + v.x.queue == Emitted(w) + w.x.queue;
  }

  lemma TakeKeeps(w: World, n: nat)
    requires Inv(w) && Enabled(w, Take(n))
    ensures Inv(Next(w, Take(n)))
  {
    assert w.x.settings.Valid();
    hide Counted, Ordered, Next;
    TakeKeepsCount(w, n);
    TakeKeepsOrder(w, n);
  }

  lemma SettleKeeps(w: World, acknowledged: bool)
    requires Inv(w) && Enabled(w, Settle(acknowledged))
    ensures Inv(Next(w, Settle(acknowledged)))
  {
    var v := Next(w, Settle(acknowledged));
    if acknowledged {
      assert Emitted(v) == v.acked + Flying(v.x);
    } else {
      assert Emitted(w)[..|w.acked|] == w.acked;
    }
  }

  lemma EventKeeps(w: World, e: Event)
    requires Inv(w) && Enabled(w, e)
    ensures Inv(Next(w, e))
  {
    match e
    case Submit(event) => SubmitKeeps(w, event);
    case Take(n) => TakeKeeps(w, n);
    case Settle(acknowledged) => SettleKeeps(w, acknowledged);
    case Leave =>
    case FlushBegin =>
    case CloseBegin =>
  }

  lemma Bounds(w: World)
    requires Inv(w)
    ensures w.x.attempted >= w.x.acknowledged + w.x.failed && w.x.settings.Valid() && Small(w.x.queue)
  {
  }

  ghost predicate Admissible(w: World, es: seq<Event>)
    decreases |es|
  {
    es == [] || (Enabled(w, es[0]) && Admissible(Next(w, es[0]), es[1..]))
  }

  ghost function Replay(w: World, es: seq<Event>): World
    requires Admissible(w, es)
    decreases |es|
  {
    if es == [] then w else Replay(Next(w, es[0]), es[1..])
  }

  lemma {:induction false} RunKeeps(w: World, es: seq<Event>)
    requires Inv(w) && Admissible(w, es)
    ensures Inv(Replay(w, es))
    decreases |es|
  {
    if es != [] {
      EventKeeps(w, es[0]);
      hide Inv, Next, Enabled;
      RunKeeps(Next(w, es[0]), es[1..]);
    }
  }

  lemma Reachable(settings: Settings, es: seq<Event>)
    requires settings.Valid() && Admissible(Init(settings), es)
    ensures Inv(Replay(Init(settings), es))
  {
    RunKeeps(Init(settings), es);
  }

  // ---------------------------------------------------------------- consequences

  /** Every submission is acknowledged, failed, queued or in flight, and the bounds hold,
      their recorded peaks included. */
  lemma Conservation(settings: Settings, es: seq<Event>)
    requires settings.Valid() && Admissible(Init(settings), es)
    ensures var w := Replay(Init(settings), es);
            && w.submissions == |w.acked| + w.x.failed + |w.x.queue| + |Flying(w.x)|
            && 0 <= Pending(w.x) == |w.x.queue| + |Flying(w.x)| <= w.x.settings.capacity
            && Bytes(w.x.queue) + Bytes(Flying(w.x)) == w.x.pendingBytes <= w.x.settings.maxBytes
            && w.x.peakEvents <= w.x.settings.capacity && w.x.peakBytes <= w.x.settings.maxBytes
            && w.x.wireBytes == Bytes(w.accepted)
  {
    Reachable(settings, es);
  }

  /** What was emitted is an initial part of what was accepted, what was acknowledged is an
      initial part of what was emitted, and every batch is within its limits. */
  lemma EmittedInOrder(settings: Settings, es: seq<Event>)
    requires settings.Valid() && Admissible(Init(settings), es)
    ensures var w := Replay(Init(settings), es);
            && w.acked <= Emitted(w) <= w.accepted
            && forall i :: 0 <= i < |w.batches| ==> BatchOk(w.batches[i], w.x.settings) && |Wire(w.batches[i])| <= MESSAGE_LIMIT
  {
    Reachable(settings, es);
    var w := Replay(Init(settings), es);
    forall i | 0 <= i < |w.batches| ensures |Wire(w.batches[i])| <= MESSAGE_LIMIT {
      WireFitsEstimate(w.batches[i]);
    }
  }

  function Joined(batch: seq<Encoded>): string {
    if batch == [] then ""
    else if |batch| == 1 then batch[0]
    else batch[0] + ", " + Joined(batch[1..])
  }

  /** The JSON text of the envelope the emitter and the collector measure. */
  function Wire(batch: seq<Encoded>): string {
    "{\"event\": \"batch\", \"events\": [" + Joined(batch) + "]}"
  }

  lemma {:induction false} JoinedLength(batch: seq<Encoded>)
    ensures |Joined(batch)| == if batch == [] then 0 else Bytes(batch) + 2 * (|batch| - 1)
  {
    if |batch| == 1 {
      assert Bytes(batch[1..]) == 0;
    } else if |batch| > 1 {
      JoinedLength(batch[1..]);
    }
  }

  /** The estimate is never too small, so the collector's own size limit cannot refuse a
      batch that the worker formed. */
  lemma WireFitsEstimate(batch: seq<Encoded>)
    ensures batch != [] ==> |Wire(batch)| + 34 == Estimate(batch)
  {
    JoinedLength(batch);
  }

  /** The greedy rule determines the batch. */
  lemma BatchIsDetermined(queue: seq<Encoded>, batchSize: nat, m: nat, n: nat)
    requires IsBatch(queue, batchSize, m) && IsBatch(queue, batchSize, n)
    ensures m == n
  {
    if m < n {
      assert queue[..n] == queue[..m + 1] + queue[m + 1..n];
      BytesConcat(queue[..m + 1], queue[m + 1..n]);
    } else if n < m {
      assert queue[..m] == queue[..n + 1] + queue[n + 1..m];
      BytesConcat(queue[..n + 1], queue[n + 1..m]);
    }
  }

  /** Once a batch has failed nothing is emitted, acknowledged or accepted any more. */
  lemma {:induction false} NothingAfterFailure(w: World, es: seq<Event>)
    requires Inv(w) && w.x.error && Admissible(w, es)
    ensures var v := Replay(w, es);
            v.x.error && v.batches == w.batches && v.acked == w.acked && v.accepted == w.accepted
    decreases |es|
  {
    if es != [] {
      EventKeeps(w, es[0]);
      var v := Next(w, es[0]);
      assert v.x.error && v.batches == w.batches && v.acked == w.acked && v.accepted == w.accepted;
      hide Inv, Next, Enabled;
      NothingAfterFailure(v, es[1..]);
    }
  }

  /** No submission after `close` is accepted. */
  lemma {:induction false} NothingAfterClose(w: World, es: seq<Event>)
    requires w.x.closing && Admissible(w, es)
    ensures var v := Replay(w, es); v.x.closing && v.accepted == w.accepted
    decreases |es|
  {
    if es != [] {
      var v := Next(w, es[0]);
      assert v.x.closing && v.accepted == w.accepted;
      hide Next, Enabled;
      NothingAfterClose(v, es[1..]);
    }
  }

  /** Histories and counters only grow. */
  lemma {:induction false} HistoryGrows(w: World, es: seq<Event>)
    requires Admissible(w, es)
    ensures var v := Replay(w, es);
            && w.accepted <= v.accepted && w.acked <= v.acked && w.submissions <= v.submissions && w.x.failed <= v.x.failed
            && v.x.settings == w.x.settings
    decreases |es|
  {
    if es != [] {
      var v := Next(w, es[0]);
      assert w.accepted <= v.accepted && w.acked <= v.acked && w.submissions <= v.submissions
             && w.x.failed <= v.x.failed && v.x.settings == w.x.settings;
      hide Next, Enabled;
      HistoryGrows(v, es[1..]);
    }
  }

  /** When `flush` returns normally, every submission made before it was accepted, and every
      event accepted before it has been acknowledged, the batch in flight included. */
  lemma FlushIsABarrier(settings: Settings, before: seq<Event>, after: seq<Event>)
    requires settings.Valid() && Admissible(Init(settings), before)
    requires var w := Replay(Init(settings), before); Admissible(w, after) && FlushOk(Replay(w, after).x, w.x.attempted)
    ensures var w := Replay(Init(settings), before);
            var v := Replay(w, after);
            w.submissions == |w.accepted| && w.accepted <= v.acked && v.x.failed == 0
  {
    Reachable(settings, before);
    var w := Replay(Init(settings), before);
    var v := Replay(w, after);
    RunKeeps(w, after);
    HistoryGrows(w, after);
    assert !v.x.error && !w.x.error by {
      if w.x.error { NothingAfterFailure(w, after); }
    }
    assert v.acked <= v.accepted;
    assert |w.accepted| <= |v.acked|;
  }

  /** A flush returns normally exactly if every submission so far was accepted, nothing that was
      accepted has been dropped, and as many events are acknowledged as were submitted before
      the flush. */
  lemma FlushReturnsExactly(settings: Settings, before: seq<Event>, after: seq<Event>)
    requires settings.Valid() && Admissible(Init(settings), before) && Admissible(Replay(Init(settings), before), after)
    ensures var w := Replay(Init(settings), before);
            var v := Replay(w, after);
            FlushOk(v.x, w.x.attempted) <==>
              && v.submissions == |v.accepted| && v.accepted == v.acked + Flying(v.x) + v.x.queue
              && w.submissions <= |v.acked|
  {
    Reachable(settings, before);
    var w := Replay(Init(settings), before);
    RunKeeps(w, after);
    FlushOkExactly(Replay(w, after), w.x.attempted);
  }

  lemma FlushOkExactly(w: World, target: nat)
    requires Inv(w)
    ensures FlushOk(w.x, target) <==>
              && w.submissions == |w.accepted| && w.accepted == w.acked + Flying(w.x) + w.x.queue
              && target <= |w.acked|
  {
    hide Flatten;
    if w.x.error {
      assert |w.acked + Flying(w.x) + w.x.queue| == |w.acked|;
    } else {
      assert w.accepted == w.acked + Flying(w.x) + w.x.queue;
    }
  }

  /** When the flush inside `close` returns normally, everything accepted is acknowledged, the
      queue is empty, nothing is in flight, and so it stays. */
  lemma CloseDrains(settings: Settings, before: seq<Event>, after: seq<Event>)
    requires settings.Valid() && Admissible(Init(settings), before)
    requires var w := Next(Replay(Init(settings), before), CloseBegin);
             Admissible(w, after) && FlushOk(Replay(w, after).x, w.x.attempted)
    ensures var v := Replay(Next(Replay(Init(settings), before), CloseBegin), after);
            && v.x.queue == [] && Flying(v.x) == [] && v.acked == v.accepted && v.submissions == |v.accepted|
            && forall more :: Admissible(v, more) ==> Replay(v, more).accepted == v.accepted
  {
    Reachable(settings, before);
    var u := Replay(Init(settings), before);
    var w := Next(u, CloseBegin);
    EventKeeps(u, CloseBegin);
    RunKeeps(w, after);
    HistoryGrows(w, after);
    NothingAfterClose(w, after);
    var v := Replay(w, after);
    assert !v.x.error && !w.x.error by {
      if w.x.error { NothingAfterFailure(w, after); }
    }
    assert w.submissions == |w.accepted|;
    assert |v.acked| + |Flying(v.x)| + |v.x.queue| == |v.accepted| == |w.accepted|;
    forall more | Admissible(v, more) ensures Replay(v, more).accepted == v.accepted {
      NothingAfterClose(v, more);
    }
  }

  /** `health` says complete. */
  predicate Complete(x: State) { x.failed == 0 && Pending(x) == 0 }

  /** It does so exactly when every submission was accepted and acknowledged. */
  lemma CompleteExactly(settings: Settings, es: seq<Event>)
    requires settings.Valid() && Admissible(Init(settings), es)
    ensures var w := Replay(Init(settings), es);
            Complete(w.x) <==> w.submissions == |w.accepted| && w.acked == w.accepted
  {
    Reachable(settings, es);
    var w := Replay(Init(settings), es);
    if w.submissions == |w.accepted| && w.acked == w.accepted {
      assert !w.x.error;
    }
  }

  // ---------------------------------------------------------------- the object

  /** Each method is what its caller does inside one critical section; waiting is not
      modelled, only the state in which it ended. */
  class BackgroundExporter {
    const settings: Settings
    var queue: seq<Encoded>
    var worker: Worker
    var closing: bool
    var error: bool
    var forceTarget: nat
    var attempted: nat
    var acknowledged: nat
    var failed: nat
    var pendingBytes: nat
    var wireBytes: nat
    var peakEvents: nat
    var peakBytes: nat
    ghost var submissions: nat
    ghost var accepted: seq<Encoded>
    ghost var batches: seq<seq<Encoded>>
    ghost var acked: seq<Encoded>

    function View(): State
      reads this
    {
      State(settings, queue, worker, closing, error, forceTarget, attempted, acknowledged, failed, pendingBytes,
            wireBytes, peakEvents, peakBytes)
    }

    ghost function Now(): World
      reads this
    {
      World(View(), submissions, accepted, batches, acked)
    }

    ghost predicate Valid()
      reads this
    {
      Inv(Now())
    }

    constructor (settings: Settings)
      requires settings.Valid()
      ensures Valid() && Now() == Init(settings)
    {
      this.settings := settings;
      queue, worker, closing, error := [], Absent, false, false;
      forceTarget, attempted, acknowledged, failed, pendingBytes := 0, 0, 0, 0, 0;
      wireBytes, peakEvents, peakBytes := 0, 0, 0;
      submissions, accepted, batches, acked := 0, [], [], [];
    }

    /** Accepts the event, or says why not; the caller has already waited for room. */
    method Submit(e: Option<Encoded>) returns (r: Outcome)
      requires Valid()
      modifies this
      ensures Valid() && Now() == Next(old(Now()), Event.Submit(e))
      ensures r.Accepted? <==> e.Some? && |e.value| <= EVENT_LIMIT && !closing && !error && !Full(old(View()), e.value)
      ensures accepted == if r.Accepted? then old(accepted) + [e.value] else old(accepted)
    {
      hide Inv, Submitted, Small;
      EventKeeps(Now(), Event.Submit(e));
      Bounds(Now());
      r := Offer(e);
      submissions := submissions + 1;
      if r.Accepted? {
        accepted := accepted + [e.value];
      }
    }

    /** The critical section of `submit`. */
    method Offer(e: Option<Encoded>) returns (r: Outcome)
      requires attempted >= acknowledged + failed
      modifies this`attempted, this`failed, this`wireBytes, this`pendingBytes, this`queue, this`peakEvents, this`peakBytes, this`worker
      ensures View() == Submitted(old(View()), e) && r == OutcomeOf(old(View()), e)
    {
      if e.None? || |e.value| > EVENT_LIMIT {
        attempted, failed := attempted + 1, failed + 1;
        return Unencodable;
      }
      var encoded := e.value;
      if !closing && !error
         && (attempted - acknowledged - failed >= settings.capacity || pendingBytes + |encoded| > settings.maxBytes) {
        attempted, failed := attempted + 1, failed + 1;
        return TimedOut;
      }
      attempted := attempted + 1;
      if closing || error {
        failed := failed + 1;
        return Rejected;
      }
      wireBytes := wireBytes + |encoded|;
      pendingBytes := pendingBytes + |encoded|;
      queue := queue + [encoded];
      peakEvents := Max(peakEvents, attempted - acknowledged - failed);
      peakBytes := Max(peakBytes, pendingBytes);
      if worker.Absent? {
        worker := Idle;
      }
      r := Accepted;
    }

    /** The worker forms the next batch. */
    method TakeBatch() returns (batch: seq<Encoded>)
      requires Valid() && worker.Idle? && queue != []
      modifies this
      ensures Valid() && BatchOk(batch, settings) && batch + queue == old(queue)
      ensures IsBatch(old(queue), settings.batchSize, |batch|)
      ensures Now() == Next(old(Now()), Take(|batch|))
    {
      hide Inv, IsBatch, Estimate, BatchOk, Small;
      ghost var w := Now();
      Bounds(w);
      batch := Gather();
      assert w.x.queue[..|batch|] == batch && w.x.queue[|batch|..] == queue;
      EventKeeps(w, Take(|batch|));
      BatchIsSmall(w.x.queue, settings, |batch|);
      worker := InFlight(batch);
      batches := batches + [batch];
    }

    /** The loop over the queue. */
    method Gather() returns (batch: seq<Encoded>)
      requires settings.batchSize >= 1 && queue != []
      modifies this`queue
      ensures batch + queue == old(queue) && IsBatch(old(queue), settings.batchSize, |batch|)
    {
      ghost var all := queue;
      hide Estimate;
      EstimateEmpty();
      batch := [];
      var size := 64;
      while queue != [] && |batch| < settings.batchSize
        invariant |batch| <= |all| && |batch| <= settings.batchSize && batch == all[..|batch|] && queue == all[|batch|..]
        invariant size == Estimate(batch) && (|batch| > 1 ==> size <= MESSAGE_LIMIT)
        decreases |queue|
      {
        var encoded := queue[0];
        EstimateSnoc(all, |batch|);
        if batch != [] && size + |encoded| + 2 > MESSAGE_LIMIT {
          break;
        }
        batch := batch + [encoded];
        queue := queue[1..];
        size := size + |encoded| + 2;
      }
    }

    /** The emitter returned: a complete durable acknowledgement, or anything else. */
    method Settle(acknowledgement: bool)
      requires Valid() && worker.InFlight?
      modifies this
      ensures Valid() && Now() == Next(old(Now()), Event.Settle(acknowledgement))
      ensures acked == if acknowledgement then old(acked) + old(worker.batch) else old(acked)
      ensures error == !acknowledgement && (error ==> queue == [] && worker.Exited?)
    {
      EventKeeps(Now(), Event.Settle(acknowledgement));
      assert pendingBytes >= Bytes(worker.batch) && !error;
      hide Inv, Bytes;
      if acknowledgement {
        acked := acked + worker.batch;
      }
      Account(acknowledgement);
    }

    /** The critical section after the emitter. */
    method Account(acknowledgement: bool)
      requires worker.InFlight? && pendingBytes >= Bytes(worker.batch)
      modifies this`acknowledged, this`failed, this`pendingBytes, this`queue, this`error, this`worker
      ensures View() == Settled(old(View()), acknowledgement)
    {
      var batch := worker.batch;
      pendingBytes := pendingBytes - Bytes(batch);
      if acknowledgement {
        acknowledged := acknowledged + |batch|;
        worker := Idle;
      } else {
        failed := failed + |batch| + |queue|;
        pendingBytes := 0;
        queue := [];
        error := true;
        worker := Exited;
      }
    }

    /** The worker finds the closed exporter's queue empty. */
    method Leave()
      requires Valid() && worker.Idle? && queue == [] && closing
      modifies this`worker
      ensures Valid() && Now() == Next(old(Now()), Event.Leave)
    {
      EventKeeps(Now(), Event.Leave);
      worker := Exited;
    }

    /** The first half of `flush`: sets the barrier. */
    method FlushBegin() returns (target: nat)
      requires Valid()
      modifies this`forceTarget
      ensures Valid() && Now() == Next(old(Now()), Event.FlushBegin) && target == attempted
    {
      EventKeeps(Now(), Event.FlushBegin);
      target := attempted;
      forceTarget := Max(forceTarget, target);
    }

    /** The second half, for a barrier at `target` submissions: the state in which the wait
        ended decides. It returns normally exactly if every submission so far was accepted and
        none dropped, and the first `target` of them are acknowledged, in order. */
    method FlushEnd(target: nat) returns (ok: bool)
      requires Valid()
      ensures ok <==> FlushOk(View(), target)
      ensures ok <==> submissions == |accepted| && accepted == acked + Flying(View()) + queue && target <= |acked|
      ensures ok ==> acked[..target] == accepted[..target]
    {
      ok := acknowledged + failed >= target && failed == 0;
      FlushOkExactly(Now(), target);
      hide Inv;
    }

    /** The first half of `close`. */
    method CloseBegin() returns (target: nat)
      requires Valid()
      modifies this`closing, this`forceTarget
      ensures Valid() && closing && target == attempted
      ensures Now() == Next(Next(old(Now()), Event.CloseBegin), Event.FlushBegin)
    {
      EventKeeps(Now(), Event.CloseBegin);
      closing := true;
      target := FlushBegin();
    }
  }
}
