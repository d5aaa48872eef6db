/** The lifecycle of tracked runs as a state machine over single saves, spawns, cgroup
    operations and registry calls, across daemon crashes and restarts. */
module RunFencing {
  import opened Base
  import opened SessionRegistry
  import X = RegistryExclusion

  type RunId = string

  datatype RowState = Starting | Running | Interrupted | Completed | Failed

  /** The part of `state.json` the fence depends on. */
  datatype Row = Row(key: Key, state: RowState, fenced: bool, epoch: nat)
  {
    /** A restart leases the Session of such a row again. */
    predicate Held() { state.Starting? || state.Running? || fenced }
  }

  /** How far the daemon got with one run.
        Reserved    the Session lease is held          Registered  the starting row is in memory
        Saved       the starting row is on disk        Spawned     the stopped gate exists
        Attached    the gate is in the Session cgroup  Started     the running row is on disk
        Watched     the watcher is running             Quiet       the watcher proved the cgroup empty
        Sealed      the completed row is on disk       Removed     the cgroup removal was attempted
        Failing     the launch raised an error         Unwound     its cleanup ended, safe to release or not
        Closed      the last save was attempted        Released    the lease was given back */
  datatype Phase =
    | Reserved | Registered | Saved | Spawned | Attached | Started | Watched
    | Quiet | Sealed | Removed(removed: bool)
    | Failing | Unwound(safe: bool)
    | Closed(release: bool) | Released

  /** One entry of `_runs`, with the row as it stands in memory. */
  datatype Run = Run(key: Key, token: Token, phase: Phase, attached: bool, row: Option<Row>)

  datatype Daemon = Booting(pending: set<RunId>, leasing: set<RunId>) | Up

  datatype World = World(
    daemon: Daemon,
    excl: X.World,                   // the registry and its open scopes
    runs: map<RunId, Run>,           // the daemon's memory
    recovered: map<Key, Token>,      // leases taken again at startup
    nextEpoch: nat,
    rows: map<RunId, Row>,           // the audit directory
    gates: set<RunId>,               // stopped gates outside any Session cgroup
    live: map<RunId, Key>)           // runs with processes, and the Session cgroup they are in

  /** What the daemon does for one run: the launch, its watcher, and its cleanup after an
      error. `Fence` and `SaveAgain` come from provider failures and recorded events. */
  datatype Step =
    | Register
    | SaveStarting
    | Spawn
    | Attach
    | SaveRunning(saved: bool)
    | Watch
    | Quiesce
    | GiveUp(saved: bool)
    | Seal(saved: bool)
    | Remove(removed: bool)
    | Commit(saved: bool)
    | Fail
    | Unwind(safe: bool)
    | SaveFailed(saved: bool)
    | Release
    | Fence
    | SaveAgain

  datatype Event =
    | Call(e: X.Event)
    | Reserve(run: RunId, key: Key, recovery: bool, token: Token)
    | Move(run: RunId, step: Step)
    | Die(run: RunId)
    | Crash(survivors: set<RunId>)
    | RecoverRow(run: RunId)
    | RecoverLease(run: RunId, token: Token)
    | Ready

  predicate Populated(w: World, key: Key) {
    key in w.live.Values
  }

  ghost predicate Owned(w: World, token: Token) {
    || (exists run :: run in w.runs && w.runs[run].token == token)
    || (exists key :: key in w.recovered && w.recovered[key] == token)
  }

  /** The phases in which the launch can still raise an error. */
  predicate Launching(p: Phase) {
    p.Reserved? || p.Registered? || p.Saved? || p.Spawned? || p.Attached? || p.Started?
  }

  /** The phases in which an asynchronous failure may still touch the row. */
  predicate Unfinished(p: Phase) {
    p.Registered? || p.Saved? || p.Spawned? || p.Attached? || p.Started? || p.Watched? || p.Quiet? || p.Failing? || p.Unwound?
  }

  /** When a step can happen. `attach` refuses a populated cgroup, `wait_empty` and
      `quiesce_empty` succeed only when the cgroup is empty, and nobody else knows the
      lease tokens of runs. */
  ghost predicate Enabled(w: World, e: Event) {
    match e
    case Crash(survivors) => survivors <= w.live.Keys
    case Die(_) => true
    case RecoverRow(run) => w.daemon.Booting? && run in w.daemon.pending && run in w.rows
    case RecoverLease(run, token) =>
      w.daemon.Booting? && run in w.daemon.leasing && run in w.rows && FreshToken(w.excl.reg, token)
    case Ready => w.daemon.Booting? && w.daemon.pending == {} && w.daemon.leasing == {}
    case _ => w.daemon.Up? && EnabledUp(w, e)
  }

  predicate FreshToken(r: Registry, token: Token) {
    token !in r.leases && token !in r.recoveryLeases
  }

  /** Everything that belongs to one run: its entry in memory, its row on disk, whether its
      gate waits outside any Session cgroup, and whether it has processes inside one. */
  datatype Slice = Slice(r: Run, disk: Option<Row>, gated: bool, live: bool)

  function SliceOf(w: World, run: RunId): Slice
    requires run in w.runs
  {
    Slice(w.runs[run], if run in w.rows then Some(w.rows[run]) else None, run in w.gates, run in w.live)
  }

  /** Whether a run can take a step, where `empty` says that its Session cgroup is. */
  predicate CanMove(s: Slice, e: Step, empty: bool) {
    match e
    case Register => s.r.phase.Reserved?
    case SaveStarting => s.r.phase.Registered? && s.r.row.Some?
    case Spawn => s.r.phase.Saved?
    case Attach => s.r.phase.Spawned? && s.gated && empty
    case SaveRunning(_) => s.r.phase.Attached? && s.r.row.Some?
    case Watch => s.r.phase.Started?
    case Quiesce => s.r.phase.Watched? && empty
    case GiveUp(_) => (s.r.phase.Watched? || s.r.phase.Quiet?) && s.r.row.Some?
    case Seal(_) => s.r.phase.Quiet? && s.r.row.Some?
    case Remove(_) => s.r.phase.Sealed? && s.r.row.Some?
    case Commit(_) => s.r.phase.Removed? && s.r.row.Some?
    case Fail => Launching(s.r.phase)
    case Unwind(safe) => s.r.phase.Failing? && (safe ==> !s.gated && (s.r.attached ==> empty))
    case SaveFailed(_) => s.r.phase.Unwound?
    case Release => s.r.phase.Closed? && s.r.phase.release
    case Fence => Unfinished(s.r.phase) && s.r.row.Some?
    case SaveAgain => Unfinished(s.r.phase) && s.r.row.Some?
  }

  ghost predicate EnabledUp(w: World, e: Event) {
    match e
    case Call(r) => X.Enabled(w.excl, r) && (r.Release? ==> !Owned(w, r.token))
    case Reserve(run, _, _, token) => run !in w.runs && run !in w.rows && FreshToken(w.excl.reg, token)
    case Move(run, step) => run in w.runs && CanMove(SliceOf(w, run), step, !Populated(w, w.runs[run].key))
    case _ => true
  }

  /** Replaces the row of a run in memory and, when the save succeeds, on disk. */
  function WithRow(s: Slice, row: Row, saved: bool, phase: Phase): Slice {
    s.(r := s.r.(row := Some(row), phase := phase), disk := if saved then Some(row) else s.disk)
  }

  function WithPhase(s: Slice, phase: Phase): Slice {
    s.(r := s.r.(phase := phase))
  }

  /** The row in memory after a save that must not be missed has failed. */
  function Spoilt(row: Row): Row { row.(state := Failed, fenced := true) }

  /** What a step does to its run; `epoch` is the next run epoch. */
  function Moved(s: Slice, e: Step, epoch: nat, empty: bool): Slice
    requires CanMove(s, e, empty)
  {
    match e
    case Register => s.(r := s.r.(phase := Registered, row := Some(Row(s.r.key, Starting, false, epoch))))
    case SaveStarting => WithRow(s, s.r.row.value, true, Saved)
    case Spawn => WithPhase(s, Spawned).(gated := true)
    case Attach => s.(r := s.r.(phase := Attached, attached := true), gated := false, live := true)
    case SaveRunning(saved) =>
      WithRow(s, s.r.row.value.(state := Running), saved, if saved then Started else Failing)
    case Watch => WithPhase(s, Watched)
    case Quiesce => WithPhase(s, Quiet)
    case GiveUp(saved) => WithRow(s, s.r.row.value.(state := Failed, fenced := true), saved, Closed(false))
    case Seal(saved) =>
      if saved then WithRow(s, s.r.row.value.(state := Completed, fenced := false), true, Sealed)
      else WithRow(s, Spoilt(s.r.row.value), false, Closed(false))
    case Remove(removed) =>
      WithRow(s, if removed then s.r.row.value else Spoilt(s.r.row.value), false, Removed(removed))
    case Commit(saved) =>
      if saved then WithRow(s, s.r.row.value, true, Closed(s.r.phase.removed))
      else WithRow(s, Spoilt(s.r.row.value), false, Closed(false))
    case Fail => WithPhase(s, Failing)
    case Unwind(safe) => WithPhase(s, Unwound(safe))
    case SaveFailed(saved) =>
      if s.r.row.None? then WithPhase(s, Closed(s.r.phase.safe))
      else if saved then
        WithRow(s, s.r.row.value.(state := Failed, fenced := !s.r.phase.safe), true, Closed(s.r.phase.safe))
      else WithRow(s, Spoilt(s.r.row.value), false, Closed(false))
    case Release => WithPhase(s, Released)
    case Fence => WithRow(s, s.r.row.value.(fenced := true), false, s.r.phase)
    case SaveAgain => WithRow(s, s.r.row.value, true, s.r.phase)
  }

  /** The world with one run's part replaced. */
  function Put(w: World, run: RunId, s: Slice): World {
    w.(runs := w.runs[run := s.r],
       rows := if s.disk.Some? then w.rows[run := s.disk.value] else w.rows,
       gates := if s.gated then w.gates + {run} else w.gates - {run},
       live := if s.live then w.live[run := s.r.key] else w.live - {run})
  }

  ghost function Next(w: World, e: Event): World
    requires Enabled(w, e)
  {
    match e
    case Call(r) => w.(excl := X.Next(w.excl, r))
    case Reserve(run, key, recovery, token) =>
      if AcquireError(w.excl.reg, key, recovery).Some? then w
      else w.(excl := X.Next(w.excl, X.Acquire(key, recovery, token)),
              runs := w.runs[run := Run(key, token, Reserved, false, None)])
    case Die(run) => w.(gates := w.gates - {run}, live := w.live - {run})
    case Crash(survivors) => Rebooting(w, survivors)
    case RecoverRow(run) => RowRecovered(w, run)
    case RecoverLease(run, token) => LeaseRecovered(w, run, token)
    case Ready => w.(daemon := Up)
    case Move(run, step) => Advanced(w, run, step)
  }

  /** A step of one run. */
  function Advanced(w: World, run: RunId, e: Step): World
    requires run in w.runs && CanMove(SliceOf(w, run), e, !Populated(w, w.runs[run].key))
  {
    var s := SliceOf(w, run);
    var v := Put(w, run, Moved(s, e, w.nextEpoch, !Populated(w, s.r.key)));
    if e.Register? then v.(nextEpoch := w.nextEpoch + 1)
    else if e.Release? then v.(excl := X.Next(w.excl, X.Release(s.r.token)))
    else v
  }

  /** What a start finds after a crash. */
  function Rebooting(w: World, survivors: set<RunId>): World {
    World(Booting(w.rows.Keys, {}), X.START, map[], map[], 1, w.rows, {},
          map r | r in w.live && r in survivors :: w.live[r])
  }

  /** Startup reads one row, fences it when it may have left processes, and saves it. */
  function RowRecovered(w: World, run: RunId): World
    requires run in w.rows && w.daemon.Booting?
  {
    var row := w.rows[run];
    var v := w.(nextEpoch := Max(w.nextEpoch, row.epoch + 1));
    if row.Held() then
      v.(rows := w.rows[run := row.(state := Interrupted, fenced := true)],
         daemon := Booting(w.daemon.pending - {run}, w.daemon.leasing + {run}))
    else v.(daemon := Booting(w.daemon.pending - {run}, w.daemon.leasing))
  }

  /** And leases its Session, once a Session. */
  function LeaseRecovered(w: World, run: RunId, token: Token): World
    requires run in w.rows && w.daemon.Booting?
  {
    var key := w.rows[run].key;
    var v := w.(daemon := Booting(w.daemon.pending, w.daemon.leasing - {run}));
    if key in w.recovered then v
    else v.(excl := X.Next(w.excl, X.Acquire(key, false, token)), recovered := w.recovered[key := token])
  }

  // ---------------------------------------------------------------- the invariant

  /** The rules of one run. */
  predicate SliceOk(s: Slice) {
    && (s.r.row.Some? ==> s.r.row.value.key == s.r.key)
    && (s.disk.Some? ==> s.r.row.Some? && s.disk.value.key == s.r.key && s.disk.value.epoch == s.r.row.value.epoch)
    && (s.live ==> s.r.attached && s.disk.Some?)
    && (s.r.attached ==> !s.gated)
    && (s.r.phase.Reserved? ==> s.r.row.None?)
    && (s.r.phase.Reserved? || s.r.phase.Registered? || s.r.phase.Saved? || s.r.phase.Spawned? ==> !s.r.attached)
    && (s.r.phase.Reserved? || s.r.phase.Registered? || s.r.phase.Saved? ==> !s.gated)
    && (s.r.phase.Saved? || s.r.phase.Spawned? || Occupied(s.r) ==>
          s.r.row.Some? && Active(s.r.row.value) && s.disk.Some? && s.disk.value.Held())
    && ((s.r.phase.Registered? || s.r.phase.Failing? || (s.r.phase.Unwound? && !s.r.phase.safe)) && s.r.row.Some? ==>
          Active(s.r.row.value))
    && (Emptied(s.r.phase) ==> !s.live)
    && (s.r.phase.Closed? && s.live ==> s.disk.value.Held())
    && (s.r.phase.Sealed? || (s.r.phase.Removed? && s.r.phase.removed) ==> s.r.row.Some? && !s.r.row.value.Held())
    && (s.r.phase.Released? || (s.r.phase.Closed? && s.r.phase.release) ==> s.disk.Some? ==> !s.disk.value.Held())
  }

  /** The run may have processes in the Session cgroup, and its cleanup is not over. */
  predicate Occupied(r: Run) {
    || r.phase.Attached? || r.phase.Started? || r.phase.Watched?
    || (r.attached && (r.phase.Failing? || (r.phase.Unwound? && !r.phase.safe)))
  }

  /** The Session cgroup was proven empty after the run used it. */
  predicate Emptied(p: Phase) {
    || p.Quiet? || p.Sealed? || p.Removed? || (p.Unwound? && p.safe) || (p.Closed? && p.release) || p.Released?
  }

  predicate Active(row: Row) { row.state.Starting? || row.state.Running? }

  predicate Holding(w: World, run: RunId) {
    run in w.runs && !w.runs[run].phase.Released?
  }

  /** The row of a run in memory carries this epoch. */
  predicate Remembers(w: World, run: RunId, epoch: nat) {
    run in w.runs && w.runs[run].row.Some? && w.runs[run].row.value.epoch == epoch
  }

  predicate LeaseOf(reg: Registry, token: Token, key: Key) {
    token in reg.leases && reg.leases[token] == key
  }

  ghost predicate RunOk(w: World, run: RunId)
    requires run in w.runs
  {
    && SliceOk(SliceOf(w, run))
    && (Holding(w, run) ==> LeaseOf(w.excl.reg, w.runs[run].token, w.runs[run].key))
    && (run in w.live ==> w.live[run] == w.runs[run].key)
    && (w.runs[run].row.Some? ==> w.runs[run].row.value.epoch < w.nextEpoch)
  }

  /** Owners do not share leases. */
  ghost predicate TokensDistinct(w: World) {
    && (forall r, q :: Holding(w, r) && Holding(w, q) && w.runs[r].token == w.runs[q].token ==> r == q)
    && (forall r, k :: Holding(w, r) && k in w.recovered ==> w.runs[r].token != w.recovered[k])
    && (forall k :: k in w.recovered ==> LeaseOf(w.excl.reg, w.recovered[k], k))
  }

  /** Processes of a run that this daemon did not start belong to a row that is leased
      again, or is about to be. */
  ghost predicate Inherited(w: World) {
    forall r :: r in w.live && r !in w.runs ==>
      && r in w.rows && w.rows[r].key == w.live[r] && w.rows[r].Held()
      && ((w.daemon.Booting? && (r in w.daemon.pending || r in w.daemon.leasing)) || w.live[r] in w.recovered)
  }

  ghost predicate OneRunPerCgroup(w: World) {
    forall r, q :: r in w.live && q in w.live && w.live[r] == w.live[q] ==> r == q
  }

  ghost predicate BootState(w: World) {
    w.daemon.Booting? ==>
      && w.runs == map[] && w.daemon.pending <= w.rows.Keys && w.daemon.leasing <= w.rows.Keys
      && w.daemon.pending !! w.daemon.leasing
      && w.excl == X.World(Registry(w.excl.reg.leases, {}, {}, map[], map[], map[]), multiset{}, multiset{})
      && (forall t :: t in w.excl.reg.leases ==> w.excl.reg.leases[t] in w.recovered)
      && (forall k :: k in w.recovered ==> HeldKey(w, k, w.rows.Keys - w.daemon.pending - w.daemon.leasing))
      && (forall r :: r in w.rows && r !in w.daemon.pending && r !in w.daemon.leasing && w.rows[r].Held() ==> w.rows[r].key in w.recovered)
      && (forall r :: r in w.daemon.leasing ==> w.rows[r].Held())
  }

  ghost predicate HeldKey(w: World, key: Key, among: set<RunId>) {
    exists r :: r in among && r in w.rows && w.rows[r].Held() && w.rows[r].key == key
  }

  /** No two rows on disk share an epoch, and no later run can get one of theirs. */
  ghost predicate EpochsDistinct(w: World) {
    && (forall r, q :: r in w.rows && q in w.rows && w.rows[r].epoch == w.rows[q].epoch ==> r == q)
    && (forall r :: r in w.rows && !(w.daemon.Booting? && r in w.daemon.pending) ==> w.rows[r].epoch < w.nextEpoch)
    && (forall r, q :: q in w.rows && Remembers(w, r, w.rows[q].epoch) ==> r == q)
    && (forall r, q, n :: Remembers(w, r, n) && Remembers(w, q, n) ==> r == q)
  }

  ghost predicate RunsOk(w: World) {
    forall r :: r in w.runs ==> RunOk(w, r)
  }

  ghost predicate Fenced(w: World) {
    && X.Exclusive(w.excl) && w.gates <= w.runs.Keys
    && RunsOk(w) && TokensDistinct(w) && Inherited(w) && OneRunPerCgroup(w) && BootState(w) && EpochsDistinct(w)
  }

  // ---------------------------------------------------------------- one run moves

  /** The steps of a launch, whether it goes on or fails. */
  predicate LaunchStep(e: Step) {
    e.Register? || e.SaveStarting? || e.Spawn? || e.Attach? || e.SaveRunning? || e.Watch? || e.Fail?
  }

  /** The steps of the watcher once the runtime is gone. */
  predicate WatchStep(e: Step) {
    e.Quiesce? || e.GiveUp? || e.Seal? || e.Remove? || e.Commit?
  }

  lemma LaunchOk(s: Slice, e: Step, epoch: nat, empty: bool)
    requires SliceOk(s) && CanMove(s, e, empty) && (empty ==> !s.live) && LaunchStep(e)
    ensures SliceOk(Moved(s, e, epoch, empty))
  {
  }

  lemma WatchOk(s: Slice, e: Step, epoch: nat, empty: bool)
    requires SliceOk(s) && CanMove(s, e, empty) && (empty ==> !s.live) && WatchStep(e)
    ensures SliceOk(Moved(s, e, epoch, empty))
  {
  }

  /** What is left cleans up after a failure, releases the lease or touches the row. */
  lemma CleanupOk(s: Slice, e: Step, epoch: nat, empty: bool)
    requires SliceOk(s) && CanMove(s, e, empty) && (empty ==> !s.live) && !LaunchStep(e) && !WatchStep(e)
    ensures SliceOk(Moved(s, e, epoch, empty))
  {
  }

  lemma MovedOk(s: Slice, e: Step, epoch: nat, empty: bool)
    requires SliceOk(s) && CanMove(s, e, empty) && (empty ==> !s.live)
    ensures SliceOk(Moved(s, e, epoch, empty))
  {
    hide SliceOk, CanMove, Moved, LaunchStep, WatchStep;
    if LaunchStep(e) {
      LaunchOk(s, e, epoch, empty);
    } else if WatchStep(e) {
      WatchOk(s, e, epoch, empty);
    } else {
      CleanupOk(s, e, epoch, empty);
    }
  }

  /** Apart from registering, attaching and releasing, a step changes neither who holds
      the lease nor the epoch, and puts no process into a cgroup. */
  ghost predicate OwnerKept(s: Slice, t: Slice, e: Step, epoch: nat, empty: bool) {
    && t.r.key == s.r.key && t.r.token == s.r.token && (s.disk.Some? ==> t.disk.Some?)
    && (t.live ==> s.live || (e.Attach? && empty))
    && (t.r.phase.Released? <==> e.Release? || s.r.phase.Released?)
    && (e.Register? ==> t.r.row.Some? && t.r.row.value.epoch == epoch && s.disk.None? && t.disk.None?)
    && (!e.Register? && t.r.row.Some? ==> s.r.row.Some? && t.r.row.value.epoch == s.r.row.value.epoch)
    && (t.disk.Some? ==> s.r.row.Some? && t.disk.value.epoch == s.r.row.value.epoch)
  }

  lemma MovedKeepsOwner(s: Slice, e: Step, epoch: nat, empty: bool)
    requires SliceOk(s) && CanMove(s, e, empty)
    ensures OwnerKept(s, Moved(s, e, epoch, empty), e, epoch, empty)
  {
  }

  ghost predicate SameFor(w: World, v: World, r: RunId)
    requires r in w.runs && r in v.runs
  {
    SliceOf(v, r) == SliceOf(w, r) && (r in w.live ==> v.live[r] == w.live[r])
  }

  lemma RunOkFrame(w: World, v: World, r: RunId)
    requires r in w.runs && r in v.runs && RunOk(w, r) && SameFor(w, v, r) && w.nextEpoch <= v.nextEpoch
    requires Holding(w, r) ==> LeaseOf(v.excl.reg, w.runs[r].token, w.runs[r].key)
    ensures RunOk(v, r)
  {
  }

  /** Replacing one run leaves the rest of the world alone. */
  lemma PutFrame(w: World, run: RunId, s: Slice, r: RunId)
    requires run in w.runs && (w.rows.Keys * {run} != {} ==> s.disk.Some?)
    ensures var v := Put(w, run, s);
            && (r != run && r in w.runs ==> r in v.runs && SameFor(w, v, r))
            && (r != run ==> (r in v.rows <==> r in w.rows) && (r in w.rows ==> v.rows[r] == w.rows[r]))
            && (r != run ==> (r in v.live <==> r in w.live) && (r in w.live ==> v.live[r] == w.live[r]))
            && SliceOf(v, run) == s && (run in v.live ==> v.live[run] == s.r.key)
            && v.runs.Keys == w.runs.Keys
  {
    assert run in w.rows ==> run in w.rows.Keys * {run};
  }

  /** v is w with one run moved by a step. */
  ghost predicate Stepped(w: World, run: RunId, s: Slice, t: Slice, e: Step, v: World) {
    && run in w.runs && s == SliceOf(w, run) && OwnerKept(s, t, e, w.nextEpoch, !Populated(w, s.r.key)) && SliceOk(t)
    && v == Put(w, run, t).(nextEpoch := v.nextEpoch, excl := v.excl)
    && v.nextEpoch == (if e.Register? then w.nextEpoch + 1 else w.nextEpoch)
    && v.excl == (if e.Release? then X.Next(w.excl, X.Release(s.r.token)) else w.excl)
    && (e.Release? ==> Holding(w, run))
  }

  lemma RunIsReady(w: World, run: RunId)
    requires Fenced(w) && run in w.runs
    ensures SliceOk(SliceOf(w, run)) && (SliceOf(w, run).live ==> Populated(w, w.runs[run].key))
  {
    assert RunOk(w, run);
    hide SliceOk, X.Exclusive;
    if run in w.live { assert w.live[run] in w.live.Values; }
  }

  lemma AdvancedIsStep(w: World, run: RunId, e: Step)
    requires Fenced(w) && Enabled(w, Move(run, e))
    ensures var s := SliceOf(w, run);
            Stepped(w, run, s, Moved(s, e, w.nextEpoch, !Populated(w, s.r.key)), e, Advanced(w, run, e))
  {
    hide Fenced, SliceOk, OwnerKept, Moved, X.Next;
    var s := SliceOf(w, run);
    var empty := !Populated(w, s.r.key);
    RunIsReady(w, run);
    assert e.Release? ==> Holding(w, run);
    hide CanMove;
    MovedOk(s, e, w.nextEpoch, empty);
    MovedKeepsOwner(s, e, w.nextEpoch, empty);
  }

  lemma StepKeepsLeases(w: World, run: RunId, s: Slice, t: Slice, e: Step, v: World)
    requires Stepped(w, run, s, t, e, v) && TokensDistinct(w)
    requires forall r :: Holding(w, r) ==> LeaseOf(w.excl.reg, w.runs[r].token, w.runs[r].key)
    ensures TokensDistinct(v)
    ensures forall r :: Holding(v, r) ==> Holding(w, r) && LeaseOf(v.excl.reg, w.runs[r].token, w.runs[r].key)
  {
    hide SliceOk;
    forall r | Holding(v, r) ensures Holding(w, r) && v.runs[r].token == w.runs[r].token && (e.Release? ==> r != run) {
    }
  }

  lemma StepKeepsRuns(w: World, run: RunId, s: Slice, t: Slice, e: Step, v: World)
    requires Stepped(w, run, s, t, e, v) && RunsOk(w)
    requires forall r :: Holding(v, r) ==> Holding(w, r) && LeaseOf(v.excl.reg, w.runs[r].token, w.runs[r].key)
    ensures RunsOk(v)
  {
    hide SliceOk;
    forall r | r in v.runs ensures RunOk(v, r) {
      PutFrame(w, run, t, r);
      assert RunOk(w, r) && RunOk(w, run);
      if r != run {
        assert SameFor(w, v, r);
        RunOkFrame(w, v, r);
      }
    }
  }

  lemma StepKeepsCgroups(w: World, run: RunId, s: Slice, t: Slice, e: Step, v: World)
    requires Stepped(w, run, s, t, e, v) && OneRunPerCgroup(w) && RunOk(w, run)
    ensures OneRunPerCgroup(v)
  {
    hide SliceOk;
    forall r | r in v.live && r != run ensures r in w.live && v.live[r] == w.live[r] {}
    forall r | r in w.live ensures w.live[r] in w.live.Values {}
  }

  lemma StepKeepsInherited(w: World, run: RunId, s: Slice, t: Slice, e: Step, v: World)
    requires Stepped(w, run, s, t, e, v) && Inherited(w) && w.daemon.Up?
    ensures Inherited(v)
  {
    hide SliceOk, OwnerKept;
    forall r | r in v.live && r !in v.runs ensures r in w.live && v.live[r] == w.live[r] && r !in w.runs {}
  }

  lemma StepKeepsMemory(w: World, run: RunId, s: Slice, t: Slice, e: Step, v: World)
    requires Stepped(w, run, s, t, e, v)
    ensures forall r, n :: Remembers(v, r, n) ==> Remembers(w, r, n) || (e.Register? && r == run && n == w.nextEpoch)
    ensures forall q :: q in v.rows && q != run ==> q in w.rows && v.rows[q] == w.rows[q]
    ensures run in v.rows ==> Remembers(w, run, v.rows[run].epoch)
  {
    hide SliceOk;
  }

  lemma EpochsAfter(w: World, v: World, run: RunId, registers: bool)
    requires EpochsDistinct(w) && w.daemon.Up? && v.daemon.Up?
    requires forall r, n :: Remembers(v, r, n) ==> Remembers(w, r, n) || (registers && r == run && n == w.nextEpoch)
    requires forall q :: q in v.rows && q != run ==> q in w.rows && v.rows[q] == w.rows[q]
    requires run in v.rows ==> !registers && Remembers(w, run, v.rows[run].epoch)
    requires forall r, n: nat :: Remembers(w, r, n) ==> n < w.nextEpoch
    requires v.nextEpoch >= w.nextEpoch
    ensures EpochsDistinct(v)
  {
    hide Remembers;
  }

  lemma StepKeepsEpochs(w: World, run: RunId, s: Slice, t: Slice, e: Step, v: World)
    requires Stepped(w, run, s, t, e, v) && EpochsDistinct(w) && RunsOk(w) && w.daemon.Up?
    ensures EpochsDistinct(v)
  {
    StepKeepsMemory(w, run, s, t, e, v);
    forall r, n: nat | Remembers(w, r, n) ensures n < w.nextEpoch {
      assert RunOk(w, r);
    }
    assert e.Register? ==> run !in v.rows;
    hide SliceOk, RunsOk, Remembers, EpochsDistinct;
    EpochsAfter(w, v, run, e.Register?);
  }

  lemma MoveKeeps(w: World, run: RunId, e: Step)
    requires Fenced(w) && Enabled(w, Move(run, e))
    ensures Fenced(Next(w, Move(run, e)))
  {
    var s := SliceOf(w, run);
    var t := Moved(s, e, w.nextEpoch, !Populated(w, s.r.key));
    var v := Advanced(w, run, e);
    AdvancedIsStep(w, run, e);
    forall r | Holding(w, r) ensures LeaseOf(w.excl.reg, w.runs[r].token, w.runs[r].key) {
      assert RunOk(w, r);
    }
    assert RunOk(w, run);
    X.ReleaseKeeps(w.excl, s.r.token);
    hide SliceOk, CanMove, Moved, RunsOk, TokensDistinct, EpochsDistinct, Inherited, OneRunPerCgroup, X.Exclusive, Advanced;
    StepKeepsLeases(w, run, s, t, e, v);
    StepKeepsRuns(w, run, s, t, e, v);
    StepKeepsCgroups(w, run, s, t, e, v);
    StepKeepsInherited(w, run, s, t, e, v);
    StepKeepsEpochs(w, run, s, t, e, v);
  }

  // ---------------------------------------------------------------- the other events

  // A step keeps each part of the invariant that reads only what the step leaves alone.

  lemma NoRunsOk(v: World)
    requires v.runs == map[]
    ensures RunsOk(v)
  {
  }

  lemma SameTokens(w: World, v: World)
    requires TokensDistinct(w) && v.runs == w.runs && v.recovered == w.recovered && v.excl == w.excl
    ensures TokensDistinct(v)
  {
  }

  lemma SameEpochs(w: World, v: World)
    requires EpochsDistinct(w) && v.rows == w.rows && v.runs == w.runs && v.nextEpoch == w.nextEpoch
    requires w.daemon.Booting? ==> w.daemon.pending <= (if v.daemon.Booting? then v.daemon.pending else {})
    ensures EpochsDistinct(v)
  {
    assert forall r, n :: Remembers(v, r, n) <==> Remembers(w, r, n);
  }

  lemma FewerCgroups(w: World, v: World)
    requires OneRunPerCgroup(w) && forall r :: r in v.live ==> r in w.live && v.live[r] == w.live[r]
    ensures OneRunPerCgroup(v)
  {
  }

  /** w and v differ in the registry only, and every owner keeps its lease. */
  ghost predicate OwnersKeepLeases(w: World, v: World) {
    && v == w.(excl := v.excl)
    && (forall r :: Holding(w, r) && LeaseOf(w.excl.reg, w.runs[r].token, w.runs[r].key) ==>
          LeaseOf(v.excl.reg, w.runs[r].token, w.runs[r].key))
    && (forall k :: k in w.recovered && LeaseOf(w.excl.reg, w.recovered[k], k) ==> LeaseOf(v.excl.reg, w.recovered[k], k))
  }

  lemma RegistryStepKeepsRuns(w: World, v: World)
    requires RunsOk(w) && OwnersKeepLeases(w, v)
    ensures RunsOk(v)
  {
    hide SliceOk;
    forall r | r in v.runs ensures RunOk(v, r) {
      assert RunOk(w, r);
    }
  }

  lemma RegistryStepKeepsTokens(w: World, v: World)
    requires RunsOk(w) && TokensDistinct(w) && OwnersKeepLeases(w, v)
    ensures TokensDistinct(v)
  {
    hide SliceOk, RunsOk;
    assert forall r :: Holding(v, r) <==> Holding(w, r);
  }

  lemma RegistryStepKeeps(w: World, v: World)
    requires Fenced(w) && w.daemon.Up? && OwnersKeepLeases(w, v) && X.Exclusive(v.excl)
    ensures Fenced(v)
  {
    hide X.Exclusive, RunsOk, TokensDistinct, EpochsDistinct, OneRunPerCgroup;
    RegistryStepKeepsRuns(w, v);
    RegistryStepKeepsTokens(w, v);
    SameEpochs(w, v);
    FewerCgroups(w, v);
  }

  /** A lease only goes when it is released by its token. */
  lemma LeaseStays(x: X.World, e: X.Event, token: Token, key: Key)
    requires X.Enabled(x, e) && LeaseOf(x.reg, token, key) && (e.Release? ==> e.token != token)
    ensures LeaseOf(X.Next(x, e).reg, token, key)
  {
    hide RegisterError, FenceError, MutationError, ReadError, AcquireError;
  }

  lemma CallKeepsLeases(w: World, e: X.Event, v: World)
    requires EnabledUp(w, Call(e)) && v == w.(excl := X.Next(w.excl, e))
    ensures OwnersKeepLeases(w, v)
  {
    hide X.Next, X.Enabled, LeaseOf;
    forall r | Holding(w, r) && LeaseOf(w.excl.reg, w.runs[r].token, w.runs[r].key)
      ensures LeaseOf(v.excl.reg, w.runs[r].token, w.runs[r].key)
    {
      LeaseStays(w.excl, e, w.runs[r].token, w.runs[r].key);
    }
    forall k | k in w.recovered && LeaseOf(w.excl.reg, w.recovered[k], k)
      ensures LeaseOf(v.excl.reg, w.recovered[k], k)
    {
      LeaseStays(w.excl, e, w.recovered[k], k);
    }
  }

  lemma RegistryKeeps(w: World, e: X.Event)
    requires Fenced(w) && Enabled(w, Call(e))
    ensures Fenced(Next(w, Call(e)))
  {
    var v := Next(w, Call(e));
    assert v == w.(excl := X.Next(w.excl, e));
    X.EventKeepsExclusion(w.excl, e);
    CallKeepsLeases(w, e, v);
    hide X.Exclusive, OwnersKeepLeases, Fenced, Next, X.Next;
    RegistryStepKeeps(w, v);
  }

  lemma ReservedKeepsLeases(w: World, key: Key, recovery: bool, token: Token, u: World)
    requires Fenced(w) && w.daemon.Up? && FreshToken(w.excl.reg, token)
    requires AcquireError(w.excl.reg, key, recovery).None?
    requires u == w.(excl := X.Next(w.excl, X.Acquire(key, recovery, token)))
    ensures Fenced(u) && LeaseOf(u.excl.reg, token, key)
  {
    X.AcquireKeeps(w.excl, key, recovery, token);
    assert OwnersKeepLeases(w, u) && LeaseOf(u.excl.reg, token, key) by { hide Fenced, X.Exclusive; }
    hide Fenced, OwnersKeepLeases, X.Exclusive, X.Next;
    RegistryStepKeeps(w, u);
  }

  lemma ReserveKeeps(w: World, run: RunId, key: Key, recovery: bool, token: Token)
    requires Fenced(w) && Enabled(w, Reserve(run, key, recovery, token))
    ensures Fenced(Next(w, Reserve(run, key, recovery, token)))
  {
    hide Fenced, X.Exclusive;
    if AcquireError(w.excl.reg, key, recovery).None? {
      var u := w.(excl := X.Next(w.excl, X.Acquire(key, recovery, token)));
      var v := u.(runs := u.runs[run := Run(key, token, Reserved, false, None)]);
      assert Next(w, Reserve(run, key, recovery, token)) == v;
      ReservedKeepsLeases(w, key, recovery, token, u);
      NewRunKeeps(w, u, v, run);
    }
  }

  lemma NewRunIsOk(w: World, u: World, v: World, run: RunId)
    requires Fenced(w) && Fenced(u) && u.daemon.Up? && run !in w.runs && run !in w.rows && u == w.(excl := u.excl)
    requires run in v.runs && v == u.(runs := u.runs[run := v.runs[run]])
    requires v.runs[run].phase.Reserved? && v.runs[run].row.None? && !v.runs[run].attached
    requires LeaseOf(u.excl.reg, v.runs[run].token, v.runs[run].key) && v.runs[run].token !in w.excl.reg.leases
    ensures RunsOk(v)
  {
    hide X.Exclusive, EpochsDistinct, OneRunPerCgroup, BootState, TokensDistinct;
    forall r | r in v.runs ensures RunOk(v, r) {
      if r != run { assert RunOk(u, r); }
    }
  }

  lemma NewRunHasOwnToken(w: World, u: World, v: World, run: RunId)
    requires Fenced(w) && Fenced(u) && u.daemon.Up? && run !in w.runs && run !in w.rows && u == w.(excl := u.excl)
    requires run in v.runs && v == u.(runs := u.runs[run := v.runs[run]])
    requires v.runs[run].phase.Reserved? && v.runs[run].row.None? && !v.runs[run].attached
    requires LeaseOf(u.excl.reg, v.runs[run].token, v.runs[run].key) && v.runs[run].token !in w.excl.reg.leases
    ensures TokensDistinct(v)
  {
    hide X.Exclusive, EpochsDistinct, OneRunPerCgroup, BootState, Inherited, SliceOk;
    forall r | Holding(u, r) ensures u.runs[r].token != v.runs[run].token {
      assert RunOk(w, r);
    }
  }

  lemma NewRunKeepsEpochs(u: World, v: World, run: RunId)
    requires EpochsDistinct(u) && run in v.runs && v == u.(runs := u.runs[run := v.runs[run]]) && v.runs[run].row.None?
    ensures EpochsDistinct(v)
  {
    forall r, n | Remembers(v, r, n) ensures Remembers(u, r, n) {}
  }

  lemma NewRunKeeps(w: World, u: World, v: World, run: RunId)
    requires Fenced(w) && Fenced(u) && u.daemon.Up? && run !in w.runs && run !in w.rows && u == w.(excl := u.excl)
    requires run in v.runs && v == u.(runs := u.runs[run := v.runs[run]])
    requires v.runs[run].phase.Reserved? && v.runs[run].row.None? && !v.runs[run].attached
    requires LeaseOf(u.excl.reg, v.runs[run].token, v.runs[run].key) && v.runs[run].token !in w.excl.reg.leases
    ensures Fenced(v)
  {
    hide RunsOk, TokensDistinct, OneRunPerCgroup, EpochsDistinct, X.Exclusive;
    NewRunIsOk(w, u, v, run);
    NewRunHasOwnToken(w, u, v, run);
    NewRunKeepsEpochs(u, v, run);
    FewerCgroups(u, v);
  }

  lemma EmptySliceOk(s: Slice)
    requires SliceOk(s)
    ensures SliceOk(s.(gated := false, live := false))
  {
  }

  lemma DyingKeepsRuns(w: World, run: RunId)
    requires RunsOk(w) && TokensDistinct(w) && EpochsDistinct(w)
    ensures var v := Next(w, Die(run));
            RunsOk(v) && TokensDistinct(v) && EpochsDistinct(v)
  {
    var v := Next(w, Die(run));
    assert v == w.(gates := w.gates - {run}, live := w.live - {run});
    hide Next, Advanced, SliceOk;
    forall r | r in v.runs ensures RunOk(v, r) {
      assert RunOk(w, r);
      EmptySliceOk(SliceOf(w, r));
    }
    hide RunsOk;
    assert EpochsDistinct(v) by { assert forall r, n :: Remembers(v, r, n) <==> Remembers(w, r, n); }
    assert TokensDistinct(v) by { assert forall r :: Holding(v, r) <==> Holding(w, r); }
  }

  lemma DyingKeepsBoot(w: World, v: World)
    requires BootState(w) && v == w.(gates := v.gates, live := v.live)
    ensures BootState(v)
  {
    forall k, among ensures HeldKey(w, k, among) <==> HeldKey(v, k, among) {}
  }

  lemma DieKeeps(w: World, run: RunId)
    requires Fenced(w)
    ensures Fenced(Next(w, Die(run)))
  {
    var v := Next(w, Die(run));
    assert v == w.(gates := w.gates - {run}, live := w.live - {run});
    hide Next, X.Exclusive, RunsOk, TokensDistinct, EpochsDistinct, BootState, OneRunPerCgroup;
    DyingKeepsRuns(w, run);
    DyingKeepsBoot(w, v);
    FewerCgroups(w, v);
  }

  /** Whatever survives the daemon has a row on disk that the next start fences. */
  lemma LiveIsHeld(w: World, run: RunId)
    requires Fenced(w) && run in w.live
    ensures run in w.rows && w.rows[run].Held() && w.rows[run].key == w.live[run]
  {
    hide X.Exclusive, TokensDistinct, EpochsDistinct, BootState;
    if run in w.runs { assert RunOk(w, run); }
  }

  lemma RebootingOk(w: World, v: World, survivors: set<RunId>)
    requires EpochsDistinct(w) && v == Rebooting(w, survivors)
    requires forall r :: r in v.live ==> r in v.rows && v.rows[r].Held() && v.rows[r].key == v.live[r]
    ensures TokensDistinct(v) && Inherited(v) && BootState(v) && EpochsDistinct(v)
  {
  }

  lemma CrashKeeps(w: World, survivors: set<RunId>)
    requires Fenced(w) && Enabled(w, Crash(survivors))
    ensures Fenced(Next(w, Crash(survivors)))
  {
    var v := Rebooting(w, survivors);
    assert Next(w, Crash(survivors)) == v;
    hide Next, Enabled, RunsOk, OneRunPerCgroup, X.Exclusive, TokensDistinct, Inherited, BootState, EpochsDistinct;
    forall r | r in v.live ensures r in v.rows && v.rows[r].Held() && v.rows[r].key == v.live[r] {
      LiveIsHeld(w, r);
    }
    X.StartIsExclusive();
    NoRunsOk(v);
    FewerCgroups(w, v);
    RebootingOk(w, v, survivors);
  }

  lemma RecoverRowKeepsBoot(w: World, run: RunId)
    requires BootState(w) && Enabled(w, RecoverRow(run))
    ensures BootState(Next(w, RecoverRow(run)))
  {
    var v := Next(w, RecoverRow(run));
    forall k | k in v.recovered ensures HeldKey(v, k, v.rows.Keys - v.daemon.pending - v.daemon.leasing) {
      var r :| r in w.rows.Keys - w.daemon.pending - w.daemon.leasing && r in w.rows && w.rows[r].Held() && w.rows[r].key == k;
      assert r in v.rows && v.rows[r] == w.rows[r] && r !in v.daemon.pending && r !in v.daemon.leasing;
    }
  }

  lemma RowKeepsEpochs(w: World, run: RunId, v: World)
    requires w.runs == map[] && w.daemon.Booting? && run in w.daemon.pending && run in w.rows
    requires v == RowRecovered(w, run) && EpochsDistinct(w)
    ensures EpochsDistinct(v)
  {
    assert v.rows.Keys == w.rows.Keys && forall r :: r in w.rows ==> v.rows[r].epoch == w.rows[r].epoch;
    assert v.daemon.pending == w.daemon.pending - {run} && v.nextEpoch >= w.nextEpoch && v.nextEpoch > w.rows[run].epoch;
    hide RowRecovered;
    assert forall r, n :: !Remembers(v, r, n);
  }

  lemma RowKeepsInherited(w: World, run: RunId, v: World)
    requires w.runs == map[] && w.daemon.Booting? && run in w.daemon.pending && run in w.rows
    requires v == RowRecovered(w, run) && Inherited(w)
    ensures Inherited(v)
  {
  }

  lemma RecoverRowKeeps(w: World, run: RunId)
    requires Fenced(w) && Enabled(w, RecoverRow(run))
    ensures Fenced(Next(w, RecoverRow(run)))
  {
    var v := Next(w, RecoverRow(run));
    assert v == RowRecovered(w, run) && w.runs == map[];
    hide RunsOk, TokensDistinct, Inherited, OneRunPerCgroup, BootState, X.Exclusive, EpochsDistinct, Next;
    RecoverRowKeepsBoot(w, run);
    RowKeepsEpochs(w, run, v);
    RowKeepsInherited(w, run, v);
    NoRunsOk(v);
    SameTokens(w, v);
    FewerCgroups(w, v);
  }

  lemma RecoverLeaseKeepsBoot(w: World, run: RunId, token: Token)
    requires BootState(w) && Enabled(w, RecoverLease(run, token))
    ensures w.rows[run].key !in w.recovered ==> AcquireError(w.excl.reg, w.rows[run].key, false).None?
    ensures BootState(Next(w, RecoverLease(run, token)))
  {
    var v := Next(w, RecoverLease(run, token));
    forall k | k in v.recovered ensures HeldKey(v, k, v.rows.Keys - v.daemon.pending - v.daemon.leasing) {
      var done := v.rows.Keys - v.daemon.pending - v.daemon.leasing;
      if k == w.rows[run].key {
        assert run in done;
      } else {
        var r :| r in w.rows.Keys - w.daemon.pending - w.daemon.leasing && r in w.rows && w.rows[r].Held() && w.rows[r].key == k;
        assert r in done;
      }
    }
  }

  lemma LeaseKeepsRest(w: World, run: RunId, token: Token, v: World)
    requires w.runs == map[] && w.daemon.Booting? && run in w.rows && FreshToken(w.excl.reg, token)
    requires v == LeaseRecovered(w, run, token) && TokensDistinct(w) && Inherited(w)
    requires w.rows[run].key !in w.recovered ==> AcquireError(w.excl.reg, w.rows[run].key, false).None?
    ensures TokensDistinct(v) && Inherited(v)
  {
  }

  lemma RecoverLeaseKeeps(w: World, run: RunId, token: Token)
    requires Fenced(w) && Enabled(w, RecoverLease(run, token))
    ensures Fenced(Next(w, RecoverLease(run, token)))
  {
    var v := Next(w, RecoverLease(run, token));
    assert v == LeaseRecovered(w, run, token) && w.runs == map[];
    hide RunsOk, TokensDistinct, Inherited, OneRunPerCgroup, BootState, X.Exclusive, EpochsDistinct, Next, AcquireError;
    RecoverLeaseKeepsBoot(w, run, token);
    LeaseKeepsRest(w, run, token, v);
    X.AcquireKeeps(w.excl, w.rows[run].key, false, token);
    NoRunsOk(v);
    SameEpochs(w, v);
    FewerCgroups(w, v);
  }

  lemma ReadyKeepsInherited(w: World, v: World)
    requires Inherited(w) && w.daemon.Booting? && w.daemon.pending == {} && w.daemon.leasing == {} && v == w.(daemon := Up)
    ensures Inherited(v)
  {
  }

  lemma ReadyKeeps(w: World)
    requires Fenced(w) && Enabled(w, Ready)
    ensures Fenced(Next(w, Ready))
  {
    var v := Next(w, Ready);
    assert v == w.(daemon := Up) && w.runs == map[] && w.daemon.pending == {} && w.daemon.leasing == {};
    ReadyKeepsInherited(w, v);
    hide RunsOk, TokensDistinct, Inherited, OneRunPerCgroup, X.Exclusive, EpochsDistinct, Next, Enabled, HeldKey;
    NoRunsOk(v);
    SameTokens(w, v);
    SameEpochs(w, v);
    FewerCgroups(w, v);
  }

  /** Every step keeps the fence. */
  lemma EventKeepsFence(w: World, e: Event)
    requires Fenced(w) && Enabled(w, e)
    ensures Fenced(Next(w, e))
  {
    hide Fenced, Next;
    match e
    case Call(r) => RegistryKeeps(w, r);
    case Reserve(run, key, recovery, token) => ReserveKeeps(w, run, key, recovery, token);
    case Move(run, step) => MoveKeeps(w, run, step);
    case Die(run) => DieKeeps(w, run);
    case Crash(survivors) => CrashKeeps(w, survivors);
    case RecoverRow(run) => RecoverRowKeeps(w, run);
    case RecoverLease(run, token) => RecoverLeaseKeeps(w, run, token);
    case Ready => ReadyKeeps(w);
  }

  // ---------------------------------------------------------------- runs

  const START := World(Booting({}, {}), X.START, map[], map[], 1, map[], {}, map[])

  ghost predicate Admissible(w: World, es: seq<Event>)
    decreases |es|
  {
    es == [] || (Enabled(w, es[0]) && Admissible(Next(w, es[0]), es[1..]))
  }

  ghost function Replay(w: World, es: seq<Event>): World
    requires Admissible(w, es)
    decreases |es|
  {
    if es == [] then w else Replay(Next(w, es[0]), es[1..])
  }

  lemma StartIsFenced()
    ensures Fenced(START)
  {
    X.StartIsExclusive();
  }

  lemma {:induction false} RunsAreFenced(w: World, es: seq<Event>)
    requires Fenced(w) && Admissible(w, es)
    ensures Fenced(Replay(w, es))
    decreases |es|
  {
    if es != [] {
      hide Fenced, Next, Enabled;
      EventKeepsFence(w, es[0]);
      RunsAreFenced(Next(w, es[0]), es[1..]);
    }
  }

  lemma Reachable(es: seq<Event>)
    requires Admissible(START, es)
    ensures Fenced(Replay(START, es))
  {
    StartIsFenced();
    RunsAreFenced(START, es);
  }

  // ---------------------------------------------------------------- consequences

  lemma LiveIsLeased(w: World, key: Key)
    requires Fenced(w) && w.daemon.Up? && Populated(w, key)
    ensures HasLease(w.excl.reg, key)
  {
    hide X.Exclusive, EpochsDistinct, BootState, OneRunPerCgroup;
    var r :| r in w.live && w.live[r] == key;
    if r in w.runs {
      assert RunOk(w, r);
      assert w.excl.reg.leases[w.runs[r].token] == key;
    } else {
      assert w.excl.reg.leases[w.recovered[key]] == key;
    }
  }

  /** Whatever crashed and restarted before: while the daemon serves, the cgroup of a
      Session without a lease contains no process of any tracked run. */
  lemma NoLeaseMeansEmpty(es: seq<Event>, key: Key)
    requires Admissible(START, es)
    requires Replay(START, es).daemon.Up? && !HasLease(Replay(START, es).excl.reg, key)
    ensures !Populated(Replay(START, es), key)
  {
    Reachable(es);
    var w := Replay(START, es);
    hide Fenced;
    if Populated(w, key) { LiveIsLeased(w, key); }
  }

  /** A checkpoint, rollback or runtime reset never sees a live tracked process of its Session. */
  lemma MutationSeesNoProcess(es: seq<Event>, key: Key)
    requires Admissible(START, es)
    ensures var w := Replay(START, es);
            (key in w.excl.reg.mutating || w.excl.mutations[key] > 0 || X.Resetting(w.excl, key)) ==> !Populated(w, key)
  {
    Reachable(es);
    var w := Replay(START, es);
    assert X.Excluded(w.excl, key);
    assert w.daemon.Booting? ==> key !in w.excl.reg.mutating;
    if w.daemon.Up? && key in w.excl.reg.mutating {
      hide Fenced;
      NoLeaseMeansEmpty(es, key);
    }
  }

  /** Two tracked runs never have processes in the same Session cgroup. */
  lemma OneTrackedRunPerSession(es: seq<Event>, r: RunId, q: RunId)
    requires Admissible(START, es)
    requires var w := Replay(START, es); r in w.live && q in w.live && w.live[r] == w.live[q]
    ensures r == q
  {
    Reachable(es);
  }

  /** Run epochs on disk are pairwise different, and once startup is over every later run
      gets a larger one. */
  lemma EpochsAreNeverReused(es: seq<Event>)
    requires Admissible(START, es)
    ensures var w := Replay(START, es);
            && (forall r, q :: r in w.rows && q in w.rows && r != q ==> w.rows[r].epoch != w.rows[q].epoch)
            && (w.daemon.Up? ==> forall r :: r in w.rows ==> w.rows[r].epoch < w.nextEpoch)
  {
    Reachable(es);
  }

  /** Startup ends with a lease on exactly the Sessions of the rows it left fenced. */
  lemma RestartLeasesExactlyTheFenced(es: seq<Event>, key: Key)
    requires Admissible(START, es) && Enabled(Replay(START, es), Ready)
    ensures var w := Replay(START, es);
            HasLease(w.excl.reg, key) <==> exists r :: r in w.rows && w.rows[r].Held() && w.rows[r].key == key
  {
    Reachable(es);
    var w := Replay(START, es);
    hide X.Exclusive, EpochsDistinct, OneRunPerCgroup, Inherited, RunsOk;
    if HasLease(w.excl.reg, key) {
      assert HeldKey(w, key, w.rows.Keys - w.daemon.pending - w.daemon.leasing);
    }
    if r :| r in w.rows && w.rows[r].Held() && w.rows[r].key == key {
      assert w.excl.reg.leases[w.recovered[key]] == key;
    }
  }

  /** A run whose lease was given back leaves no fence behind: a later start does not lease
      its Session on its account. */
  lemma ReleasedRunIsNotFenced(es: seq<Event>, run: RunId)
    requires Admissible(START, es)
    requires var w := Replay(START, es); run in w.runs && w.runs[run].phase.Released? && run in w.rows
    ensures !Replay(START, es).rows[run].Held() && run !in Replay(START, es).live
  {
    Reachable(es);
    assert RunOk(Replay(START, es), run);
  }
}
