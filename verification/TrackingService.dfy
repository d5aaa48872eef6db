/** The tracking service itself: the startup loop, launching one run with its cleanup, and
    the watcher. Its whole history is a run of the state machine of `RunFencing`. */
module TrackingService {
  import opened Base
  import opened SessionRegistry
  import opened RunFencing
  import X = RegistryExclusion

  datatype LaunchError = Refused(e: RegistryError) | LaunchFailed

  /** Where a launch raises an error on its own account: before the step of that number,
      or never; and whether the save of the running row succeeds. */
  datatype LaunchPlan = LaunchPlan(failAt: nat, saved: bool)

  /** How the cleanup after a failed launch goes: the gate and its cgroup die or not, tracker
      and features finalize and the cgroup is removed or not, the last save succeeds or not. */
  datatype Cleanup = Cleanup(killed: bool, finalized: bool, saved: bool)

  /** How a watched run ends. */
  datatype Ending = Ending(exited: bool, finalized: bool, saved: bool, removed: bool, committed: bool)

  lemma {:induction false} ReplaySnoc(w: World, es: seq<Event>, e: Event)
    requires Admissible(w, es) && Enabled(Replay(w, es), e)
    ensures Admissible(w, es + [e]) && Replay(w, es + [e]) == Next(Replay(w, es), e)
    decreases |es|
  {
    hide Next, Enabled;
    if es == [] {
      assert [e][1..] == [];
    } else {
      assert (es + [e])[0] == es[0] && (es + [e])[1..] == es[1..] + [e];
      ReplaySnoc(Next(w, es[0]), es[1..], e);
    }
  }

  lemma ReleasedWorld(x: X.World, token: Token)
    ensures X.Next(x, X.Release(token)) == x.(reg := SessionRegistry.Released(x.reg, token))
  {
  }

  /** A step that touches neither gate, cgroup, epoch nor lease changes the run's entry in
      memory and its row on disk. */
  lemma LocalStep(w: World, run: RunId, step: Step, r: Run, disk: Option<Row>)
    requires run in w.runs && CanMove(SliceOf(w, run), step, !Populated(w, w.runs[run].key))
    requires !step.Register? && !step.Spawn? && !step.Attach? && !step.Release?
    requires run in w.live ==> w.live[run] == w.runs[run].key
    requires r.key == w.runs[run].key && (run in w.rows ==> disk.Some?)
    requires Moved(SliceOf(w, run), step, w.nextEpoch, !Populated(w, w.runs[run].key)) == SliceOf(w, run).(r := r, disk := disk)
    ensures Advanced(w, run, step)
         == w.(runs := w.runs[run := r], rows := if disk.Some? then w.rows[run := disk.value] else w.rows)
  {
    hide CanMove, Moved, Populated;
    var t := SliceOf(w, run).(r := r, disk := disk);
    assert Put(w, run, t).gates == w.gates;
    assert Put(w, run, t).live == w.live;
  }

  /** The two saves after which a run is closed: what is in memory then, and what is on disk. */
  lemma SaveFailedMoves(s: Slice, saved: bool, epoch: nat, empty: bool)
    requires s.r.phase.Unwound? && s.r.row.Some?
    ensures CanMove(s, SaveFailed(saved), empty)
    ensures var safe := s.r.phase.safe && saved;
            var row := s.r.row.value.(state := Failed, fenced := !safe);
            Moved(s, SaveFailed(saved), epoch, empty)
            == s.(r := s.r.(row := Some(row), phase := Closed(safe)), disk := if saved then Some(row) else s.disk)
  {
  }

  lemma CommitMoves(s: Slice, saved: bool, epoch: nat, empty: bool)
    requires s.r.phase.Removed? && s.r.row.Some?
    ensures CanMove(s, Commit(saved), empty)
    ensures var row := if saved then s.r.row.value else s.r.row.value.(state := Failed, fenced := true);
            Moved(s, Commit(saved), epoch, empty)
            == s.(r := s.r.(row := Some(row), phase := Closed(saved && s.r.phase.removed)), disk := if saved then Some(row) else s.disk)
  {
  }

  /** Releasing changes the run's phase and the registry. */
  lemma ReleaseStep(w: World, run: RunId)
    requires run in w.runs && w.runs[run].phase == Closed(true)
    requires run in w.live ==> w.live[run] == w.runs[run].key
    ensures CanMove(SliceOf(w, run), RunFencing.Step.Release, !Populated(w, w.runs[run].key))
    ensures Advanced(w, run, RunFencing.Step.Release)
         == w.(runs := w.runs[run := w.runs[run].(phase := Released)],
               excl := w.excl.(reg := SessionRegistry.Released(w.excl.reg, w.runs[run].token)))
  {
    var s := SliceOf(w, run);
    var t := Moved(s, RunFencing.Step.Release, w.nextEpoch, !Populated(w, s.r.key));
    ReleasedWorld(w.excl, s.r.token);
    assert Put(w, run, t).live == w.live && Put(w, run, t).gates == w.gates;
  }

  lemma ExtendDie(es: seq<Event>, w: World, run: RunId)
    requires Admissible(START, es) && Replay(START, es) == w
    ensures Admissible(START, es + [Die(run)])
    ensures Replay(START, es + [Die(run)]) == w.(gates := w.gates - {run}, live := w.live - {run})
  {
    assert Enabled(w, Die(run)) && Next(w, Die(run)) == w.(gates := w.gates - {run}, live := w.live - {run});
    hide Enabled, Next;
    ReplaySnoc(START, es, Die(run));
  }

  lemma ExtendReserve(es: seq<Event>, w: World, run: RunId, key: Key, recovery: bool, token: Token)
    requires Admissible(START, es) && Replay(START, es) == w && w.daemon.Up?
    requires run !in w.runs && run !in w.rows && FreshToken(w.excl.reg, token)
    ensures Admissible(START, es + [Reserve(run, key, recovery, token)])
    ensures Replay(START, es + [Reserve(run, key, recovery, token)])
         == if AcquireError(w.excl.reg, key, recovery).Some? then w
            else w.(excl := w.excl.(reg := Acquired(w.excl.reg, key, recovery, token)),
                    runs := w.runs[run := Run(key, token, Reserved, false, None)])
    ensures run !in w.gates && run !in w.live
  {
    var e := Reserve(run, key, recovery, token);
    Reachable(es);
    assert Enabled(w, e) && run !in w.gates && (run in w.live ==> run in w.rows);
    hide Enabled, Fenced, AcquireError;
    ReplaySnoc(START, es, e);
  }

  /** What is known of any run of a reachable world. */
  lemma RunIsSound(es: seq<Event>, w: World, run: RunId)
    requires Admissible(START, es) && Replay(START, es) == w && run in w.runs
    ensures SliceOk(SliceOf(w, run)) && (run in w.live ==> w.live[run] == w.runs[run].key)
    ensures !w.runs[run].phase.Released? ==> LeaseOf(w.excl.reg, w.runs[run].token, w.runs[run].key)
  {
    Reachable(es);
    assert RunOk(w, run);
  }

  lemma Owning(es: seq<Event>, w: World, run: RunId)
    requires Admissible(START, es) && Replay(START, es) == w && run in w.runs && !w.runs[run].phase.Released?
    ensures LeaseOf(w.excl.reg, w.runs[run].token, w.runs[run].key)
  {
    RunIsSound(es, w, run);
  }

  lemma ExtendMove(es: seq<Event>, w: World, run: RunId, step: Step)
    requires Admissible(START, es) && Replay(START, es) == w && w.daemon.Up?
    requires run in w.runs && CanMove(SliceOf(w, run), step, !Populated(w, w.runs[run].key))
    ensures Admissible(START, es + [Move(run, step)])
    ensures Replay(START, es + [Move(run, step)]) == Advanced(w, run, step)
  {
    assert Enabled(w, Move(run, step)) && Next(w, Move(run, step)) == Advanced(w, run, step);
    hide Enabled, Next;
    ReplaySnoc(START, es, Move(run, step));
  }

  lemma ExtendRow(es: seq<Event>, w: World, run: RunId)
    requires Admissible(START, es) && Replay(START, es) == w
    requires w.daemon.Booting? && run in w.daemon.pending && run in w.rows
    ensures Admissible(START, es + [RecoverRow(run)])
    ensures Replay(START, es + [RecoverRow(run)]) == RowRecovered(w, run)
  {
    assert Enabled(w, RecoverRow(run)) && Next(w, RecoverRow(run)) == RowRecovered(w, run);
    hide Enabled, Next;
    ReplaySnoc(START, es, RecoverRow(run));
  }

  lemma ExtendLease(es: seq<Event>, w: World, run: RunId, token: Token)
    requires Admissible(START, es) && Replay(START, es) == w
    requires w.daemon.Booting? && run in w.daemon.leasing && run in w.rows && FreshToken(w.excl.reg, token)
    ensures Admissible(START, es + [RecoverLease(run, token)])
    ensures Replay(START, es + [RecoverLease(run, token)]) == LeaseRecovered(w, run, token)
    ensures w.rows[run].key !in w.recovered ==> AcquireError(w.excl.reg, w.rows[run].key, false).None?
  {
    assert Enabled(w, RecoverLease(run, token)) && Next(w, RecoverLease(run, token)) == LeaseRecovered(w, run, token);
    Reachable(es);
    hide Next;
    assert BootState(w);
    RecoverLeaseKeepsBoot(w, run, token);
    hide Enabled, Fenced, BootState, AcquireError;
    ReplaySnoc(START, es, RecoverLease(run, token));
  }

  lemma ExtendReady(es: seq<Event>, w: World)
    requires Admissible(START, es) && Replay(START, es) == w && w.daemon == Booting({}, {})
    ensures Admissible(START, es + [Ready]) && Replay(START, es + [Ready]) == w.(daemon := Up)
    ensures forall key :: HasLease(w.excl.reg, key) <==> exists r :: r in w.rows && w.rows[r].Held() && w.rows[r].key == key
  {
    assert Enabled(w, Ready) && Next(w, Ready) == w.(daemon := Up);
    hide Next, Enabled;
    ReplaySnoc(START, es, Ready);
    forall key ensures HasLease(w.excl.reg, key) <==> exists r :: r in w.rows && w.rows[r].Held() && w.rows[r].key == key {
      RestartLeasesExactlyTheFenced(es, key);
    }
  }

  /** What startup makes of a saved row. */
  function FencedRow(row: Row): Row {
    if row.Held() then row.(state := Interrupted, fenced := true) else row
  }

  class ProcessTrackingService {
    const executions: ExecutionRegistry
    var runs: map<RunId, Run>
    var recovered: map<Key, Token>
    var nextRunEpoch: nat
    var rows: map<RunId, Row>
    var gates: set<RunId>
    var live: map<RunId, Key>
    ghost var daemon: Daemon
    ghost var mutations: multiset<Key>
    ghost var readers: multiset<Key>
    ghost var log: seq<Event>

    ghost function Now(): World
      reads this, executions
    {
      World(daemon, X.World(executions.View(), mutations, readers), runs, recovered, nextRunEpoch, rows, gates, live)
    }

    /** The state is what the history leads to. */
    ghost predicate Valid()
      reads this, executions
    {
      Admissible(START, log) && Replay(START, log) == Now()
    }

    /** Startup over what an earlier daemon left behind: reads every saved row in some order,
        fences the ones that may have left processes, and leases their Sessions again. The
        new epoch exceeds every saved one, and the leases are exactly those of fenced rows. */
    constructor (executions: ExecutionRegistry, audit: map<RunId, Row>, cgroups: map<RunId, Key>,
                 order: seq<RunId>, tokens: seq<Token>, ghost history: seq<Event>)
      requires Admissible(START, history)
      requires Replay(START, history) == World(Booting(audit.Keys, {}), X.START, map[], map[], 1, audit, {}, cgroups)
      requires executions.View() == EMPTY
      requires NoDuplicates(order) && (forall r :: r in order <==> r in audit)
      requires NoDuplicates(tokens) && |tokens| == |order|
      modifies executions
      ensures Valid() && history <= log && daemon.Up? && runs == map[] && live == cgroups
      ensures rows.Keys == audit.Keys && forall r :: r in audit ==> rows[r] == FencedRow(audit[r])
      ensures forall r :: r in audit ==> audit[r].epoch < nextRunEpoch
      ensures forall key :: HasLease(executions.View(), key) <==> exists r :: r in audit && audit[r].Held() && audit[r].key == key
    {
      hide Next, Enabled, Admissible, Replay;
      this.executions := executions;
      runs, recovered, nextRunEpoch, rows, gates, live := map[], map[], 1, audit, {}, cgroups;
      daemon, mutations, readers, log := Booting(audit.Keys, {}), multiset{}, multiset{}, history;
      new;
      RecoverAll(order, tokens);
      Finish();
    }

    /** So the service has every property of the runs of the state machine. For one, whenever
        it gives a Session no lease, no tracked process is left in that Session's cgroup. */
    lemma NoLeaseNoProcess(key: Key)
      requires Valid() && daemon.Up? && !HasLease(executions.View(), key)
      ensures key !in live.Values
    {
      NoLeaseMeansEmpty(log, key);
    }

    /** The history grows by a step that the fields have just taken. */
    ghost method Enter(w: World, run: RunId, step: Step)
      requires Admissible(START, log) && Replay(START, log) == w && w.daemon.Up?
      requires run in w.runs && CanMove(SliceOf(w, run), step, !Populated(w, w.runs[run].key))
      requires Now() == Advanced(w, run, step)
      modifies this`log
      ensures Valid() && log == old(log) + [Move(run, step)]
    {
      hide Next, Enabled, Admissible, Replay, Advanced, CanMove;
      ExtendMove(log, w, run, step);
      log := log + [Move(run, step)];
    }

    // -------------------------------------------------------------- the steps of a launch

    /** Registers the run with its starting row and the next epoch, in memory. */
    method RegisterRun(run: RunId)
      requires Valid() && daemon.Up? && run in runs && runs[run].phase.Reserved?
      modifies this`runs, this`nextRunEpoch, this`log
      ensures Valid() && log == old(log) + [Move(run, Register)]
      ensures nextRunEpoch == old(nextRunEpoch) + 1
      ensures runs == old(runs)[run := old(runs[run]).(phase := Registered,
                                         row := Some(Row(old(runs[run]).key, Starting, false, old(nextRunEpoch))))]
    {
      hide Next, Enabled, Admissible, Replay;
      ghost var w := Now();
      RunIsSound(log, w, run);
      var epoch := nextRunEpoch;
      nextRunEpoch := nextRunEpoch + 1;
      runs := runs[run := runs[run].(phase := Registered, row := Some(Row(runs[run].key, Starting, false, epoch)))];
      assert Now() == Advanced(w, run, Register);
      hide Advanced;
      Enter(w, run, Register);
    }

    /** The first save: the starting row, before anything is spawned. */
    method SaveStartingRow(run: RunId)
      requires Valid() && daemon.Up? && run in runs && runs[run].phase.Registered? && runs[run].row.Some?
      modifies this`runs, this`rows, this`log
      ensures Valid() && log == old(log) + [Move(run, SaveStarting)]
      ensures runs == old(runs)[run := old(runs[run]).(row := Some(old(runs[run]).row.value), phase := Saved)]
      ensures rows == old(rows)[run := runs[run].row.value]
    {
      hide Next, Enabled, Admissible, Replay, Advanced, Put;
      ghost var w := Now();
      RunIsSound(log, w, run);
      var row := runs[run].row.value;
      runs := runs[run := runs[run].(row := Some(row), phase := Saved)];
      rows := rows[run := row];
      LocalStep(w, run, SaveStarting, runs[run], Some(row));
      Enter(w, run, SaveStarting);
    }

    /** The launcher spawns the stopped gate. */
    method SpawnGate(run: RunId)
      requires Valid() && daemon.Up? && run in runs && runs[run].phase.Saved?
      modifies this`runs, this`gates, this`log
      ensures Valid() && log == old(log) + [Move(run, Spawn)]
      ensures runs == old(runs)[run := old(runs[run]).(phase := Spawned)] && gates == old(gates) + {run}
    {
      hide Next, Enabled, Admissible, Replay;
      ghost var w := Now();
      RunIsSound(log, w, run);
      gates := gates + {run};
      runs := runs[run := runs[run].(phase := Spawned)];
      assert live == Put(w, run, Moved(SliceOf(w, run), Spawn, nextRunEpoch, !Populated(w, w.runs[run].key))).live;
      assert Now() == Advanced(w, run, Spawn);
      hide Advanced;
      Enter(w, run, Spawn);
    }

    /** The gate is moved into the Session cgroup, which must be empty. */
    method AttachGate(run: RunId)
      requires Valid() && daemon.Up? && run in runs && runs[run].phase.Spawned? && run in gates
      requires runs[run].key !in live.Values
      modifies this`runs, this`gates, this`live, this`log
      ensures Valid() && log == old(log) + [Move(run, Attach)]
      ensures runs == old(runs)[run := old(runs[run]).(phase := Attached, attached := true)]
      ensures gates == old(gates) - {run} && live == old(live)[run := old(runs[run]).key]
    {
      hide Next, Enabled, Admissible, Replay;
      ghost var w := Now();
      RunIsSound(log, w, run);
      gates := gates - {run};
      live := live[run := runs[run].key];
      runs := runs[run := runs[run].(phase := Attached, attached := true)];
      assert Now() == Advanced(w, run, Attach);
      hide Advanced;
      Enter(w, run, Attach);
    }

    /** The running row, saved or not, before the gate is resumed. */
    method MarkRunning(run: RunId, saved: bool)
      requires Valid() && daemon.Up? && run in runs && runs[run].phase.Attached? && runs[run].row.Some?
      modifies this`runs, this`rows, this`log
      ensures Valid() && log == old(log) + [Move(run, SaveRunning(saved))]
      ensures var row := old(runs[run]).row.value.(state := Running);
              runs == old(runs)[run := old(runs[run]).(row := Some(row), phase := if saved then Started else Failing)]
      ensures rows == if saved then old(rows)[run := runs[run].row.value] else old(rows)
    {
      hide Next, Enabled, Admissible, Replay, Advanced, Put;
      ghost var w := Now();
      RunIsSound(log, w, run);
      var row := runs[run].row.value.(state := Running);
      runs := runs[run := runs[run].(row := Some(row), phase := if saved then Started else Failing)];
      if saved {
        rows := rows[run := row];
      }
      LocalStep(w, run, SaveRunning(saved), runs[run], if saved then Some(row) else SliceOf(w, run).disk);
      Enter(w, run, SaveRunning(saved));
    }

    /** The gate is resumed and its watcher started. */
    method StartWatcher(run: RunId)
      requires Valid() && daemon.Up? && run in runs && runs[run].phase.Started?
      modifies this`runs, this`log
      ensures Valid() && log == old(log) + [Move(run, Watch)]
      ensures runs == old(runs)[run := old(runs[run]).(phase := Watched)]
    {
      hide Next, Enabled, Admissible, Replay, Advanced, Put;
      ghost var w := Now();
      RunIsSound(log, w, run);
      runs := runs[run := runs[run].(phase := Watched)];
      LocalStep(w, run, Watch, runs[run], SliceOf(w, run).disk);
      Enter(w, run, Watch);
    }

    /** The launch raises an error. */
    method RaiseError(run: RunId)
      requires Valid() && daemon.Up? && run in runs && RunFencing.Launching(runs[run].phase)
      modifies this`runs, this`log
      ensures Valid() && log == old(log) + [Move(run, Fail)]
      ensures runs == old(runs)[run := old(runs[run]).(phase := Failing)]
    {
      hide Next, Enabled, Admissible, Replay, Advanced, Put;
      ghost var w := Now();
      RunIsSound(log, w, run);
      runs := runs[run := runs[run].(phase := Failing)];
      LocalStep(w, run, Fail, runs[run], SliceOf(w, run).disk);
      Enter(w, run, Fail);
    }

    /** The cleanup ends: safe when the gate is gone and the cgroup, if it was used, is empty. */
    method EndCleanup(run: RunId, safe: bool)
      requires Valid() && daemon.Up? && run in runs && runs[run].phase.Failing?
      requires safe ==> run !in gates && (runs[run].attached ==> runs[run].key !in live.Values)
      modifies this`runs, this`log
      ensures Valid() && log == old(log) + [Move(run, RunFencing.Step.Unwind(safe))]
      ensures runs == old(runs)[run := old(runs[run]).(phase := Unwound(safe))]
    {
      hide Next, Enabled, Admissible, Replay, Advanced, Put;
      ghost var w := Now();
      RunIsSound(log, w, run);
      runs := runs[run := runs[run].(phase := Unwound(safe))];
      LocalStep(w, run, RunFencing.Step.Unwind(safe), runs[run], SliceOf(w, run).disk);
      Enter(w, run, RunFencing.Step.Unwind(safe));
    }

    /** The failed row, fenced unless the cleanup was safe; a save that fails fences as well. */
    method SaveFailedRow(run: RunId, saved: bool)
      requires Valid() && daemon.Up? && run in runs && runs[run].phase.Unwound? && runs[run].row.Some?
      modifies this`runs, this`rows, this`log
      ensures Valid() && log == old(log) + [Move(run, SaveFailed(saved))]
      ensures var r := old(runs[run]);
              var row := r.row.value.(state := Failed, fenced := !r.phase.safe || !saved);
              && runs == old(runs)[run := r.(row := Some(row), phase := Closed(r.phase.safe && saved))]
              && rows == if saved then old(rows)[run := row] else old(rows)
    {
      hide Next, Enabled, Admissible, Replay, Advanced, Put;
      ghost var w := Now();
      RunIsSound(log, w, run);
      SaveFailedMoves(SliceOf(w, run), saved, w.nextEpoch, !Populated(w, w.runs[run].key));
      hide SliceOk, CanMove, Moved, Populated;
      var safe := runs[run].phase.safe && saved;
      var row := runs[run].row.value.(state := Failed, fenced := !safe);
      var closed := runs[run].(row := Some(row), phase := Closed(safe));
      LocalStep(w, run, SaveFailed(saved), closed, if saved then Some(row) else SliceOf(w, run).disk);
      if saved {
        rows := rows[run := row];
      }
      runs := runs[run := closed];
      Enter(w, run, SaveFailed(saved));
    }

    /** A launch that failed before its row existed has nothing to save. */
    method CloseUnregistered(run: RunId, saved: bool)
      requires Valid() && daemon.Up? && run in runs && runs[run].phase.Unwound? && runs[run].row.None?
      modifies this`runs, this`log
      ensures Valid() && log == old(log) + [Move(run, SaveFailed(saved))]
      ensures runs == old(runs)[run := old(runs[run]).(phase := Closed(old(runs[run]).phase.safe))]
    {
      hide Next, Enabled, Admissible, Replay, Advanced, Put;
      ghost var w := Now();
      RunIsSound(log, w, run);
      runs := runs[run := runs[run].(phase := Closed(runs[run].phase.safe))];
      LocalStep(w, run, SaveFailed(saved), runs[run], SliceOf(w, run).disk);
      Enter(w, run, SaveFailed(saved));
    }

    /** The lease is given back. */
    method ReleaseLease(run: RunId)
      requires Valid() && daemon.Up? && run in runs && runs[run].phase == Closed(true)
      modifies this`runs, this`log, executions
      ensures Valid() && log == old(log) + [Move(run, RunFencing.Step.Release)]
      ensures runs == old(runs)[run := old(runs[run]).(phase := Released)]
      ensures executions.View() == SessionRegistry.Released(old(executions.View()), old(runs[run]).token)
    {
      hide Next, Enabled, Admissible, Replay, X.Next;
      ghost var w := Now();
      RunIsSound(log, w, run);
      ReleaseStep(w, run);
      hide SliceOk, Advanced, CanMove, Populated;
      var _ := executions.Release(runs[run].token);
      runs := runs[run := runs[run].(phase := Released)];
      Enter(w, run, RunFencing.Step.Release);
    }

    // -------------------------------------------------------------- the steps of a watcher

    /** The root exited and the Session cgroup was proven empty. */
    method ProveQuiet(run: RunId)
      requires Valid() && daemon.Up? && run in runs && runs[run].phase.Watched? && runs[run].key !in live.Values
      modifies this`runs, this`log
      ensures Valid() && log == old(log) + [Move(run, Quiesce)]
      ensures runs == old(runs)[run := old(runs[run]).(phase := Quiet)]
    {
      hide Next, Enabled, Admissible, Replay, Advanced, Put;
      ghost var w := Now();
      RunIsSound(log, w, run);
      runs := runs[run := runs[run].(phase := Quiet)];
      LocalStep(w, run, Quiesce, runs[run], SliceOf(w, run).disk);
      Enter(w, run, Quiesce);
    }

    /** Something could not be proven: the final row is failed and fenced, and the lease stays. */
    method FailRun(run: RunId, saved: bool)
      requires Valid() && daemon.Up? && run in runs && (runs[run].phase.Watched? || runs[run].phase.Quiet?) && runs[run].row.Some?
      modifies this`runs, this`rows, this`log
      ensures Valid() && log == old(log) + [Move(run, GiveUp(saved))]
      ensures var row := old(runs[run]).row.value.(state := Failed, fenced := true);
              runs == old(runs)[run := old(runs[run]).(row := Some(row), phase := Closed(false))]
      ensures rows == if saved then old(rows)[run := runs[run].row.value] else old(rows)
    {
      hide Next, Enabled, Admissible, Replay, Advanced, Put;
      ghost var w := Now();
      RunIsSound(log, w, run);
      var row := runs[run].row.value.(state := Failed, fenced := true);
      runs := runs[run := runs[run].(row := Some(row), phase := Closed(false))];
      if saved {
        rows := rows[run := row];
      }
      LocalStep(w, run, GiveUp(saved), runs[run], if saved then Some(row) else SliceOf(w, run).disk);
      Enter(w, run, GiveUp(saved));
    }

    /** The completed row: the durable receipt without which nothing is released. */
    method SealRow(run: RunId, saved: bool)
      requires Valid() && daemon.Up? && run in runs && runs[run].phase.Quiet? && runs[run].row.Some?
      modifies this`runs, this`rows, this`log
      ensures Valid() && log == old(log) + [Move(run, Seal(saved))]
      ensures var row := old(runs[run]).row.value.(state := if saved then Completed else Failed, fenced := !saved);
              && runs == old(runs)[run := old(runs[run]).(row := Some(row), phase := if saved then Sealed else Closed(false))]
              && rows == if saved then old(rows)[run := row] else old(rows)
    {
      hide Next, Enabled, Admissible, Replay, Advanced, Put;
      ghost var w := Now();
      RunIsSound(log, w, run);
      var row := runs[run].row.value.(state := Completed, fenced := false);
      if saved {
        rows := rows[run := row];
        runs := runs[run := runs[run].(row := Some(row), phase := Sealed)];
      } else {
        row := row.(state := Failed, fenced := true);
        runs := runs[run := runs[run].(row := Some(row), phase := Closed(false))];
      }
      LocalStep(w, run, Seal(saved), runs[run], if saved then Some(row) else SliceOf(w, run).disk);
      Enter(w, run, Seal(saved));
    }

    /** The cgroup is removed, or the row in memory becomes failed and fenced. */
    method RemoveCgroup(run: RunId, removed: bool)
      requires Valid() && daemon.Up? && run in runs && runs[run].phase.Sealed? && runs[run].row.Some?
      modifies this`runs, this`rows, this`log
      ensures Valid() && log == old(log) + [Move(run, RunFencing.Step.Remove(removed))]
      ensures var row := old(runs[run]).row.value;
              var left := if removed then row else row.(state := Failed, fenced := true);
              runs == old(runs)[run := old(runs[run]).(row := Some(left), phase := Removed(removed))]
      ensures rows == old(rows)
    {
      hide Next, Enabled, Admissible, Replay, Advanced, Put;
      ghost var w := Now();
      RunIsSound(log, w, run);
      var row := if removed then runs[run].row.value else runs[run].row.value.(state := Failed, fenced := true);
      runs := runs[run := runs[run].(row := Some(row), phase := Removed(removed))];
      LocalStep(w, run, RunFencing.Step.Remove(removed), runs[run], SliceOf(w, run).disk);
      Enter(w, run, RunFencing.Step.Remove(removed));
    }

    /** The last save: only after it may the lease go. */
    method CommitRow(run: RunId, saved: bool)
      requires Valid() && daemon.Up? && run in runs && runs[run].phase.Removed? && runs[run].row.Some?
      modifies this`runs, this`rows, this`log
      ensures Valid() && log == old(log) + [Move(run, Commit(saved))]
      ensures var r := old(runs[run]);
              var row := if saved then r.row.value else r.row.value.(state := Failed, fenced := true);
              && runs == old(runs)[run := r.(row := Some(row), phase := Closed(saved && r.phase.removed))]
              && rows == if saved then old(rows)[run := row] else old(rows)
    {
      hide Next, Enabled, Admissible, Replay, Advanced, Put;
      ghost var w := Now();
      RunIsSound(log, w, run);
      CommitMoves(SliceOf(w, run), saved, w.nextEpoch, !Populated(w, w.runs[run].key));
      hide SliceOk, CanMove, Moved, Populated;
      var row := if saved then runs[run].row.value else runs[run].row.value.(state := Failed, fenced := true);
      var closed := runs[run].(row := Some(row), phase := Closed(saved && runs[run].phase.removed));
      LocalStep(w, run, Commit(saved), closed, if saved then Some(row) else SliceOf(w, run).disk);
      if saved {
        rows := rows[run := row];
      }
      runs := runs[run := closed];
      Enter(w, run, Commit(saved));
    }

    // -------------------------------------------------------------- asynchronous failures and events

    /** An asynchronous failure fences the row in memory. */
    method FenceRow(run: RunId)
      requires Valid() && daemon.Up? && run in runs && Unfinished(runs[run].phase) && runs[run].row.Some?
      modifies this`runs, this`rows, this`log
      ensures Valid() && log == old(log) + [Move(run, RunFencing.Step.Fence)]
      ensures runs == old(runs)[run := old(runs[run]).(row := Some(old(runs[run]).row.value.(fenced := true)), phase := old(runs[run]).phase)]
      ensures rows == old(rows)
    {
      hide Next, Enabled, Admissible, Replay, Advanced, Put;
      ghost var w := Now();
      RunIsSound(log, w, run);
      var row := runs[run].row.value.(fenced := true);
      runs := runs[run := runs[run].(row := Some(row), phase := runs[run].phase)];
      LocalStep(w, run, RunFencing.Step.Fence, runs[run], SliceOf(w, run).disk);
      Enter(w, run, RunFencing.Step.Fence);
    }

    /** An event, or the failure, is saved with the row as it stands. */
    method SaveRow(run: RunId)
      requires Valid() && daemon.Up? && run in runs && Unfinished(runs[run].phase) && runs[run].row.Some?
      modifies this`runs, this`rows, this`log
      ensures Valid() && log == old(log) + [Move(run, SaveAgain)]
      ensures runs == old(runs)[run := old(runs[run]).(row := Some(old(runs[run]).row.value), phase := old(runs[run]).phase)]
      ensures rows == old(rows)[run := runs[run].row.value]
    {
      hide Next, Enabled, Admissible, Replay, Advanced, Put;
      ghost var w := Now();
      RunIsSound(log, w, run);
      var row := runs[run].row.value;
      runs := runs[run := runs[run].(row := Some(row), phase := runs[run].phase)];
      rows := rows[run := row];
      LocalStep(w, run, SaveAgain, runs[run], Some(row));
      Enter(w, run, SaveAgain);
    }

    /** A provider or feature failure while the run is not done: fenced, and saved if the
        audit disk lets it. */
    method FailAsynchronously(run: RunId, saved: bool)
      requires Valid() && daemon.Up? && run in runs && Unfinished(runs[run].phase) && runs[run].row.Some?
      modifies this`runs, this`rows, this`log
      ensures Valid() && old(log) <= log && run in runs && runs[run].phase == old(runs[run]).phase
      ensures runs[run].row == Some(old(runs[run]).row.value.(fenced := true))
      ensures rows == if saved then old(rows)[run := runs[run].row.value] else old(rows)
    {
      FenceRow(run);
      if saved {
        SaveRow(run);
      }
    }

    // -------------------------------------------------------------- startup

    /** The startup loop. */
    method RecoverAll(order: seq<RunId>, tokens: seq<Token>)
      requires Valid() && daemon == Booting(rows.Keys, {}) && executions.View() == EMPTY
      requires NoDuplicates(order) && (forall r :: r in order <==> r in rows)
      requires NoDuplicates(tokens) && |tokens| == |order|
      modifies this, executions
      ensures Valid() && old(log) <= log && daemon == Booting({}, {}) && runs == old(runs) && live == old(live)
      ensures rows.Keys == old(rows).Keys
      ensures forall r :: r in rows ==> rows[r] == FencedRow(old(rows)[r]) && old(rows)[r].epoch < nextRunEpoch
    {
      hide Next, Enabled, Admissible, Replay, Valid, FencedRow;
      var i := 0;
      while i < |order|
        invariant 0 <= i <= |order|
        invariant Valid() && old(log) <= log && runs == old(runs) && live == old(live) && rows.Keys == old(rows).Keys
        invariant daemon.Booting? && daemon.leasing == {}
        invariant forall r :: r in daemon.pending <==> r in order[i..]
        invariant forall r :: r in rows ==>
                    if r in daemon.pending then rows[r] == old(rows)[r]
                    else rows[r] == FencedRow(old(rows)[r]) && old(rows)[r].epoch < nextRunEpoch
        invariant executions.recoveryLeases == {} && forall t :: t in executions.leases ==> t in tokens[..i]
      {
        assert order[i..] == [order[i]] + order[i + 1..];
        RecoverOne(order[i], tokens[i]);
        i := i + 1;
      }
    }

    /** The body of the startup loop. */
    method RecoverOne(run: RunId, token: Token)
      requires Valid() && daemon.Booting? && run in daemon.pending && daemon.leasing == {} && run in rows
      requires FreshToken(executions.View(), token)
      modifies this, executions
      ensures Valid() && old(log) <= log && runs == old(runs) && live == old(live)
      ensures daemon == Booting(old(daemon).pending - {run}, {})
      ensures rows == old(rows)[run := FencedRow(old(rows)[run])]
      ensures nextRunEpoch == Max(old(nextRunEpoch), old(rows)[run].epoch + 1)
      ensures executions.recoveryLeases == old(executions.recoveryLeases)
      ensures forall t :: t in executions.leases ==> t in old(executions.leases) || t == token
    {
      hide Next, Enabled, Admissible, Replay;
      var fenced := ReadRow(run);
      if fenced {
        LeaseAgain(run, token);
      }
    }

    method ReadRow(run: RunId) returns (fenced: bool)
      requires Valid() && daemon.Booting? && run in daemon.pending && daemon.leasing == {} && run in rows
      modifies this
      ensures Valid() && log == old(log) + [RecoverRow(run)] && runs == old(runs) && live == old(live)
      ensures fenced == old(rows)[run].Held()
      ensures daemon == Booting(old(daemon).pending - {run}, if fenced then {run} else {})
      ensures rows == old(rows)[run := FencedRow(old(rows)[run])]
      ensures nextRunEpoch == Max(old(nextRunEpoch), old(rows)[run].epoch + 1)
    {
      hide Next, Enabled, Admissible, Replay;
      ghost var w := Now();
      ExtendRow(log, w, run);
      log := log + [RecoverRow(run)];
      var row := rows[run];
      nextRunEpoch := if nextRunEpoch < row.epoch + 1 then row.epoch + 1 else nextRunEpoch;
      fenced := row.Held();
      if fenced {
        rows := rows[run := row.(state := Interrupted, fenced := true)];
      }
      daemon := Booting(daemon.pending - {run}, if fenced then daemon.leasing + {run} else daemon.leasing);
      assert Now() == RowRecovered(w, run);
    }

    method LeaseAgain(run: RunId, token: Token)
      requires Valid() && daemon.Booting? && daemon.leasing == {run} && run in rows && FreshToken(executions.View(), token)
      modifies this, executions
      ensures Valid() && old(log) <= log && runs == old(runs) && live == old(live) && rows == old(rows)
      ensures nextRunEpoch == old(nextRunEpoch) && daemon == Booting(old(daemon).pending, {})
      ensures executions.recoveryLeases == old(executions.recoveryLeases)
      ensures forall t :: t in executions.leases ==> t in old(executions.leases) || t == token
    {
      hide Next, Enabled, Admissible, Replay, AcquireError;
      ghost var w := Now();
      ExtendLease(log, w, run, token);
      log := log + [RecoverLease(run, token)];
      var key := rows[run].key;
      if key !in recovered {
        var _ := executions.Acquire(key, false, token);
        recovered := recovered[key := token];
      }
      daemon := Booting(daemon.pending, daemon.leasing - {run});
      assert Now() == LeaseRecovered(w, run, token);
    }

    /** The daemon starts serving. */
    ghost method Finish()
      requires Valid() && daemon == Booting({}, {})
      modifies this
      ensures Valid() && old(log) <= log && Now() == old(Now()).(daemon := Up)
      ensures forall key :: HasLease(executions.View(), key) <==> exists r :: r in rows && rows[r].Held() && rows[r].key == key
    {
      hide Next, Enabled, Admissible, Replay;
      ExtendReady(log, Now());
      log := log + [Ready];
      daemon := Up;
    }
  
    /** The processes of one run die, or its gate does. */
    method Exit(run: RunId)
      requires Valid()
      modifies this`gates, this`live, this`log
      ensures Valid() && old(log) <= log && Now() == old(Now()).(gates := old(gates) - {run}, live := old(live) - {run})
    {
      hide Next, Enabled, Admissible, Replay;
      ExtendDie(log, Now(), run);
      log := log + [Die(run)];
      gates := gates - {run};
      live := live - {run};
    }

    /** The launch proper, from registering the run to its watcher. The starting row is on
        disk before anything is spawned, and the running row before the gate is resumed. */
    method Launch(run: RunId, plan: LaunchPlan) returns (ok: bool)
      requires Valid() && daemon.Up? && run in runs && runs[run].phase.Reserved? && run !in gates
      modifies this`runs, this`rows, this`gates, this`live, this`nextRunEpoch, this`log
      ensures Valid() && old(log) <= log && run in runs
      ensures runs[run].key == old(runs[run]).key && runs[run].token == old(runs[run]).token
      ensures ok <==> plan.failAt > 6 && plan.saved && old(runs[run].key !in live.Values)
      ensures ok ==> runs[run].phase.Watched? && run in live && live[run] == runs[run].key
                     && run in rows && rows[run] == Row(runs[run].key, Running, false, old(nextRunEpoch))
      ensures !ok ==> runs[run].phase.Failing?
      ensures !ok && plan.failAt > 1 ==> run in rows && rows[run].Held()
    {
      hide Next, Enabled, Admissible, Replay;
      ok := Prepare(run, plan);
      if ok { ok := Admit(run, plan); }
    }

    /** Registers the run, saves its starting row and spawns the stopped gate. */
    method Prepare(run: RunId, plan: LaunchPlan) returns (ok: bool)
      requires Valid() && daemon.Up? && run in runs && runs[run].phase.Reserved?
      modifies this`runs, this`rows, this`gates, this`nextRunEpoch, this`log
      ensures Valid() && old(log) <= log && run in runs
      ensures runs[run].key == old(runs[run]).key && runs[run].token == old(runs[run]).token
      ensures ok <==> plan.failAt > 2
      ensures ok ==> var row := Row(runs[run].key, Starting, false, old(nextRunEpoch));
                     runs[run].phase.Spawned? && runs[run].row == Some(row) && run in gates && run in rows && rows[run] == row
      ensures !ok ==> runs[run].phase.Failing?
      ensures plan.failAt > 1 ==> run in rows && rows[run].Held()
    {
      hide Next, Enabled, Admissible, Replay;
      if plan.failAt == 0 { RaiseError(run); return false; }
      RegisterRun(run);
      if plan.failAt == 1 { RaiseError(run); return false; }
      SaveStartingRow(run);
      if plan.failAt == 2 { RaiseError(run); return false; }
      SpawnGate(run);
      ok := true;
    }

    /** Moves the gate into the empty Session cgroup, saves the running row, resumes the gate
        and starts the watcher. */
    method Admit(run: RunId, plan: LaunchPlan) returns (ok: bool)
      requires Valid() && daemon.Up? && run in runs && runs[run].phase.Spawned? && run in gates && plan.failAt > 2
      requires runs[run].row.Some? && run in rows && rows[run].Held()
      modifies this`runs, this`rows, this`gates, this`live, this`log
      ensures Valid() && old(log) <= log && run in runs
      ensures runs[run].key == old(runs[run]).key && runs[run].token == old(runs[run]).token
      ensures ok <==> plan.failAt > 6 && plan.saved && old(runs[run].key !in live.Values)
      ensures ok ==> runs[run].phase.Watched? && run in live && live[run] == runs[run].key
                     && run in rows && rows[run] == old(runs[run]).row.value.(state := Running)
      ensures !ok ==> runs[run].phase.Failing?
      ensures run in rows && (!ok ==> rows[run].Held())
    {
      hide Next, Enabled, Admissible, Replay;
      if plan.failAt == 3 || runs[run].key in live.Values { RaiseError(run); return false; }
      AttachGate(run);
      if plan.failAt == 4 { RaiseError(run); return false; }
      MarkRunning(run, plan.saved);
      if !plan.saved { return false; }
      if plan.failAt <= 6 { RaiseError(run); return false; }
      StartWatcher(run);
      ok := true;
    }

    /** `start` after its argument checks. A refused reservation changes nothing; a failed
        launch is cleaned up before the error is raised again. */
    method Start(run: RunId, key: Key, recovery: bool, token: Token, plan: LaunchPlan, cleanup: Cleanup)
      returns (r: Result<Row, LaunchError>)
      requires Valid() && daemon.Up? && run !in runs && run !in rows && FreshToken(executions.View(), token)
      modifies this, executions
      ensures Valid() && daemon.Up? && old(log) <= log
      ensures var e := AcquireError(old(executions.View()), key, recovery);
              if e.Some? then r == Err(Refused(e.value)) && Now() == old(Now())
              else run in runs && if plan.failAt > 6 && plan.saved && key !in old(live).Values
                   then r == Ok(Row(key, Running, false, old(nextRunEpoch))) && run in rows && rows[run] == r.value
                        && runs[run].phase.Watched? && run in live && LeaseOf(executions.View(), token, key)
                   else r == Err(LaunchFailed) && (runs[run].phase == Released || runs[run].phase == Closed(false))
    {
      hide Next, Enabled, Admissible, Replay, AcquireError;
      var refusal := ReserveSession(run, key, recovery, token);
      if refusal.Some? {
        return Err(Refused(refusal.value));
      }
      var ok := Launch(run, plan);
      if ok {
        Owning(log, Now(), run);
        return Ok(rows[run]);
      }
      Abandon(run, cleanup);
      r := Err(LaunchFailed);
    }

    /** Takes the Session lease for a new run. */
    method ReserveSession(run: RunId, key: Key, recovery: bool, token: Token) returns (r: Option<RegistryError>)
      requires Valid() && daemon.Up? && run !in runs && run !in rows && FreshToken(executions.View(), token)
      modifies this`runs, this`log, executions
      ensures Valid() && log == old(log) + [Reserve(run, key, recovery, token)]
      ensures r == AcquireError(old(executions.View()), key, recovery) && run !in gates && run !in live
      ensures r.Some? ==> Now() == old(Now())
      ensures r.None? ==> runs == old(runs)[run := Run(key, token, Reserved, false, None)]
                          && executions.View() == Acquired(old(executions.View()), key, recovery, token)
    {
      hide Next, Enabled, Admissible, Replay, AcquireError;
      ExtendReserve(log, Now(), run, key, recovery, token);
      log := log + [Reserve(run, key, recovery, token)];
      var lease := executions.Acquire(key, recovery, token);
      if lease.Err? {
        return Some(lease.error);
      }
      runs := runs[run := Run(key, token, Reserved, false, None)];
      r := None;
    }

    /** The cleanup of a failed launch: the lease is given back exactly when the gate and the
        cgroup are gone, everything finalized, and the failed row, if any, is saved; and then
        the saved row is one that no restart fences. */
    method Abandon(run: RunId, c: Cleanup)
      requires Valid() && daemon.Up? && run in runs && runs[run].phase.Failing?
      modifies this`runs, this`rows, this`gates, this`live, this`log, executions
      ensures Valid() && old(log) <= log && run in runs
      ensures runs[run].phase.Released? <==>
                && c.finalized && (c.saved || old(runs[run].row.None?))
                && run !in gates && (old(runs[run].attached) ==> old(runs[run].key) !in live.Values)
      ensures runs[run].phase.Released? ==> run !in live && (run in rows ==> !rows[run].Held())
      ensures runs[run].phase.Released? ==> runs[run].token !in executions.leases
      ensures runs[run].phase.Released? || (runs[run].phase == Closed(false) && LeaseOf(executions.View(), runs[run].token, runs[run].key))
    {
      hide Next, Enabled, Admissible, Replay;
      if c.killed { Exit(run); }
      CloseLaunch(run, run !in gates && (runs[run].attached ==> runs[run].key !in live.Values) && c.finalized, c.saved);
      RunIsSound(log, Now(), run);
    }

    /** The last save of a failed launch, and the release it allows. */
    method CloseLaunch(run: RunId, safe: bool, saved: bool)
      requires Valid() && daemon.Up? && run in runs && runs[run].phase.Failing?
      requires safe ==> run !in gates && (runs[run].attached ==> runs[run].key !in live.Values)
      modifies this`runs, this`rows, this`log, executions
      ensures Valid() && old(log) <= log && run in runs
      ensures runs[run].phase == if safe && (saved || old(runs[run]).row.None?) then Released else Closed(false)
      ensures runs[run].phase.Released? ==> runs[run].token !in executions.leases
    {
      hide Next, Enabled, Admissible, Replay;
      EndCleanup(run, safe);
      if runs[run].row.Some? {
        SaveFailedRow(run, saved);
      } else {
        CloseUnregistered(run, saved);
      }
      if runs[run].phase.release {
        ReleaseLease(run);
      }
    }

    /** The watcher: the lease is given back exactly when the Session cgroup is empty,
        everything finalized, and all three final writes succeeded. */
    method WatchRun(run: RunId, end: Ending)
      requires Valid() && daemon.Up? && run in runs && runs[run].phase.Watched?
      modifies this`runs, this`rows, this`gates, this`live, this`log, executions
      ensures Valid() && old(log) <= log && run in runs
      ensures runs[run].phase.Released? <==>
                old(runs[run].key) !in live.Values && end.finalized && end.saved && end.removed && end.committed
      ensures runs[run].phase.Released? ==> run in rows && rows[run].state.Completed? && !rows[run].fenced && run !in live
      ensures runs[run].phase.Released? ==> runs[run].token !in executions.leases
      ensures runs[run].phase.Released? || (runs[run].phase == Closed(false) && LeaseOf(executions.View(), runs[run].token, runs[run].key))
    {
      hide Next, Enabled, Admissible, Replay;
      RunIsSound(log, Now(), run);
      if end.exited { Exit(run); }
      if runs[run].key in live.Values {
        FailRun(run, end.saved);
      } else {
        FinishQuiet(run, end);
      }
      RunIsSound(log, Now(), run);
    }

    /** With the cgroup proven empty, tracker and features finalize, or the run stays fenced. */
    method FinishQuiet(run: RunId, end: Ending)
      requires Valid() && daemon.Up? && run in runs && runs[run].phase.Watched? && runs[run].row.Some?
      requires runs[run].key !in live.Values
      modifies this`runs, this`rows, this`log, executions
      ensures Valid() && old(log) <= log && run in runs
      ensures runs[run].phase == if end.finalized && end.saved && end.removed && end.committed then Released else Closed(false)
      ensures runs[run].phase.Released? ==> runs[run].token !in executions.leases
      ensures runs[run].phase.Released? ==> run in rows && rows[run].state.Completed? && !rows[run].fenced
    {
      hide Next, Enabled, Admissible, Replay;
      ProveQuiet(run);
      if end.finalized {
        Finalize(run, end);
      } else {
        FailRun(run, end.saved);
      }
    }

    /** The final writes, in the order the lease depends on. */
    method Finalize(run: RunId, end: Ending)
      requires Valid() && daemon.Up? && run in runs && runs[run].phase.Quiet? && runs[run].row.Some?
      modifies this`runs, this`rows, this`log, executions
      ensures Valid() && old(log) <= log && run in runs
      ensures runs[run].phase == if end.saved && end.removed && end.committed then Released else Closed(false)
      ensures runs[run].phase.Released? ==> runs[run].token !in executions.leases
      ensures runs[run].phase.Released? ==> run in rows && rows[run].state.Completed? && !rows[run].fenced
    {
      hide Next, Enabled, Admissible, Replay;
      SealRow(run, end.saved);
      if !end.saved { return; }
      RemoveCgroup(run, end.removed);
      CommitRow(run, end.committed);
      if runs[run].phase.release {
        ReleaseLease(run);
      }
    }
  }
}
