/** Runs from a Session that was just created into each window that the theorems name. */
module StoreExamples {
  import opened Base
  import opened Lineage
  import opened SessionDisk
  import opened RollbackRecovery
  import opened RollbackAtomicity
  import opened RecoveryRestart
  import opened StoreTheorems

  const RECOVERY: RecoveryId := "r"
  const TOKEN: Token := "t"
  const ARGS := RollbackArgs(Some("c"), None, true, Some(RECOVERY), true)
  const TO_C := Transaction(Preparing, "c", TOKEN, true, Some(RECOVERY))

  /** The disk a run ends with. */
  ghost function End(d: Disk, acts: seq<Action>): Disk {
    After(d, Trace(d, acts))
  }

  lemma EndStep(d: Disk, act: Action, rest: seq<Action>)
    ensures End(d, [act] + rest) == End(After(d, Happened(d, act)), rest)
    ensures Admissible(d, [act] + rest) <==> Allowed(d, act.op) && Admissible(After(d, Happened(d, act)), rest)
  {
    var acts := [act] + rest;
    assert acts[0] == act && acts[1..] == rest;
    AfterConcat(d, Happened(d, act), Trace(After(d, Happened(d, act)), rest));
  }

  /** One checkpoint "c" of the only tree there was. */
  function WithC(tree: Tree, info: Info): Disk {
    Disk(Some(tree), map[], map[], map["c" := tree], None, Some(Added(EMPTY_INDEX, "c", info)), map[])
  }

  /** And a second one, "cp". */
  function WithBoth(tree: Tree, info: Info): Disk {
    WithC(tree, info).(snapshots := map["c" := tree, "cp" := tree],
                       index := Some(Added(Added(EMPTY_INDEX, "c", info), "cp", info)))
  }

  lemma CreatesC(tree: Tree, info: Info)
    ensures var run := CreateCheckpointRun(Created(tree), "c", info); After(Created(tree), run.steps) == WithC(tree, info)
    ensures Loaded(WithC(tree, info)) == Added(EMPTY_INDEX, "c", info)
  {
    assert Loaded(Created(tree)) == EMPTY_INDEX;
    assert Added(EMPTY_INDEX, "c", info) == Index(Some("c"), map["c" := Meta(info, false, None, [LIVE_CHILD])]);
  }

  lemma CreatesCp(tree: Tree, info: Info)
    ensures var run := CreateCheckpointRun(WithC(tree, info), "cp", info);
            After(WithC(tree, info), run.steps) == WithBoth(tree, info)
    ensures Loaded(WithBoth(tree, info)) == Added(Added(EMPTY_INDEX, "c", info), "cp", info)
  {
    CreatesC(tree, info);
    var ix := Added(Added(EMPTY_INDEX, "c", info), "cp", info);
    assert ix.cps.Keys == {"c", "cp"} && ix.head == Some("cp") && !ix.cps["c"].missing && !ix.cps["cp"].missing;
    assert ValidId("cp");
    assert Reconciled(ix, {"c", "cp"}).cps == ix.cps;
    assert WithBoth(tree, info).snapshots.Keys == {"c", "cp"};
  }

  /** What a deferred rollback of such a Session to "c" does first. */
  lemma RollsBackToC(d: Disk, fault: Fault)
    requires d.journal.None? && d.current.Some? && d.index == Some(Loaded(d)) && "c" in d.snapshots && d.receipts == map[]
    ensures RollbackRun(d, ARGS, TOKEN, fault).steps == SwapSteps(d, TO_C, Loaded(d), fault)
  {
    ExactResolves(d, "c");
    assert ValidId("c") && ValidId(RECOVERY);
    assert Resolution(Loaded(d), ARGS.checkpoint, ARGS.numAncestors) == Ok("c");
    assert AfterLoad(d) == d;
    hide SwapSteps, Loaded, Resolution;
  }

  lemma CutAt(d: Disk, steps: seq<Disk>, n: nat)
    requires 0 < n <= |steps|
    ensures After(d, if n < |steps| then steps[..n] else steps) == steps[n - 1]
  {
  }

  /** Where a cut of such a rollback leaves the disk. */
  lemma CutsRollback(d: Disk, fault: Fault, n: nat)
    requires d.journal.None? && d.current.Some? && d.index == Some(Loaded(d)) && "c" in d.snapshots && d.receipts == map[]
    requires 0 < n <= |SwapSteps(d, TO_C, Loaded(d), fault)|
    ensures After(d, Happened(d, Action(Rollback(ARGS, TOKEN, fault), n))) == SwapSteps(d, TO_C, Loaded(d), fault)[n - 1]
  {
    RollsBackToC(d, fault);
    hide SwapSteps, Loaded, RollbackRun;
    CutAt(d, SwapSteps(d, TO_C, Loaded(d), fault), n);
  }

  /** The disks of the swap at which the runs below are cut. */
  lemma SwapStops(d: Disk)
    requires d.current.Some? && "c" in d.snapshots
    ensures var steps := SwapSteps(d, TO_C, Loaded(d), NoFault);
            |steps| > 5 && steps[3] == OldMovedAway(d, TO_C) && steps[4] == Journaled(steps[3], TO_C, OldMoved)
    ensures var steps := SwapSteps(d, TO_C, Loaded(d), RenameFails);
            |steps| > 5 && steps[5] == PutBack(Journaled(OldMovedAway(d, TO_C), TO_C, OldMoved), TOKEN)
  {
    hide Loaded, ClosingSteps;
  }

  /** A checkpoint "c", then one call. */
  lemma CreatesThen(tree: Tree, info: Info, act: Action) returns (acts: seq<Action>)
    requires Allowed(WithC(tree, info), act.op)
    ensures Admissible(Created(tree), acts)
    ensures End(Created(tree), acts) == After(WithC(tree, info), Happened(WithC(tree, info), act))
  {
    var create := Action(CreateCheckpoint("c", info), 3);
    CreatesC(tree, info);
    assert After(Created(tree), Happened(Created(tree), create)) == WithC(tree, info);
    acts := [create] + ([act] + []);
    EndStep(Created(tree), create, [act] + []);
    hide Allowed, Happened;
    EndStep(WithC(tree, info), act, []);
  }

  /** A rollback cut between its two renames. */
  lemma PromotionWindowIsReached(tree: Tree, info: Info) returns (acts: seq<Action>)
    ensures Admissible(Created(tree), acts) && PromotionWindow(End(Created(tree), acts))
  {
    var d := WithC(tree, info);
    CreatesC(tree, info);
    SwapStops(d);
    CutsRollback(d, NoFault, 4);
    hide SwapSteps, RollbackRun, Loaded, Added, Happened;
    acts := CreatesThen(tree, info, Action(Rollback(ARGS, TOKEN, NoFault), 4));
  }

  lemma PutBackMislabels(d: Disk)
    requires d.current.Some? && "c" in d.snapshots
    ensures Mislabels(d, PutBack(Journaled(OldMovedAway(d, TO_C), TO_C, OldMoved), TOKEN))
  {
    hide Head;
  }

  /** A rollback whose second rename fails, cut right after its handler put the old tree back. */
  lemma FailedRenameWindowIsReached(tree: Tree, info: Info) returns (acts: seq<Action>)
    ensures Admissible(Created(tree), acts)
    ensures Mislabels(WithC(tree, info), End(Created(tree), acts))
  {
    var d := WithC(tree, info);
    CreatesC(tree, info);
    SwapStops(d);
    CutsRollback(d, RenameFails, 6);
    PutBackMislabels(d);
    hide SwapSteps, RollbackRun, Loaded, Added, Happened, Mislabels, PutBack, Journaled, OldMovedAway;
    acts := CreatesThen(tree, info, Action(Rollback(ARGS, TOKEN, RenameFails), 6));
  }

  function OldAway(tree: Tree, info: Info): Disk {
    Journaled(OldMovedAway(WithBoth(tree, info), TO_C), TO_C, OldMoved)
  }

  lemma DeletesC(tree: Tree, info: Info)
    ensures var d := OldAway(tree, info);
            DeleteCheckpointRun(d, "c", true).steps == EraseSteps(d, Loaded(d), "c") && AfterLoad(d) == d
  {
    var d := OldAway(tree, info);
    CreatesCp(tree, info);
    assert Loaded(d) == Loaded(WithBoth(tree, info));
    ExactResolves(d, "c");
    assert ValidId("c");
    hide Loaded, Resolution, Added;
  }

  lemma CIsRedirected(tree: Tree, info: Info)
    ensures var d := OldAway(tree, info);
            RedirectionWindow(After(d, EraseSteps(d, Loaded(d), "c")))
  {
    var d := OldAway(tree, info);
    var e := After(d, EraseSteps(d, Loaded(d), "c"));
    assert d.snapshots - {"c"} == map["cp" := tree];
    assert e == d.(snapshots := map["cp" := tree], index := e.index);
    hide Loaded, Added, Removed, RedirectionWindow;
    OnlyCpIsLeft(e);
  }

  lemma OnlyCpIsLeft(e: Disk)
    requires e.journal == Some(TO_C.(phase := OldMoved)) && e.current.None? && TOKEN in e.restores && TOKEN in e.discards
    requires e.snapshots.Keys == {"cp"}
    ensures RedirectionWindow(e)
  {
    PresentByPrefix(e, "cp");
    hide Goal;
  }

  /** With one snapshot left, an id that is its prefix resolves to it. */
  lemma PresentByPrefix(e: Disk, id: Id)
    requires e.journal.Some? && e.snapshots.Keys == {id} && e.journal.value.checkpoint <= id
    ensures Goal(e) == Ok(id)
  {
    var c := e.journal.value.checkpoint;
    assert PrefixMatches(Loaded(e), c) == {id};
    assert exists x :: PrefixMatches(Loaded(e), c) == {x};
  }

  /** A rollback to "c" cut once the old tree is away, and "c" deleted, with "cp" left. */
  lemma RedirectionWindowIsReached(tree: Tree, info: Info) returns (acts: seq<Action>)
    ensures Admissible(Created(tree), acts) && RedirectionWindow(End(Created(tree), acts))
  {
    var create := Action(CreateCheckpoint("c", info), 3);
    var again := Action(CreateCheckpoint("cp", info), 3);
    var rest := ThenRedirected(tree, info);
    CreatesC(tree, info);
    CreatesCp(tree, info);
    acts := [create] + ([again] + rest);
    EndStep(Created(tree), create, [again] + rest);
    EndStep(WithC(tree, info), again, rest);
    hide RedirectionWindow, Added, End;
  }

  lemma ThenRedirected(tree: Tree, info: Info) returns (acts: seq<Action>)
    ensures Admissible(WithBoth(tree, info), acts) && RedirectionWindow(End(WithBoth(tree, info), acts))
  {
    var d := WithBoth(tree, info);
    var cut := Action(Rollback(ARGS, TOKEN, NoFault), 5);
    var delete := Action(DeleteCheckpoint("c", true), 3);
    CutsOff(tree, info);
    Deletes(tree, info);
    hide RedirectionWindow, Loaded, Steps, Happened, Allowed, OldAway, WithBoth, EraseSteps;
    acts := [cut] + ([delete] + []);
    EndStep(d, cut, [delete] + []);
    EndStep(OldAway(tree, info), delete, []);
  }

  lemma CutsOff(tree: Tree, info: Info)
    ensures var d := WithBoth(tree, info);
            var cut := Action(Rollback(ARGS, TOKEN, NoFault), 5);
            Allowed(d, cut.op) && After(d, Happened(d, cut)) == OldAway(tree, info)
  {
    var d := WithBoth(tree, info);
    CreatesCp(tree, info);
    SwapStops(d);
    hide SwapSteps, RollbackRun, Loaded, Added;
    CutsRollback(d, NoFault, 5);
  }

  lemma Deletes(tree: Tree, info: Info)
    ensures var d := OldAway(tree, info);
            var delete := Action(DeleteCheckpoint("c", true), 3);
            Allowed(d, delete.op) && RedirectionWindow(After(d, Happened(d, delete)))
  {
    DeletesC(tree, info);
    CIsRedirected(tree, info);
    hide RedirectionWindow, Loaded, DeleteCheckpointRun, OldAway;
  }
}
