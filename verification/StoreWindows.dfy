/** Recovery crashed any number of times, and exactly when other promises about it fail. */
module StoreWindows {
  import opened Base
  import opened Lineage
  import opened LineageForest
  import opened SessionDisk
  import opened RollbackRecovery
  import opened RollbackAtomicity
  import opened RecoveryRestart
  import opened StoreRuns

  // ---------------------------------------------------------------- any number of crashes

  /** `y` is where a crash may leave a recovery that started on `x`. */
  ghost predicate CutRecovery(x: Disk, y: Disk) {
    exists l :: Lists(l, x) && y in RecoverRun(x, l).steps
  }

  /** Recovery after recovery, each one cut at some step. */
  ghost predicate CrashChain(chain: seq<Disk>)
    decreases |chain|
  {
    |chain| <= 1 || (CutRecovery(chain[0], chain[1]) && CrashChain(chain[1..]))
  }

  /** However recovery of `s` is cut: the current tree is the one that was current, or the
      staged checkpoint tree where there was none, up to scrubbed runtime entries; a tree
      staged in phase `preparing` is never promoted; the journal changes its phase at most,
      and only to `committed`. */
  ghost predicate SoundCut(s: Disk, m: Disk) {
    && s.journal.Some? && Source(s).Some? && m.current.Some? && ScrubbedFrom(Source(s).value, m.current.value)
    && (s.journal.value.phase.Preparing? ==> m.current == s.current)
    && m.snapshots == s.snapshots
    && (m.journal.Some? ==>
          && m.journal.value == s.journal.value.(phase := m.journal.value.phase)
          && (m.journal.value.phase == s.journal.value.phase
              || (m.journal.value.phase.Committed? && !s.journal.value.phase.Preparing?)))
  }

  lemma AbortCut(s: Disk, l: Listing, m: Disk)
    requires Aborting(s) && OnlyToken(s, s.journal.value.token) && m in RecoverRun(s, l).steps
    ensures SoundCut(s, m)
  {
    AbortEnds(s, l);
    hide RecoverRun, Recovered, Goal, Head, Loaded, DropSteps;
    AbortStates(s, l, m);
  }

  lemma CommitCut(s: Disk, l: Listing, m: Disk)
    requires Committing(s) && OnlyToken(s, s.journal.value.token) && m in RecoverRun(s, l).steps
    ensures SoundCut(s, m)
  {
    CommitStates(s, l, m);
    CommitOver(s, l);
    hide RecoverRun, Recovered, Goal;
  }

  lemma MidConfirmIsSound(s: Disk, m: Disk)
    requires Confirming(s) && MidConfirm(s, m)
    ensures SoundCut(s, m)
  {
    hide Loaded, Goal;
  }

  lemma ConfirmedIsSound(s: Disk, e: Disk, head: Id)
    requires Confirming(s) && Confirmed(s, e, head)
    ensures SoundCut(s, e)
  {
    hide Loaded;
  }

  lemma ConfirmCut(s: Disk, l: Listing, m: Disk)
    requires Confirming(s) && OnlyToken(s, s.journal.value.token) && m in RecoverRun(s, l).steps
    ensures SoundCut(s, m)
  {
    ConfirmStates(s, l, m);
    ConfirmIsConfirmed(s, l);
    hide RecoverRun, Recovered, Goal, SoundCut, MidConfirm, Confirmed, Confirming;
    if MidConfirm(s, m) {
      MidConfirmIsSound(s, m);
    } else {
      ConfirmedIsSound(s, m, Goal(s).value);
    }
  }

  lemma PendingCut(s: Disk, l: Listing, m: Disk)
    requires Pending(s) && m in RecoverRun(s, l).steps
    ensures SoundCut(s, m)
  {
    PendingEnds(s, l);
    hide RecoverRun, Recovered, Loaded, Head;
  }

  lemma RefusedCut(s: Disk, l: Listing, m: Disk)
    requires Inv(s) && s.journal.Some? && Refused(s, l) && !Committing(s) && !Confirming(s) && m in RecoverRun(s, l).steps
    ensures SoundCut(s, m)
  {
    hide RecoverRun, Loaded;
  }

  /** One cut, of any recovery with a journal, whether it would have succeeded or not. */
  lemma RecoveryCutIsSound(s: Disk, l: Listing, m: Disk)
    requires Inv(s) && s.journal.Some? && m in RecoverRun(s, l).steps
    ensures SoundCut(s, m)
  {
    Classified(s, l);
    assert OnlyToken(s, s.journal.value.token);
    hide RecoverRun, SoundCut, Aborting, Committing, Confirming, Pending, Inv, Refused;
    if Aborting(s) {
      AbortCut(s, l, m);
    } else if Committing(s) {
      CommitCut(s, l, m);
    } else if Confirming(s) {
      ConfirmCut(s, l, m);
    } else if Pending(s) {
      PendingCut(s, l, m);
    } else {
      RefusedCut(s, l, m);
    }
  }

  lemma SoundCutsCompose(s: Disk, m: Disk, e: Disk)
    requires SoundCut(s, m) && SoundCut(m, e)
    ensures SoundCut(s, e)
  {
  }

  /** A recovery that takes a step has a journal to follow. */
  lemma StepsHaveJournal(s: Disk, m: Disk)
    requires Inv(s) && CutRecovery(s, m)
    ensures s.journal.Some? && SoundCut(s, m) && Inv(m)
  {
    var l :| Lists(l, s) && m in RecoverRun(s, l).steps;
    if s.journal.None? {
      NothingToRecover(s, l);
    } else {
      RecoveryCutIsSound(s, l, m);
      RecoverIsLawful(s, l);
      LawfulEnd(s, RecoverRun(s, l).steps);
    }
  }

  /** From every phase, and however often recovery crashes: the tree that is current in the
      end is one of the two whole trees, and a `preparing` one is never promoted. */
  lemma {:induction false} CrashesKeepAWholeTree(chain: seq<Disk>)
    requires |chain| > 1 && CrashChain(chain) && Inv(chain[0])
    ensures SoundCut(chain[0], chain[|chain| - 1]) && Inv(chain[|chain| - 1])
    decreases |chain|
  {
    hide Inv, SoundCut, CutRecovery;
    StepsHaveJournal(chain[0], chain[1]);
    if |chain| > 2 {
      assert chain[1..][|chain| - 2] == chain[|chain| - 1];
      CrashesKeepAWholeTree(chain[1..]);
      SoundCutsCompose(chain[0], chain[1], chain[|chain| - 1]);
    }
  }

  /** A recovery left to finish or to raise is no worse than a cut one. */
  lemma EndIsSound(s: Disk, l: Listing)
    requires Inv(s) && s.journal.Some?
    ensures SoundCut(s, Recovered(s, l))
  {
    hide RecoverRun, Inv, SoundCut;
    var steps := RecoverRun(s, l).steps;
    if steps == [] {
      MissingCurrentIsPromoted(s, l);
      UntouchedIsSound(s);
    } else {
      RecoveryCutIsSound(s, l, steps[|steps| - 1]);
    }
  }

  lemma UntouchedIsSound(s: Disk)
    requires s.journal.Some? && s.current.Some?
    ensures SoundCut(s, s)
  {
  }

  lemma NothingLeft(s: Disk, l: Listing)
    requires Inv(s) && s.journal.None? && Lists(l, s)
    ensures Recovered(s, l) == s
  {
    NothingToRecover(s, l);
    hide RecoverRun;
  }

  /** The same when the last recovery of the chain is left to finish or to raise. */
  lemma FinalTreeIsWhole(chain: seq<Disk>, k: Listing)
    requires chain != [] && CrashChain(chain) && Inv(chain[0]) && chain[0].journal.Some?
    requires Lists(k, chain[|chain| - 1])
    ensures var s := chain[0];
            var e := Recovered(chain[|chain| - 1], k);
            && Source(s).Some? && e.current.Some? && ScrubbedFrom(Source(s).value, e.current.value)
            && (s.journal.value.phase.Preparing? ==> e.current == s.current) && e.snapshots == s.snapshots
  {
    FinalTreeIsSound(chain, k);
    hide Inv, CrashChain, Recovered, Lists;
  }

  lemma FinalTreeIsSound(chain: seq<Disk>, k: Listing)
    requires chain != [] && CrashChain(chain) && Inv(chain[0]) && chain[0].journal.Some?
    requires Lists(k, chain[|chain| - 1])
    ensures SoundCut(chain[0], Recovered(chain[|chain| - 1], k))
  {
    hide Inv, CrashChain, SoundCut, Lists, RecoverRun, Recovered;
    var last := chain[|chain| - 1];
    if |chain| > 1 { CrashesKeepAWholeTree(chain); }
    if last.journal.None? {
      NothingLeft(last, k);
    } else {
      EndIsSound(last, k);
      if |chain| > 1 { SoundCutsCompose(chain[0], last, Recovered(last, k)); }
    }
  }

  lemma WholeTreeStaysWhole(d: Disk, c: Option<Id>, chain: seq<Disk>, k: Listing)
    requires chain != [] && CrashChain(chain) && Inv(chain[0]) && Lists(k, chain[|chain| - 1])
    requires Source(chain[0]).Some? && OldOrCheckpoint(d, c, Source(chain[0]).value)
    ensures var e := Recovered(chain[|chain| - 1], k); e.current.Some? && OldOrCheckpoint(d, c, e.current.value)
  {
    hide Inv, CrashChain, RecoverRun, Recovered, Lists, Source;
    if chain[0].journal.Some? {
      FinalTreeIsWhole(chain, k);
    } else {
      NoJournalNoChain(chain, k);
    }
  }

  /** End to end: a rollback cut anywhere, then recovery after recovery, each one crashed,
      and a last one left to finish or to raise. What is current then is the old tree or the
      checkpoint's, up to scrubbed runtime entries. */
  lemma RollbackSurvivesCrashes(d: Disk, a: RollbackArgs, token: Token, fault: Fault, chain: seq<Disk>, k: Listing)
    requires Inv(d) && FreshToken(d, token)
    requires chain != [] && chain[0] in RollbackRun(d, a, token, fault).steps && CrashChain(chain)
    requires Lists(k, chain[|chain| - 1])
    ensures var target := Target(d, Loaded(d), a);
            var e := Recovered(chain[|chain| - 1], k);
            e.current.Some? && OldOrCheckpoint(d, if target.Ok? then Some(target.value) else None, e.current.value)
  {
    hide RollbackRun, RecoverRun, Recovered, Target, Inv, CrashChain, Source, OldOrCheckpoint, Lists, FreshToken, Loaded;
    var target := Target(d, Loaded(d), a);
    RollbackIsLawful(d, a, token, fault);
    LawfulEnd(d, RollbackRun(d, a, token, fault).steps);
    RollbackSource(d, a, token, fault, chain[0]);
    WholeTreeStaysWhole(d, if target.Ok? then Some(target.value) else None, chain, k);
  }

  lemma NoJournalNoChain(chain: seq<Disk>, k: Listing)
    requires chain != [] && CrashChain(chain) && Inv(chain[0]) && chain[0].journal.None?
    requires Lists(k, chain[|chain| - 1])
    ensures Recovered(chain[|chain| - 1], k).current == chain[0].current == Source(chain[0])
  {
    if |chain| > 1 {
      StepsHaveJournal(chain[0], chain[1]);
    } else {
      NothingToRecover(chain[0], k);
    }
    hide RecoverRun;
  }

  lemma MissingCurrentIsPromoted(s: Disk, l: Listing)
    requires Inv(s) && s.journal.Some? && RecoverRun(s, l).steps == []
    ensures s.current.Some?
  {
    hide AdoptRun, CleanupSteps;
  }

  // ---------------------------------------------------------------- where crashes do not matter

  /** A reachable disk outside the two windows in which a cut recovery ends differently. */
  ghost predicate Recoverable(s: Disk) {
    Inv(s) && !PromotionWindow(s) && !RedirectionWindow(s)
  }

  lemma ListingIsIrrelevant(s: Disk, l: Listing, j: Listing)
    requires Inv(s) && Lists(l, s) && Lists(j, s)
    ensures RecoverRun(s, l) == RecoverRun(s, j)
  {
    if s.journal.None? {
      NothingToRecover(s, l);
      NothingToRecover(s, j);
    }
  }

  /** Cutting recovery outside the windows leads into neither. */
  lemma CutStaysOutside(s: Disk, l: Listing, m: Disk)
    requires Recoverable(s) && s.journal.Some? && Lists(l, s) && m in RecoverRun(s, l).steps
    ensures m.current.Some? && !RedirectionWindow(m)
  {
    RecoveryCutIsSound(s, l, m);
    if m.journal.Some? && m.journal.value.phase.OldMoved? && m.journal.value.Deferred() {
      Classified(s, l);
      LoadingIsIdempotent(s);
      if Confirming(s) {
        ConfirmStates(s, l, m);
        ConfirmIsConfirmed(s, l);
        hide RecoverRun, Recovered, Goal;
        if MidConfirm(s, m) { MidConfirmGoesOn(s, m); }
      } else {
        hide RecoverRun, Goal, Loaded;
      }
    }
  }

  lemma OneCrash(s: Disk, l: Listing, m: Disk) returns (n: Listing)
    requires Recoverable(s) && Lists(l, s) && m in RecoverRun(s, l).steps
    ensures Recoverable(m) && Lists(n, m) && Alike(s, l, m, n)
  {
    assert CutRecovery(s, m);
    StepsHaveJournal(s, m);
    CutStaysOutside(s, l, m);
    n := SomeListing(m);
    RestartsOutsideWindows(s, l, m, n);
    hide RecoverRun, Recovered, Inv, Alike, Goal;
  }

  lemma OneCrashSomewhere(s: Disk, l: Listing, m: Disk) returns (n: Listing)
    requires Recoverable(s) && Lists(l, s) && CutRecovery(s, m)
    ensures Recoverable(m) && Lists(n, m) && Alike(s, l, m, n)
  {
    var j :| Lists(j, s) && m in RecoverRun(s, j).steps;
    ListingIsIrrelevant(s, l, j);
    hide RecoverRun, Recovered, Recoverable, Lists, Alike;
    n := OneCrash(s, l, m);
  }

  lemma ListedAlike(s: Disk, l: Listing, k: Listing)
    requires Inv(s) && Lists(l, s) && Lists(k, s)
    ensures Alike(s, l, s, k)
  {
    ListingIsIrrelevant(s, k, l);
    hide RecoverRun, Inv;
  }

  lemma AlikeChains(s: Disk, l: Listing, m: Disk, n: Listing, e: Disk, k: Listing)
    requires Alike(s, l, m, n) && Alike(m, n, e, k)
    ensures Alike(s, l, e, k)
  {
    hide RecoverRun, Recovered, Head;
  }

  /** Outside the two windows recovery may crash any number of times: what is left to finish
      returns or raises the same, with the same outcome, as if never interrupted. */
  lemma {:induction false} CrashingRecoveryConverges(chain: seq<Disk>, l: Listing, k: Listing)
    requires chain != [] && CrashChain(chain) && Recoverable(chain[0]) && Lists(l, chain[0])
    requires Lists(k, chain[|chain| - 1])
    ensures Alike(chain[0], l, chain[|chain| - 1], k)
    decreases |chain|
  {
    if |chain| == 1 {
      hide Inv, Alike, Lists, CutRecovery, PromotionWindow, RedirectionWindow;
      ListedAlike(chain[0], l, k);
    } else {
      hide Recoverable, Lists, CutRecovery, Alike;
      var n := OneCrashSomewhere(chain[0], l, chain[1]);
      assert chain[1..][|chain| - 2] == chain[|chain| - 1];
      CrashingRecoveryConverges(chain[1..], n, k);
      AlikeChains(chain[0], l, chain[1], n, chain[|chain| - 1], k);
    }
  }

  lemma SomeListing(m: Disk) returns (l: Listing)
    requires Inv(m)
    ensures Lists(l, m)
  {
    if m.journal.None? {
      l := Listing([], []);
    } else {
      var token := m.journal.value.token;
      l := Listing(if token in m.restores then [token] else [], if token in m.discards then [token] else []);
    }
  }

  // ---------------------------------------------------------------- scrubbing

  /** Recovering an immediate rollback never scrubs: whatever scrub was requested, the sockets
      and FIFOs that are left stay. */
  lemma ImmediateRecoveryNeverScrubs(s: Disk, l: Listing)
    requires Committing(s) && OnlyToken(s, s.journal.value.token)
    ensures Recovered(s, l).current == Source(s)
  {
    CommitOver(s, l);
    hide RecoverRun, Recovered, Goal;
  }

  // ---------------------------------------------------------------- checkpoints and pending cleanups

  /** A committed deferred rollback can be completed, and recovery of it succeeds, exactly
      while its checkpoint is the head. */
  lemma PendingCompletesExactly(d: Disk, l: Listing)
    requires Inv(d) && d.journal.Some? && d.journal.value.Deferred() && d.journal.value.phase.Committed?
    ensures CompleteRun(d, d.journal.value.recovery.value).result.Ok? <==> Head(d) == Some(d.journal.value.checkpoint)
    ensures RecoverRun(d, l).result.Ok? <==> Head(d) == Some(d.journal.value.checkpoint)
    ensures Head(d) != Some(d.journal.value.checkpoint) ==>
              && CompleteRun(d, d.journal.value.recovery.value).result == Err(HeadMismatch)
              && RecoverRun(d, l).result == Err(HeadMismatch)
  {
    hide CleanupSteps, Loaded;
  }

  /** Creating a checkpoint does not look at the journal: while a cleanup is pending it takes
      the head away, and both completion and recovery refuse as long as the head is not back. */
  lemma CheckpointBlocksPendingCleanup(s: Disk, id: Id, info: Info, l: Listing)
    requires Inv(s) && Pending(s) && ValidId(id) && id !in s.snapshots && id !in Loaded(s).cps
    ensures var run := CreateCheckpointRun(s, id, info);
            var e := After(s, run.steps);
            && run.result.Ok? && e.journal == s.journal && Head(e) == Some(id)
            && CompleteRun(e, s.journal.value.recovery.value).result == Err(HeadMismatch)
            && RecoverRun(e, l).result == Err(HeadMismatch)
  {
    var e := After(s, CreateCheckpointRun(s, id, info).steps);
    GoalIsPresent(s);
    assert Loaded(e).head == Some(id);
    CreateIsLawful(s, id, info);
    LawfulEnd(s, CreateCheckpointRun(s, id, info).steps);
    hide CreateCheckpointRun, CompleteRun, RecoverRun;
    PendingCompletesExactly(e, l);
  }

  /** Deleting that checkpoint again gives the head back, and with it the completion. */
  lemma DeletingItUnblocksPendingCleanup(s: Disk, id: Id, info: Info, l: Listing)
    requires Inv(s) && Pending(s) && ValidId(id) && id !in s.snapshots && id !in Loaded(s).cps
    ensures var e := After(s, CreateCheckpointRun(s, id, info).steps);
            var run := DeleteCheckpointRun(e, id, true);
            var f := After(e, run.steps);
            && run.result.Ok? && Head(f) == Head(s)
            && CompleteRun(f, s.journal.value.recovery.value).result.Ok? && RecoverRun(f, l).result.Ok?
  {
    CreateIsLawful(s, id, info);
    LawfulEnd(s, CreateCheckpointRun(s, id, info).steps);
    var e := After(s, CreateCheckpointRun(s, id, info).steps);
    DeleteIsLawful(e, id, true);
    LawfulEnd(e, DeleteCheckpointRun(e, id, true).steps);
    var f := After(e, DeleteCheckpointRun(e, id, true).steps);
    CreatedThenDeleted(s, id, info);
    hide CreateCheckpointRun, DeleteCheckpointRun, CompleteRun, RecoverRun, Inv, Pending, Loaded;
    PendingCompletesExactly(f, l);
  }

  lemma CreatedDisk(s: Disk, id: Id, info: Info)
    requires s.current.Some? && ValidId(id) && id !in s.snapshots && id !in Loaded(s).cps
    ensures var e := After(s, CreateCheckpointRun(s, id, info).steps);
            && e == s.(snapshots := s.snapshots[id := s.current.value], index := e.index)
            && Loaded(e).head == Some(id) && id in Loaded(e).cps && !Loaded(e).cps[id].missing
            && Loaded(e).cps[id].parent == Head(s)
  {
  }

  lemma CreatedThenDeleted(s: Disk, id: Id, info: Info)
    requires Inv(s) && s.journal.Some? && s.current.Some? && Head(s).Some?
    requires ValidId(id) && id !in s.snapshots && id !in Loaded(s).cps
    ensures var e := After(s, CreateCheckpointRun(s, id, info).steps);
            var run := DeleteCheckpointRun(e, id, true);
            run.result.Ok? && Head(After(e, run.steps)) == Head(s) && After(e, run.steps).journal == s.journal
  {
    CreatedDisk(s, id, info);
    var e := After(s, CreateCheckpointRun(s, id, info).steps);
    assert e.snapshots - {id} == s.snapshots;
    hide CreateCheckpointRun, Added;
  }

  /** A rollback cut before its first rename is undone: recovery keeps tree and head and deletes
      what was staged. */
  lemma AbortedRecoveryEnds(s: Disk, l: Listing)
    requires Inv(s) && Aborting(s)
    ensures RecoverRun(s, l).result == Ok(true) && Over(s, Recovered(s, l), Head(s))
    ensures Recovered(s, l).current == s.current && Recovered(s, l).journal == None
  {
    assert OnlyToken(s, s.journal.value.token);
    assert Midway(s, s);
    MidwayAborts(s, s, l);
    hide RecoverRun, Recovered;
  }

  /** What an immediate rollback that recovery finishes ends with. It gets the head of its
      checkpoint exactly while that exists; if the id resolves to another one, that becomes
      the head; and if it resolves to nothing, the staging trees are deleted all the same, and
      recovery raises, again and again as long as the checkpoints stay as they are. */
  lemma ImmediateRecoveryEnds(s: Disk, l: Listing, k: Listing)
    requires Inv(s) && Committing(s)
    ensures (RecoverRun(s, l).result.Ok? && Head(Recovered(s, l)) == Some(s.journal.value.checkpoint))
            <==> s.journal.value.checkpoint in s.snapshots
    ensures RecoverRun(s, l).result.Ok? <==> Goal(s).Ok?
    ensures Goal(s).Ok? ==> Head(Recovered(s, l)) == Some(Goal(s).value) && Recovered(s, l).journal == None
    ensures Recovered(s, l).current == Source(s)
    ensures Recovered(s, l).restores.Keys == {} && Recovered(s, l).discards.Keys == {}
    ensures Goal(s).Err? && !(s.current.None? && s.journal.value.phase.Prepared?) ==>
              && Recovered(s, l).journal == s.journal
              && RecoverRun(Recovered(s, l), k) == Run([], RecoverRun(s, l).result)
  {
    CommitOver(s, l);
    GoalIsPresent(s);
    if Goal(s).Err? && !(s.current.None? && s.journal.value.phase.Prepared?) {
      HaltedStays(s, l, k);
    }
    hide RecoverRun, Recovered, Goal;
  }

  lemma HaltedStays(s: Disk, l: Listing, k: Listing)
    requires Committing(s) && OnlyToken(s, s.journal.value.token) && Goal(s).Err?
    requires !(s.current.None? && s.journal.value.phase.Prepared?)
    ensures RecoverRun(Recovered(s, l), k) == Run([], RecoverRun(s, l).result)
  {
    var d := AfterDrop(Placed(s), s.journal.value);
    var e := Recovered(s, l);
    CommitEnds(s, l);
    DroppedDisk(s);
    LoadIsMidway(s, d, e);
    GoalIsStable(s, e);
    LoadingIsIdempotent(d);
    assert Committing(e) && LoadSteps(e) == [];
    CommitEnds(e, k);
    assert DropSteps(e, s.journal.value) == [] && AfterDrop(e, s.journal.value) == e by {
      assert e.discards - {s.journal.value.token} == e.discards && e.restores - {s.journal.value.token} == e.restores;
    }
    hide RecoverRun, Goal, Loaded;
  }

  /** What a deferred rollback that recovery commits ends with. The recovery succeeds while
      the id resolves to anything, but the next one succeeds exactly while the checkpoint
      exists; the discarded tree stays in every case. */
  lemma DeferredRecoveryEnds(s: Disk, l: Listing, k: Listing)
    requires Inv(s) && Confirming(s)
    ensures RecoverRun(s, l).result.Ok? <==> Goal(s).Ok?
    ensures Goal(s).Ok? ==> Head(Recovered(s, l)) == Some(Goal(s).value)
    ensures (RecoverRun(s, l).result.Ok? && RecoverRun(Recovered(s, l), k).result.Ok?)
            <==> s.journal.value.checkpoint in s.snapshots
    ensures Goal(s).Ok? && s.journal.value.checkpoint !in s.snapshots ==>
              RecoverRun(Recovered(s, l), k).result == Err(HeadMismatch)
    ensures Recovered(s, l).discards == s.discards && Recovered(s, l).restores.Keys == {}
    ensures Goal(s).Ok? ==> Recovered(s, l).journal == Some(s.journal.value.(phase := Committed))
    ensures Source(s).Some?
    ensures Recovered(s, l).current
         == Some(if s.journal.value.scrub then Source(s).value.(runtime := []) else Source(s).value)
  {
    ConfirmIsConfirmed(s, l);
    GoalIsPresent(s);
    if Goal(s).Ok? {
      ConfirmedThenRecovered(s, Recovered(s, l), Goal(s).value, k);
    }
    DeferredSource(s);
    hide RecoverRun, Recovered, Goal;
  }

  lemma DeferredSource(s: Disk)
    requires Confirming(s)
    ensures Source(s).Some?
    ensures Wanted(s) == Some(if s.journal.value.scrub then Source(s).value.(runtime := []) else Source(s).value)
  {
  }

  lemma ConfirmedThenRecovered(s: Disk, e: Disk, head: Id, k: Listing)
    requires Inv(s) && Confirming(s) && Confirmed(s, e, head)
    ensures RecoverRun(e, k).result.Ok? <==> head == s.journal.value.checkpoint
    ensures head != s.journal.value.checkpoint ==> RecoverRun(e, k).result == Err(HeadMismatch)
  {
    hide Loaded, CleanupSteps;
  }

  /** Taking a checkpoint under the deleted id again, once the index has forgotten it, makes it
      present and the head; nothing else on disk changes. */
  lemma RetakingCheckpoint(e: Disk, c: Id, info: Info)
    requires Inv(e) && e.current.Some? && ValidId(c) && c !in e.snapshots && c !in Loaded(e).cps
    ensures var run := CreateCheckpointRun(e, c, info);
            var f := After(e, run.steps);
            && run.result.Ok? && Inv(f) && Head(f) == Some(c) && c in f.snapshots
            && f == e.(snapshots := f.snapshots, index := f.index)
  {
    CreateIsLawful(e, c, info);
    LawfulEnd(e, CreateCheckpointRun(e, c, info).steps);
    var f := After(e, CreateCheckpointRun(e, c, info).steps);
    assert Loaded(f).head == Some(c);
    hide Added, Inv;
  }

  /** It is also the way out of the redirection window. */
  lemma RetakingEndsRedirection(s: Disk, l: Listing, info: Info, k: Listing)
    requires Inv(s) && RedirectionWindow(s) && Lists(l, s)
    requires var c := s.journal.value.checkpoint; ValidId(c) && c !in Loaded(Recovered(s, l)).cps
    ensures var e := Recovered(s, l);
            var run := CreateCheckpointRun(e, s.journal.value.checkpoint, info);
            var f := After(e, run.steps);
            && run.result.Ok?
            && CompleteRun(f, s.journal.value.recovery.value).result.Ok? && RecoverRun(f, k).result.Ok?
  {
    var e := Recovered(s, l);
    RecoverIsLawful(s, l);
    LawfulEnd(s, RecoverRun(s, l).steps);
    ConfirmIsConfirmed(s, l);
    assert e.snapshots == s.snapshots && e.current.Some?;
    hide RecoverRun, Recovered, Inv, Goal, CreateCheckpointRun, CompleteRun;
    RetakingCheckpoint(e, s.journal.value.checkpoint, info);
    PendingCompletesExactly(After(e, CreateCheckpointRun(e, s.journal.value.checkpoint, info).steps), k);
  }

  /** And the way out for an immediate rollback whose id resolves to nothing. */
  lemma RetakingEndsHalt(s: Disk, l: Listing, info: Info, k: Listing)
    requires Inv(s) && Committing(s) && Goal(s).Err? && Lists(l, s)
    requires var c := s.journal.value.checkpoint; ValidId(c) && c !in Loaded(Recovered(s, l)).cps
    ensures var e := Recovered(s, l);
            var run := CreateCheckpointRun(e, s.journal.value.checkpoint, info);
            var f := After(e, run.steps);
            && RecoverRun(s, l).result.Err? && run.result.Ok?
            && RecoverRun(f, k).result.Ok? && Head(Recovered(f, k)) == Some(s.journal.value.checkpoint)
            && Recovered(f, k).journal == None && Recovered(f, k).current == Source(s)
  {
    var e := Recovered(s, l);
    RecoverIsLawful(s, l);
    LawfulEnd(s, RecoverRun(s, l).steps);
    CommitOver(s, l);
    GoalIsPresent(s);
    assert e.snapshots == s.snapshots && e.journal == s.journal && e.current == Source(s);
    var f := After(e, CreateCheckpointRun(e, s.journal.value.checkpoint, info).steps);
    hide RecoverRun, Recovered, Goal, CreateCheckpointRun;
    RetakingCheckpoint(e, s.journal.value.checkpoint, info);
    if f.journal.value.phase.Prepared? {
      AbortedRecoveryEnds(f, k);
    } else {
      CommitOver(f, k);
      GoalIsPresent(f);
    }
  }

  /** With the checkpoint gone and exactly one other id behind it as a prefix, an immediate rollback
      ends with that other checkpoint as the head. */
  lemma DeletedCheckpointIsRedirected(s: Disk, other: Id, l: Listing)
    requires Inv(s) && Committing(s) && s.journal.value.checkpoint !in s.snapshots
    requires PrefixMatches(Loaded(s), s.journal.value.checkpoint) == {other}
    ensures other != s.journal.value.checkpoint
    ensures RecoverRun(s, l).result.Ok? && Head(Recovered(s, l)) == Some(other)
  {
    ImmediateRecoveryEnds(s, l, l);
    assert other in {other};
    ResolvedIdIsPresent(Loaded(s), s.journal.value.checkpoint);
    hide RecoverRun, Recovered;
  }

  // ---------------------------------------------------------------- loading without the lock

  /** `describe` and `checkpoint_status` load and save the index without the Session lock. If
      one reads between the two steps of a checkpoint and saves after the second, the new
      checkpoint is no longer the head and has lost its parent; snapshots, trees, journal and
      receipts are as they were, and the disk is still one the theorems speak of. */
  lemma UnlockedLoadUndoesCheckpoint(s: Disk, id: Id, info: Info)
    requires Inv(s) && s.current.Some? && ValidId(id) && id !in s.snapshots && id !in Loaded(s).cps
    ensures var steps := CreateCheckpointRun(s, id, info).steps;
            var between := steps[|steps| - 2];
            var done := After(s, steps);
            var undone := WithIndex(done, Loaded(between));
            && |steps| >= 2 && CreateCheckpointRun(s, id, info).result.Ok?
            && between.index != Some(Loaded(between))
            && Head(done) == Some(id) && Loaded(done).cps[id].parent == Head(s)
            && Head(undone) == Head(s) && Head(undone) != Some(id) && Loaded(undone).cps[id].parent == None
            && undone == done.(index := undone.index) && Inv(undone)
  {
    var steps := CreateCheckpointRun(s, id, info).steps;
    var between := AfterLoad(s).(snapshots := s.snapshots[id := s.current.value]);
    var done := WithIndex(between, Added(Loaded(s), id, info));
    assert steps == LoadSteps(s) + [between, done];
    assert steps[|steps| - 2] == between && After(s, steps) == done;
    CreateIsLawful(s, id, info);
    LawfulEnd(s, steps);
    LoadedIsForest(between);
    IndexIsLawful(done, Loaded(between));
    StaleHead(s, id, between, done, info);
    hide CreateCheckpointRun, LoadSteps, Inv, Added;
  }

  lemma StaleHead(s: Disk, id: Id, between: Disk, done: Disk, info: Info)
    requires s.current.Some? && id !in s.snapshots && id !in Loaded(s).cps
    requires between == AfterLoad(s).(snapshots := s.snapshots[id := s.current.value])
    requires done == WithIndex(between, Added(Loaded(s), id, info))
    ensures id in Loaded(between).cps && between.index != Some(Loaded(between))
    ensures Head(done) == Some(id) && id in Loaded(done).cps && Loaded(done).cps[id].parent == Head(s)
    ensures var undone := WithIndex(done, Loaded(between));
            && Head(undone) == Head(s) && Head(undone) != Some(id)
            && id in Loaded(undone).cps && Loaded(undone).cps[id].parent == None
  {
    assert Loaded(between).cps[id] == RECOVERED_META;
    assert Loaded(done).cps[id].parent == Loaded(s).head;
  }

  // ---------------------------------------------------------------- creating a Session

  /** Creating a Session keeps the promises of the store exactly where it refuses. */
  lemma CreateSessionIsLawfulExactly(d: Disk)
    requires Inv(d)
    ensures AllLawful(d, CreateSessionRun(d).steps) <==> d.current.Some?
  {
  }

  /** In the middle of a swap it makes an empty tree current under an empty index. The next
      recovery then deletes both the old and the new tree, whatever it returns, except for a
      deferred rollback in phase `old_moved`: that one is refused for good. */
  lemma CreateSessionDuringSwap(s: Disk, l: Listing)
    requires Inv(s) && s.current.None?
    ensures var run := CreateSessionRun(s);
            var e := After(s, run.steps);
            var kept := s.journal.value.phase.OldMoved? && s.journal.value.Deferred();
            && run.result.Ok? && e.current == Some(Tree("", [])) && Recovered(e, l).current == e.current
            && (Recovered(e, l).restores.Keys == {} && Recovered(e, l).discards.Keys == {} <==> !kept)
            && (kept ==> RecoverRun(e, l) == Run([], Err(RetainsRestore)))
            && (s.journal.value.phase.Prepared? ==> RecoverRun(e, l).result.Ok? && Recovered(e, l).journal == None)
            && (s.journal.value.phase.OldMoved? && !kept ==>
                  (RecoverRun(e, l).result.Ok? && Head(Recovered(e, l)) == Some(s.journal.value.checkpoint)
                   <==> s.journal.value.checkpoint in s.snapshots))
  {
    var e := After(s, CreateSessionRun(s).steps);
    assert OnlyToken(e, s.journal.value.token);
    if s.journal.value.phase.Prepared? {
      AbortEnds(e, l);
      hide RecoverRun;
    } else if !s.journal.value.Deferred() {
      CommitOver(e, l);
      GoalIsPresent(e);
      hide RecoverRun, Recovered, Goal;
    }
  }
}
