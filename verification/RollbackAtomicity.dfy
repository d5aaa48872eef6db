/** A rollback cut after any step and followed by one recovery leaves one of two whole
    states, except in exactly one window of its own error handler. */
module RollbackAtomicity {
  import opened Base
  import opened Lineage
  import opened SessionDisk
  import opened RollbackRecovery

  /** The Session as it was before the call. */
  ghost predicate KeptOld(d: Disk, e: Disk) {
    && e.current == d.current && Head(e) == Head(d)
    && e.journal == None && e.restores.Keys == {} && e.discards.Keys == {}
  }

  /** The Session at the checkpoint. A deferred rollback scrubbed exactly as requested and
      still holds the old tree; an immediate one may have lost sockets and FIFOs to the scrub. */
  ghost predicate TookCheckpoint(d: Disk, t: Transaction, e: Disk) {
    && t.checkpoint in d.snapshots && d.current.Some?
    && e.current.Some? && Head(e) == Some(t.checkpoint)
    && var snapshot := d.snapshots[t.checkpoint];
       if t.Deferred() then
         && e.current.value == (if t.scrub then snapshot.(runtime := []) else snapshot)
         && e.journal == Some(t.(phase := Committed)) && e.restores.Keys == {}
         && e.discards == map[t.token := d.current.value]
       else
         && ScrubbedFrom(snapshot, e.current.value)
         && e.journal == None && e.restores.Keys == {} && e.discards.Keys == {}
  }

  /** The handler of a failed rename has put the old tree back, but the journal still says
      that the old tree was moved away. */
  ghost predicate FailedRenameWindow(s: Disk) {
    && s.journal.Some? && s.journal.value.phase.OldMoved?
    && s.current.Some? && s.journal.value.token !in s.discards
  }

  /** A Session about to be rolled back. */
  ghost predicate Ready(d: Disk, t: Transaction) {
    && d.journal.None? && d.current.Some? && d.restores.Keys == {} && d.discards.Keys == {}
    && t.checkpoint in d.snapshots
    && (t.Deferred() ==> t.recovery.value !in d.receipts)
  }

  /** What no step of the swap touches. */
  ghost predicate SameShelf(d: Disk, s: Disk) {
    s.snapshots == d.snapshots && s.receipts == d.receipts
  }

  // ---------------------------------------------------------------- every disk of the swap

  ghost predicate OnlyToken(s: Disk, token: Token) {
    s.restores.Keys <= {token} && s.discards.Keys <= {token}
  }

  ghost predicate BeforeMove(d: Disk, t: Transaction, s: Disk) {
    && Aborting(s) && s.journal.value.token == t.token && s.current == d.current
    && SameShelf(d, s) && s.index == d.index && OnlyToken(s, t.token)
  }

  ghost predicate AfterMove(d: Disk, t: Transaction, s: Disk) {
    && t.checkpoint in d.snapshots && (if t.Deferred() then Confirming(s) else Committing(s))
    && s.journal.value == t.(phase := s.journal.value.phase)
    && SameShelf(d, s) && OnlyToken(s, t.token)
    && Source(s).Some? && ScrubbedFrom(d.snapshots[t.checkpoint], Source(s).value)
    && (t.Deferred() ==> Some(s.discards[t.token]) == d.current)
    && (!t.scrub ==> Source(s).value == d.snapshots[t.checkpoint])
  }

  lemma OpeningStates(d: Disk, t: Transaction, s: Disk)
    requires Ready(d, t) && s in Opening(d, t)
    ensures BeforeMove(d, t, s) || AfterMove(d, t, s)
    ensures !FailedRenameWindow(s)
  {
    var d1 := Journaled(d, t, Preparing);
    var d2 := Staged(d1, t, d.snapshots[t.checkpoint]);
    hide Loaded;
    if s in [d1, d2, Journaled(d2, t, Prepared)] {
      assert BeforeMove(d, t, s);
    } else {
      assert s in [OldMovedAway(d, t), Journaled(OldMovedAway(d, t), t, OldMoved)];
      assert AfterMove(d, t, s);
    }
  }

  lemma {:induction false} ScrubStates(d: Disk, s: Disk)
    requires d.current.Some? && s in ScrubSteps(d)
    ensures s.current.Some? && s == WithRuntime(d, s.current.value.runtime)
    ensures ScrubbedFrom(d.current.value, s.current.value)
    decreases |d.current.value.runtime|
  {
    var runtime := d.current.value.runtime;
    var d1 := WithRuntime(d, runtime[1..]);
    if s != d1 {
      ScrubStates(d1, s);
    }
  }

  lemma RequestedScrubStates(d: Disk, scrub: bool, s: Disk)
    requires d.current.Some? && s in RequestedScrub(d, scrub)
    ensures scrub && s.current.Some? && s == WithRuntime(d, s.current.value.runtime)
    ensures ScrubbedFrom(d.current.value, s.current.value)
  {
    ScrubStates(d, s);
  }

  /** The disk right after the checkpoint's tree was renamed into place. */
  ghost predicate InPlace(d: Disk, t: Transaction, p: Disk) {
    && Ready(d, t) && SameShelf(d, p) && p.index.Some? && p.index == Some(Loaded(d))
    && p.current == Some(d.snapshots[t.checkpoint]) && p.journal == Some(t.(phase := OldMoved))
    && p.restores.Keys == {} && p.discards == map[t.token := d.current.value]
  }

  lemma ScrubbingDeferredStates(d: Disk, t: Transaction, p: Disk, s: Disk)
    requires InPlace(d, t, p) && t.Deferred() && s in RequestedScrub(p, t.scrub)
    ensures AfterMove(d, t, s) && !FailedRenameWindow(s)
  {
    RequestedScrubStates(p, t.scrub, s);
    hide Loaded, RequestedScrub;
  }

  lemma IndexedDeferredStates(d: Disk, t: Transaction, p: Disk, ix: Index)
    requires InPlace(d, t, p) && t.Deferred()
    ensures var s := WithIndex(AfterScrub(p, t.scrub), ix);
            AfterMove(d, t, s) && !FailedRenameWindow(s)
  {
    hide Loaded;
  }

  lemma ClosedDeferredStates(d: Disk, t: Transaction, p: Disk)
    requires InPlace(d, t, p) && t.Deferred()
    ensures var s := Journaled(WithIndex(AfterScrub(p, t.scrub), Moved(Loaded(d), t.checkpoint)), t, Committed);
            Pending(s) && SameShelf(d, s) && TookCheckpoint(d, t, s) && !FailedRenameWindow(s)
  {
  }

  lemma ClosingDeferredStates(d: Disk, t: Transaction, p: Disk, s: Disk)
    requires InPlace(d, t, p) && t.Deferred() && s in ClosingSteps(p, t, Loaded(d))
    ensures AfterMove(d, t, s) || (Pending(s) && SameShelf(d, s) && TookCheckpoint(d, t, s))
    ensures !FailedRenameWindow(s)
  {
    assert p.current.Some?;
    hide AfterMove, TookCheckpoint, FailedRenameWindow, InPlace, Pending, Loaded, Moved, RequestedScrub, AfterScrub;
    if s in RequestedScrub(p, t.scrub) {
      ScrubbingDeferredStates(d, t, p, s);
    } else {
      IndexedDeferredStates(d, t, p, Moved(Loaded(d), t.checkpoint));
      ClosedDeferredStates(d, t, p);
    }
  }

  lemma ScrubbingImmediateStates(d: Disk, t: Transaction, p: Disk, s: Disk)
    requires InPlace(d, t, p) && !t.Deferred()
    requires var committed := Journaled(p, t, Committed); s == committed || s in RequestedScrub(committed, t.scrub)
    ensures AfterMove(d, t, s) && !FailedRenameWindow(s)
  {
    var committed := Journaled(p, t, Committed);
    if s in RequestedScrub(committed, t.scrub) {
      RequestedScrubStates(committed, t.scrub, s);
    }
  }

  lemma ForgettingStates(d: Disk, t: Transaction, p: Disk, s: Disk)
    requires InPlace(d, t, p) && !t.Deferred()
    requires s in ForgetSteps(AfterScrub(Journaled(p, t, Committed), t.scrub), t, Loaded(d))
    ensures AfterMove(d, t, s) || (s.journal.None? && TookCheckpoint(d, t, s))
    ensures !FailedRenameWindow(s)
  {
    var dropped := WithoutDiscard(AfterScrub(Journaled(p, t, Committed), t.scrub), t.token);
    assert dropped.discards.Keys == {};
    assert s == dropped ==> AfterMove(d, t, s);
    var indexed := WithIndex(dropped, Moved(Loaded(d), t.checkpoint));
    assert s == indexed ==> AfterMove(d, t, s);
    assert s == Cleared(indexed) ==> Head(s) == Some(t.checkpoint);
  }

  lemma ClosingImmediateStates(d: Disk, t: Transaction, p: Disk, s: Disk)
    requires InPlace(d, t, p) && !t.Deferred() && s in ClosingSteps(p, t, Loaded(d))
    ensures AfterMove(d, t, s) || (s.journal.None? && TookCheckpoint(d, t, s))
    ensures !FailedRenameWindow(s)
  {
    assert p.current.Some?;
    hide AfterMove, TookCheckpoint, FailedRenameWindow, InPlace, ForgetSteps, RequestedScrub;
    var committed := Journaled(p, t, Committed);
    if s in ForgetSteps(AfterScrub(committed, t.scrub), t, Loaded(d)) {
      ForgettingStates(d, t, p, s);
    } else {
      assert s in [committed] + RequestedScrub(committed, t.scrub);
      ScrubbingImmediateStates(d, t, p, s);
    }
  }

  // ---------------------------------------------------------------- recovery from each of them

  lemma BeforeMoveKeepsOld(d: Disk, t: Transaction, s: Disk, l: Listing)
    requires BeforeMove(d, t, s)
    ensures RecoverRun(s, l).result.Ok? && KeptOld(d, Recovered(s, l))
  {
    AbortEnds(s, l);
  }

  /** After the move the one staged tree is the discarded one, and scrubbing the current tree
      gives the scrubbed snapshot. */
  lemma HoldsOldTree(d: Disk, t: Transaction, s: Disk)
    requires AfterMove(d, t, s) && t.Deferred()
    ensures d.current.Some? && s.discards == map[t.token := d.current.value] && s.journal == Some(t.(phase := s.journal.value.phase))
    ensures Placed(s).restores.Keys == {} && Placed(s).discards == s.discards && s.snapshots == d.snapshots
    ensures var snapshot := d.snapshots[t.checkpoint];
            AfterScrub(Placed(s), t.scrub).current == Some(if t.scrub then snapshot.(runtime := []) else snapshot)
  {
  }

  lemma ConfirmedIsCheckpoint(d: Disk, t: Transaction, s: Disk, e: Disk)
    requires t.checkpoint in d.snapshots && AfterMove(d, t, s) && t.Deferred()
    requires e == Journaled(WithIndex(AfterScrub(Placed(s), t.scrub), Moved(Loaded(s), t.checkpoint)), t, Committed)
    ensures TookCheckpoint(d, t, e)
  {
    ExactResolves(s, t.checkpoint);
    hide Moved, Loaded, Resolution, AdoptRun, LoadSteps;
    HoldsOldTree(d, t, s);
    hide AfterMove;
  }

  lemma CommittedIsCheckpoint(d: Disk, t: Transaction, s: Disk, e: Disk)
    requires d.current.Some? && t.checkpoint in d.snapshots && AfterMove(d, t, s) && !t.Deferred()
    requires e == Cleared(WithIndex(AfterDrop(Placed(s), s.journal.value), Moved(Loaded(s), t.checkpoint)))
    ensures TookCheckpoint(d, t, e)
  {
    ExactResolves(s, t.checkpoint);
    hide Moved, Loaded;
    assert e.restores.Keys == {} && e.discards.Keys == {};
  }

  lemma AfterMoveTakesCheckpoint(d: Disk, t: Transaction, s: Disk, l: Listing)
    requires d.current.Some? && t.checkpoint in d.snapshots && AfterMove(d, t, s)
    ensures RecoverRun(s, l).result.Ok? && TookCheckpoint(d, t, Recovered(s, l))
  {
    GoalIsPresent(s);
    hide RecoverRun, TookCheckpoint, Goal;
    if t.Deferred() {
      ConfirmEnds(s, l);
      ConfirmedIsCheckpoint(d, t, s, Recovered(s, l));
    } else {
      CommitEnds(s, l);
      CommittedIsCheckpoint(d, t, s, Recovered(s, l));
    }
  }

  lemma Inhabited(xs: seq<Token>)
    ensures xs != [] ==> exists x :: x in xs
  {
    if xs != [] {
      assert xs[0] in xs;
    }
  }

  /** No journal and no staging tree: recovery finds nothing to do. */
  lemma NothingToRecover(s: Disk, l: Listing)
    requires s.journal.None? && s.restores.Keys == {} && s.discards.Keys == {} && Lists(l, s)
    ensures RecoverRun(s, l) == Run([], Ok(false)) && Recovered(s, l) == s
  {
    Inhabited(l.restores);
    Inhabited(l.discards);
    assert forall x :: x !in s.restores.Keys && x !in s.discards.Keys;
  }

  // ---------------------------------------------------------------- the theorem

  /** Either whole state, for the checkpoint this call resolves to. */
  ghost predicate Whole(d: Disk, a: RollbackArgs, token: Token, e: Disk) {
    var target := Target(d, Loaded(d), a);
    KeptOld(d, e) || (target.Ok? && TookCheckpoint(d, NewTransaction(a, target.value, token), e))
  }

  /** The window matters when the cleanup is deferred (recovery then refuses for good), or
      when neither the old head nor the old tree happens to be the checkpoint's already. */
  ghost predicate Mislabels(d: Disk, s: Disk) {
    && FailedRenameWindow(s)
    && (s.journal.value.Deferred()
        || (Head(d) != Some(s.journal.value.checkpoint)
            && !(d.current.Some? && s.journal.value.checkpoint in d.snapshots
                 && ScrubbedFrom(d.snapshots[s.journal.value.checkpoint], d.current.value))))
  }

  lemma SnapshotFaultStates(d: Disk, t: Transaction, leftTree: bool, s: Disk)
    requires Ready(d, t) && s in SwapSteps(d, t, Loaded(d), SnapshotFails(leftTree))
    ensures BeforeMove(d, t, s) || (KeptOld(d, s) && s.journal.None?)
    ensures !FailedRenameWindow(s)
  {
    var d1 := Journaled(d, t, Preparing);
    var d2 := Staged(d1, t, d.snapshots[t.checkpoint]);
    var d3 := WithoutRestore(d2, t.token);
    assert s == d1 || s == d2 || s == d3 ==> BeforeMove(d, t, s);
    assert d3.restores.Keys == {};
  }

  /** The disks of the handler for a failed rename, up to its clearing the journal. */
  ghost predicate InWindow(d: Disk, t: Transaction, s: Disk) {
    && FailedRenameWindow(s) && s.journal.value == t.(phase := OldMoved)
    && s.current == d.current && SameShelf(d, s) && s.index == d.index && OnlyToken(s, t.token)
  }

  lemma RenameFaultStates(d: Disk, t: Transaction, s: Disk)
    requires Ready(d, t)
    requires s in SwapSteps(d, t, Loaded(d), RenameFails) && s !in Opening(d, t)
    ensures InWindow(d, t, s) || (KeptOld(d, s) && s.journal.None? && !FailedRenameWindow(s))
  {
    var d5 := Journaled(OldMovedAway(d, t), t, OldMoved);
    var back := PutBack(d5, t.token);
    assert back.discards.Keys == {} && WithoutRestore(back, t.token).restores.Keys == {};
  }

  lemma WindowOutcome(d: Disk, t: Transaction, s: Disk, l: Listing)
    requires Ready(d, t) && InWindow(d, t, s)
    ensures t.Deferred() ==> RecoverRun(s, l) == Run([], Err(MissingDiscard))
    ensures !t.Deferred() ==>
      && RecoverRun(s, l).result.Ok? && Head(Recovered(s, l)) == Some(t.checkpoint)
      && Recovered(s, l).current == d.current && Recovered(s, l).journal == None
      && Recovered(s, l).restores.Keys == {} && Recovered(s, l).discards.Keys == {}
  {
    if !t.Deferred() {
      CommitEnds(s, l);
      ExactResolves(s, t.checkpoint);
      hide RecoverRun;
    }
  }

  lemma WindowIsWholeUnlessMislabelled(d: Disk, t: Transaction, s: Disk, l: Listing)
    requires Ready(d, t) && InWindow(d, t, s)
    ensures RecoverRun(s, l).result.Ok? && (KeptOld(d, Recovered(s, l)) || TookCheckpoint(d, t, Recovered(s, l)))
            <==> !Mislabels(d, s)
  {
    WindowOutcome(d, t, s, l);
    hide RecoverRun, Recovered;
  }

  /** What every disk of a swap is: before the old tree moved, after it, in the window, or
      done with. */
  ghost predicate SwapState(d: Disk, t: Transaction, s: Disk) {
    || InWindow(d, t, s)
    || (!FailedRenameWindow(s)
        && (|| BeforeMove(d, t, s) || AfterMove(d, t, s) || (KeptOld(d, s) && s.journal.None?)
            || (TookCheckpoint(d, t, s) && ((Pending(s) && SameShelf(d, s)) || s.journal.None?))))
  }

  lemma SwapStates(d: Disk, t: Transaction, fault: Fault, s: Disk)
    requires Ready(d, t) && d.index == Some(Loaded(d))
    requires s in SwapSteps(d, t, Loaded(d), fault)
    ensures SwapState(d, t, s)
  {
    var d5 := Journaled(OldMovedAway(d, t), t, OldMoved);
    assert Ready(d, t) && InPlace(d, t, Promoted(d5, t)) by {
      assert d.discards == map[];
      assert Promoted(d5, t).restores.Keys == {};
    }
    if s in Opening(d, t) && !fault.SnapshotFails? {
      OpeningStates(d, t, s);
    } else {
      match fault
      case SnapshotFails(leftTree) => SnapshotFaultStates(d, t, leftTree, s);
      case RenameFails => RenameFaultStates(d, t, s);
      case NoFault =>
        if s == Promoted(d5, t) {
          assert AfterMove(d, t, s);
        } else if t.Deferred() {
          ClosingDeferredStates(d, t, Promoted(d5, t), s);
        } else {
          ClosingImmediateStates(d, t, Promoted(d5, t), s);
        }
    }
  }

  lemma SwapAtomicity(d: Disk, t: Transaction, fault: Fault, s: Disk, l: Listing)
    requires Ready(d, t) && d.index == Some(Loaded(d)) && Lists(l, s)
    requires s in SwapSteps(d, t, Loaded(d), fault)
    ensures RecoverRun(s, l).result.Ok? && (KeptOld(d, Recovered(s, l)) || TookCheckpoint(d, t, Recovered(s, l)))
            <==> !Mislabels(d, s)
  {
    SwapStates(d, t, fault, s);
    hide RecoverRun, Recovered, SwapSteps;
    SwapStateOutcome(d, t, s, l);
  }

  lemma SwapStateOutcome(d: Disk, t: Transaction, s: Disk, l: Listing)
    requires Ready(d, t) && Lists(l, s) && SwapState(d, t, s)
    ensures RecoverRun(s, l).result.Ok? && (KeptOld(d, Recovered(s, l)) || TookCheckpoint(d, t, Recovered(s, l)))
            <==> !Mislabels(d, s)
  {
    hide RecoverRun, Recovered;
    if InWindow(d, t, s) {
      WindowIsWholeUnlessMislabelled(d, t, s, l);
    } else if BeforeMove(d, t, s) {
      BeforeMoveKeepsOld(d, t, s, l);
    } else if AfterMove(d, t, s) {
      AfterMoveTakesCheckpoint(d, t, s, l);
    } else if s.journal.None? {
      NothingToRecover(s, l);
    } else {
      PendingEnds(s, l);
      LoadingIsIdempotent(s);
    }
  }

  lemma LoadCutKeepsOld(d: Disk, a: RollbackArgs, token: Token, s: Disk, l: Listing)
    requires Inv(d) && Refusal(d, a).None? && s in LoadSteps(d) && Lists(l, s)
    ensures RecoverRun(s, l).result.Ok? && Whole(d, a, token, Recovered(s, l)) && !Mislabels(d, s)
  {
    LoadingIsIdempotent(d);
    hide RecoverRun, Recovered, Target, TookCheckpoint, Loaded;
    NothingToRecover(s, l);
  }

  /** The swap of a call starts on the disk as loaded, which has the same head and trees. */
  lemma LoadedIsReady(d: Disk, a: RollbackArgs, token: Token)
    requires Inv(d) && Refusal(d, a).None? && Target(d, Loaded(d), a).Ok?
    ensures Ready(AfterLoad(d), NewTransaction(a, Target(d, Loaded(d), a).value, token))
    ensures var d0 := AfterLoad(d);
            Loaded(d0) == Loaded(d) && d0.current == d.current && d0.snapshots == d.snapshots && d0.index == Some(Loaded(d0))
  {
    LoadingIsIdempotent(d);
  }

  lemma SwapCutIsWhole(d: Disk, a: RollbackArgs, token: Token, fault: Fault, s: Disk, l: Listing)
    requires Target(d, Loaded(d), a).Ok? && Lists(l, s)
    requires var d0 := AfterLoad(d);
             var t := NewTransaction(a, Target(d, Loaded(d), a).value, token);
             && Ready(d0, t) && d0.index == Some(Loaded(d0)) && Loaded(d0) == Loaded(d)
             && d0.current == d.current && d0.snapshots == d.snapshots && s in SwapSteps(d0, t, Loaded(d), fault)
    ensures RecoverRun(s, l).result.Ok? && Whole(d, a, token, Recovered(s, l)) <==> !Mislabels(d, s)
  {
    hide RecoverRun, Recovered, Target, Loaded, SwapSteps, FailedRenameWindow, Ready, Lists, AfterLoad;
    SwapAtomicity(AfterLoad(d), NewTransaction(a, Target(d, Loaded(d), a).value, token), fault, s, l);
  }

  /** Crash atomicity, for every argument, fault and cut: one uninterrupted recovery
      succeeds and leaves a whole state exactly outside the failed-rename window. */
  lemma CrashAtomicity(d: Disk, a: RollbackArgs, token: Token, fault: Fault, s: Disk, l: Listing)
    requires Inv(d) && Lists(l, s)
    requires s in RollbackRun(d, a, token, fault).steps
    ensures RecoverRun(s, l).result.Ok? && Whole(d, a, token, Recovered(s, l)) <==> !Mislabels(d, s)
  {
    hide Inv, Whole, Mislabels, SwapSteps, LoadSteps, RecoverRun, Recovered, Lists, Target, Refusal, AfterLoad, NewTransaction;
    if s in LoadSteps(d) {
      LoadCutKeepsOld(d, a, token, s, l);
    } else {
      LoadedIsReady(d, a, token);
      SwapCutIsWhole(d, a, token, fault, s, l);
    }
  }

  // ---------------------------------------------------------------- which tree recovery can choose

  /** The tree there was, or the checkpoint's, up to scrubbed entries. */
  ghost predicate OldOrCheckpoint(d: Disk, c: Option<Id>, x: Tree) {
    || (d.current.Some? && ScrubbedFrom(d.current.value, x))
    || (c.Some? && c.value in d.snapshots && ScrubbedFrom(d.snapshots[c.value], x))
  }

  lemma SwapSource(d: Disk, t: Transaction, s: Disk)
    requires Ready(d, t) && SwapState(d, t, s)
    ensures Source(s).Some? && OldOrCheckpoint(d, Some(t.checkpoint), Source(s).value)
  {
    hide Pending;
  }

  /** Wherever a rollback is cut, the tree that recovery starts from is one of the two. */
  lemma RollbackSource(d: Disk, a: RollbackArgs, token: Token, fault: Fault, s: Disk)
    requires Inv(d) && s in RollbackRun(d, a, token, fault).steps
    ensures var target := Target(d, Loaded(d), a);
            Source(s).Some? && OldOrCheckpoint(d, if target.Ok? then Some(target.value) else None, Source(s).value)
  {
    var target := Target(d, Loaded(d), a);
    if s !in LoadSteps(d) {
      var t := NewTransaction(a, target.value, token);
      var d0 := AfterLoad(d);
      LoadedIsReady(d, a, token);
      SwapStates(d0, t, fault, s);
      hide SwapState, RollbackRun, Target;
      SwapSource(d0, t, s);
    } else {
      assert s.current == d.current && d.current.Some?;
    }
  }
}
