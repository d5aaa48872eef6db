/** What becomes of a checkpoint, over every run of store operations up to its deletion: its tree
    and its metadata stay, and a pinned one cannot be deleted without force. */
module CheckpointEntries {
  import opened Base
  import opened Lineage
  import opened SessionDisk
  import opened RollbackRecovery
  import opened RollbackAtomicity
  import opened RecoveryRestart
  import opened StoreRuns
  import opened StoreTheorems
  import opened StoreOutcomes

  /** Checkpoint `id` of `d` is still there in `m`, with the tree and the metadata it had. */
  ghost predicate EntryKept(d: Disk, m: Disk, id: Id) {
    && id in d.snapshots && id in m.snapshots && m.snapshots[id] == d.snapshots[id]
    && id in Loaded(d).cps && id in Loaded(m).cps && Loaded(m).cps[id].info == Loaded(d).cps[id].info
  }

  lemma EntryIsKept(d: Disk, id: Id)
    requires id in d.snapshots
    ensures EntryKept(d, d, id)
  {
    SnapshotsAreIndexed(d);
  }

  lemma KeptAgain(d: Disk, m: Disk, e: Disk, id: Id)
    requires EntryKept(d, m, id) && EntryKept(m, e, id)
    ensures EntryKept(d, e, id)
  {
  }

  // ---------------------------------------------------------------- disks of one call

  /** The snapshots are those of `d`; the index is the one it had, or the loaded one, or that
      one with another head. */
  ghost predicate OnlyHeadMoves(d: Disk, m: Disk) {
    && m.snapshots == d.snapshots
    && (m.index == d.index || m.index == Some(Loaded(d)) || exists x :: m.index == Some(Moved(Loaded(d), x)))
  }

  ghost predicate OnlyHeadsMove(d: Disk, steps: seq<Disk>) {
    forall m :: m in steps ==> OnlyHeadMoves(d, m)
  }

  lemma ReindexedKeepsEntry(d: Disk, m: Disk, id: Id, ix: Index)
    requires id in d.snapshots && id in m.snapshots && m.snapshots[id] == d.snapshots[id]
    requires m.index == Some(ix) && SameInfo(Loaded(d), ix) && id in ix.cps
    ensures EntryKept(d, m, id)
  {
    SnapshotsAreIndexed(d);
    hide Reconciled, Loaded;
    ReconciledEntries(ix, m.snapshots.Keys);
    assert Loaded(m) == Reconciled(ix, m.snapshots.Keys) by { LoadedFromIndex(m); }
  }

  lemma LoadedFromIndex(m: Disk)
    requires m.index.Some?
    ensures Loaded(m) == Reconciled(m.index.value, m.snapshots.Keys)
  {
  }

  lemma HeadMoveKeepsEntry(d: Disk, m: Disk, id: Id)
    requires id in d.snapshots && OnlyHeadMoves(d, m)
    ensures EntryKept(d, m, id)
  {
    SnapshotsAreIndexed(d);
    if m.index == d.index {
      assert Loaded(m) == Loaded(d);
    } else if m.index == Some(Loaded(d)) {
      hide Loaded;
      ReindexedKeepsEntry(d, m, id, Loaded(d));
    } else {
      hide Loaded, Moved;
      var x :| m.index == Some(Moved(Loaded(d), x));
      MovedEntries(Loaded(d), x);
      ReindexedKeepsEntry(d, m, id, Moved(Loaded(d), x));
    }
  }

  // ---------------------------------------------------------------- rollback, recovery, completion

  lemma SameIndex(d: Disk, p: Disk, m: Disk)
    requires OnlyHeadMoves(d, p) && m.snapshots == p.snapshots && m.index == p.index
    ensures OnlyHeadMoves(d, m)
  {
  }

  lemma HeadIsMoved(d: Disk, m: Disk, x: Id)
    requires m.snapshots == d.snapshots && m.index == Some(Moved(Loaded(d), x))
    ensures OnlyHeadMoves(d, m)
  {
  }

  lemma HeadsConcat(d: Disk, a: seq<Disk>, b: seq<Disk>)
    requires OnlyHeadsMove(d, a) && OnlyHeadsMove(d, b)
    ensures OnlyHeadsMove(d, a + b)
  {
    hide OnlyHeadMoves;
  }

  lemma ScrubMovesNoHead(d: Disk, p: Disk, scrub: bool)
    requires p.current.Some? && OnlyHeadMoves(d, p)
    ensures OnlyHeadsMove(d, RequestedScrub(p, scrub)) && OnlyHeadMoves(d, AfterScrub(p, scrub))
  {
    SameIndex(d, p, AfterScrub(p, scrub));
    hide OnlyHeadMoves, RequestedScrub;
    forall m | m in RequestedScrub(p, scrub) ensures OnlyHeadMoves(d, m) {
      RequestedScrubStates(p, scrub, m);
      SameIndex(d, p, m);
    }
  }

  lemma DropMovesNoHead(d: Disk, p: Disk, t: Transaction)
    requires OnlyHeadMoves(d, p)
    ensures OnlyHeadsMove(d, DropSteps(p, t)) && OnlyHeadMoves(d, AfterDrop(p, t))
  {
    SameIndex(d, p, WithoutDiscard(p, t.token));
    SameIndex(d, p, AfterDrop(p, t));
    hide OnlyHeadMoves;
  }

  lemma LoadMovesNoHead(d: Disk, p: Disk)
    requires p.snapshots == d.snapshots && Loaded(p) == Loaded(d)
    ensures OnlyHeadsMove(d, LoadSteps(p)) && OnlyHeadMoves(d, AfterLoad(p))
  {
    hide Loaded, Moved;
  }

  /** Moving the head, and then changing anything but the index. */
  lemma LastMoves(d: Disk, e: Disk, x: Id, last: Disk)
    requires e.snapshots == d.snapshots && e.index == Some(Moved(Loaded(d), x))
    requires last.snapshots == e.snapshots && last.index == e.index
    ensures OnlyHeadsMove(d, [e, last])
  {
    HeadIsMoved(d, e, x);
    SameIndex(d, e, last);
    hide OnlyHeadMoves;
  }

  lemma DeferredClosingMovesHead(d: Disk, p: Disk, t: Transaction)
    requires p.current.Some? && OnlyHeadMoves(d, p) && t.Deferred()
    ensures OnlyHeadsMove(d, ClosingSteps(p, t, Loaded(d)))
  {
    assert p.snapshots == d.snapshots;
    ScrubMovesNoHead(d, p, t.scrub);
    var indexed := WithIndex(AfterScrub(p, t.scrub), Moved(Loaded(d), t.checkpoint));
    LastMoves(d, indexed, t.checkpoint, Journaled(indexed, t, Committed));
    hide OnlyHeadsMove, OnlyHeadMoves, RequestedScrub, Loaded, Moved;
    HeadsConcat(d, RequestedScrub(p, t.scrub), [indexed, Journaled(indexed, t, Committed)]);
  }

  lemma ImmediateClosingMovesHead(d: Disk, p: Disk, t: Transaction)
    requires p.current.Some? && OnlyHeadMoves(d, p) && !t.Deferred()
    ensures OnlyHeadsMove(d, ClosingSteps(p, t, Loaded(d)))
  {
    var committed := Journaled(p, t, Committed);
    var scrubbed := AfterScrub(committed, t.scrub);
    var dropped := WithoutDiscard(scrubbed, t.token);
    var indexed := WithIndex(dropped, Moved(Loaded(d), t.checkpoint));
    assert p.snapshots == d.snapshots;
    SameIndex(d, p, committed);
    ScrubMovesNoHead(d, committed, t.scrub);
    SameIndex(d, scrubbed, dropped);
    LastMoves(d, indexed, t.checkpoint, Cleared(indexed));
    assert OnlyHeadsMove(d, [committed]) && OnlyHeadsMove(d, [dropped]);
    hide OnlyHeadsMove, OnlyHeadMoves, RequestedScrub, Loaded, Moved;
    HeadsConcat(d, [committed], RequestedScrub(committed, t.scrub));
    HeadsConcat(d, [dropped], [indexed, Cleared(indexed)]);
    HeadsConcat(d, [committed] + RequestedScrub(committed, t.scrub), ForgetSteps(scrubbed, t, Loaded(d)));
  }

  lemma OpeningMovesNoHead(d: Disk, d0: Disk, t: Transaction)
    requires Ready(d0, t) && OnlyHeadMoves(d, d0)
    ensures OnlyHeadsMove(d, Opening(d0, t))
  {
    forall m | m in Opening(d0, t) ensures OnlyHeadMoves(d, m) {
      SameIndex(d, d0, m);
    }
  }

  lemma SwapMovesHead(d: Disk, d0: Disk, t: Transaction, fault: Fault)
    requires Ready(d0, t) && OnlyHeadMoves(d, d0)
    ensures OnlyHeadsMove(d, SwapSteps(d0, t, Loaded(d), fault))
  {
    if fault.NoFault? {
      SwappedIn(d0, t);
      var p := Promoted(Journaled(OldMovedAway(d0, t), t, OldMoved), t);
      SameIndex(d, d0, p);
      OpeningMovesNoHead(d, d0, t);
      if t.Deferred() { DeferredClosingMovesHead(d, p, t); } else { ImmediateClosingMovesHead(d, p, t); }
      assert OnlyHeadsMove(d, [p]);
      hide OnlyHeadsMove, OnlyHeadMoves, Opening, ClosingSteps, Loaded;
      HeadsConcat(d, Opening(d0, t), [p]);
      HeadsConcat(d, Opening(d0, t) + [p], ClosingSteps(p, t, Loaded(d)));
    } else {
      hide Loaded;
      forall m | m in SwapSteps(d0, t, Loaded(d), fault) ensures OnlyHeadMoves(d, m) {
        SameIndex(d, d0, m);
      }
    }
  }

  lemma RollbackMovesHead(d: Disk, a: RollbackArgs, token: Token, fault: Fault)
    requires Inv(d)
    ensures OnlyHeadsMove(d, RollbackRun(d, a, token, fault).steps)
  {
    hide Inv, Loaded, Target, Refusal, SwapSteps;
    if Refusal(d, a).None? && Target(d, Loaded(d), a).Ok? {
      LoadedIsReady(d, a, token);
      SwapMovesHead(d, AfterLoad(d), NewTransaction(a, Target(d, Loaded(d), a).value, token), fault);
    }
  }

  lemma AbortMovesNoHead(s: Disk, l: Listing)
    requires Aborting(s)
    ensures OnlyHeadsMove(s, RecoverRun(s, l).steps)
  {
    AbortEnds(s, l);
    hide RecoverRun, Recovered, Loaded, DropSteps;
    DropMovesNoHead(s, s, s.journal.value);
    SameIndex(s, s, Cleared(AfterDrop(s, s.journal.value)));
    hide OnlyHeadMoves;
  }

  lemma PendingMovesNoHead(s: Disk, l: Listing)
    requires Pending(s)
    ensures OnlyHeadsMove(s, RecoverRun(s, l).steps)
  {
    PendingEnds(s, l);
    hide RecoverRun, Recovered, Loaded, LoadSteps;
    LoadMovesNoHead(s, s);
    forall m | m in RecoverRun(s, l).steps ensures OnlyHeadMoves(s, m) {
      if m !in LoadSteps(s) { SameIndex(s, AfterLoad(s), m); }
    }
  }

  lemma RefusedMovesNoHead(s: Disk, l: Listing)
    requires Refused(s, l)
    ensures OnlyHeadsMove(s, RecoverRun(s, l).steps)
  {
    hide RecoverRun, Loaded;
    LoadMovesNoHead(s, s);
  }

  lemma RecoverMovesHead(s: Disk, l: Listing)
    requires Inv(s) && Lists(l, s)
    ensures OnlyHeadsMove(s, RecoverRun(s, l).steps)
  {
    if s.journal.None? {
      NothingToRecover(s, l);
    } else {
      hide RecoverRun, OnlyHeadsMove, Inv, Aborting, Committing, Confirming, Pending, Refused, Lists;
      Classified(s, l);
      if Aborting(s) {
        AbortMovesNoHead(s, l);
      } else if Committing(s) {
        CommitMovesHead(s, l);
      } else if Confirming(s) {
        ConfirmMovesHead(s, l);
      } else if Pending(s) {
        PendingMovesNoHead(s, l);
      } else {
        RefusedMovesNoHead(s, l);
      }
    }
  }

  lemma StartMovesNoHead(s: Disk)
    requires s.journal.Some? && (s.current.None? ==> s.journal.value.token in s.restores)
    ensures OnlyHeadsMove(s, Start(s)) && OnlyHeadMoves(s, Placed(s))
  {
    hide Loaded;
  }

  lemma AdoptMovesHead(s: Disk, d: Disk, x: Id, last: Disk)
    requires d.snapshots == s.snapshots && Loaded(d) == Loaded(s)
    requires last.snapshots == d.snapshots && last.index == Some(Moved(Loaded(s), x))
    ensures OnlyHeadsMove(s, LoadSteps(d) + [WithIndex(d, Moved(Loaded(s), x)), last])
  {
    LoadMovesNoHead(s, d);
    LastMoves(s, WithIndex(d, Moved(Loaded(s), x)), x, last);
    hide OnlyHeadsMove, LoadSteps, Loaded, Moved;
    HeadsConcat(s, LoadSteps(d), [WithIndex(d, Moved(Loaded(s), x)), last]);
  }

  lemma HeadsConcatAll(d: Disk, a: seq<Disk>, b: seq<Disk>, c: seq<Disk>)
    requires OnlyHeadsMove(d, a) && OnlyHeadsMove(d, b) && OnlyHeadsMove(d, c)
    ensures OnlyHeadsMove(d, a + (b + c))
  {
    hide OnlyHeadsMove;
    HeadsConcat(d, b, c);
    HeadsConcat(d, a, b + c);
  }

  lemma DroppedLoads(s: Disk)
    requires Committing(s)
    ensures var d := AfterDrop(Placed(s), s.journal.value); d.snapshots == s.snapshots && Loaded(d) == Loaded(s)
  {
  }

  lemma CommitMovesHead(s: Disk, l: Listing)
    requires Committing(s)
    ensures OnlyHeadsMove(s, RecoverRun(s, l).steps)
  {
    hide OnlyHeadsMove, OnlyHeadMoves, RecoverRun, Recovered, Goal, Moved, Loaded, Start, DropSteps, LoadSteps, AfterDrop;
    var t := s.journal.value;
    var d := AfterDrop(Placed(s), t);
    CommitEnds(s, l);
    StartMovesNoHead(s);
    DropMovesNoHead(s, Placed(s), t);
    DroppedLoads(s);
    if Goal(s).Ok? {
      var e := WithIndex(d, Moved(Loaded(s), Goal(s).value));
      AdoptMovesHead(s, d, Goal(s).value, Cleared(e));
      assert LoadSteps(d) + [e] + [Cleared(e)] == LoadSteps(d) + [e, Cleared(e)];
      HeadsConcatAll(s, Start(s), DropSteps(Placed(s), t), LoadSteps(d) + [e, Cleared(e)]);
    } else {
      LoadMovesNoHead(s, d);
      HeadsConcatAll(s, Start(s), DropSteps(Placed(s), t), LoadSteps(d));
    }
  }

  lemma ScrubbedSnapshots(s: Disk)
    requires Confirming(s)
    ensures AfterScrub(Placed(s), s.journal.value.scrub).snapshots == s.snapshots
  {
  }

  lemma ConfirmMovesHead(s: Disk, l: Listing)
    requires Confirming(s)
    ensures OnlyHeadsMove(s, RecoverRun(s, l).steps)
  {
    hide OnlyHeadsMove, OnlyHeadMoves, RecoverRun, Recovered, Goal, Moved, Loaded, Start, RequestedScrub, LoadSteps, AfterScrub;
    var t := s.journal.value;
    var d := AfterScrub(Placed(s), t.scrub);
    ConfirmEnds(s, l);
    StartMovesNoHead(s);
    ScrubMovesNoHead(s, Placed(s), t.scrub);
    PlacedLoads(s, t.scrub);
    ScrubbedSnapshots(s);
    var scrub := RequestedScrub(Placed(s), t.scrub);
    if Goal(s).Ok? {
      var e := WithIndex(d, Moved(Loaded(s), Goal(s).value));
      AdoptMovesHead(s, d, Goal(s).value, Journaled(e, t, Committed));
      assert scrub + (LoadSteps(d) + [e]) + [Journaled(e, t, Committed)]
          == scrub + (LoadSteps(d) + [e, Journaled(e, t, Committed)]);
      HeadsConcatAll(s, Start(s), scrub, LoadSteps(d) + [e, Journaled(e, t, Committed)]);
    } else {
      LoadMovesNoHead(s, d);
      HeadsConcatAll(s, Start(s), scrub, LoadSteps(d));
    }
  }

  lemma CompleteMovesNoHead(d: Disk, rid: RecoveryId)
    ensures OnlyHeadsMove(d, CompleteRun(d, rid).steps)
  {
    LoadMovesNoHead(d, d);
    hide Loaded, LoadSteps;
    forall m | m in CompleteRun(d, rid).steps ensures OnlyHeadMoves(d, m) {
      if m !in LoadSteps(d) { SameIndex(d, AfterLoad(d), m); }
    }
  }

  // ---------------------------------------------------------------- every operation

  /** The call deletes this checkpoint. */
  ghost predicate Erases(d: Disk, op: Op, id: Id) {
    op.DeleteCheckpoint? && DeleteCheckpointRun(d, op.id, op.force).result == Ok(id)
  }

  lemma CreateKeepsEntry(d: Disk, other: Id, info: Info, id: Id, m: Disk)
    requires id in d.snapshots && m in CreateCheckpointRun(d, other, info).steps
    ensures EntryKept(d, m, id)
  {
    SnapshotsAreIndexed(d);
    hide Loaded, Added;
    if m in LoadSteps(d) {
      HeadMoveKeepsEntry(d, m, id);
    } else if m.index == Some(Loaded(d)) {
      ReindexedKeepsEntry(d, m, id, Loaded(d));
    } else {
      AddedEntries(Loaded(d), other, info);
      ReindexedKeepsEntry(d, m, id, Added(Loaded(d), other, info));
    }
  }

  lemma DeleteKeepsEntry(d: Disk, other: Id, force: bool, id: Id, m: Disk)
    requires id in d.snapshots && m in DeleteCheckpointRun(d, other, force).steps
    requires DeleteCheckpointRun(d, other, force).result != Ok(id)
    ensures EntryKept(d, m, id)
  {
    SnapshotsAreIndexed(d);
    hide Loaded, Removed, Resolution;
    if m in LoadSteps(d) {
      HeadMoveKeepsEntry(d, m, id);
    } else if m.index == Some(Loaded(d)) {
      ReindexedKeepsEntry(d, m, id, Loaded(d));
    } else {
      var c := Resolution(Loaded(d), Some(other), None).value;
      RemovedEntries(Loaded(d), c);
      ReindexedKeepsEntry(d, m, id, Removed(Loaded(d), c));
    }
  }

  lemma OpKeepsEntry(d: Disk, op: Op, id: Id, m: Disk)
    requires Inv(d) && Allowed(d, op) && !op.SaveStale? && !Erases(d, op, id)
    requires id in d.snapshots && m in Steps(d, op)
    ensures EntryKept(d, m, id)
  {
    hide Inv, RollbackRun, RecoverRun, CompleteRun, CreateCheckpointRun, DeleteCheckpointRun, EntryKept, OnlyHeadMoves, Loaded;
    match op
    case CreateCheckpoint(other, info) => CreateKeepsEntry(d, other, info, id, m);
    case DeleteCheckpoint(other, force) => DeleteKeepsEntry(d, other, force, id, m);
    case Rollback(a, token, fault) =>
      RollbackMovesHead(d, a, token, fault);
      HeadMoveKeepsEntry(d, m, id);
    case Recover(l) =>
      RecoverMovesHead(d, l);
      HeadMoveKeepsEntry(d, m, id);
    case Complete(rid) =>
      CompleteMovesNoHead(d, rid);
      HeadMoveKeepsEntry(d, m, id);
    case ReadIndex =>
      LoadMovesNoHead(d, d);
      HeadMoveKeepsEntry(d, m, id);
    case CreateSession =>
    case AgentWrites(tree) =>
      WritingMovesNoHead(d, tree);
      HeadMoveKeepsEntry(d, m, id);
  }

  lemma WritingMovesNoHead(d: Disk, tree: Tree)
    ensures OnlyHeadMoves(d, d.(current := Some(tree)))
  {
  }

  // ---------------------------------------------------------------- runs

  /** No call of the run deletes this checkpoint, and no stale index is saved. */
  ghost predicate Undisturbed(d: Disk, acts: seq<Action>, id: Id)
    decreases |acts|
  {
    acts == []
    || (&& !acts[0].op.SaveStale? && !Erases(d, acts[0].op, id)
        && Undisturbed(After(d, Happened(d, acts[0])), acts[1..], id))
  }

  lemma ActKeepsEntry(d: Disk, act: Action, id: Id, m: Disk)
    requires Inv(d) && Allowed(d, act.op) && !act.op.SaveStale? && !Erases(d, act.op, id)
    requires id in d.snapshots && (m in Happened(d, act) || m == After(d, Happened(d, act)))
    ensures EntryKept(d, m, id)
  {
    hide Inv, Allowed, Erases, Steps, EntryKept;
    if m in Happened(d, act) {
      OpKeepsEntry(d, act.op, id, m);
    } else {
      EntryIsKept(d, id);
    }
  }

  lemma ActKeepsInv(d: Disk, act: Action)
    requires Inv(d) && Allowed(d, act.op)
    ensures Inv(After(d, Happened(d, act)))
  {
    OpIsLawful(d, act.op);
    if act.cut < |Steps(d, act.op)| {
      LawfulPrefix(d, Steps(d, act.op), act.cut);
    }
    LawfulEnd(d, Happened(d, act));
  }

  /** In every state of every run, each call cut anywhere, up to the deletion of a checkpoint: its
      tree and its metadata are those it had. */
  lemma {:induction false} EntriesAreKept(d: Disk, acts: seq<Action>, id: Id, m: Disk)
    requires Inv(d) && Admissible(d, acts) && id in d.snapshots && Undisturbed(d, acts, id)
    requires m in Trace(d, acts)
    ensures EntryKept(d, m, id)
    decreases |acts|
  {
    var s := Happened(d, acts[0]);
    var e := After(d, s);
    hide Inv, Allowed, Happened, EntryKept, Erases;
    ActKeepsEntry(d, acts[0], id, e);
    if m in s {
      ActKeepsEntry(d, acts[0], id, m);
    } else {
      ActKeepsInv(d, acts[0]);
      assert id in e.snapshots by { KeptIsPresent(d, e, id); }
      EntriesAreKept(e, acts[1..], id, m);
      KeptAgain(d, e, m, id);
    }
  }

  lemma KeptIsPresent(d: Disk, m: Disk, id: Id)
    requires EntryKept(d, m, id)
    ensures id in m.snapshots
  {
  }

  /** So a checkpoint keeps the tree that was current and the metadata that was given when it was
      created. */
  lemma CreatedEntryIsKept(d: Disk, id: Id, info: Info, acts: seq<Action>, m: Disk)
    requires Inv(d) && CreateCheckpointRun(d, id, info).result.Ok?
    requires var e := After(d, CreateCheckpointRun(d, id, info).steps);
             Admissible(e, acts) && Undisturbed(e, acts, id) && m in Trace(e, acts)
    ensures d.current.Some? && id in m.snapshots && m.snapshots[id] == d.current.value
    ensures id in Loaded(m).cps && Loaded(m).cps[id].info == info && !Loaded(m).cps[id].missing
  {
    var e := After(d, CreateCheckpointRun(d, id, info).steps);
    CheckpointIsTaken(d, id, info);
    CreateIsLawful(d, id, info);
    LawfulEnd(d, CreateCheckpointRun(d, id, info).steps);
    hide CreateCheckpointRun, Inv, Loaded;
    EntriesAreKept(e, acts, id, m);
    SnapshotsAreIndexed(m);
  }

  /** A call that may cost a pinned checkpoint its place or its entry. */
  predicate Forces(act: Action) {
    act.op.SaveStale? || (act.op.DeleteCheckpoint? && act.op.force)
  }

  /** No call of the run is one of those. */
  predicate NobodyForces(acts: seq<Action>) {
    acts == [] || (!Forces(acts[0]) && NobodyForces(acts[1..]))
  }

  lemma PinnedIsNotErased(d: Disk, op: Op, id: Id)
    requires id in Loaded(d).cps && Loaded(d).cps[id].info.pinned && (op.DeleteCheckpoint? ==> !op.force)
    ensures !Erases(d, op, id)
  {
    hide Loaded, Resolution;
  }

  /** Over any run without a forced deletion, and whatever else it does, a pinned checkpoint stays:
      its tree, its metadata and the pin. */
  lemma {:induction false} PinnedIsKept(d: Disk, acts: seq<Action>, id: Id, m: Disk)
    requires Inv(d) && Admissible(d, acts) && NobodyForces(acts)
    requires id in d.snapshots && id in Loaded(d).cps && Loaded(d).cps[id].info.pinned
    requires m in Trace(d, acts)
    ensures EntryKept(d, m, id)
    decreases |acts|
  {
    PinnedIsUndisturbed(d, acts, id);
    hide Inv, Undisturbed, Loaded;
    EntriesAreKept(d, acts, id, m);
  }

  lemma PinIsKept(d: Disk, m: Disk, id: Id)
    requires EntryKept(d, m, id) && Loaded(d).cps[id].info.pinned
    ensures id in m.snapshots && id in Loaded(m).cps && Loaded(m).cps[id].info.pinned
  {
  }

  lemma {:induction false} PinnedIsUndisturbed(d: Disk, acts: seq<Action>, id: Id)
    requires Inv(d) && Admissible(d, acts) && NobodyForces(acts)
    requires id in d.snapshots && id in Loaded(d).cps && Loaded(d).cps[id].info.pinned
    ensures Undisturbed(d, acts, id)
    decreases |acts|
  {
    if acts != [] {
      hide Inv, Forces, Allowed, Happened, Erases, Loaded, After;
      var e := After(d, Happened(d, acts[0]));
      ActKeepsPin(d, acts[0], id);
      PinnedIsUndisturbed(e, acts[1..], id);
    }
  }

  lemma NoStaleSave(act: Action)
    requires !Forces(act)
    ensures !act.op.SaveStale? && (act.op.DeleteCheckpoint? ==> !act.op.force)
  {
  }

  lemma ActKeepsPin(d: Disk, act: Action, id: Id)
    requires Inv(d) && Allowed(d, act.op) && !Forces(act)
    requires id in d.snapshots && id in Loaded(d).cps && Loaded(d).cps[id].info.pinned
    ensures var e := After(d, Happened(d, act));
            && !act.op.SaveStale? && !Erases(d, act.op, id) && Inv(e)
            && id in e.snapshots && id in Loaded(e).cps && Loaded(e).cps[id].info.pinned
  {
    NoStaleSave(act);
    hide Inv, Forces, Allowed, Happened, Erases, Loaded, EntryKept;
    PinnedIsNotErased(d, act.op, id);
    ActKeepsEntry(d, act, id, After(d, Happened(d, act)));
    PinIsKept(d, After(d, Happened(d, act)), id);
    ActKeepsInv(d, act);
  }
}
