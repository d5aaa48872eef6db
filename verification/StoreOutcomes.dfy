/** What the calls of the store have done when they report success, and that they have done
    nothing when they raise. */
module StoreOutcomes {
  import opened Base
  import opened Lineage
  import opened LineageForest
  import opened SessionDisk
  import opened RollbackRecovery
  import opened RollbackAtomicity

  // ---------------------------------------------------------------- rollback

  /** The Session is at checkpoint `c`: its tree, scrubbed exactly when that was requested, and
      its head. A deferred rollback still has the old tree and says so in its journal; an
      immediate one has left nothing behind. */
  ghost predicate RolledBack(d: Disk, a: RollbackArgs, token: Token, c: Id, e: Disk) {
    && d.current.Some? && c in d.snapshots
    && e.current == Some(if a.scrub then d.snapshots[c].(runtime := []) else d.snapshots[c])
    && Head(e) == Some(c)
    && e.snapshots == d.snapshots && e.receipts == d.receipts && e.restores == map[]
    && if a.deferCleanup then
         && e.journal == Some(Transaction(Committed, c, token, a.scrub, a.recovery))
         && e.discards == map[token := d.current.value]
       else e.journal == None && e.discards == map[]
  }

  /** Nothing changed but, at most, the index file, and that in a way no reader sees. */
  ghost predicate Untouched(d: Disk, e: Disk) {
    e == d.(index := e.index) && Loaded(e) == Loaded(d)
  }

  lemma SwappedIn(d: Disk, t: Transaction)
    requires Ready(d, t)
    ensures var p := Promoted(Journaled(OldMovedAway(d, t), t, OldMoved), t);
            && p == d.(current := Some(d.snapshots[t.checkpoint]), restores := map[],
                       discards := map[t.token := d.current.value], journal := Some(t.(phase := OldMoved)))
  {
    var p := Promoted(Journaled(OldMovedAway(d, t), t, OldMoved), t);
    assert p.restores == map[];
    assert p.discards == map[t.token := d.current.value];
  }

  /** The last disk of a swap in which nothing fails. */
  lemma SwapEnds(d: Disk, t: Transaction)
    requires Ready(d, t)
    ensures var e := After(d, SwapSteps(d, t, Loaded(d), NoFault));
            var snapshot := d.snapshots[t.checkpoint];
            && e == d.(current := Some(if t.scrub then snapshot.(runtime := []) else snapshot),
                       restores := map[], discards := if t.Deferred() then map[t.token := d.current.value] else map[],
                       journal := if t.Deferred() then Some(t.(phase := Committed)) else None,
                       index := Some(Moved(Loaded(d), t.checkpoint)))
  {
    SwappedIn(d, t);
    hide Loaded, Moved, Opening, RequestedScrub;
    var p := Promoted(Journaled(OldMovedAway(d, t), t, OldMoved), t);
    if !t.Deferred() {
      assert map[t.token := d.current.value] - {t.token} == map[];
    }
  }

  /** The last disk of a swap in which the snapshot or the second rename fails. */
  lemma FailedSwapEnds(d: Disk, t: Transaction, fault: Fault)
    requires Ready(d, t) && !fault.NoFault?
    ensures After(d, SwapSteps(d, t, Loaded(d), fault)) == d
  {
    hide Loaded, Opening;
    assert d.journal == None;
    var e := After(d, SwapSteps(d, t, Loaded(d), fault));
    assert e.restores == d.restores && e.discards == d.discards;
  }

  lemma NewHead(d: Disk, e: Disk, c: Id)
    requires c in d.snapshots && e.snapshots == d.snapshots && e.index == Some(Moved(Loaded(d), c))
    ensures Head(e) == Some(c)
  {
    ExactResolves(d, c);
    hide Moved;
    assert Loaded(e) == Loaded(WithIndex(d, Moved(Loaded(d), c)));
  }

  lemma SwapRollsBack(d: Disk, a: RollbackArgs, token: Token, d0: Disk, t: Transaction)
    requires Ready(d0, t) && t == Transaction(Preparing, t.checkpoint, token, a.scrub, a.recovery)
    requires a.deferCleanup <==> a.recovery.Some?
    requires d0 == d.(index := d0.index) && Loaded(d0) == Loaded(d)
    ensures RolledBack(d, a, token, t.checkpoint, After(d0, SwapSteps(d0, t, Loaded(d), NoFault)))
  {
    SwapEnds(d0, t);
    var e := After(d0, SwapSteps(d0, t, Loaded(d), NoFault));
    hide SwapSteps, Loaded, Moved;
    NewHead(d0, e, t.checkpoint);
  }

  lemma SwappedOutcome(d: Disk, a: RollbackArgs, token: Token, fault: Fault)
    requires Inv(d) && Refusal(d, a).None? && Target(d, Loaded(d), a).Ok?
    ensures var t := NewTransaction(a, Target(d, Loaded(d), a).value, token);
            AfterLoad(d).current.Some? && t.checkpoint in AfterLoad(d).snapshots
    ensures var t := NewTransaction(a, Target(d, Loaded(d), a).value, token);
            var e := After(AfterLoad(d), SwapSteps(AfterLoad(d), t, Loaded(d), fault));
            if fault.NoFault? then RolledBack(d, a, token, t.checkpoint, e) else Untouched(d, e)
  {
    LoadedIsReady(d, a, token);
    var t := NewTransaction(a, Target(d, Loaded(d), a).value, token);
    hide Inv, SwapSteps, Loaded, Target, RolledBack;
    if fault.NoFault? {
      SwapRollsBack(d, a, token, AfterLoad(d), t);
    } else {
      FailedSwapEnds(AfterLoad(d), t, fault);
    }
  }

  // When a rollback succeeds, in terms of the arguments and of what is on disk.

  predicate ArgumentsInOrder(a: RollbackArgs) {
    && (a.checkpoint.Some? ==> ValidId(a.checkpoint.value)) && (a.recovery.Some? ==> ValidId(a.recovery.value))
    && (a.deferCleanup <==> a.recovery.Some?)
    && (if a.checkpoint.Some? then a.numAncestors.None? else a.numAncestors.Some? && !a.deferCleanup)
  }

  /** `c` is the present checkpoint with this id or, failing that, the only one it is a prefix of. */
  ghost predicate IsNamed(d: Disk, wanted: Id, c: Id) {
    && c in d.snapshots
    && (|| c == wanted
        || (wanted !in d.snapshots && wanted <= c && forall x :: x in d.snapshots && wanted <= x ==> x == c))
  }

  lemma IdIsNamed(d: Disk, wanted: Id, c: Id)
    ensures Resolution(Loaded(d), Some(wanted), None) == Ok(c) <==> IsNamed(d, wanted, c)
    ensures IsNamed(d, wanted, c) ==> c in Loaded(d).cps
  {
    SnapshotsAreIndexed(d);
    hide Loaded;
    var matches := PrefixMatches(Loaded(d), wanted);
    ResolvedIdIsPresent(Loaded(d), wanted);
    assert forall x :: x in matches <==> x in d.snapshots && wanted <= x;
    if Resolution(Loaded(d), Some(wanted), None) == Ok(c) && c != wanted {
      forall x | x in d.snapshots && wanted <= x ensures x == c {
        assert x in matches;
      }
    }
    if IsNamed(d, wanted, c) && c != wanted {
      assert matches == {c};
      assert exists x :: matches == {x};
    }
  }

  /** `c` is a present checkpoint and the one the arguments name: by id, which a deferred
      rollback demands in full, or by its place on the head's ancestor chain. */
  ghost predicate Names(d: Disk, a: RollbackArgs, c: Id) {
    if a.checkpoint.Some? then
      IsNamed(d, a.checkpoint.value, c) && (a.deferCleanup ==> c == a.checkpoint.value)
    else
      && c in d.snapshots && a.numAncestors.Some? && a.numAncestors.value >= 1 && Head(d).Some?
      && Ancestor(Loaded(d), Head(d).value, a.numAncestors.value - 1) == Some(c)
  }

  lemma TargetIsNamed(d: Disk, a: RollbackArgs, c: Id)
    requires ArgumentsInOrder(a) && d.current.Some?
    ensures Target(d, Loaded(d), a) == Ok(c) <==> Names(d, a, c)
  {
    hide Loaded;
    if a.checkpoint.Some? {
      IdIsNamed(d, a.checkpoint.value, c);
      hide Resolution, IsNamed;
      if Resolution(Loaded(d), a.checkpoint, None).Ok? {
        IdIsPresent(d, a.checkpoint.value);
      }
    }
  }

  lemma IdIsPresent(d: Disk, wanted: Id)
    ensures var r := Resolution(Loaded(d), Some(wanted), None); r.Ok? ==> r.value in d.snapshots && r.value in Loaded(d).cps
  {
    ResolvedIdIsPresent(Loaded(d), wanted);
    SnapshotsAreIndexed(d);
    hide Loaded;
  }

  lemma RollbackOutcome(d: Disk, a: RollbackArgs, token: Token, fault: Fault)
    requires Inv(d)
    ensures var run := RollbackRun(d, a, token, fault);
            var e := After(d, run.steps);
            var target := Target(d, Loaded(d), a);
            && (run.result.Ok? <==> Refusal(d, a).None? && target.Ok? && fault.NoFault?)
            && (run.result.Ok? ==> run.result == Ok(target.value) && RolledBack(d, a, token, target.value, e))
            && (run.result.Err? ==> Untouched(d, e))
  {
    AfterLoadSteps(d);
    assert Loaded(AfterLoad(d)) == Loaded(d) by { LoadingIsIdempotent(d); }
    if Refusal(d, a).None? && Target(d, Loaded(d), a).Ok? {
      var t := NewTransaction(a, Target(d, Loaded(d), a).value, token);
      SwappedOutcome(d, a, token, fault);
      hide Inv, SwapSteps, Loaded, LoadSteps, Target, Refusal, RolledBack, AfterLoad;
      AfterConcat(d, LoadSteps(d), SwapSteps(AfterLoad(d), t, Loaded(d), fault));
    }
    hide SwapSteps, Loaded, LoadSteps, Target, RolledBack;
  }

  /** A rollback succeeds exactly when its arguments are in order and name a checkpoint, no
      rollback is unfinished, the recovery id is new, and neither the snapshot nor a rename
      fails. Then the Session is at the checkpoint that was named; when it raises, it has
      changed nothing. */
  lemma RollbackRollsBack(d: Disk, a: RollbackArgs, token: Token, fault: Fault, c: Id)
    requires Inv(d)
    ensures var run := RollbackRun(d, a, token, fault);
            var e := After(d, run.steps);
            && (run.result == Ok(c) <==>
                  && ArgumentsInOrder(a) && Names(d, a, c) && fault.NoFault?
                  && d.journal.None? && (a.recovery.Some? ==> a.recovery.value !in d.receipts))
            && (run.result == Ok(c) ==> RolledBack(d, a, token, c, e))
            && (run.result.Err? ==> Untouched(d, e))
  {
    RollbackOutcome(d, a, token, fault);
    if Refusal(d, a).None? {
      assert d.current.Some?;
      hide Names, Target;
      if ArgumentsInOrder(a) {
        TargetIsNamed(d, a, c);
      } else {
        NotInOrder(d, a);
      }
    }
    hide RollbackRun, Inv, Loaded, RolledBack, Names, Target;
  }

  /** Naming a checkpoint twice or not at all is only noticed when it is resolved. */
  lemma NotInOrder(d: Disk, a: RollbackArgs)
    requires ArgumentError(a).None? && !ArgumentsInOrder(a)
    ensures Target(d, Loaded(d), a).Err?
  {
    hide Loaded;
  }

  // ---------------------------------------------------------------- completing a deferred rollback

  /** The cleanup of the journal's rollback is over: its receipt is completed, the tree it
      discarded and the journal are gone, and everything else is as it was. */
  ghost predicate CleanedUpAs(d: Disk, e: Disk, rid: RecoveryId) {
    && d.journal.Some? && d.journal.value.recovery == Some(rid)
    && e.journal.None? && e.discards == map[]
    && e.receipts == d.receipts[rid := Receipt(d.journal.value.checkpoint, d.journal.value.token, true)]
    && e.current == d.current && e.restores == d.restores && e.snapshots == d.snapshots && Loaded(e) == Loaded(d)
  }

  lemma CleanupEnds(d: Disk, t: Transaction, r: Receipt)
    requires t.Deferred()
    ensures After(d, CleanupSteps(d, t, r))
         == Cleared(WithReceipt(WithoutDiscard(d, t.token), t.recovery.value, r.(completed := true)))
  {
    AfterDropDiscard(d, t.token);
  }

  lemma StartedCleanupEnds(d: Disk, rid: RecoveryId)
    requires d.journal.Some? && d.journal.value.recovery == Some(rid) && d.discards.Keys <= {d.journal.value.token}
    requires rid in d.receipts && d.receipts[rid].checkpoint == d.journal.value.checkpoint
    requires d.receipts[rid].discard == d.journal.value.token
    ensures CleanedUpAs(d, After(d, LoadSteps(d) + CleanupSteps(AfterLoad(d), d.journal.value, d.receipts[rid])), rid)
  {
    var t := d.journal.value;
    CleanupEnds(AfterLoad(d), t, d.receipts[rid]);
    LoadingIsIdempotent(d);
    AfterLoadSteps(d);
    AfterConcat(d, LoadSteps(d), CleanupSteps(AfterLoad(d), t, d.receipts[rid]));
    assert d.discards - {t.token} == map[];
    hide LoadSteps, CleanupSteps;
  }

  lemma FreshCleanupEnds(d: Disk, rid: RecoveryId)
    requires d.journal.Some? && d.journal.value.recovery == Some(rid) && d.discards.Keys <= {d.journal.value.token}
    requires rid !in d.receipts
    ensures var t := d.journal.value;
            var d1 := WithReceipt(AfterLoad(d), rid, NewReceipt(t));
            CleanedUpAs(d, After(d, LoadSteps(d) + [d1] + CleanupSteps(d1, t, NewReceipt(t))), rid)
  {
    var t := d.journal.value;
    var d1 := WithReceipt(AfterLoad(d), rid, NewReceipt(t));
    CleanupEnds(d1, t, NewReceipt(t));
    LoadingIsIdempotent(d);
    AfterConcat(d, LoadSteps(d) + [d1], CleanupSteps(d1, t, NewReceipt(t)));
    assert d.discards - {t.token} == map[];
    hide LoadSteps, CleanupSteps;
  }

  /** Completing a deferred rollback succeeds exactly when it is committed and its checkpoint is
      the head, or when it has been completed before; only the latter is reported as already
      completed. In the first case the cleanup is over afterwards. In the second, as when the
      call raises, nothing has changed. */
  lemma CompletionCompletes(d: Disk, rid: RecoveryId)
    requires Inv(d)
    ensures var run := CompleteRun(d, rid);
            var e := After(d, run.steps);
            && (run.result == Ok(false) <==>
                  && d.journal.Some? && d.journal.value.recovery == Some(rid) && d.journal.value.phase.Committed?
                  && Head(d) == Some(d.journal.value.checkpoint))
            && (run.result == Ok(true) <==> ValidId(rid) && d.journal.None? && rid in d.receipts && d.receipts[rid].completed)
            && (run.result == Ok(false) ==> CleanedUpAs(d, e, rid))
            && (run.result != Ok(false) ==> Untouched(d, e))
  {
    AfterLoadSteps(d);
    LoadingIsIdempotent(d);
    if CompleteRun(d, rid).result == Ok(false) {
      if rid in d.receipts {
        StartedCleanupEnds(d, rid);
      } else {
        FreshCleanupEnds(d, rid);
      }
    }
    hide Loaded, CleanupSteps, LoadSteps, CleanedUpAs;
  }

  // ---------------------------------------------------------------- checkpoints

  /** Creating a Session succeeds exactly if it has no current tree; then it has an empty one, no
      head, and nothing else has changed. */
  lemma SessionIsCreated(d: Disk)
    ensures var run := CreateSessionRun(d);
            var e := After(d, run.steps);
            && (run.result.Ok? <==> d.current.None?)
            && (run.result.Ok? ==>
                  e == d.(current := Some(Tree("", [])), index := e.index) && Head(e) == None && Loaded(e).cps.Keys == d.snapshots.Keys)
            && (run.result.Err? ==> e == d)
  {
  }

  /** Entries of an index keep their metadata, whatever happens to their neighbours. */
  predicate SameInfo(ix: Index, jx: Index) {
    forall x :: x in ix.cps && x in jx.cps ==> jx.cps[x].info == ix.cps[x].info
  }

  /** Reconciling keeps every entry with its metadata and parent, marks it missing exactly if its
      snapshot is, and adds the snapshots it finds as roots. */
  lemma ReconciledEntries(ix: Index, actual: set<Id>)
    ensures var jx := Reconciled(ix, actual);
            && jx.cps.Keys == ix.cps.Keys + actual && SameInfo(ix, jx)
            && (forall x :: x in ix.cps ==> jx.cps[x].parent == ix.cps[x].parent && jx.cps[x].missing == (x !in actual))
            && (forall x :: x in actual && x !in ix.cps ==>
                  jx.cps[x].parent == None && jx.cps[x].children == [] && !jx.cps[x].missing)
            && jx.head == (if ix.head.Some? && ix.head.value in actual then ix.head else None)
  {
  }

  lemma AddedEntries(ix: Index, id: Id, info: Info)
    requires id !in ix.cps
    ensures var jx := Added(ix, id, info);
            && jx.cps.Keys == ix.cps.Keys + {id} && SameInfo(ix, jx) && jx.head == Some(id)
            && jx.cps[id].info == info && jx.cps[id].parent == ix.head
  {
    hide Without;
  }

  lemma MovedEntries(ix: Index, id: Id)
    ensures Moved(ix, id).cps.Keys == ix.cps.Keys && SameInfo(ix, Moved(ix, id))
  {
    hide Without;
  }

  lemma RemovedEntries(ix: Index, c: Id)
    ensures Removed(ix, c).cps.Keys == ix.cps.Keys - {c} && SameInfo(ix, Removed(ix, c))
  {
    hide Without, Merged;
  }

  /** A checkpoint can be created exactly under a new valid id. It then holds a copy of the
      current tree, is indexed with the given metadata under the old head, and is the head. */
  lemma CheckpointIsTaken(d: Disk, id: Id, info: Info)
    requires Inv(d)
    ensures var run := CreateCheckpointRun(d, id, info);
            var e := After(d, run.steps);
            && (run.result.Ok? <==> ValidId(id) && d.current.Some? && id !in d.snapshots && id !in Loaded(d).cps)
            && (run.result.Ok? ==>
                  && e == d.(snapshots := d.snapshots[id := d.current.value], index := e.index)
                  && Loaded(e).cps.Keys == Loaded(d).cps.Keys + {id} && Head(e) == Some(id)
                  && Loaded(e).cps[id].info == info && Loaded(e).cps[id].parent == Head(d)
                  && SameInfo(Loaded(d), Loaded(e)))
            && (run.result.Err? ==> Untouched(d, e))
  {
    AfterLoadSteps(d);
    LoadingIsIdempotent(d);
    var run := CreateCheckpointRun(d, id, info);
    hide LoadSteps, Inv, Reconciled, Added;
    if run.result.Ok? {
      var e := After(d, run.steps);
      AddedEntries(Loaded(d), id, info);
      ReconciledEntries(Added(Loaded(d), id, info), e.snapshots.Keys);
      SnapshotsAreIndexed(d);
      assert Loaded(e) == Reconciled(Added(Loaded(d), id, info), e.snapshots.Keys);
    }
  }

  lemma ErasedEntries(d: Disk, c: Id)
    requires c in d.snapshots
    ensures var e := AfterLoad(d).(snapshots := d.snapshots - {c}, index := Some(Removed(Loaded(d), c)));
            && After(AfterLoad(d), EraseSteps(AfterLoad(d), Loaded(d), c)) == e
            && Loaded(e).cps.Keys == Loaded(d).cps.Keys - {c} && SameInfo(Loaded(d), Loaded(e))
  {
    var e := AfterLoad(d).(snapshots := d.snapshots - {c}, index := Some(Removed(Loaded(d), c)));
    SnapshotsAreIndexed(d);
    RemovedEntries(Loaded(d), c);
    hide Reconciled, Removed;
    ReconciledEntries(Removed(Loaded(d), c), e.snapshots.Keys);
    assert Loaded(e) == Reconciled(Removed(Loaded(d), c), e.snapshots.Keys);
  }

  /** A checkpoint is deleted exactly when the id names it, and it is not pinned or the call is
      forced. Its snapshot and its entry are then gone and all others are as they were. */
  lemma CheckpointIsDeleted(d: Disk, id: Id, force: bool, c: Id)
    requires Inv(d)
    ensures var run := DeleteCheckpointRun(d, id, force);
            var e := After(d, run.steps);
            && (run.result == Ok(c) <==>
                  ValidId(id) && IsNamed(d, id, c) && c in Loaded(d).cps && (Loaded(d).cps[c].info.pinned ==> force))
            && (run.result == Ok(c) ==>
                  && e == d.(snapshots := d.snapshots - {c}, index := e.index)
                  && Loaded(e).cps.Keys == Loaded(d).cps.Keys - {c} && SameInfo(Loaded(d), Loaded(e)))
            && (run.result.Err? ==> Untouched(d, e))
  {
    AfterLoadSteps(d);
    LoadingIsIdempotent(d);
    hide Inv, Loaded, LoadSteps, EraseSteps, Resolution, IsNamed, SameInfo;
    var run := DeleteCheckpointRun(d, id, force);
    var r := Resolution(Loaded(d), Some(id), None);
    if ValidId(id) {
      IdIsNamed(d, id, c);
      if r.Ok? {
        IdIsPresent(d, id);
        ErasedEntries(d, r.value);
        AfterConcat(d, LoadSteps(d), EraseSteps(AfterLoad(d), Loaded(d), r.value));
      }
    }
  }
}
