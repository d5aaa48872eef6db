/** The store operations on one Session, under its lock. `log` records the disk after every
    step, so each contract says which steps an operation takes, in which order, and what it
    returns or raises at the end. */
module SessionStore {
  import opened Base
  import opened Lineage
  import LineageForest
  import opened SessionDisk

  class Store {
    var current: Option<Tree>
    var restores: map<Token, Tree>
    var discards: map<Token, Tree>
    var snapshots: map<Id, Tree>
    var journal: Option<Transaction>
    var indexFile: Option<Index>
    var receipts: map<RecoveryId, Receipt>
    ghost var log: seq<Disk>

    function Now(): Disk
      reads this
    {
      Disk(current, restores, discards, snapshots, journal, indexFile, receipts)
    }

    // -------------------------------------------------------------- single steps

    method WriteTransaction(t: Transaction)
      modifies this`journal, this`log
      ensures Now() == old(Now()).(journal := Some(t)) && log == old(log) + [Now()]
    {
      journal := Some(t);
      log := log + [Now()];
    }

    method ClearTransaction()
      modifies this`journal, this`log
      ensures Now() == Cleared(old(Now())) && log == old(log) + [Now()]
    {
      journal := None;
      log := log + [Now()];
    }

    method SaveIndex(ix: Index)
      modifies this`indexFile, this`log
      ensures Now() == WithIndex(old(Now()), ix) && log == old(log) + [Now()]
    {
      indexFile := Some(ix);
      log := log + [Now()];
    }

    method WriteReceipt(rid: RecoveryId, r: Receipt)
      modifies this`receipts, this`log
      ensures Now() == WithReceipt(old(Now()), rid, r) && log == old(log) + [Now()]
    {
      receipts := receipts[rid := r];
      log := log + [Now()];
    }

    method DeleteDiscardIfPresent(token: Token)
      modifies this`discards, this`log
      ensures Now() == WithoutDiscard(old(Now()), token)
      ensures log == old(log) + DropDiscard(old(Now()), token)
    {
      if token in discards {
        discards := discards - {token};
        log := log + [Now()];
      } else {
        assert discards - {token} == discards;
      }
    }

    method DeleteRestoreIfPresent(token: Token)
      modifies this`restores, this`log
      ensures Now() == WithoutRestore(old(Now()), token)
      ensures log == old(log) + DropRestore(old(Now()), token)
    {
      if token in restores {
        restores := restores - {token};
        log := log + [Now()];
      } else {
        assert restores - {token} == restores;
      }
    }

    method RenameDiscardToCurrent(token: Token)
      requires token in discards
      modifies this`current, this`discards, this`log
      ensures Now() == PutBack(old(Now()), token) && log == old(log) + [Now()]
    {
      current, discards := Some(discards[token]), discards - {token};
      log := log + [Now()];
    }

    method RenameRestoreToCurrent(t: Transaction)
      requires t.token in restores
      modifies this`current, this`restores, this`log
      ensures Now() == Promoted(old(Now()), t) && log == old(log) + [Now()]
    {
      current, restores := Some(restores[t.token]), restores - {t.token};
      log := log + [Now()];
    }

    // -------------------------------------------------------------- index and scrub

    /** Reads the index file, reconciles it with the snapshots and saves it if that changed it. */
    method LoadIndex() returns (index: CheckpointIndex)
      modifies this`indexFile, this`log
      ensures fresh(index) && index.View() == Loaded(old(Now()))
      ensures Now() == AfterLoad(old(Now()))
      ensures log == old(log) + LoadSteps(old(Now()))
    {
      index := new CheckpointIndex(if indexFile.Some? then indexFile.value else EMPTY_INDEX);
      var changed := index.Reconcile(snapshots.Keys);
      if changed || indexFile.None? {
        SaveIndex(index.View());
      }
    }

    /** Unlinks every socket and FIFO below `.allox-tmp` and reports them in walk order. */
    method ScrubRuntimeEntries() returns (removed: seq<string>)
      requires current.Some?
      modifies this`current, this`log
      ensures removed == old(current.value.runtime)
      ensures Now() == WithRuntime(old(Now()), [])
      ensures log == old(log) + ScrubSteps(old(Now()))
    {
      removed := [];
      ghost var was := Now();
      while current.value.runtime != []
        invariant current.Some? && Now() == WithRuntime(was, current.value.runtime)
        invariant removed + current.value.runtime == was.current.value.runtime
        invariant log + ScrubSteps(Now()) == old(log) + ScrubSteps(was)
        decreases |current.value.runtime|
      {
        ghost var before := Now();
        removed := removed + [current.value.runtime[0]];
        current := Some(current.value.(runtime := current.value.runtime[1..]));
        assert ScrubSteps(before) == [Now()] + ScrubSteps(Now());
        log := log + [Now()];
      }
    }

    method ScrubIfRequested(scrub: bool) returns (removed: seq<string>)
      requires current.Some?
      modifies this`current, this`log
      ensures removed == if scrub then old(current.value.runtime) else []
      ensures Now() == AfterScrub(old(Now()), scrub)
      ensures log == old(log) + RequestedScrub(old(Now()), scrub)
    {
      if scrub {
        removed := ScrubRuntimeEntries();
      } else {
        removed := [];
      }
    }

    // -------------------------------------------------------------- checkpoints

    method CreateCheckpoint(id: Id, info: Info) returns (r: Result<(), StoreError>)
      modifies this
      ensures var run := CreateCheckpointRun(old(Now()), id, info);
              r == run.result && log == old(log) + run.steps && Now() == After(old(Now()), run.steps)
    {
      if !ValidId(id) {
        return Err(InvalidId);
      }
      if current.None? {
        return Err(NoSession);
      }
      if id in snapshots {
        return Err(CheckpointExists);
      }
      var index := LoadIndex();
      var added := index.Add(id, info);
      if added.Err? {
        return Err(LineageError(added.error));
      }
      snapshots := snapshots[id := current.value];
      log := log + [Now()];
      SaveIndex(index.View());
      r := Ok(());
    }

    method DeleteCheckpoint(id: Id, force: bool) returns (r: Result<Id, StoreError>)
      modifies this
      ensures var run := DeleteCheckpointRun(old(Now()), id, force);
              r == run.result && log == old(log) + run.steps && Now() == After(old(Now()), run.steps)
    {
      if !ValidId(id) {
        return Err(InvalidId);
      }
      hide Resolution, Removed, LoadSteps, ValidId;
      ghost var was := Now();
      AfterLoadSteps(was);
      var index := LoadIndex();
      var resolved := index.Resolve(Some(id), None);
      if resolved.Err? {
        return Err(LineageError(resolved.error));
      }
      var c := resolved.value;
      if c in index.checkpoints && index.checkpoints[c].info.pinned && !force {
        return Err(Pinned);
      }
      if c !in snapshots {
        return Err(CheckpointMissing);
      }
      Compose(old(log), was, LoadSteps(was), EraseSteps(Now(), Loaded(was), c));
      Erase(c, index);
      r := Ok(c);
    }

    method Erase(c: Id, index: CheckpointIndex)
      modifies this`snapshots, this`indexFile, this`log, index
      ensures var steps := EraseSteps(old(Now()), old(index.View()), c);
              log == old(log) + steps && Now() == After(old(Now()), steps)
    {
      snapshots := snapshots - {c};
      log := log + [Now()];
      index.Remove(c);
      SaveIndex(index.View());
    }

    // -------------------------------------------------------------- rollback

    method Rollback(a: RollbackArgs, token: Token, fault: Fault) returns (r: Result<Id, StoreError>)
      modifies this
      ensures var run := RollbackRun(old(Now()), a, token, fault);
              r == run.result && log == old(log) + run.steps && Now() == After(old(Now()), run.steps)
    {
      var refusal := Refusal(Now(), a);
      if refusal.Some? {
        return Err(refusal.value);
      }
      hide LoadSteps, SwapSteps, SwapResult, Refusal, Loaded, AfterLoad, Target;
      TargetIsThere(Now(), a);
      AfterLoadSteps(Now());
      ghost var was := Now();
      var index := LoadIndex();
      var target := ChooseTarget(a, index);
      if target.Err? {
        return Err(target.error);
      }
      var t := NewTransaction(a, target.value, token);
      Compose(old(log), was, LoadSteps(was), SwapSteps(Now(), t, Loaded(was), fault));
      r := Swap(t, index, fault);
    }

    method ChooseTarget(a: RollbackArgs, index: CheckpointIndex) returns (r: Result<Id, StoreError>)
      ensures r == Target(Now(), index.View(), a)
    {
      var resolved := index.Resolve(a.checkpoint, a.numAncestors);
      if resolved.Err? {
        return Err(LineageError(resolved.error));
      }
      if a.deferCleanup && a.checkpoint != Some(resolved.value) {
        return Err(NotExactId);
      }
      if resolved.value !in snapshots {
        return Err(CheckpointMissing);
      }
      if current.None? {
        return Err(NoSession);
      }
      r := Ok(resolved.value);
    }

    method Swap(t: Transaction, index: CheckpointIndex, fault: Fault) returns (r: Result<Id, StoreError>)
      requires current.Some? && t.checkpoint in snapshots && t.checkpoint in index.checkpoints
      modifies this, index
      ensures var steps := SwapSteps(old(Now()), t, old(index.View()), fault);
              log == old(log) + steps && Now() == After(old(Now()), steps)
      ensures r == SwapResult(t, fault)
    {
      if fault.SnapshotFails? {
        FailSnapshot(t, fault.leftTree);
        return Err(SnapshotFailed);
      }
      OpenSwap(t);
      if fault.RenameFails? {
        RenameDiscardToCurrent(t.token);
        DeleteRestoreIfPresent(t.token);
        ClearTransaction();
        return Err(RenameFailed);
      }
      RenameRestoreToCurrent(t);
      CloseSwap(t, index);
      r := Ok(t.checkpoint);
    }

    /** The writable snapshot raised: drop whatever it left and forget the rollback. */
    method FailSnapshot(t: Transaction, leftTree: bool)
      requires current.Some? && t.checkpoint in snapshots
      modifies this
      ensures var steps := SwapSteps(old(Now()), t, EMPTY_INDEX, SnapshotFails(leftTree));
              log == old(log) + steps && Now() == After(old(Now()), steps)
    {
      WriteTransaction(t.(phase := Preparing));
      if leftTree {
        restores := restores[t.token := snapshots[t.checkpoint]];
        log := log + [Now()];
        DeleteRestoreIfPresent(t.token);
      }
      ClearTransaction();
    }

    method OpenSwap(t: Transaction)
      requires current.Some? && t.checkpoint in snapshots
      modifies this
      ensures log == old(log) + Opening(old(Now()), t)
      ensures Now() == Journaled(OldMovedAway(old(Now()), t), t, OldMoved)
    {
      WriteTransaction(t.(phase := Preparing));
      restores := restores[t.token := snapshots[t.checkpoint]];
      log := log + [Now()];
      WriteTransaction(t.(phase := Prepared));
      discards, current := discards[t.token := current.value], None;
      log := log + [Now()];
      WriteTransaction(t.(phase := OldMoved));
    }

    method CloseSwap(t: Transaction, index: CheckpointIndex)
      requires current.Some? && t.checkpoint in index.checkpoints && t.token in discards
      modifies this, index
      ensures var steps := ClosingSteps(old(Now()), t, old(index.View()));
              log == old(log) + steps && Now() == After(old(Now()), steps)
    {
      if t.Deferred() {
        CloseDeferred(t, index);
      } else {
        CloseImmediate(t, index);
      }
    }

    method CloseDeferred(t: Transaction, index: CheckpointIndex)
      requires current.Some? && t.checkpoint in index.checkpoints && t.Deferred()
      modifies this, index
      ensures var steps := ClosingSteps(old(Now()), t, old(index.View()));
              log == old(log) + steps && Now() == After(old(Now()), steps)
    {
      hide RequestedScrub, AfterScrub, Moved;
      var removed := ScrubIfRequested(t.scrub);
      var moved := index.MoveHead(t.checkpoint);
      SaveIndex(index.View());
      WriteTransaction(t.(phase := Committed));
    }

    method CloseImmediate(t: Transaction, index: CheckpointIndex)
      requires current.Some? && t.checkpoint in index.checkpoints && !t.Deferred() && t.token in discards
      modifies this, index
      ensures var steps := ClosingSteps(old(Now()), t, old(index.View()));
              log == old(log) + steps && Now() == After(old(Now()), steps)
    {
      hide RequestedScrub, ForgetSteps;
      ghost var was := Now();
      WriteTransaction(t.(phase := Committed));
      ghost var committed := Now();
      AfterRequestedScrub(committed, t.scrub);
      Compose(old(log), was, [committed], RequestedScrub(committed, t.scrub));
      var removed := ScrubIfRequested(t.scrub);
      Compose(old(log), was, [committed] + RequestedScrub(committed, t.scrub), ForgetSteps(Now(), t, index.View()));
      ForgetRollback(t, index);
    }

    method ForgetRollback(t: Transaction, index: CheckpointIndex)
      requires t.token in discards && t.checkpoint in index.checkpoints
      modifies this, index
      ensures var steps := ForgetSteps(old(Now()), t, old(index.View()));
              log == old(log) + steps && Now() == After(old(Now()), steps)
    {
      hide Moved;
      DeleteDiscardIfPresent(t.token);
      var moved := index.MoveHead(t.checkpoint);
      SaveIndex(index.View());
      ClearTransaction();
    }

    // -------------------------------------------------------------- recovery

    method Recover(listing: Listing) returns (r: Result<bool, StoreError>)
      requires Lists(listing, Now())
      modifies this
      ensures var run := RecoverRun(old(Now()), listing);
              r == run.result && log == old(log) + run.steps && Now() == After(old(Now()), run.steps)
    {
      if journal.None? {
        r := RecoverOrphan(listing);
        return;
      }
      var t := journal.value;
      if t.Deferred() && t.phase.Committed? && current.Some? {
        r := RecoverPendingCleanup(t);
        return;
      }
      r := RecoverSwap(t);
    }

    method RecoverSwap(t: Transaction) returns (r: Result<bool, StoreError>)
      modifies this
      ensures var run := SettleRun(old(Now()), t);
              r == run.result && log == old(log) + run.steps && Now() == After(old(Now()), run.steps)
    {
      hide DecidedRun, PutBack, Promoted;
      ghost var was := Now();
      var settled := SettleCurrent(t);
      if settled.Err? {
        return Err(settled.error);
      }
      Compose(old(log), was, Settled(was, t).value.steps, DecidedRun(Now(), t, settled.value).steps);
      r := CarryOut(t, settled.value);
    }

    method CarryOut(t: Transaction, commit: bool) returns (r: Result<bool, StoreError>)
      requires current.Some?
      modifies this
      ensures var run := DecidedRun(old(Now()), t, commit);
              r == run.result && log == old(log) + run.steps && Now() == After(old(Now()), run.steps)
    {
      if t.Deferred() && commit {
        r := ConfirmDeferred(t);
      } else {
        r := DropStaging(t, commit);
      }
    }

    /** Makes sure there is a current tree; the value says whether the rollback happened. */
    method SettleCurrent(t: Transaction) returns (r: Result<bool, StoreError>)
      modifies this
      ensures match Settled(old(Now()), t)
        case Err(e) => r == Err(e) && Now() == old(Now()) && log == old(log)
        case Ok(s) => r == Ok(s.commit) && log == old(log) + s.steps
                      && Now() == s.disk == After(old(Now()), s.steps)
    {
      var commit := current.Some? && (t.phase.OldMoved? || t.phase.Committed?);
      if current.None? {
        if !t.phase.Preparing? && t.token in restores {
          RenameRestoreToCurrent(t);
          commit := true;
        } else if t.token in discards {
          RenameDiscardToCurrent(t.token);
          commit := false;
        } else {
          return Err(NoCurrentWorkspace);
        }
      }
      r := Ok(commit);
    }

    method RecoverOrphan(listing: Listing) returns (r: Result<bool, StoreError>)
      requires Lists(listing, Now())
      modifies this
      ensures var run := OrphanRun(old(Now()), listing);
              r == run.result && log == old(log) + run.steps && Now() == After(old(Now()), run.steps)
    {
      if listing.restores == [] && listing.discards == [] {
        return Ok(false);
      }
      hide DropAllRestores, DropAllDiscards;
      ghost var was, l0 := Now(), log;
      var left := listing.discards;
      if current.None? {
        if |listing.discards| != 1 {
          return Err(OrphanRollback);
        }
        assert listing.discards[0] in discards;
        RenameDiscardToCurrent(listing.discards[0]);
        left := [];
      }
      ghost var s1 := if was.current.None? then [Now()] else [];
      assert log == l0 + s1 && Now() == After(was, s1);
      ghost var s2 := StagingDrops(Now(), listing.restores, left);
      Compose(old(log), was, s1, s2);
      hide StagingDrops;
      DeleteStaging(listing.restores, left);
      r := Ok(true);
    }

    method DeleteStaging(restoreNames: seq<Token>, discardNames: seq<Token>)
      requires NoDuplicates(restoreNames) && forall x :: x in restoreNames ==> x in restores
      requires NoDuplicates(discardNames) && forall x :: x in discardNames ==> x in discards
      modifies this`restores, this`discards, this`log
      ensures var steps := StagingDrops(old(Now()), restoreNames, discardNames);
              log == old(log) + steps && Now() == After(old(Now()), steps)
    {
      hide DropAllRestores, DropAllDiscards;
      ghost var was := Now();
      DeleteAllRestores(restoreNames);
      Compose(old(log), was, DropAllRestores(was, restoreNames), DropAllDiscards(Now(), discardNames));
      DeleteAllDiscards(discardNames);
    }

    method DeleteAllRestores(names: seq<Token>)
      requires NoDuplicates(names) && forall x :: x in names ==> x in restores
      modifies this`restores, this`log
      ensures var steps := DropAllRestores(old(Now()), names);
              log == old(log) + steps && Now() == After(old(Now()), steps)
    {
      ghost var was := Now();
      for i := 0 to |names|
        invariant forall x :: x in names[i..] ==> x in restores
        invariant log + DropAllRestores(Now(), names[i..]) == old(log) + DropAllRestores(was, names)
        invariant After(Now(), DropAllRestores(Now(), names[i..])) == After(was, DropAllRestores(was, names))
      {
        ghost var before, rest := Now(), names[i..];
        assert rest[0] == names[i] && rest[1..] == names[i + 1..] && names[i] in rest;
        assert names[i] !in names[i + 1..];
        DeleteRestoreIfPresent(names[i]);
        assert DropAllRestores(before, rest) == [Now()] + DropAllRestores(Now(), names[i + 1..]);
      }
    }

    method DeleteAllDiscards(names: seq<Token>)
      requires NoDuplicates(names) && forall x :: x in names ==> x in discards
      modifies this`discards, this`log
      ensures var steps := DropAllDiscards(old(Now()), names);
              log == old(log) + steps && Now() == After(old(Now()), steps)
    {
      ghost var was := Now();
      for i := 0 to |names|
        invariant forall x :: x in names[i..] ==> x in discards
        invariant log + DropAllDiscards(Now(), names[i..]) == old(log) + DropAllDiscards(was, names)
        invariant After(Now(), DropAllDiscards(Now(), names[i..])) == After(was, DropAllDiscards(was, names))
      {
        ghost var before, rest := Now(), names[i..];
        assert rest[0] == names[i] && rest[1..] == names[i + 1..] && names[i] in rest;
        assert names[i] !in names[i + 1..];
        DeleteDiscardIfPresent(names[i]);
        assert DropAllDiscards(before, rest) == [Now()] + DropAllDiscards(Now(), names[i + 1..]);
      }
    }

    method RecoverPendingCleanup(t: Transaction) returns (r: Result<bool, StoreError>)
      requires t.Deferred() && current.Some?
      modifies this
      ensures var run := PendingCleanupRun(old(Now()), t);
              r == run.result && log == old(log) + run.steps && Now() == After(old(Now()), run.steps)
    {
      if t.token in restores {
        return Err(RetainsRestore);
      }
      var index := LoadIndex();
      if index.head != Some(t.checkpoint) {
        return Err(HeadMismatch);
      }
      var rid := t.recovery.value;
      if rid !in receipts {
        if t.token !in discards {
          return Err(MissingDiscard);
        }
        return Ok(false);
      }
      var receipt := receipts[rid];
      if receipt.checkpoint != t.checkpoint || receipt.discard != t.token {
        return Err(ReceiptMismatch);
      }
      FinishCleanup(t, receipt);
      r := Ok(true);
    }

    method FinishCleanup(t: Transaction, receipt: Receipt)
      requires t.Deferred()
      modifies this
      ensures var steps := CleanupSteps(old(Now()), t, receipt);
              log == old(log) + steps && Now() == After(old(Now()), steps)
    {
      DeleteDiscardIfPresent(t.token);
      WriteReceipt(t.recovery.value, receipt.(completed := true));
      ClearTransaction();
    }

    method ConfirmDeferred(t: Transaction) returns (r: Result<bool, StoreError>)
      requires current.Some?
      modifies this
      ensures var run := ConfirmDeferredRun(old(Now()), t);
              r == run.result && log == old(log) + run.steps && Now() == After(old(Now()), run.steps)
    {
      if t.token !in discards {
        return Err(MissingDiscard);
      }
      if t.token in restores {
        return Err(RetainsRestore);
      }
      hide AdoptRun, RequestedScrub, AfterScrub;
      ghost var was := Now();
      AfterRequestedScrub(was, t.scrub);
      var removed := ScrubIfRequested(t.scrub);
      Compose(old(log), was, RequestedScrub(was, t.scrub), AdoptRun(Now(), t.checkpoint).steps);
      var adopted := AdoptCheckpoint(t.checkpoint);
      if adopted.Err? {
        return Err(adopted.error);
      }
      WriteTransaction(t.(phase := Committed));
      r := Ok(true);
    }

    /** Loads the index, resolves the journal's checkpoint and moves the head there. */
    method AdoptCheckpoint(c: Id) returns (r: Result<Id, StoreError>)
      modifies this`indexFile, this`log
      ensures var run := AdoptRun(old(Now()), c);
              r == run.result && log == old(log) + run.steps && Now() == After(old(Now()), run.steps)
    {
      AfterLoadSteps(Now());
      var index := LoadIndex();
      var resolved := index.Resolve(Some(c), None);
      if resolved.Err? {
        return Err(LineageError(resolved.error));
      }
      LineageForest.ResolvedIdIsPresent(index.View(), c);
      var moved := index.MoveHead(resolved.value);
      SaveIndex(index.View());
      r := Ok(resolved.value);
    }

    method DropStaging(t: Transaction, commit: bool) returns (r: Result<bool, StoreError>)
      modifies this
      ensures var run := DropStagingRun(old(Now()), t, commit);
              r == run.result && log == old(log) + run.steps && Now() == After(old(Now()), run.steps)
    {
      if t.Deferred() && t.recovery.value in receipts {
        return Err(UnexpectedReceipt);
      }
      hide ConcludeRun, DropSteps, AfterDrop;
      ghost var was := Now();
      DropStagingTrees(t);
      Compose(old(log), was, DropSteps(was, t), ConcludeRun(Now(), t, commit).steps);
      r := Conclude(t, commit);
    }

    method DropStagingTrees(t: Transaction)
      modifies this`restores, this`discards, this`log
      ensures log == old(log) + DropSteps(old(Now()), t)
      ensures Now() == AfterDrop(old(Now()), t) == After(old(Now()), DropSteps(old(Now()), t))
    {
      hide DropDiscard, DropRestore, WithoutDiscard, WithoutRestore;
      ghost var was := Now();
      AfterDropSteps(was, t);
      DeleteDiscardIfPresent(t.token);
      Compose(old(log), was, DropDiscard(was, t.token), DropRestore(Now(), t.token));
      DeleteRestoreIfPresent(t.token);
    }

    method Conclude(t: Transaction, commit: bool) returns (r: Result<bool, StoreError>)
      modifies this
      ensures var run := ConcludeRun(old(Now()), t, commit);
              r == run.result && log == old(log) + run.steps && Now() == After(old(Now()), run.steps)
    {
      if commit {
        var adopted := AdoptCheckpoint(t.checkpoint);
        if adopted.Err? {
          return Err(adopted.error);
        }
      }
      ClearTransaction();
      r := Ok(true);
    }

    // -------------------------------------------------------------- completing a deferred rollback

    method CompleteDeferredRollback(rid: RecoveryId) returns (r: Result<bool, StoreError>)
      modifies this
      ensures var run := CompleteRun(old(Now()), rid);
              r == run.result && log == old(log) + run.steps && Now() == After(old(Now()), run.steps)
    {
      if !ValidId(rid) {
        return Err(InvalidId);
      }
      if journal.None? {
        if rid !in receipts || !receipts[rid].completed {
          return Err(NoCompletedRollback);
        }
        if receipts[rid].discard in discards {
          return Err(StillDiscarded);
        }
        return Ok(true);
      }
      var t := journal.value;
      if !t.Deferred() || !t.phase.Committed? {
        return Err(NotCommittedDeferred);
      }
      if t.recovery.value != rid {
        return Err(RecoveryMismatch);
      }
      if current.None? {
        return Err(NoSession);
      }
      if t.token in restores {
        return Err(RetainsRestore);
      }
      var index := LoadIndex();
      if index.head != Some(t.checkpoint) {
        return Err(HeadMismatch);
      }
      var receipt := NewReceipt(t);
      if rid in receipts {
        receipt := receipts[rid];
        if receipt.checkpoint != t.checkpoint || receipt.discard != t.token {
          return Err(ReceiptMismatch);
        }
      } else {
        if t.token !in discards {
          return Err(MissingDiscard);
        }
        WriteReceipt(rid, receipt);
      }
      FinishCleanup(t, receipt);
      r := Ok(false);
    }

    // -------------------------------------------------------------- session creation

    method CreateSession() returns (r: Result<(), StoreError>)
      modifies this
      ensures var run := CreateSessionRun(old(Now()));
              r == run.result && log == old(log) + run.steps && Now() == After(old(Now()), run.steps)
    {
      if current.Some? {
        return Err(SessionExists);
      }
      current := Some(Tree("", []));
      log := log + [Now()];
      SaveIndex(EMPTY_INDEX);
      r := Ok(());
    }
  }
}
