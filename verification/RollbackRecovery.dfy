/** Crash atomicity of rollback, and what interrupting recovery itself can change. */
module RollbackRecovery {
  import opened Base
  import opened Lineage
  import opened LineageForest
  import opened SessionDisk

  /** The disk an uninterrupted recovery leaves. */
  ghost function Recovered(s: Disk, l: Listing): Disk {
    After(s, RecoverRun(s, l).steps)
  }

  /** The head every reader of the index sees: the stored one, reconciled with the snapshots. */
  function Head(d: Disk): Option<Id> {
    Loaded(d).head
  }

  /** `x` is the tree `t`, except for sockets and FIFOs a scrub removed in walk order. */
  ghost predicate ScrubbedFrom(t: Tree, x: Tree) {
    x.data == t.data && |x.runtime| <= |t.runtime| && x.runtime == t.runtime[|t.runtime| - |x.runtime|..]
  }

  // ---------------------------------------------------------------- the shape of a disk

  /** What the journal promises about the staging trees. */
  ghost predicate StagingShape(d: Disk) {
    match d.journal
    case None => d.current.Some? && d.restores.Keys == {} && d.discards.Keys == {}
    case Some(t) =>
      && d.restores.Keys <= {t.token} && d.discards.Keys <= {t.token}
      && (d.current.None? ==> (t.phase.Prepared? || t.phase.OldMoved?) && t.token in d.restores && t.token in d.discards)
      && (d.current.Some? ==> t.token !in d.restores || t.token !in d.discards)
      && (t.phase.Preparing? ==> t.token !in d.discards)
      && (t.phase.Committed? ==> t.token !in d.restores)
  }

  ghost predicate ReceiptShape(d: Disk) {
    && (forall rid :: rid in d.receipts ==>
          && (d.receipts[rid].completed ==> d.receipts[rid].discard !in d.discards)
          && (!d.receipts[rid].completed ==> d.journal.Some? && d.journal.value.recovery == Some(rid)))
    && (d.journal.Some? && d.journal.value.Deferred() ==>
          var t := d.journal.value;
          && ValidId(t.recovery.value)
          && if t.recovery.value in d.receipts then
               t.phase.Committed? && d.receipts[t.recovery.value].checkpoint == t.checkpoint
               && d.receipts[t.recovery.value].discard == t.token
             else t.phase.Committed? ==> t.token in d.discards)
  }

  ghost predicate IndexShape(d: Disk) {
    (d.index.Some? ==> Forest(d.index.value)) && LIVE_CHILD !in d.snapshots
  }

  /** Holds of every disk that runs of the operations, cut anywhere, can reach. */
  ghost predicate Inv(d: Disk) {
    StagingShape(d) && ReceiptShape(d) && IndexShape(d)
  }

  // ---------------------------------------------------------------- small facts

  lemma ExactResolves(d: Disk, c: Id)
    requires c in d.snapshots
    ensures Resolution(Loaded(d), Some(c), None) == Ok(c)
    ensures AdoptRun(d, c).result == Ok(c)
    ensures AdoptRun(d, c).steps == LoadSteps(d) + [WithIndex(d, Moved(Loaded(d), c))]
    ensures Head(WithIndex(d, Moved(Loaded(d), c))) == Some(c)
  {
  }

  lemma LoadingIsIdempotent(d: Disk)
    ensures Loaded(AfterLoad(d)) == Loaded(d)
    ensures LoadSteps(AfterLoad(d)) == []
  {
    var ix := Loaded(d);
    assert Reconciled(ix, d.snapshots.Keys).cps == ix.cps;
  }

  // ---------------------------------------------------------------- the four ways recovery goes

  /** The journal says the swap did not happen: the staging trees go. */
  ghost predicate Aborting(s: Disk) {
    && s.journal.Some? && s.current.Some?
    && (s.journal.value.phase.Preparing? || s.journal.value.phase.Prepared?)
    && (s.journal.value.Deferred() ==> s.journal.value.recovery.value !in s.receipts)
  }

  /** An immediate rollback whose checkpoint tree is in place, or is the only candidate. */
  ghost predicate Committing(s: Disk) {
    && s.journal.Some? && !s.journal.value.Deferred()
    && if s.current.Some? then s.journal.value.phase.OldMoved? || s.journal.value.phase.Committed?
       else !s.journal.value.phase.Preparing? && s.journal.value.token in s.restores
  }

  /** The same for a deferred one, before its commit record. */
  ghost predicate Confirming(s: Disk) {
    && s.journal.Some? && s.journal.value.Deferred() && s.journal.value.token in s.discards
    && if s.current.Some? then s.journal.value.phase.OldMoved? && s.journal.value.token !in s.restores
       else (s.journal.value.phase.Prepared? || s.journal.value.phase.OldMoved?) && s.journal.value.token in s.restores
  }

  /** A committed deferred rollback whose head is still its checkpoint. */
  ghost predicate Pending(s: Disk) {
    && s.journal.Some? && s.journal.value.Deferred() && s.journal.value.phase.Committed?
    && s.current.Some? && s.journal.value.token !in s.restores
    && Head(s) == Some(s.journal.value.checkpoint)
    && var rid := s.journal.value.recovery.value;
       if rid in s.receipts then s.receipts[rid].checkpoint == s.journal.value.checkpoint
                                 && s.receipts[rid].discard == s.journal.value.token
       else s.journal.value.token in s.discards
  }

  /** What the journal's checkpoint id resolves to by now. The checkpoint may have been
      deleted since, and then the id is looked up as a prefix. */
  ghost function Goal(s: Disk): Result<Id, IndexError>
    requires s.journal.Some?
  {
    Resolution(Loaded(s), Some(s.journal.value.checkpoint), None)
  }

  /** The goal is present, it is the checkpoint itself exactly while that exists, and it only
      depends on the indexed ids and the snapshots. */
  lemma GoalIsPresent(s: Disk)
    requires s.journal.Some?
    ensures Goal(s).Ok? ==> Goal(s).value in s.snapshots
    ensures Goal(s) == Ok(s.journal.value.checkpoint) <==> s.journal.value.checkpoint in s.snapshots
  {
    ResolvedIdIsPresent(Loaded(s), s.journal.value.checkpoint);
  }

  lemma GoalIsStable(s: Disk, m: Disk)
    requires s.journal.Some? && m.journal.Some? && m.journal.value.checkpoint == s.journal.value.checkpoint
    requires m.snapshots == s.snapshots && Loaded(m).cps.Keys == Loaded(s).cps.Keys
    ensures Goal(m) == Goal(s)
  {
    var c := s.journal.value.checkpoint;
    ResolvedIdIsPresent(Loaded(s), c);
    ResolvedIdIsPresent(Loaded(m), c);
    assert PrefixMatches(Loaded(m), c) == PrefixMatches(Loaded(s), c);
  }

  /** The tree recovery works on: the current one, else the staged checkpoint tree. */
  ghost function Source(s: Disk): Option<Tree> {
    if s.current.Some? then s.current
    else if s.journal.Some? && s.journal.value.token in s.restores then Some(s.restores[s.journal.value.token])
    else None
  }

  /** What two recoveries must agree on: everything but index metadata and list order. */
  ghost predicate SameOutcome(x: Disk, y: Disk) {
    && x.current == y.current && x.restores == y.restores && x.discards == y.discards
    && x.snapshots == y.snapshots && x.journal == y.journal && x.receipts == y.receipts
    && Head(x) == Head(y)
  }

  lemma AbortEnds(s: Disk, l: Listing)
    requires Aborting(s)
    ensures RecoverRun(s, l) == Run(DropSteps(s, s.journal.value) + [Cleared(AfterDrop(s, s.journal.value))], Ok(true))
    ensures Recovered(s, l) == Cleared(AfterDrop(s, s.journal.value))
  {
    assert Settled(s, s.journal.value) == Ok(Settlement(s, [], false));
  }

  ghost function Placed(s: Disk): Disk
    requires s.journal.Some? && (s.current.None? ==> s.journal.value.token in s.restores)
  {
    if s.current.Some? then s else Promoted(s, s.journal.value)
  }

  /** Where recovery starts when the swap is to be finished. */
  ghost function Start(s: Disk): seq<Disk>
    requires s.journal.Some? && (s.current.None? ==> s.journal.value.token in s.restores)
  {
    if s.current.Some? then [] else [Placed(s)]
  }

  /** The last steps of a recovery that finishes an immediate rollback. */
  lemma ConcludeEnds(d: Disk, t: Transaction)
    ensures var goal := Resolution(Loaded(d), Some(t.checkpoint), None);
            ConcludeRun(d, t, true) ==
              if goal.Ok? then
                var e := WithIndex(d, Moved(Loaded(d), goal.value));
                Run(LoadSteps(d) + [e] + [Cleared(e)], Ok(true))
              else Run(LoadSteps(d), Err(LineageError(goal.error)))
  {
    hide Resolution, Moved, Loaded;
  }

  lemma CommitSteps(s: Disk, l: Listing)
    requires Committing(s)
    ensures var t := s.journal.value;
            var rest := ConcludeRun(AfterDrop(Placed(s), t), t, true);
            RecoverRun(s, l) == Run(Start(s) + (DropSteps(Placed(s), t) + rest.steps), rest.result)
  {
    assert Settled(s, s.journal.value) == Ok(Settlement(Placed(s), Start(s), true));
    hide ConcludeRun, DropSteps, AfterDrop;
  }

  lemma CommitEnds(s: Disk, l: Listing)
    requires Committing(s)
    ensures var t := s.journal.value;
            var d := AfterDrop(Placed(s), t);
            if Goal(s).Ok? then
              var e := WithIndex(d, Moved(Loaded(s), Goal(s).value));
              && RecoverRun(s, l).result == Ok(true)
              && RecoverRun(s, l).steps == Start(s) + (DropSteps(Placed(s), t) + (LoadSteps(d) + [e] + [Cleared(e)]))
              && Recovered(s, l) == Cleared(e)
            else
              && RecoverRun(s, l).result == Err(LineageError(Goal(s).error))
              && RecoverRun(s, l).steps == Start(s) + (DropSteps(Placed(s), t) + LoadSteps(d))
              && Recovered(s, l) == AfterLoad(d)
  {
    var t := s.journal.value;
    var d := AfterDrop(Placed(s), t);
    CommitSteps(s, l);
    ConcludeEnds(d, t);
    assert Loaded(d) == Loaded(s);
    assert After(s, Start(s)) == Placed(s);
    AfterDropSteps(Placed(s), t);
    AfterLoadSteps(d);
    hide RecoverRun, ConcludeRun, DropSteps, AfterDrop, Resolution, Loaded, Moved, LoadSteps, Start, AfterLoad;
    AfterConcat(s, Start(s), DropSteps(Placed(s), t) + ConcludeRun(d, t, true).steps);
    AfterConcat(Placed(s), DropSteps(Placed(s), t), ConcludeRun(d, t, true).steps);
  }

  lemma ConfirmSteps(s: Disk, l: Listing)
    requires Confirming(s)
    ensures var t := s.journal.value;
            var d := AfterScrub(Placed(s), t.scrub);
            var adopt := AdoptRun(d, t.checkpoint);
            var rest := if adopt.result.Ok? then [Journaled(After(d, adopt.steps), t, Committed)] else [];
            && RecoverRun(s, l).steps == Start(s) + (RequestedScrub(Placed(s), t.scrub) + adopt.steps + rest)
            && RecoverRun(s, l).result == (if adopt.result.Ok? then Ok(true) else Err(adopt.result.error))
  {
    assert Settled(s, s.journal.value) == Ok(Settlement(Placed(s), Start(s), true));
    hide AdoptRun, RequestedScrub, AfterScrub;
  }

  lemma AdoptEnds(d: Disk, c: Id)
    ensures var goal := Resolution(Loaded(d), Some(c), None);
            AdoptRun(d, c) ==
              if goal.Ok? then Run(LoadSteps(d) + [WithIndex(d, Moved(Loaded(d), goal.value))], Ok(goal.value))
              else Run(LoadSteps(d), Err(LineageError(goal.error)))
  {
    hide Resolution, Moved, Loaded;
  }

  lemma PlacedLoads(s: Disk, scrub: bool)
    requires s.journal.Some? && (s.current.None? ==> s.journal.value.token in s.restores)
    ensures After(s, Start(s)) == Placed(s) && Loaded(AfterScrub(Placed(s), scrub)) == Loaded(s)
  {
  }

  lemma ConfirmEnds(s: Disk, l: Listing)
    requires Confirming(s)
    ensures var t := s.journal.value;
            var d := AfterScrub(Placed(s), t.scrub);
            if Goal(s).Ok? then
              var e := WithIndex(d, Moved(Loaded(s), Goal(s).value));
              && RecoverRun(s, l).result == Ok(true)
              && RecoverRun(s, l).steps
                 == Start(s) + (RequestedScrub(Placed(s), t.scrub) + (LoadSteps(d) + [e]) + [Journaled(e, t, Committed)])
              && Recovered(s, l) == Journaled(e, t, Committed)
            else
              && RecoverRun(s, l).result == Err(LineageError(Goal(s).error))
              && RecoverRun(s, l).steps == Start(s) + (RequestedScrub(Placed(s), t.scrub) + LoadSteps(d))
              && Recovered(s, l) == AfterLoad(d)
  {
    var t := s.journal.value;
    var d := AfterScrub(Placed(s), t.scrub);
    PlacedLoads(s, t.scrub);
    hide RecoverRun, AdoptRun, RequestedScrub, AfterScrub, Resolution, Loaded, Moved, LoadSteps, Start, AfterLoad, Confirming;
    ConfirmSteps(s, l);
    AdoptEnds(d, t.checkpoint);
    AfterRequestedScrub(Placed(s), t.scrub);
    AfterLoadSteps(d);
    var scrub := RequestedScrub(Placed(s), t.scrub);
    if Goal(s).Err? {
      assert scrub + LoadSteps(d) + [] == scrub + LoadSteps(d);
      AfterConcat(s, Start(s), scrub + LoadSteps(d));
      AfterConcat(Placed(s), scrub, LoadSteps(d));
    }
  }

  lemma PendingEnds(s: Disk, l: Listing)
    requires Pending(s)
    ensures RecoverRun(s, l).result.Ok?
    ensures var t := s.journal.value;
            if t.recovery.value !in s.receipts then
              RecoverRun(s, l).steps == LoadSteps(s) && Recovered(s, l) == AfterLoad(s)
            else
              var d := WithReceipt(WithoutDiscard(AfterLoad(s), t.token), t.recovery.value,
                                   s.receipts[t.recovery.value].(completed := true));
              RecoverRun(s, l).steps == LoadSteps(s) + (DropDiscard(AfterLoad(s), t.token) + [d, Cleared(d)])
              && Recovered(s, l) == Cleared(d)
  {
  }
}
