/** Interrupting recovery itself: it can be restarted from every phase, except that a
    promotion made under phase `prepared` is forgotten by the next recovery, and that a
    deferred rollback whose checkpoint is gone commits to another one, and is refused as long
    as its own checkpoint is not the head. */
module RecoveryRestart {
  import opened Base
  import opened Lineage
  import opened SessionDisk
  import opened RollbackRecovery
  import opened RollbackAtomicity

  lemma {:induction false} DropStates(d: Disk, t: Transaction, s: Disk)
    requires s in DropSteps(d, t) && OnlyToken(d, t.token)
    ensures s == d.(restores := s.restores, discards := s.discards) && OnlyToken(s, t.token)
    ensures d.current.Some? ==> s.current.Some?
  {
  }

  /** Every other disk with a journal: recovery loads the index at most, and raises. */
  ghost predicate Refused(s: Disk, l: Listing) {
    RecoverRun(s, l).result.Err? && (RecoverRun(s, l).steps == [] || RecoverRun(s, l).steps == LoadSteps(s))
  }

  lemma Classified(s: Disk, l: Listing)
    requires Inv(s) && s.journal.Some?
    ensures Aborting(s) || Committing(s) || Confirming(s) || Pending(s) || Refused(s, l)
  {
    hide DropStagingRun, AdoptRun, Resolution, Moved, CleanupSteps;
  }

  /** The disk in the middle of a recovery that goes forward. */
  ghost predicate Midway(s: Disk, m: Disk) {
    && s.journal.Some? && m.journal == s.journal && SameShelf(s, m) && OnlyToken(m, s.journal.value.token)
    && m.current.Some? && Loaded(m).cps.Keys == Loaded(s).cps.Keys
    && (Head(m) == Head(s) || (Goal(s).Ok? && Head(m) == Some(Goal(s).value)))
  }

  /** The outcome of an immediate rollback that is over. */
  ghost predicate Over(s: Disk, e: Disk, head: Option<Id>) {
    && s.journal.Some? && e.current.Some? && SameShelf(s, e) && Head(e) == head
    && e.journal == None && e.restores.Keys == {} && e.discards.Keys == {}
  }

  /** The outcome of a recovery that cannot resolve its checkpoint: the journal stays. */
  ghost predicate Halted(s: Disk, e: Disk) {
    && s.journal.Some? && e.journal == s.journal && e.current.Some? && SameShelf(s, e) && Head(e) == Head(s)
    && e.restores.Keys == {}
  }

  lemma MovedHeadReloads(d: Disk, e: Disk, c: Id)
    requires c in d.snapshots && e.snapshots == d.snapshots && e.index == Some(Moved(Loaded(d), c))
    ensures Head(e) == Some(c) && Loaded(e).cps.Keys == Loaded(d).cps.Keys
  {
  }

  // ---------------------------------------------------------------- immediate rollback

  lemma DropIsMidway(s: Disk, m: Disk)
    requires Committing(s) && OnlyToken(s, s.journal.value.token)
    requires m == Placed(s) || m in DropSteps(Placed(s), s.journal.value)
    ensures Midway(s, m) && m.current == Placed(s).current
  {
    if m != Placed(s) {
      DropStates(Placed(s), s.journal.value, m);
    }
  }

  lemma LoadIsMidway(s: Disk, d: Disk, m: Disk)
    requires s.journal.Some? && d.journal == s.journal && d.index == s.index && SameShelf(s, d)
    requires OnlyToken(d, s.journal.value.token) && d.current.Some?
    requires m in LoadSteps(d) || m == AfterLoad(d)
    ensures Midway(s, m) && Head(m) == Head(s) && m == d.(index := m.index)
  {
    assert Loaded(d) == Loaded(s);
    LoadingIsIdempotent(d);
  }

  lemma AdoptIsMidway(s: Disk, d: Disk, m: Disk)
    requires s.journal.Some? && Goal(s).Ok?
    requires d.journal == s.journal && d.index == s.index && SameShelf(s, d) && OnlyToken(d, s.journal.value.token)
    requires d.current.Some?
    requires m in LoadSteps(d) + [WithIndex(d, Moved(Loaded(s), Goal(s).value))]
    ensures Midway(s, m) && m == d.(index := m.index)
  {
    assert Loaded(d) == Loaded(s);
    if m in LoadSteps(d) {
      LoadIsMidway(s, d, m);
    } else {
      GoalIsPresent(s);
      hide Goal, Moved;
      MovedHeadReloads(d, m, Goal(s).value);
    }
  }

  lemma InParts(a: seq<Disk>, b: seq<Disk>, c: seq<Disk>, e: Disk, m: Disk)
    requires m in a + (b + (c + [e]))
    ensures m in a || m in b || m in c || m == e
  {
  }

  lemma InTwoParts(a: seq<Disk>, b: seq<Disk>, c: seq<Disk>, m: Disk)
    requires m in a + (b + c)
    ensures m in a || m in b || m in c
  {
  }

  /** Everything recovery does before it concludes. */
  lemma DroppedIsMidway(s: Disk, m: Disk)
    requires Committing(s) && OnlyToken(s, s.journal.value.token)
    requires m in Start(s) || m in DropSteps(Placed(s), s.journal.value)
    ensures Midway(s, m) && m.current == Placed(s).current
  {
    assert m in Start(s) ==> m == Placed(s);
    DropIsMidway(s, m);
  }

  lemma DroppedDisk(s: Disk)
    requires Committing(s) && OnlyToken(s, s.journal.value.token)
    ensures var d := AfterDrop(Placed(s), s.journal.value);
            && OnlyToken(d, s.journal.value.token) && d.journal == s.journal && d.index == s.index && SameShelf(s, d)
            && d.current == Placed(s).current && d.current.Some? && d.restores.Keys == {} && d.discards.Keys == {}
  {
  }

  lemma CommitStates(s: Disk, l: Listing, m: Disk)
    requires Committing(s) && OnlyToken(s, s.journal.value.token) && m in RecoverRun(s, l).steps
    ensures (Midway(s, m) && m.current == Placed(s).current) || (Goal(s).Ok? && m == Recovered(s, l))
  {
    var t := s.journal.value;
    var d := AfterDrop(Placed(s), t);
    CommitEnds(s, l);
    DroppedDisk(s);
    hide Midway, LoadSteps, RecoverRun, Recovered, DropSteps, AfterDrop, Moved, Loaded, Goal, Start, AfterLoad, OnlyToken, SameShelf;
    if Goal(s).Ok? {
      var e := WithIndex(d, Moved(Loaded(s), Goal(s).value));
      InParts(Start(s), DropSteps(Placed(s), t), LoadSteps(d) + [e], Cleared(e), m);
      if m in LoadSteps(d) + [e] {
        AdoptIsMidway(s, d, m);
      } else if m != Recovered(s, l) {
        DroppedIsMidway(s, m);
      }
    } else {
      InTwoParts(Start(s), DropSteps(Placed(s), t), LoadSteps(d), m);
      if m in LoadSteps(d) {
        LoadIsMidway(s, d, m);
      } else {
        DroppedIsMidway(s, m);
      }
    }
  }

  lemma CommitOver(s: Disk, l: Listing)
    requires Committing(s) && OnlyToken(s, s.journal.value.token)
    ensures Goal(s).Ok? ==> RecoverRun(s, l).result == Ok(true) && Over(s, Recovered(s, l), Some(Goal(s).value))
    ensures Goal(s).Err? ==>
              && RecoverRun(s, l).result == Err(LineageError(Goal(s).error)) && Halted(s, Recovered(s, l))
              && Recovered(s, l).discards.Keys == {}
    ensures Recovered(s, l).current == Placed(s).current
  {
    var d := AfterDrop(Placed(s), s.journal.value);
    CommitEnds(s, l);
    GoalIsPresent(s);
    LoadIsMidway(s, d, AfterLoad(d));
    assert d.restores.Keys == {} && d.discards.Keys == {};
    hide RecoverRun, Moved, Goal;
    if Goal(s).Ok? {
      MovedHeadReloads(s, Recovered(s, l), Goal(s).value);
    }
  }

  /** From any disk on the way, unless recovery reads it as an abort: finished at the goal,
      or halted for want of one. */
  lemma MidwayCommits(s: Disk, m: Disk, l: Listing)
    requires Midway(s, m) && Committing(m)
    ensures Goal(s).Ok? ==> RecoverRun(m, l).result == Ok(true) && Over(s, Recovered(m, l), Some(Goal(s).value))
    ensures Goal(s).Err? ==>
              && RecoverRun(m, l).result == Err(LineageError(Goal(s).error)) && Halted(s, Recovered(m, l))
              && Recovered(m, l).discards.Keys == {}
    ensures Recovered(m, l).current == m.current
  {
    CommitEnds(m, l);
    GoalIsStable(s, m);
    GoalIsPresent(m);
    LoadIsMidway(m, AfterDrop(m, s.journal.value), AfterLoad(AfterDrop(m, s.journal.value)));
    assert AfterDrop(m, s.journal.value).restores.Keys == {} && AfterDrop(m, s.journal.value).discards.Keys == {};
    hide RecoverRun, Moved, Goal;
    if Goal(s).Ok? {
      MovedHeadReloads(m, Recovered(m, l), Goal(s).value);
    }
  }

  lemma MidwayAborts(s: Disk, m: Disk, l: Listing)
    requires Midway(s, m) && Aborting(m)
    ensures RecoverRun(m, l).result == Ok(true) && Over(s, Recovered(m, l), Head(m))
    ensures Recovered(m, l).current == m.current
  {
    AbortEnds(m, l);
  }

  /** Two outcomes of the same rollback with the same tree and head are the same. */
  lemma OverIsDetermined(s: Disk, x: Disk, y: Disk, head: Option<Id>)
    requires Over(s, x, head) && Over(s, y, head) && x.current == y.current
    ensures SameOutcome(x, y)
  {
  }

  /** Nor do two halted ones with the same trees. */
  lemma HaltedIsDetermined(s: Disk, x: Disk, y: Disk)
    requires Halted(s, x) && Halted(s, y) && x.current == y.current && x.discards == y.discards
    ensures SameOutcome(x, y)
  {
  }

  // ---------------------------------------------------------------- what restarting promises

  /** Both succeed, or both raise the same error. */
  ghost predicate SameResult(x: Result<bool, StoreError>, y: Result<bool, StoreError>) {
    (x.Ok? && y.Ok?) || x == y
  }

  /** A recovery of `m`, a disk on the way of the recovery of `s`, ends like the latter. */
  ghost predicate Alike(s: Disk, l: Listing, m: Disk, k: Listing) {
    SameResult(RecoverRun(m, k).result, RecoverRun(s, l).result) && SameOutcome(Recovered(m, k), Recovered(s, l))
  }

  ghost predicate Restartable(s: Disk, l: Listing) {
    forall m, k :: m in RecoverRun(s, l).steps && Lists(k, m) ==> Alike(s, l, m, k)
  }

  /** Recovery promotes the staged tree without rewriting phase `prepared`. Forgetting that
      matters unless an immediate rollback goes to what is the head already. */
  ghost predicate PromotionWindow(s: Disk) {
    && s.journal.Some? && s.journal.value.phase.Prepared? && s.current.None?
    && (s.journal.value.Deferred() || Goal(s).Err? || Head(s) != Some(Goal(s).value))
  }

  /** A deferred rollback that recovery will commit, with its checkpoint deleted and another
      one in the place its id resolves to: the commit record names the deleted one. */
  ghost predicate RedirectionWindow(s: Disk) {
    && Confirming(s) && s.journal.value.phase.OldMoved?
    && s.journal.value.checkpoint !in s.snapshots && Goal(s).Ok?
  }

  lemma CommitRestarts(s: Disk, l: Listing, m: Disk, k: Listing)
    requires Committing(s) && OnlyToken(s, s.journal.value.token) && !PromotionWindow(s)
    requires m in RecoverRun(s, l).steps && Lists(k, m)
    ensures Alike(s, l, m, k)
  {
    hide RecoverRun, Recovered, Goal, OnlyToken, Lists, Head;
    CommitStates(s, l, m);
    CommitOver(s, l);
    if Goal(s).Ok? && m == Recovered(s, l) {
      NothingToRecover(m, k);
    } else if m.journal.value.phase.Prepared? {
      MidwayAborts(s, m, k);
      OverIsDetermined(s, Recovered(m, k), Recovered(s, l), Some(Goal(s).value));
    } else {
      MidwayCommits(s, m, k);
      if Goal(s).Ok? {
        OverIsDetermined(s, Recovered(m, k), Recovered(s, l), Some(Goal(s).value));
      } else {
        HaltedIsDetermined(s, Recovered(m, k), Recovered(s, l));
      }
    }
  }

  lemma AbortingDrop(s: Disk, m: Disk)
    requires Aborting(s) && OnlyToken(s, s.journal.value.token) && m in DropSteps(s, s.journal.value)
    ensures Midway(s, m) && m.current == s.current && Head(m) == Head(s) && Aborting(m)
  {
    DropStates(s, s.journal.value, m);
    assert Loaded(m) == Loaded(s);
    hide Loaded, DropSteps, Goal;
  }

  lemma AbortStates(s: Disk, l: Listing, m: Disk)
    requires Aborting(s) && OnlyToken(s, s.journal.value.token) && m in RecoverRun(s, l).steps
    ensures (Midway(s, m) && m.current == s.current && Head(m) == Head(s) && Aborting(m)) || m == Recovered(s, l)
  {
    var t := s.journal.value;
    hide RecoverRun, Recovered, DropSteps, AfterDrop, Midway, Aborting, Head, OnlyToken;
    AbortEnds(s, l);
    if m in DropSteps(s, t) {
      AbortingDrop(s, m);
    }
  }

  lemma AbortRestarts(s: Disk, l: Listing, m: Disk, k: Listing)
    requires Aborting(s) && OnlyToken(s, s.journal.value.token)
    requires m in RecoverRun(s, l).steps && Lists(k, m)
    ensures Alike(s, l, m, k)
  {
    AbortStates(s, l, m);
    assert Midway(s, s);
    MidwayAborts(s, s, l);
    hide RecoverRun, Recovered;
    if m == Recovered(s, l) {
      NothingToRecover(m, k);
    } else {
      MidwayAborts(s, m, k);
      OverIsDetermined(s, Recovered(m, k), Recovered(s, l), Head(s));
    }
  }

  // ---------------------------------------------------------------- deferred rollback

  ghost predicate MidConfirm(s: Disk, m: Disk) {
    && Midway(s, m) && m.discards == s.discards && m.restores.Keys == {}
    && Source(s).Some? && ScrubbedFrom(Source(s).value, m.current.value)
    && (!s.journal.value.scrub ==> m.current == Source(s))
  }

  lemma ScrubIsMidConfirm(s: Disk, m: Disk)
    requires Confirming(s) && OnlyToken(s, s.journal.value.token)
    requires m == Placed(s) || m in RequestedScrub(Placed(s), s.journal.value.scrub)
    ensures MidConfirm(s, m)
  {
    if m != Placed(s) {
      RequestedScrubStates(Placed(s), s.journal.value.scrub, m);
    }
  }

  lemma LoadIsMidConfirm(s: Disk, m: Disk)
    requires Confirming(s) && OnlyToken(s, s.journal.value.token)
    requires var d := AfterScrub(Placed(s), s.journal.value.scrub); m in LoadSteps(d) || m == AfterLoad(d)
    ensures MidConfirm(s, m) && Head(m) == Head(s) && m.current == AfterScrub(Placed(s), s.journal.value.scrub).current
  {
    var d := AfterScrub(Placed(s), s.journal.value.scrub);
    assert OnlyToken(d, s.journal.value.token) && d.restores.Keys == {};
    assert ScrubbedFrom(Source(s).value, d.current.value);
    hide LoadSteps, AfterLoad, Loaded, Midway, Goal;
    LoadIsMidway(s, d, m);
  }

  lemma AdoptIsMidConfirm(s: Disk, m: Disk)
    requires Confirming(s) && OnlyToken(s, s.journal.value.token) && Goal(s).Ok?
    requires var d := AfterScrub(Placed(s), s.journal.value.scrub);
             m in LoadSteps(d) + [WithIndex(d, Moved(Loaded(s), Goal(s).value))]
    ensures MidConfirm(s, m)
  {
    var d := AfterScrub(Placed(s), s.journal.value.scrub);
    assert OnlyToken(d, s.journal.value.token) && d.restores.Keys == {};
    assert ScrubbedFrom(Source(s).value, d.current.value);
    hide LoadSteps, Moved, Loaded, Midway, Goal;
    AdoptIsMidway(s, d, m);
  }

  lemma ScrubbedIsMidConfirm(s: Disk, m: Disk)
    requires Confirming(s) && OnlyToken(s, s.journal.value.token)
    requires m in Start(s) || m in RequestedScrub(Placed(s), s.journal.value.scrub)
    ensures MidConfirm(s, m)
  {
    assert m in Start(s) ==> m == Placed(s);
    ScrubIsMidConfirm(s, m);
  }

  lemma AdoptingStates(s: Disk, e: Disk, m: Disk)
    requires Confirming(s) && OnlyToken(s, s.journal.value.token) && Goal(s).Ok?
    requires var d := AfterScrub(Placed(s), s.journal.value.scrub);
             var adopting := LoadSteps(d) + [WithIndex(d, Moved(Loaded(s), Goal(s).value))];
             m in Start(s) + (RequestedScrub(Placed(s), s.journal.value.scrub) + adopting + [e])
    ensures MidConfirm(s, m) || m == e
  {
    var d := AfterScrub(Placed(s), s.journal.value.scrub);
    var scrub := RequestedScrub(Placed(s), s.journal.value.scrub);
    var adopting := LoadSteps(d) + [WithIndex(d, Moved(Loaded(s), Goal(s).value))];
    hide MidConfirm, Source, LoadSteps, RequestedScrub, AfterScrub, Moved, Loaded, Goal, Start;
    assert scrub + adopting + [e] == scrub + (adopting + [e]);
    InParts(Start(s), scrub, adopting, e, m);
    if m in adopting {
      AdoptIsMidConfirm(s, m);
    } else if m != e {
      ScrubbedIsMidConfirm(s, m);
    }
  }

  lemma HaltingStates(s: Disk, m: Disk)
    requires Confirming(s) && OnlyToken(s, s.journal.value.token)
    requires var d := AfterScrub(Placed(s), s.journal.value.scrub);
             m in Start(s) + (RequestedScrub(Placed(s), s.journal.value.scrub) + LoadSteps(d))
    ensures MidConfirm(s, m)
  {
    var d := AfterScrub(Placed(s), s.journal.value.scrub);
    hide MidConfirm, Source, LoadSteps, RequestedScrub, AfterScrub, Start;
    InTwoParts(Start(s), RequestedScrub(Placed(s), s.journal.value.scrub), LoadSteps(d), m);
    if m in LoadSteps(d) {
      LoadIsMidConfirm(s, m);
    } else {
      ScrubbedIsMidConfirm(s, m);
    }
  }

  lemma ConfirmStates(s: Disk, l: Listing, m: Disk)
    requires Confirming(s) && OnlyToken(s, s.journal.value.token) && m in RecoverRun(s, l).steps
    ensures MidConfirm(s, m) || (Goal(s).Ok? && m == Recovered(s, l))
  {
    ConfirmEnds(s, l);
    hide RecoverRun, Recovered, MidConfirm, Goal, Loaded, LoadSteps, RequestedScrub, AfterScrub, Moved, Start;
    if Goal(s).Ok? {
      AdoptingStates(s, Recovered(s, l), m);
    } else {
      HaltingStates(s, m);
    }
  }

  ghost function Wanted(s: Disk): Option<Tree> {
    if s.journal.Some? && s.journal.value.scrub && Source(s).Some? then Some(Source(s).value.(runtime := [])) else Source(s)
  }

  /** A deferred rollback whose commit record is written. */
  ghost predicate Confirmed(s: Disk, e: Disk, head: Id) {
    && s.journal.Some? && e.journal == Some(s.journal.value.(phase := Committed)) && SameShelf(s, e)
    && Head(e) == Some(head) && e.discards == s.discards && e.restores.Keys == {}
    && Source(s).Some? && e.current == Wanted(s)
  }

  lemma ScrubbedDisk(s: Disk)
    requires Confirming(s) && OnlyToken(s, s.journal.value.token)
    ensures var d := AfterScrub(Placed(s), s.journal.value.scrub);
            && d.journal == s.journal && d.index == s.index && SameShelf(s, d)
            && d.current == Wanted(s) && d.current.Some? && d.restores.Keys == {} && d.discards == s.discards
            && Source(s).Some? && Loaded(d) == Loaded(s)
  {
  }

  lemma ConfirmIsConfirmed(s: Disk, l: Listing)
    requires Confirming(s) && OnlyToken(s, s.journal.value.token)
    ensures Goal(s).Ok? ==> RecoverRun(s, l).result == Ok(true) && Confirmed(s, Recovered(s, l), Goal(s).value)
    ensures Goal(s).Err? ==>
              && RecoverRun(s, l).result == Err(LineageError(Goal(s).error)) && Halted(s, Recovered(s, l))
              && Recovered(s, l).current == Wanted(s) && Recovered(s, l).discards == s.discards
  {
    var d := AfterScrub(Placed(s), s.journal.value.scrub);
    ConfirmEnds(s, l);
    GoalIsPresent(s);
    ScrubbedDisk(s);
    hide RecoverRun, Recovered, Moved, Goal, AfterScrub, Loaded, Placed, Wanted, Source;
    if Goal(s).Ok? {
      MovedHeadReloads(s, Recovered(s, l), Goal(s).value);
    } else {
      LoadingIsIdempotent(d);
    }
  }

  lemma MidConfirmGoesOn(s: Disk, m: Disk)
    requires Confirming(s) && MidConfirm(s, m) && s.journal.value.phase.OldMoved?
    ensures Confirming(m) && OnlyToken(m, m.journal.value.token) && Goal(m) == Goal(s) && Wanted(m) == Wanted(s)
  {
    GoalIsStable(s, m);
  }

  lemma ConfirmRestarts(s: Disk, l: Listing, m: Disk, k: Listing)
    requires Confirming(s) && OnlyToken(s, s.journal.value.token) && s.journal.value.phase.OldMoved?
    requires s.journal.value.recovery.value !in s.receipts && !RedirectionWindow(s)
    requires m in RecoverRun(s, l).steps
    ensures Alike(s, l, m, k)
  {
    ConfirmStates(s, l, m);
    if Goal(s).Ok? && m == Recovered(s, l) {
      hide Confirming, Goal, RedirectionWindow;
      ConfirmedRestarts(s, l, k);
    } else {
      MidConfirmRestarts(s, l, m, k);
    }
  }

  lemma ConfirmedRestarts(s: Disk, l: Listing, k: Listing)
    requires Confirming(s) && OnlyToken(s, s.journal.value.token) && s.journal.value.phase.OldMoved?
    requires s.journal.value.recovery.value !in s.receipts && !RedirectionWindow(s) && Goal(s).Ok?
    ensures Alike(s, l, Recovered(s, l), k)
  {
    var m := Recovered(s, l);
    ConfirmIsConfirmed(s, l);
    GoalIsPresent(s);
    hide RecoverRun, Recovered, Goal;
    PendingEnds(m, k);
    LoadingIsIdempotent(m);
    hide Loaded;
  }

  lemma ConfirmedIsDetermined(s: Disk, m: Disk, x: Disk, y: Disk, head: Id)
    requires MidConfirm(s, m) && Confirmed(s, x, head) && Confirmed(m, y, head) && Wanted(m) == Wanted(s)
    ensures SameOutcome(y, x)
  {
  }

  lemma MidConfirmRestarts(s: Disk, l: Listing, m: Disk, k: Listing)
    requires Confirming(s) && OnlyToken(s, s.journal.value.token) && s.journal.value.phase.OldMoved? && MidConfirm(s, m)
    ensures Alike(s, l, m, k)
  {
    ConfirmIsConfirmed(s, l);
    MidConfirmGoesOn(s, m);
    ConfirmIsConfirmed(m, k);
    hide RecoverRun, Recovered, Goal, Confirmed, Wanted, Confirming, Loaded;
    if Goal(s).Ok? {
      ConfirmedIsDetermined(s, m, Recovered(s, l), Recovered(m, k), Goal(s).value);
    }
  }

  /** In the redirection window the recovery succeeds and the one right after it refuses. */
  lemma RedirectionIsRefused(s: Disk, l: Listing, k: Listing)
    requires RedirectionWindow(s) && OnlyToken(s, s.journal.value.token)
    ensures RecoverRun(s, l).result == Ok(true) && Recovered(s, l) in RecoverRun(s, l).steps
    ensures Head(Recovered(s, l)) == Some(Goal(s).value) && Goal(s).value != s.journal.value.checkpoint
    ensures RecoverRun(Recovered(s, l), k).result == Err(HeadMismatch)
    ensures Recovered(s, l).restores.Keys == {} && Recovered(s, l).discards == s.discards
  {
    ConfirmEnds(s, l);
    ConfirmIsConfirmed(s, l);
    GoalIsPresent(s);
    hide Goal;
  }

  lemma WaitRestarts(s: Disk, l: Listing, m: Disk, k: Listing)
    requires Pending(s) && s.journal.value.recovery.value !in s.receipts
    requires m in RecoverRun(s, l).steps
    ensures Alike(s, l, m, k)
  {
    PendingEnds(s, l);
    LoadingIsIdempotent(s);
    PendingEnds(m, k);
    LoadingIsIdempotent(m);
    hide RecoverRun;
  }

  /** The outcome of a cleanup that is over. */
  ghost predicate CleanedUp(s: Disk, e: Disk) {
    && s.journal.Some? && s.journal.value.Deferred() && s.journal.value.recovery.value in s.receipts
    && e.journal == None && e.current == s.current && e.snapshots == s.snapshots && e.restores == s.restores
    && e.discards.Keys == {} && Head(e) == Head(s)
    && e.receipts == s.receipts[s.journal.value.recovery.value :=
                       s.receipts[s.journal.value.recovery.value].(completed := true)]
  }

  lemma CleanupIsCleanedUp(s: Disk, l: Listing)
    requires Pending(s) && OnlyToken(s, s.journal.value.token) && s.journal.value.recovery.value in s.receipts
    ensures RecoverRun(s, l).result.Ok? && CleanedUp(s, Recovered(s, l))
  {
    PendingEnds(s, l);
    LoadingIsIdempotent(s);
    hide RecoverRun;
  }

  /** Each disk of a cleanup is one from which it can be finished. */
  lemma CleanupStates(s: Disk, l: Listing, m: Disk)
    requires Pending(s) && OnlyToken(s, s.journal.value.token) && s.journal.value.recovery.value in s.receipts
    requires m in RecoverRun(s, l).steps && m != Recovered(s, l)
    ensures Pending(m) && OnlyToken(m, s.journal.value.token) && m.current == s.current && m.journal == s.journal
    ensures m.snapshots == s.snapshots && m.restores == s.restores && Head(m) == Head(s)
    ensures s.journal.value.recovery.value in m.receipts
    ensures m.receipts[s.journal.value.recovery.value := m.receipts[s.journal.value.recovery.value].(completed := true)]
            == s.receipts[s.journal.value.recovery.value := s.receipts[s.journal.value.recovery.value].(completed := true)]
  {
    PendingEnds(s, l);
    LoadingIsIdempotent(s);
    hide RecoverRun, Recovered, Loaded;
  }

  lemma CleanupRestarts(s: Disk, l: Listing, m: Disk, k: Listing)
    requires Pending(s) && OnlyToken(s, s.journal.value.token) && s.journal.value.recovery.value in s.receipts
    requires m in RecoverRun(s, l).steps && Lists(k, m)
    ensures Alike(s, l, m, k)
  {
    assert s.restores.Keys == {};
    hide RecoverRun, Recovered, OnlyToken, Head, Lists;
    CleanupIsCleanedUp(s, l);
    if m == Recovered(s, l) {
      NothingToRecover(m, k);
    } else {
      CleanupStates(s, l, m);
      hide Pending;
      CleanupIsCleanedUp(m, k);
    }
  }

  // ---------------------------------------------------------------- the theorems

  lemma RefusalRestarts(s: Disk, l: Listing, m: Disk, k: Listing)
    requires Inv(s) && Refused(s, l) && !Aborting(s) && !Committing(s) && !Confirming(s) && !Pending(s)
    requires s.journal.Some? && m in RecoverRun(s, l).steps
    ensures Alike(s, l, m, k)
  {
    LoadingIsIdempotent(s);
    hide AdoptRun, Resolution, Moved, CleanupSteps;
  }

  lemma RestartsOutsideWindows(s: Disk, l: Listing, m: Disk, k: Listing)
    requires Inv(s) && Lists(l, s) && !PromotionWindow(s) && !RedirectionWindow(s)
    requires m in RecoverRun(s, l).steps && Lists(k, m)
    ensures Alike(s, l, m, k)
  {
    if s.journal.None? {
      NothingToRecover(s, l);
    } else {
      Classified(s, l);
      hide RecoverRun, Recovered, Alike, Goal, Refused;
      if Aborting(s) {
        AbortRestarts(s, l, m, k);
      } else if Committing(s) {
        CommitRestarts(s, l, m, k);
      } else if Confirming(s) {
        ConfirmRestarts(s, l, m, k);
      } else if !Pending(s) {
        RefusalRestarts(s, l, m, k);
      } else if s.journal.value.recovery.value in s.receipts {
        CleanupRestarts(s, l, m, k);
      } else {
        WaitRestarts(s, l, m, k);
      }
    }
  }

  lemma PromotionIsFirst(s: Disk, l: Listing)
    requires Inv(s) && PromotionWindow(s)
    ensures Placed(s) in RecoverRun(s, l).steps && (Committing(s) || Confirming(s))
  {
    assert Start(s) == [Placed(s)];
    if s.journal.value.Deferred() {
      ConfirmSteps(s, l);
    } else {
      CommitSteps(s, l);
    }
    hide RecoverRun, AdoptRun, ConcludeRun, Goal;
  }

  lemma PromotionEndsElsewhere(s: Disk, l: Listing)
    requires Inv(s) && PromotionWindow(s)
    ensures RecoverRun(s, l).result.Ok? && Recovered(s, l).journal.None? ==> Head(Recovered(s, l)) != Head(s)
  {
    if s.journal.value.Deferred() {
      ConfirmIsConfirmed(s, l);
    } else {
      CommitOver(s, l);
    }
    hide RecoverRun, Recovered, Goal, Loaded;
  }

  lemma PromotedAborts(s: Disk, k: Listing)
    requires Inv(s) && PromotionWindow(s)
    ensures var m := Placed(s);
            && RecoverRun(m, k).result == Ok(true) && Recovered(m, k).current == Some(s.restores[s.journal.value.token])
            && Recovered(m, k).discards.Keys == {} && Recovered(m, k).journal == None && Head(Recovered(m, k)) == Head(s)
  {
    AbortEnds(Placed(s), k);
    hide RecoverRun, Goal;
  }

  /** In the promotion window, a second crash right after the promotion is read as an abort:
      the old tree is deleted, and the new one stays under the old head with no journal. */
  lemma PromotionIsForgotten(s: Disk, l: Listing) returns (m: Disk, k: Listing)
    requires Inv(s) && PromotionWindow(s)
    ensures m in RecoverRun(s, l).steps && Lists(k, m) && RecoverRun(m, k).result.Ok?
    ensures Recovered(m, k).current == Some(s.restores[s.journal.value.token])
    ensures Recovered(m, k).discards.Keys == {} && Recovered(m, k).journal == None && Head(Recovered(m, k)) == Head(s)
    ensures !Alike(s, l, m, k)
  {
    m, k := Placed(s), Listing([], [s.journal.value.token]);
    PromotionIsFirst(s, l);
    PromotionEndsElsewhere(s, l);
    PromotedAborts(s, k);
    assert Lists(k, m);
    hide RecoverRun, Recovered, Loaded, Inv, Goal, Committing, Confirming;
  }

  /** Recovery of a reachable disk can be cut anywhere and run again with the same result and
      outcome, exactly outside the two windows. */
  lemma RestartableExactly(s: Disk, l: Listing)
    requires Inv(s) && Lists(l, s)
    ensures Restartable(s, l) <==> !PromotionWindow(s) && !RedirectionWindow(s)
  {
    hide Alike, RecoverRun, Goal;
    if PromotionWindow(s) {
      var m, k := PromotionIsForgotten(s, l);
      assert !Alike(s, l, m, k);
    } else if RedirectionWindow(s) {
      var m, k := RedirectionIsSeen(s, l);
      assert !Alike(s, l, m, k);
    } else {
      forall m, k | m in RecoverRun(s, l).steps && Lists(k, m) ensures Alike(s, l, m, k) {
        RestartsOutsideWindows(s, l, m, k);
      }
    }
  }

  lemma RedirectionShape(s: Disk)
    requires Inv(s) && RedirectionWindow(s)
    ensures s.journal.Some? && OnlyToken(s, s.journal.value.token) && s.discards.Keys == {s.journal.value.token}
  {
    hide Goal, IndexShape, ReceiptShape;
  }

  lemma RedirectionIsSeen(s: Disk, l: Listing) returns (m: Disk, k: Listing)
    requires Inv(s) && RedirectionWindow(s)
    ensures m in RecoverRun(s, l).steps && Lists(k, m) && !Alike(s, l, m, k)
  {
    hide RecoverRun, Recovered, Goal, Head, Inv, RedirectionWindow, SameOutcome;
    RedirectionShape(s);
    m, k := Recovered(s, l), Listing([], [s.journal.value.token]);
    RedirectionIsRefused(s, l, k);
  }
}
