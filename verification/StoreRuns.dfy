/** What every step of every store operation keeps, over all runs cut at any step. */
module StoreRuns {
  import opened Base
  import opened Lineage
  import opened LineageForest
  import opened SessionDisk
  import opened RollbackRecovery
  import opened RollbackAtomicity

  // ---------------------------------------------------------------- one step

  /** A committed deferred rollback without a receipt keeps its journal and its old tree. */
  ghost predicate AwaitingCleanup(d: Disk) {
    && d.journal.Some? && d.journal.value.Deferred() && d.journal.value.phase.Committed?
    && d.journal.value.recovery.value !in d.receipts
  }

  ghost predicate Retains(x: Disk, y: Disk) {
    AwaitingCleanup(x) ==>
      && y.journal == x.journal
      && x.journal.value.token in x.discards && x.journal.value.token in y.discards
      && y.discards[x.journal.value.token] == x.discards[x.journal.value.token]
  }

  /** Receipts go from none to started to completed, and keep what they name. */
  ghost predicate ReceiptsAdvance(x: Disk, y: Disk) {
    && (forall rid :: rid in x.receipts ==>
          && rid in y.receipts && y.receipts[rid].checkpoint == x.receipts[rid].checkpoint
          && y.receipts[rid].discard == x.receipts[rid].discard
          && (x.receipts[rid].completed ==> y.receipts[rid].completed))
    && (forall rid :: rid in y.receipts && rid !in x.receipts ==>
          && !y.receipts[rid].completed && AwaitingCleanup(x) && x.journal.value.recovery == Some(rid)
          && y.receipts[rid] == NewReceipt(x.journal.value))
  }

  ghost predicate Lawful(x: Disk, y: Disk) {
    Inv(y) && Retains(x, y) && ReceiptsAdvance(x, y)
  }

  ghost predicate AllLawful(d: Disk, steps: seq<Disk>)
    decreases |steps|
  {
    steps == [] || (Lawful(d, steps[0]) && AllLawful(steps[0], steps[1..]))
  }

  lemma {:induction false} LawfulConcat(d: Disk, a: seq<Disk>, b: seq<Disk>)
    requires AllLawful(d, a) && AllLawful(After(d, a), b)
    ensures AllLawful(d, a + b)
    decreases |a|
  {
    if a == [] {
      assert a + b == b;
    } else {
      LawfulConcat(a[0], a[1..], b);
      assert (a + b)[1..] == a[1..] + b;
    }
  }

  lemma {:induction false} LawfulEnd(d: Disk, steps: seq<Disk>)
    requires Inv(d) && AllLawful(d, steps)
    ensures Inv(After(d, steps)) && forall s :: s in steps ==> Inv(s)
    decreases |steps|
  {
    if steps != [] {
      LawfulEnd(steps[0], steps[1..]);
    }
  }

  lemma LawfulOne(d: Disk, x: Disk)
    requires Lawful(d, x)
    ensures AllLawful(d, [x])
  {
  }

  lemma LawfulCons(d: Disk, x: Disk, rest: seq<Disk>)
    requires Lawful(d, x) && AllLawful(x, rest)
    ensures AllLawful(d, [x] + rest)
  {
    LawfulOne(d, x);
    LawfulConcat(d, [x], rest);
  }

  // ---------------------------------------------------------------- index and scrub

  lemma LoadedIsForest(d: Disk)
    requires Inv(d)
    ensures Forest(Loaded(d))
  {
    assert Forest(EMPTY_INDEX);
    ReconcileKeepsForest(if d.index.Some? then d.index.value else EMPTY_INDEX, d.snapshots.Keys);
  }

  lemma IndexIsLawful(d: Disk, ix: Index)
    requires Inv(d) && Forest(ix)
    ensures Lawful(d, WithIndex(d, ix))
  {
  }

  lemma LoadIsLawful(d: Disk)
    requires Inv(d)
    ensures AllLawful(d, LoadSteps(d)) && Inv(AfterLoad(d))
  {
    LoadedIsForest(d);
    IndexIsLawful(d, Loaded(d));
    LawfulOne(d, AfterLoad(d));
  }

  lemma CurrentIsLawful(d: Disk, tree: Tree)
    requires Inv(d) && d.current.Some?
    ensures Lawful(d, d.(current := Some(tree)))
  {
  }

  lemma {:induction false} ScrubIsLawful(d: Disk)
    requires Inv(d) && d.current.Some?
    ensures AllLawful(d, ScrubSteps(d))
    decreases |d.current.value.runtime|
  {
    var runtime := d.current.value.runtime;
    if runtime != [] {
      var d1 := WithRuntime(d, runtime[1..]);
      CurrentIsLawful(d, d1.current.value);
      ScrubIsLawful(d1);
    }
  }

  lemma RequestedScrubIsLawful(d: Disk, scrub: bool)
    requires Inv(d) && d.current.Some?
    ensures AllLawful(d, RequestedScrub(d, scrub)) && Inv(AfterScrub(d, scrub))
    ensures After(d, RequestedScrub(d, scrub)) == AfterScrub(d, scrub)
  {
    AfterRequestedScrub(d, scrub);
    if scrub {
      ScrubIsLawful(d);
      LawfulEnd(d, ScrubSteps(d));
    }
  }

  lemma AdoptedIsLawful(d: Disk, head: Id)
    requires Inv(d) && head in Loaded(d).cps
    ensures var e := WithIndex(d, Moved(Loaded(d), head)); Lawful(AfterLoad(d), e) && Inv(e)
  {
    LoadIsLawful(d);
    LoadedIsForest(d);
    MoveHeadKeepsForest(Loaded(d), head);
    hide Lawful, Moved, Loaded, Forest;
    IndexIsLawful(AfterLoad(d), Moved(Loaded(d), head));
  }

  lemma AdoptIsLawful(d: Disk, c: Id)
    requires Inv(d)
    ensures AllLawful(d, AdoptRun(d, c).steps) && Inv(After(d, AdoptRun(d, c).steps))
    ensures var e := After(d, AdoptRun(d, c).steps); e.index.Some? && e == d.(index := e.index)
  {
    hide Inv, Lawful, Loaded, Moved, Resolution, LoadSteps;
    LoadIsLawful(d);
    AfterLoadSteps(d);
    var r := Resolution(Loaded(d), Some(c), None);
    if r.Ok? {
      ResolvedIdIsPresent(Loaded(d), c);
      AdoptedIsLawful(d, r.value);
      var e := WithIndex(d, Moved(Loaded(d), r.value));
      LawfulOne(AfterLoad(d), e);
      LawfulConcat(d, LoadSteps(d), [e]);
    }
  }

  // ---------------------------------------------------------------- rollback

  /** A uuid no receipt has named. Staging names cannot collide: there are none. */
  ghost predicate FreshToken(d: Disk, token: Token) {
    forall rid :: rid in d.receipts ==> d.receipts[rid].discard != token
  }

  ghost predicate Startable(d: Disk, t: Transaction) {
    && Inv(d) && Ready(d, t) && FreshToken(d, t.token) && t.phase.Preparing?
    && (t.Deferred() ==> ValidId(t.recovery.value))
  }

  lemma BeginIsLawful(d: Disk, t: Transaction)
    requires Startable(d, t)
    ensures var d1 := Journaled(d, t, Preparing); Lawful(d, d1) && Lawful(d1, Cleared(d1))
  {
  }

  lemma StageIsLawful(d: Disk, t: Transaction)
    requires Startable(d, t)
    ensures var d1 := Journaled(d, t, Preparing);
            var d2 := Staged(d1, t, d.snapshots[t.checkpoint]);
            && Lawful(d1, d2) && Lawful(d2, Journaled(d2, t, Prepared))
            && Lawful(d2, WithoutRestore(d2, t.token))
            && Lawful(WithoutRestore(d2, t.token), Cleared(WithoutRestore(d2, t.token)))
  {
    hide Loaded, Forest;
  }

  lemma MoveIsLawful(d: Disk, t: Transaction)
    requires Startable(d, t)
    ensures var d3 := Journaled(Staged(Journaled(d, t, Preparing), t, d.snapshots[t.checkpoint]), t, Prepared);
            var d4 := OldMovedAway(d, t);
            Lawful(d3, d4) && Lawful(d4, Journaled(d4, t, OldMoved))
  {
  }

  lemma OpeningIsLawful(d: Disk, t: Transaction)
    requires Startable(d, t)
    ensures AllLawful(d, Opening(d, t))
  {
    BeginIsLawful(d, t);
    StageIsLawful(d, t);
    MoveIsLawful(d, t);
    hide Lawful, Startable;
    var d1 := Journaled(d, t, Preparing);
    var d2 := Staged(d1, t, d.snapshots[t.checkpoint]);
    var d3 := Journaled(d2, t, Prepared);
    var d4 := OldMovedAway(d, t);
    var d5 := Journaled(d4, t, OldMoved);
    LawfulOne(d4, d5);
    LawfulCons(d3, d4, [d5]);
    LawfulCons(d2, d3, [d4, d5]);
    LawfulCons(d1, d2, [d3, d4, d5]);
    LawfulCons(d, d1, [d2, d3, d4, d5]);
    assert Opening(d, t) == [d1] + [d2, d3, d4, d5];
  }

  /** The disk with the checkpoint's tree in place, in a run that goes on from `d`. */
  ghost predicate Swapped(d: Disk, t: Transaction, p: Disk) {
    && Startable(d, t) && InPlace(d, t, p) && Inv(p)
  }

  lemma PlacedTree(d: Disk, t: Transaction)
    requires Ready(d, t) && d.index == Some(Loaded(d))
    ensures InPlace(d, t, Promoted(Journaled(OldMovedAway(d, t), t, OldMoved), t))
  {
    assert d.discards == map[];
    assert Promoted(Journaled(OldMovedAway(d, t), t, OldMoved), t).restores.Keys == {};
  }

  lemma PromotionIsLawful(d: Disk, t: Transaction)
    requires Startable(d, t)
    ensures var d5 := Journaled(OldMovedAway(d, t), t, OldMoved); Lawful(d5, Promoted(d5, t))
  {
    hide Forest;
    assert Promoted(Journaled(OldMovedAway(d, t), t, OldMoved), t).restores.Keys == {};
  }

  lemma PlaceIsLawful(d: Disk, t: Transaction)
    requires Startable(d, t) && d.index == Some(Loaded(d))
    ensures var d5 := Journaled(OldMovedAway(d, t), t, OldMoved);
            Lawful(d5, Promoted(d5, t)) && Swapped(d, t, Promoted(d5, t))
  {
    PromotionIsLawful(d, t);
    hide Promoted, OldMovedAway, Inv, InPlace;
    PlacedTree(d, t);
  }

  lemma TargetIndexIsForest(d: Disk, t: Transaction)
    requires Startable(d, t)
    ensures Forest(Moved(Loaded(d), t.checkpoint))
  {
    LoadedIsForest(d);
    SnapshotsAreIndexed(d);
    MoveHeadKeepsForest(Loaded(d), t.checkpoint);
  }

  lemma CommitRecordIsLawful(d: Disk, t: Transaction, p: Disk)
    requires Startable(d, t) && Inv(p) && p.journal == Some(t.(phase := OldMoved)) && SameShelf(d, p)
    requires p.current.Some? && p.restores.Keys == {} && t.token in p.discards
    ensures Lawful(p, Journaled(p, t, Committed))
  {
  }

  lemma ClosingDeferredIsLawful(d: Disk, t: Transaction, p: Disk)
    requires Swapped(d, t, p) && t.Deferred()
    ensures AllLawful(p, ClosingSteps(p, t, Loaded(d)))
  {
    var scrubbed := AfterScrub(p, t.scrub);
    var indexed := WithIndex(scrubbed, Moved(Loaded(d), t.checkpoint));
    var last := Journaled(indexed, t, Committed);
    TargetIndexIsForest(d, t);
    RequestedScrubIsLawful(p, t.scrub);
    IndexIsLawful(scrubbed, Moved(Loaded(d), t.checkpoint));
    CommitRecordIsLawful(d, t, indexed);
    hide Lawful, Moved, Loaded, RequestedScrub;
    LawfulOne(indexed, last);
    LawfulCons(scrubbed, indexed, [last]);
    assert [indexed] + [last] == [indexed, last];
    LawfulConcat(p, RequestedScrub(p, t.scrub), [indexed, last]);
  }

  lemma ClearIsLawful(d: Disk)
    requires Inv(d) && d.journal.Some? && d.current.Some? && d.restores.Keys == {} && d.discards.Keys == {}
    requires !AwaitingCleanup(d)
    requires d.journal.value.Deferred() && d.journal.value.recovery.value in d.receipts ==>
      d.receipts[d.journal.value.recovery.value].completed
    ensures Lawful(d, Cleared(d))
  {
  }

  lemma DiscardIsLawful(d: Disk, token: Token)
    requires Inv(d) && d.journal.Some? && d.current.Some? && !AwaitingCleanup(d)
    ensures Lawful(d, WithoutDiscard(d, token))
  {
  }

  lemma ForgetIsLawful(d: Disk, t: Transaction, q: Disk)
    requires Startable(d, t) && !t.Deferred() && Inv(q) && q.journal == Some(t.(phase := Committed))
    requires q.current.Some? && SameShelf(d, q) && q.restores.Keys == {}
    ensures AllLawful(q, ForgetSteps(q, t, Loaded(d)))
  {
    var ix := Moved(Loaded(d), t.checkpoint);
    TargetIndexIsForest(d, t);
    var dropped := WithoutDiscard(q, t.token);
    var indexed := WithIndex(dropped, ix);
    DiscardIsLawful(q, t.token);
    assert dropped.discards.Keys == {};
    hide Moved, Loaded, Startable;
    IndexIsLawful(dropped, ix);
    ClearIsLawful(indexed);
    hide Lawful, Inv;
    LawfulOne(indexed, Cleared(indexed));
    LawfulCons(dropped, indexed, [Cleared(indexed)]);
    LawfulCons(q, dropped, [indexed] + [Cleared(indexed)]);
    assert ForgetSteps(q, t, Loaded(d)) == [dropped] + ([indexed] + [Cleared(indexed)]);
  }

  lemma ClosingImmediateIsLawful(d: Disk, t: Transaction, p: Disk)
    requires Swapped(d, t, p) && !t.Deferred()
    ensures AllLawful(p, ClosingSteps(p, t, Loaded(d)))
  {
    var committed := Journaled(p, t, Committed);
    var scrubbed := AfterScrub(committed, t.scrub);
    CommitRecordIsLawful(d, t, p);
    RequestedScrubIsLawful(committed, t.scrub);
    ForgetIsLawful(d, t, scrubbed);
    hide Lawful, Moved, Loaded, RequestedScrub, ForgetSteps;
    LawfulConcat(committed, RequestedScrub(committed, t.scrub), ForgetSteps(scrubbed, t, Loaded(d)));
    LawfulCons(p, committed, RequestedScrub(committed, t.scrub) + ForgetSteps(scrubbed, t, Loaded(d)));
    assert ClosingSteps(p, t, Loaded(d))
        == [committed] + (RequestedScrub(committed, t.scrub) + ForgetSteps(scrubbed, t, Loaded(d)));
  }

  lemma SnapshotFaultIsLawful(d: Disk, t: Transaction, leftTree: bool)
    requires Startable(d, t)
    ensures AllLawful(d, SwapSteps(d, t, Loaded(d), SnapshotFails(leftTree)))
  {
    BeginIsLawful(d, t);
    StageIsLawful(d, t);
    hide Lawful, Startable;
    var d1 := Journaled(d, t, Preparing);
    var d2 := Staged(d1, t, d.snapshots[t.checkpoint]);
    var d3 := WithoutRestore(d2, t.token);
    if leftTree {
      LawfulOne(d3, Cleared(d3));
      LawfulCons(d2, d3, [Cleared(d3)]);
      LawfulCons(d1, d2, [d3, Cleared(d3)]);
      LawfulCons(d, d1, [d2, d3, Cleared(d3)]);
      assert [d1] + [d2, d3, Cleared(d3)] == [d1, d2, d3, Cleared(d3)];
    } else {
      LawfulOne(d1, Cleared(d1));
      LawfulCons(d, d1, [Cleared(d1)]);
      assert [d1] + [Cleared(d1)] == [d1, Cleared(d1)];
    }
  }

  lemma HandlerIsLawful(d: Disk, t: Transaction)
    requires Startable(d, t)
    ensures var d5 := Journaled(OldMovedAway(d, t), t, OldMoved);
            var back := PutBack(d5, t.token);
            var bare := WithoutRestore(back, t.token);
            Lawful(d5, back) && Lawful(back, bare) && Lawful(bare, Cleared(bare))
  {
    var back := PutBack(Journaled(OldMovedAway(d, t), t, OldMoved), t.token);
    assert back.discards.Keys == {} && WithoutRestore(back, t.token).restores.Keys == {};
  }

  lemma RenameFaultIsLawful(d: Disk, t: Transaction)
    requires Startable(d, t)
    ensures AllLawful(d, SwapSteps(d, t, Loaded(d), RenameFails))
  {
    var d5 := Journaled(OldMovedAway(d, t), t, OldMoved);
    var back := PutBack(d5, t.token);
    var bare := WithoutRestore(back, t.token);
    OpeningIsLawful(d, t);
    HandlerIsLawful(d, t);
    assert After(d, Opening(d, t)) == d5;
    hide Lawful, Startable, Opening, PutBack, WithoutRestore, OldMovedAway;
    LawfulOne(bare, Cleared(bare));
    LawfulCons(back, bare, [Cleared(bare)]);
    LawfulThrough(d, Opening(d, t), back, [bare] + [Cleared(bare)]);
    assert Opening(d, t) + [back] + ([bare] + [Cleared(bare)]) == Opening(d, t) + [back, bare, Cleared(bare)];
  }

  lemma SwapIsLawful(d: Disk, t: Transaction, fault: Fault)
    requires Startable(d, t) && d.index == Some(Loaded(d))
    ensures AllLawful(d, SwapSteps(d, t, Loaded(d), fault))
  {
    match fault
    case SnapshotFails(leftTree) => SnapshotFaultIsLawful(d, t, leftTree);
    case RenameFails => RenameFaultIsLawful(d, t);
    case NoFault => CompletedSwapIsLawful(d, t);
  }

  lemma CompletedSwapIsLawful(d: Disk, t: Transaction)
    requires Startable(d, t) && d.index == Some(Loaded(d))
    ensures AllLawful(d, SwapSteps(d, t, Loaded(d), NoFault))
  {
    var d5 := Journaled(OldMovedAway(d, t), t, OldMoved);
    var p := Promoted(d5, t);
    assert After(d, Opening(d, t)) == d5 && p.current.Some?;
    OpeningIsLawful(d, t);
    PlaceIsLawful(d, t);
    hide Lawful, Inv, Opening, ClosingSteps, Loaded, Swapped, Promoted, OldMovedAway, Journaled;
    if t.Deferred() {
      ClosingDeferredIsLawful(d, t, p);
    } else {
      ClosingImmediateIsLawful(d, t, p);
    }
    LawfulThrough(d, Opening(d, t), p, ClosingSteps(p, t, Loaded(d)));
  }

  lemma LawfulThrough(d: Disk, before: seq<Disk>, x: Disk, rest: seq<Disk>)
    requires AllLawful(d, before) && Lawful(After(d, before), x) && AllLawful(x, rest)
    ensures AllLawful(d, before + [x] + rest)
  {
    LawfulOne(After(d, before), x);
    LawfulConcat(d, before, [x]);
    LawfulConcat(d, before + [x], rest);
  }

  lemma LoadedIsStartable(d: Disk, a: RollbackArgs, token: Token)
    requires Inv(d) && FreshToken(d, token) && Refusal(d, a).None? && Target(d, Loaded(d), a).Ok?
    ensures var t := NewTransaction(a, Target(d, Loaded(d), a).value, token);
            Startable(AfterLoad(d), t) && AfterLoad(d).index == Some(Loaded(AfterLoad(d))) && Loaded(AfterLoad(d)) == Loaded(d)
  {
    LoadingIsIdempotent(d);
    LoadIsLawful(d);
    hide Lawful;
  }

  lemma RollbackIsLawful(d: Disk, a: RollbackArgs, token: Token, fault: Fault)
    requires Inv(d) && FreshToken(d, token)
    ensures AllLawful(d, RollbackRun(d, a, token, fault).steps)
  {
    LoadIsLawful(d);
    var target := Target(d, Loaded(d), a);
    if Refusal(d, a).None? && target.Ok? {
      var t := NewTransaction(a, target.value, token);
      var d0 := AfterLoad(d);
      LoadedIsStartable(d, a, token);
      AfterLoadSteps(d);
      hide Lawful, Inv, SwapSteps, LoadSteps, Startable, Loaded, Refusal, Target, NewTransaction, FreshToken;
      SwapIsLawful(d0, t, fault);
      LawfulConcat(d, LoadSteps(d), SwapSteps(d0, t, Loaded(d), fault));
    }
  }

  // ---------------------------------------------------------------- recovery

  lemma DropIsLawful(d: Disk, t: Transaction)
    requires Inv(d) && d.journal == Some(t) && d.current.Some?
    requires t.Deferred() ==> !t.phase.Committed?
    ensures AllLawful(d, DropSteps(d, t)) && Inv(AfterDrop(d, t))
  {
    var d1 := WithoutDiscard(d, t.token);
    var d2 := WithoutRestore(d1, t.token);
    assert Lawful(d, d1) && Lawful(d1, d2);
    LawfulOne(d, d1);
    LawfulOne(d1, d2);
    AfterDropDiscard(d, t.token);
    if t.token !in d.discards {
      assert d1 == d;
    }
    LawfulConcat(d, DropDiscard(d, t.token), DropRestore(d1, t.token));
  }

  lemma ConcludeIsLawful(d: Disk, t: Transaction, commit: bool)
    requires Inv(d) && d.journal == Some(t) && d.current.Some? && d.restores.Keys == {} && d.discards.Keys == {}
    requires t.Deferred() ==> !t.phase.Committed?
    ensures AllLawful(d, ConcludeRun(d, t, commit).steps)
  {
    var adopt := AdoptRun(d, t.checkpoint);
    AdoptIsLawful(d, t.checkpoint);
    var e := if commit then After(d, adopt.steps) else d;
    ClearIsLawful(e);
    LawfulOne(e, Cleared(e));
    hide Lawful, AdoptRun;
    if commit && adopt.result.Ok? {
      LawfulConcat(d, adopt.steps, [Cleared(e)]);
    }
  }

  lemma DropStagingIsLawful(d: Disk, t: Transaction, commit: bool)
    requires Inv(d) && d.journal == Some(t) && d.current.Some?
    requires t.Deferred() ==> !t.phase.Committed?
    ensures AllLawful(d, DropStagingRun(d, t, commit).steps)
  {
    var d1 := AfterDrop(d, t);
    DropIsLawful(d, t);
    assert d1.restores.Keys == {} && d1.discards.Keys == {};
    ConcludeIsLawful(d1, t, commit);
    AfterDropSteps(d, t);
    hide Lawful, ConcludeRun, DropSteps;
    LawfulConcat(d, DropSteps(d, t), ConcludeRun(d1, t, commit).steps);
  }

  lemma ConfirmRecordIsLawful(d: Disk, t: Transaction)
    requires Inv(d) && d.journal == Some(t) && t.Deferred() && d.current.Some? && !t.phase.Committed?
    requires t.token in d.discards && t.token !in d.restores
    ensures Lawful(d, Journaled(d, t, Committed))
  {
  }

  lemma ConfirmIsLawful(d: Disk, t: Transaction)
    requires Inv(d) && d.journal == Some(t) && t.Deferred() && d.current.Some? && !t.phase.Committed?
    ensures AllLawful(d, ConfirmDeferredRun(d, t).steps)
  {
    if t.token in d.discards && t.token !in d.restores {
      var d1 := AfterScrub(d, t.scrub);
      var adopt := AdoptRun(d1, t.checkpoint);
      var e := After(d1, adopt.steps);
      RequestedScrubIsLawful(d, t.scrub);
      AdoptIsLawful(d1, t.checkpoint);
      ConfirmRecordIsLawful(e, t);
      LawfulOne(e, Journaled(e, t, Committed));
      hide Lawful, AdoptRun, RequestedScrub;
      LawfulConcat(d, RequestedScrub(d, t.scrub), adopt.steps);
      AfterConcat(d, RequestedScrub(d, t.scrub), adopt.steps);
      LawfulConcat(d, RequestedScrub(d, t.scrub) + adopt.steps, [Journaled(e, t, Committed)]);
    }
  }

  lemma SettleIsLawful(d: Disk, t: Transaction)
    requires Inv(d) && d.journal == Some(t)
    ensures Settled(d, t).Ok?
    ensures var p := Settled(d, t).value;
            && p.disk == Placed(d) && AllLawful(d, p.steps) && After(d, p.steps) == p.disk && Inv(p.disk)
    ensures d.current.None? ==> !t.phase.Preparing? && !t.phase.Committed?
  {
    if d.current.None? {
      assert Promoted(d, t).restores.Keys == {};
      assert Lawful(d, Promoted(d, t));
      LawfulOne(d, Promoted(d, t));
    }
  }

  lemma CompletionIsLawful(d: Disk, t: Transaction, r: Receipt)
    requires Inv(d) && d.journal == Some(t) && t.Deferred() && t.phase.Committed? && d.current.Some?
    requires t.recovery.value in d.receipts && d.receipts[t.recovery.value] == r && d.discards.Keys == {}
    ensures Lawful(d, WithReceipt(d, t.recovery.value, r.(completed := true)))
  {
  }

  lemma CleanupIsLawful(d: Disk, t: Transaction, r: Receipt)
    requires Inv(d) && d.journal == Some(t) && t.Deferred() && t.phase.Committed? && d.current.Some?
    requires t.recovery.value in d.receipts && d.receipts[t.recovery.value] == r
    ensures AllLawful(d, CleanupSteps(d, t, r))
  {
    var d1 := WithoutDiscard(d, t.token);
    var d2 := WithReceipt(d1, t.recovery.value, r.(completed := true));
    DiscardIsLawful(d, t.token);
    assert d1.discards.Keys == {} && d.restores.Keys == {};
    CompletionIsLawful(d1, t, r);
    ClearIsLawful(d2);
    AfterDropDiscard(d, t.token);
    hide Lawful, Inv;
    LawfulOne(d, d1);
    LawfulOne(d2, Cleared(d2));
    LawfulCons(d1, d2, [Cleared(d2)]);
    assert [d2] + [Cleared(d2)] == [d2, Cleared(d2)];
    LawfulConcat(d, DropDiscard(d, t.token), [d2, Cleared(d2)]);
  }

  lemma PendingCleanupIsLawful(d: Disk, t: Transaction)
    requires Inv(d) && d.journal == Some(t) && t.Deferred() && t.phase.Committed? && d.current.Some?
    ensures AllLawful(d, PendingCleanupRun(d, t).steps)
  {
    LoadIsLawful(d);
    if t.recovery.value in d.receipts {
      var r := d.receipts[t.recovery.value];
      CleanupIsLawful(AfterLoad(d), t, r);
      AfterLoadSteps(d);
      hide Lawful, LoadSteps, CleanupSteps, Loaded;
      LawfulConcat(d, LoadSteps(d), CleanupSteps(AfterLoad(d), t, r));
    }
  }

  lemma RecoverIsLawful(d: Disk, l: Listing)
    requires Inv(d) && Lists(l, d)
    ensures AllLawful(d, RecoverRun(d, l).steps)
  {
    if d.journal.None? {
      NothingToRecover(d, l);
    } else {
      var t := d.journal.value;
      if t.Deferred() && t.phase.Committed? && d.current.Some? {
        PendingCleanupIsLawful(d, t);
      } else {
        SettleIsLawful(d, t);
        var p := Settled(d, t).value;
        if t.Deferred() && p.commit {
          ConfirmIsLawful(p.disk, t);
        } else {
          DropStagingIsLawful(p.disk, t, p.commit);
        }
        hide Lawful, ConfirmDeferredRun, DropStagingRun, Settled;
        LawfulConcat(d, p.steps, DecidedRun(p.disk, t, p.commit).steps);
      }
    }
  }

  // ---------------------------------------------------------------- completion

  lemma StartCleanupIsLawful(d: Disk, t: Transaction)
    requires Inv(d) && d.journal == Some(t) && AwaitingCleanup(d) && d.current.Some?
    ensures Lawful(d, WithReceipt(d, t.recovery.value, NewReceipt(t)))
  {
  }

  lemma FirstCompletionIsLawful(d: Disk, t: Transaction)
    requires Inv(d) && d.journal == Some(t) && AwaitingCleanup(d) && d.current.Some?
    ensures var d1 := WithReceipt(AfterLoad(d), t.recovery.value, NewReceipt(t));
            AllLawful(d, LoadSteps(d) + [d1] + CleanupSteps(d1, t, NewReceipt(t)))
  {
    var d0 := AfterLoad(d);
    var d1 := WithReceipt(d0, t.recovery.value, NewReceipt(t));
    LoadIsLawful(d);
    AfterLoadSteps(d);
    StartCleanupIsLawful(d0, t);
    CleanupIsLawful(d1, t, NewReceipt(t));
    hide Lawful, Inv, LoadSteps, CleanupSteps, Loaded;
    LawfulCons(d0, d1, CleanupSteps(d1, t, NewReceipt(t)));
    LawfulConcat(d, LoadSteps(d), [d1] + CleanupSteps(d1, t, NewReceipt(t)));
    assert LoadSteps(d) + [d1] + CleanupSteps(d1, t, NewReceipt(t))
        == LoadSteps(d) + ([d1] + CleanupSteps(d1, t, NewReceipt(t)));
  }

  lemma CompleteIsLawful(d: Disk, rid: RecoveryId)
    requires Inv(d)
    ensures AllLawful(d, CompleteRun(d, rid).steps)
  {
    LoadIsLawful(d);
    if d.journal.Some? && d.journal.value.Deferred() && d.journal.value.phase.Committed?
       && d.journal.value.recovery.value == rid && d.current.Some? {
      var t := d.journal.value;
      if rid in d.receipts {
        CleanupIsLawful(AfterLoad(d), t, d.receipts[rid]);
        AfterLoadSteps(d);
        hide Lawful, LoadSteps, CleanupSteps, Loaded;
        LawfulConcat(d, LoadSteps(d), CleanupSteps(AfterLoad(d), t, d.receipts[rid]));
      } else {
        FirstCompletionIsLawful(d, t);
        hide Lawful, Inv, LoadSteps, CleanupSteps, Loaded, AllLawful;
      }
    }
  }

  // ---------------------------------------------------------------- checkpoints

  lemma SnapshotsAreLawful(d: Disk, snapshots: map<Id, Tree>, ix: Index)
    requires Inv(d) && LIVE_CHILD !in snapshots && Forest(ix)
    ensures var d1 := d.(snapshots := snapshots); AllLawful(d, [d1, WithIndex(d1, ix)])
  {
    var d1 := d.(snapshots := snapshots);
    IndexIsLawful(d1, ix);
    assert Lawful(d, d1);
    LawfulOne(d1, WithIndex(d1, ix));
    LawfulCons(d, d1, [WithIndex(d1, ix)]);
    assert [d1] + [WithIndex(d1, ix)] == [d1, WithIndex(d1, ix)];
  }

  lemma CreateIsLawful(d: Disk, id: Id, info: Info)
    requires Inv(d)
    ensures AllLawful(d, CreateCheckpointRun(d, id, info).steps)
  {
    LoadIsLawful(d);
    LoadedIsForest(d);
    if ValidId(id) && d.current.Some? && id !in d.snapshots && id !in Loaded(d).cps {
      var snapshots := d.snapshots[id := d.current.value];
      var ix := Added(Loaded(d), id, info);
      var d1 := AfterLoad(d).(snapshots := snapshots);
      AddKeepsForest(Loaded(d), id, info);
      SnapshotsAreLawful(AfterLoad(d), snapshots, ix);
      AfterLoadSteps(d);
      hide Lawful, LoadSteps, Added;
      LawfulConcat(d, LoadSteps(d), [d1, WithIndex(d1, ix)]);
    }
  }

  lemma EraseIsLawful(d: Disk, c: Id)
    requires Inv(d)
    ensures AllLawful(AfterLoad(d), EraseSteps(AfterLoad(d), Loaded(d), c))
  {
    LoadIsLawful(d);
    LoadedIsForest(d);
    RemoveKeepsForest(Loaded(d), c);
    SnapshotsAreLawful(AfterLoad(d), d.snapshots - {c}, Removed(Loaded(d), c));
  }

  lemma DeleteIsLawful(d: Disk, id: Id, force: bool)
    requires Inv(d)
    ensures AllLawful(d, DeleteCheckpointRun(d, id, force).steps)
  {
    hide Inv, Lawful, LoadSteps, Resolution, Loaded, EraseSteps, AfterLoad;
    LoadIsLawful(d);
    var r := Resolution(Loaded(d), Some(id), None);
    if r.Ok? {
      EraseIsLawful(d, r.value);
      AfterLoadSteps(d);
      LawfulConcat(d, LoadSteps(d), EraseSteps(AfterLoad(d), Loaded(d), r.value));
    }
  }
}
