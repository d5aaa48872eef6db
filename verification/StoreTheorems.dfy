/** What holds over whole runs of the store: any operations, in any order, each cut after
    any number of its steps by a crash or by a step that raises. Creating the Session again
    is among them where it refuses, which is exactly where it keeps these promises. So is the
    late save of a load without the Session lock, whatever happened since it read. */
module StoreTheorems {
  import opened Base
  import opened Lineage
  import opened LineageForest
  import opened SessionDisk
  import opened RollbackRecovery
  import opened RollbackAtomicity
  import opened StoreRuns

  // ---------------------------------------------------------------- runs

  datatype Op =
    | CreateCheckpoint(id: Id, info: Info)
    | DeleteCheckpoint(id: Id, force: bool)
    | Rollback(args: RollbackArgs, token: Token, fault: Fault)
    | Recover(listing: Listing)
    | Complete(rid: RecoveryId)
    | ReadIndex
    | CreateSession
    | SaveStale(ix: Index)
    | AgentWrites(tree: Tree)

  ghost function Steps(d: Disk, op: Op): seq<Disk> {
    match op
    case CreateCheckpoint(id, info) => CreateCheckpointRun(d, id, info).steps
    case DeleteCheckpoint(id, force) => DeleteCheckpointRun(d, id, force).steps
    case Rollback(a, token, fault) => RollbackRun(d, a, token, fault).steps
    case Recover(l) => RecoverRun(d, l).steps
    case Complete(rid) => CompleteRun(d, rid).steps
    case ReadIndex => LoadSteps(d)
    case CreateSession => CreateSessionRun(d).steps
    case SaveStale(ix) => [WithIndex(d, ix)]
    case AgentWrites(tree) => if d.current.Some? then [d.(current := Some(tree))] else []
  }

  /** Rollback tokens are fresh uuids, a listing lists the directory, the Session is not
      created again in the middle of a swap, and a stale index is a forest, as every index is
      that was loaded at any time (`StoreRuns.LoadedIsForest`). */
  ghost predicate Allowed(d: Disk, op: Op) {
    match op
    case Rollback(_, token, _) => FreshToken(d, token)
    case Recover(l) => Lists(l, d)
    case CreateSession => d.current.Some?
    case SaveStale(ix) => Forest(ix)
    case _ => true
  }

  /** One call, of which only the first `cut` steps happen. */
  datatype Action = Action(op: Op, cut: nat)

  ghost function Happened(d: Disk, act: Action): seq<Disk> {
    var steps := Steps(d, act.op);
    if act.cut < |steps| then steps[..act.cut] else steps
  }

  ghost function Trace(d: Disk, acts: seq<Action>): seq<Disk>
    decreases |acts|
  {
    if acts == [] then []
    else
      var s := Happened(d, acts[0]);
      s + Trace(After(d, s), acts[1..])
  }

  ghost predicate Admissible(d: Disk, acts: seq<Action>)
    decreases |acts|
  {
    acts == [] || (Allowed(d, acts[0].op) && Admissible(After(d, Happened(d, acts[0])), acts[1..]))
  }

  /** A Session that was just created. */
  function Created(tree: Tree): Disk {
    Disk(Some(tree), map[], map[], map[], None, Some(EMPTY_INDEX), map[])
  }

  lemma OpIsLawful(d: Disk, op: Op)
    requires Inv(d) && Allowed(d, op)
    ensures AllLawful(d, Steps(d, op))
  {
    match op
    case CreateCheckpoint(id, info) => CreateIsLawful(d, id, info);
    case DeleteCheckpoint(id, force) => DeleteIsLawful(d, id, force);
    case Rollback(a, token, fault) => RollbackIsLawful(d, a, token, fault);
    case Recover(l) => RecoverIsLawful(d, l);
    case Complete(rid) => CompleteIsLawful(d, rid);
    case ReadIndex => LoadIsLawful(d);
    case CreateSession =>
    case SaveStale(ix) =>
      IndexIsLawful(d, ix);
      LawfulOne(d, WithIndex(d, ix));
    case AgentWrites(tree) => if d.current.Some? { CurrentIsLawful(d, tree); }
  }

  lemma {:induction false} LawfulPrefix(d: Disk, steps: seq<Disk>, n: nat)
    requires AllLawful(d, steps) && n <= |steps|
    ensures AllLawful(d, steps[..n])
    decreases n
  {
    if n > 0 {
      LawfulPrefix(steps[0], steps[1..], n - 1);
      assert steps[..n][1..] == steps[1..][..n - 1];
    }
  }

  /** Every step of every run keeps the invariant and the retention rules. */
  lemma {:induction false} RunIsLawful(d: Disk, acts: seq<Action>)
    requires Inv(d) && Admissible(d, acts)
    ensures AllLawful(d, Trace(d, acts))
    decreases |acts|
  {
    if acts != [] {
      var act := acts[0];
      var s := Happened(d, act);
      OpIsLawful(d, act.op);
      if act.cut < |Steps(d, act.op)| {
        LawfulPrefix(d, Steps(d, act.op), act.cut);
      }
      LawfulEnd(d, s);
      RunIsLawful(After(d, s), acts[1..]);
      LawfulConcat(d, s, Trace(After(d, s), acts[1..]));
    }
  }

  lemma ReachableInv(tree: Tree, acts: seq<Action>, s: Disk)
    requires Admissible(Created(tree), acts) && s in Trace(Created(tree), acts)
    ensures Inv(s)
  {
    assert Inv(Created(tree)) by { assert Forest(EMPTY_INDEX); }
    RunIsLawful(Created(tree), acts);
    LawfulEnd(Created(tree), Trace(Created(tree), acts));
  }

  // ---------------------------------------------------------------- the journal covers the staging trees

  /** In every state of every run: each staging tree is the journal's, the current tree is
      missing only in phases `prepared` and `old_moved` with both staging trees present, and
      recovery takes neither the orphan, nor the put-back, nor the "no current" branch. */
  lemma JournalCoversStaging(tree: Tree, acts: seq<Action>, s: Disk, l: Listing)
    requires Admissible(Created(tree), acts) && s in Trace(Created(tree), acts) && Lists(l, s)
    ensures forall x :: x in s.restores || x in s.discards ==> s.journal.Some? && s.journal.value.token == x
    ensures s.current.None? ==>
      && s.journal.Some? && (s.journal.value.phase.Prepared? || s.journal.value.phase.OldMoved?)
      && s.journal.value.token in s.restores && s.journal.value.token in s.discards
    ensures s.journal.None? ==> RecoverRun(s, l) == Run([], Ok(false))
    ensures s.journal.Some? ==>
      && Settled(s, s.journal.value).Ok?
      && (s.current.None? ==> Settled(s, s.journal.value).value.disk == Promoted(s, s.journal.value)
                              && Settled(s, s.journal.value).value.commit)
    ensures RecoverRun(s, l).result != Err(OrphanRollback) && RecoverRun(s, l).result != Err(NoCurrentWorkspace)
  {
    ReachableInv(tree, acts, s);
    if s.journal.None? {
      NothingToRecover(s, l);
    } else {
      SettleIsLawful(s, s.journal.value);
      hide AdoptRun, CleanupSteps, Resolution;
    }
  }

  // ---------------------------------------------------------------- deferred retention

  lemma {:induction false} LawfulSuffix(d: Disk, h: seq<Disk>, i: nat)
    requires AllLawful(d, h) && i < |h|
    ensures AllLawful(h[i], h[i + 1..]) && Inv(h[i])
    decreases i
  {
    if i > 0 {
      LawfulSuffix(h[0], h[1..], i - 1);
      assert h[1..][i..] == h[i + 1..];
    }
  }

  lemma {:induction false} ReceiptsAdvanceAlong(d: Disk, h: seq<Disk>, j: nat)
    requires AllLawful(d, h) && j < |h|
    ensures forall rid :: rid in d.receipts ==>
      && rid in h[j].receipts && h[j].receipts[rid].checkpoint == d.receipts[rid].checkpoint
      && h[j].receipts[rid].discard == d.receipts[rid].discard
      && (d.receipts[rid].completed ==> h[j].receipts[rid].completed)
    decreases j
  {
    if j > 0 {
      ReceiptsAdvanceAlong(h[0], h[1..], j - 1);
    }
  }

  lemma {:induction false} RetainedAlong(d: Disk, h: seq<Disk>, j: nat)
    requires AllLawful(d, h) && AwaitingCleanup(d) && j < |h|
    requires d.journal.value.recovery.value !in h[j].receipts
    ensures h[j].journal == d.journal
    ensures d.journal.value.token in d.discards && d.journal.value.token in h[j].discards
    ensures h[j].discards[d.journal.value.token] == d.discards[d.journal.value.token]
    decreases j
  {
    if j > 0 {
      if d.journal.value.recovery.value in h[0].receipts {
        ReceiptsAdvanceAlong(h[0], h[1..], j - 1);
      }
      RetainedAlong(h[0], h[1..], j - 1);
    }
  }

  /** Between any two states of a run: once a deferred rollback is committed, its journal and
      the very tree it discarded stay until a receipt for its recovery id exists. */
  lemma DiscardIsRetained(d: Disk, acts: seq<Action>, i: nat, j: nat)
    requires Inv(d) && Admissible(d, acts) && i <= j < |Trace(d, acts)|
    requires AwaitingCleanup(Trace(d, acts)[i])
    ensures var x, y := Trace(d, acts)[i], Trace(d, acts)[j];
            var t := x.journal.value;
            t.recovery.value !in y.receipts ==>
              && y.journal == x.journal && t.token in x.discards && t.token in y.discards
              && y.discards[t.token] == x.discards[t.token]
  {
    RunIsLawful(d, acts);
    var h := Trace(d, acts);
    LawfulSuffix(d, h, i);
    if i < j && h[i].journal.value.recovery.value !in h[j].receipts {
      RetainedAlong(h[i], h[i + 1..], j - i - 1);
    }
  }

  lemma ReceiptsBetween(d: Disk, h: seq<Disk>, i: nat, j: nat, rid: RecoveryId)
    requires AllLawful(d, h) && i <= j < |h| && rid in h[i].receipts
    ensures rid in h[j].receipts && h[j].receipts[rid].discard == h[i].receipts[rid].discard
    ensures h[i].receipts[rid].completed ==> h[j].receipts[rid].completed
  {
    hide AllLawful, Lawful, Inv;
    LawfulSuffix(d, h, i);
    if i < j {
      ReceiptsAdvanceAlong(h[i], h[i + 1..], j - i - 1);
      assert h[i + 1..][j - i - 1] == h[j];
    }
  }

  /** Receipts are never withdrawn or changed back, and a completed one means its tree is gone. */
  lemma ReceiptsOnlyAdvance(d: Disk, acts: seq<Action>, i: nat, j: nat, rid: RecoveryId)
    requires Inv(d) && Admissible(d, acts) && i <= j < |Trace(d, acts)|
    requires rid in Trace(d, acts)[i].receipts
    ensures var x, y := Trace(d, acts)[i], Trace(d, acts)[j];
            && rid in y.receipts && y.receipts[rid].discard == x.receipts[rid].discard
            && (x.receipts[rid].completed ==> y.receipts[rid].completed)
            && (y.receipts[rid].completed ==> y.receipts[rid].discard !in y.discards)
  {
    RunIsLawful(d, acts);
    ReceiptsBetween(d, Trace(d, acts), i, j, rid);
    LawfulSuffix(d, Trace(d, acts), j);
    hide AllLawful, Trace;
  }

  /** A receipt appears as started, one step after a committed rollback of that id was
      waiting; in particular never as completed. */
  lemma ReceiptsStartUncompleted(d: Disk, acts: seq<Action>, i: nat, rid: RecoveryId)
    requires Inv(d) && Admissible(d, acts) && i + 1 < |Trace(d, acts)|
    requires rid !in Trace(d, acts)[i].receipts && rid in Trace(d, acts)[i + 1].receipts
    ensures var x, y := Trace(d, acts)[i], Trace(d, acts)[i + 1];
            && AwaitingCleanup(x) && x.journal.value.recovery == Some(rid)
            && !y.receipts[rid].completed && y.receipts[rid].discard in y.discards
  {
    RunIsLawful(d, acts);
    var h := Trace(d, acts);
    LawfulSuffix(d, h, i);
    assert h[i + 1..][0] == h[i + 1];
  }

  /** A recovery id with a receipt starts no other rollback, ever after. */
  lemma UsedRecoveryIdNeverStarts(d: Disk, acts: seq<Action>, i: nat, j: nat, a: RollbackArgs, token: Token, fault: Fault)
    requires Inv(d) && Admissible(d, acts) && i <= j < |Trace(d, acts)|
    requires a.recovery.Some? && a.recovery.value in Trace(d, acts)[i].receipts
    ensures var run := RollbackRun(Trace(d, acts)[j], a, token, fault); run.steps == [] && run.result.Err?
  {
    ReceiptsOnlyAdvance(d, acts, i, j, a.recovery.value);
  }

  /** Completing again after a completion: reports it when no rollback is under way, and
      never changes anything unless the interrupted completion is this very rollback's. */
  lemma RepeatedCompletionChangesNothing(d: Disk, acts: seq<Action>, i: nat, j: nat, rid: RecoveryId)
    requires Inv(d) && Admissible(d, acts) && i <= j < |Trace(d, acts)| && ValidId(rid)
    requires rid in Trace(d, acts)[i].receipts && Trace(d, acts)[i].receipts[rid].completed
    ensures var y := Trace(d, acts)[j];
            && (y.journal.None? ==> CompleteRun(y, rid) == Run([], Ok(true)))
            && (!(y.journal.Some? && y.journal.value.recovery == Some(rid)) ==> CompleteRun(y, rid).steps == [])
            && (y.journal.Some? && y.journal.value.recovery == Some(rid) ==>
                  forall s :: s in CompleteRun(y, rid).steps ==>
                    s.receipts == y.receipts && s.discards == y.discards && s.current == y.current)
  {
    ReceiptsOnlyAdvance(d, acts, i, j, rid);
    RunIsLawful(d, acts);
    LawfulSuffix(d, Trace(d, acts), j);
    var y := Trace(d, acts)[j];
    if y.journal.Some? && y.journal.value.recovery == Some(rid) {
      CompletedCleanupSteps(y, rid);
    }
  }

  lemma CompletedCleanupSteps(y: Disk, rid: RecoveryId)
    requires Inv(y) && rid in y.receipts && y.receipts[rid].completed
    requires y.journal.Some? && y.journal.value.recovery == Some(rid)
    ensures forall s :: s in CompleteRun(y, rid).steps ==>
      s.receipts == y.receipts && s.discards == y.discards && s.current == y.current
  {
    assert y.receipts[rid := y.receipts[rid].(completed := true)] == y.receipts;
    assert y.discards - {y.journal.value.token} == y.discards;
  }

  // ---------------------------------------------------------------- the index agrees with the disk

  /** Whatever was cut, the next load yields a forest whose present checkpoints are exactly
      the snapshots and whose head is one of them or none, and loading again changes nothing. */
  lemma IndexAgreesWithDisk(tree: Tree, acts: seq<Action>, s: Disk)
    requires Admissible(Created(tree), acts) && s in Trace(Created(tree), acts)
    ensures Forest(Loaded(s))
    ensures forall c :: c in s.snapshots <==> c in Loaded(s).cps && !Loaded(s).cps[c].missing
    ensures Head(s).Some? ==> Head(s).value in s.snapshots
    ensures Loaded(AfterLoad(s)) == Loaded(s) && LoadSteps(AfterLoad(s)) == []
  {
    ReachableInv(tree, acts, s);
    LoadedIsForest(s);
    LoadingIsIdempotent(s);
  }
}
