/** Everything one Session keeps on disk, and the sequence of disks each store operation
    walks through. Each rename, snapshot, subvolume delete, socket unlink, atomic JSON
    replace and journal unlink is one step; a crash, or a step that raises, leaves the disk
    of the last step that finished. */
module SessionDisk {
  import opened Base
  import opened Lineage

  type Token = string
  type RecoveryId = string

  /** A workspace tree. `runtime` lists the sockets and FIFOs below `.allox-tmp` in walk order. */
  datatype Tree = Tree(data: string, runtime: seq<string>)

  datatype Phase = Preparing | Prepared | OldMoved | Committed

  /** The rollback journal. Version 2 (deferred cleanup) is the one with a recovery id. */
  datatype Transaction = Transaction(phase: Phase, checkpoint: Id, token: Token, scrub: bool,
                                     recovery: Option<RecoveryId>)
  {
    predicate Deferred() { recovery.Some? }
  }

  datatype Receipt = Receipt(checkpoint: Id, discard: Token, completed: bool)

  /** `restores` and `discards` are the `.restore-<token>` and `.discard-<token>` trees. */
  datatype Disk = Disk(current: Option<Tree>, restores: map<Token, Tree>, discards: map<Token, Tree>,
                       snapshots: map<Id, Tree>, journal: Option<Transaction>, index: Option<Index>,
                       receipts: map<RecoveryId, Receipt>)

  datatype StoreError =
    | BadArguments | InvalidId | NoSession | SessionExists | CheckpointExists | CheckpointMissing | Pinned
    | LineageError(e: IndexError) | NotExactId | UnfinishedRollback | RecoveryIdUsed
    | SnapshotFailed | RenameFailed | OrphanRollback | NoCurrentWorkspace
    | MissingDiscard | RetainsRestore | StillDiscarded | HeadMismatch
    | ReceiptMismatch | UnexpectedReceipt | NotCommittedDeferred | RecoveryMismatch | NoCompletedRollback

  /** What one call does: the disks after each of its steps, and what it returns or raises. */
  datatype Run<T> = Run(steps: seq<Disk>, result: Result<T, StoreError>)

  function After(d: Disk, steps: seq<Disk>): Disk {
    if steps == [] then d else steps[|steps| - 1]
  }

  // ---------------------------------------------------------------- ids

  predicate Alphanumeric(c: char) {
    'A' <= c <= 'Z' || 'a' <= c <= 'z' || '0' <= c <= '9'
  }

  predicate ValidId(s: string) {
    && 1 <= |s| <= 64
    && Alphanumeric(s[0])
    && forall i :: 1 <= i < |s| ==> Alphanumeric(s[i]) || s[i] == '_' || s[i] == '.' || s[i] == '-'
  }

  // ---------------------------------------------------------------- index file

  function Loaded(d: Disk): Index {
    Reconciled(if d.index.Some? then d.index.value else EMPTY_INDEX, d.snapshots.Keys)
  }

  function WithIndex(d: Disk, ix: Index): Disk {
    d.(index := Some(ix))
  }

  function LoadSteps(d: Disk): seq<Disk> {
    if d.index == Some(Loaded(d)) then [] else [WithIndex(d, Loaded(d))]
  }

  function AfterLoad(d: Disk): Disk {
    WithIndex(d, Loaded(d))
  }

  // ---------------------------------------------------------------- scrubbing

  function WithRuntime(d: Disk, runtime: seq<string>): Disk
    requires d.current.Some?
  {
    d.(current := Some(d.current.value.(runtime := runtime)))
  }

  function ScrubSteps(d: Disk): seq<Disk>
    requires d.current.Some?
    decreases |d.current.value.runtime|
  {
    var runtime := d.current.value.runtime;
    if runtime == [] then []
    else
      var d1 := WithRuntime(d, runtime[1..]);
      [d1] + ScrubSteps(d1)
  }

  function RequestedScrub(d: Disk, scrub: bool): seq<Disk>
    requires d.current.Some?
  {
    if scrub then ScrubSteps(d) else []
  }

  function AfterScrub(d: Disk, scrub: bool): Disk
    requires d.current.Some?
  {
    if scrub then WithRuntime(d, []) else d
  }

  // ---------------------------------------------------------------- single steps

  function Journaled(d: Disk, t: Transaction, phase: Phase): Disk {
    d.(journal := Some(t.(phase := phase)))
  }

  function Cleared(d: Disk): Disk {
    d.(journal := None)
  }

  function Staged(d: Disk, t: Transaction, tree: Tree): Disk {
    d.(restores := d.restores[t.token := tree])
  }

  function SetAside(d: Disk, t: Transaction): Disk
    requires d.current.Some?
  {
    d.(current := None, discards := d.discards[t.token := d.current.value])
  }

  function Promoted(d: Disk, t: Transaction): Disk
    requires t.token in d.restores
  {
    d.(current := Some(d.restores[t.token]), restores := d.restores - {t.token})
  }

  function PutBack(d: Disk, token: Token): Disk
    requires token in d.discards
  {
    d.(current := Some(d.discards[token]), discards := d.discards - {token})
  }

  function WithoutDiscard(d: Disk, token: Token): Disk {
    d.(discards := d.discards - {token})
  }

  function WithoutRestore(d: Disk, token: Token): Disk {
    d.(restores := d.restores - {token})
  }

  /** Deleting a subvolume is a step only when it exists. */
  function DropDiscard(d: Disk, token: Token): seq<Disk> {
    if token in d.discards then [WithoutDiscard(d, token)] else []
  }

  function DropRestore(d: Disk, token: Token): seq<Disk> {
    if token in d.restores then [WithoutRestore(d, token)] else []
  }

  function WithReceipt(d: Disk, rid: RecoveryId, r: Receipt): Disk {
    d.(receipts := d.receipts[rid := r])
  }

  // ---------------------------------------------------------------- rollback

  datatype RollbackArgs = RollbackArgs(checkpoint: Option<Id>, numAncestors: Option<int>, scrub: bool,
                                       recovery: Option<RecoveryId>, deferCleanup: bool)

  /** What the environment contributes: the fresh uuid, and a backend failure that the
      code has a handler for. Every other failing step is a cut of the step sequence. */
  datatype Fault = NoFault | SnapshotFails(leftTree: bool) | RenameFails

  function ArgumentError(a: RollbackArgs): Option<StoreError> {
    if a.checkpoint.Some? && !ValidId(a.checkpoint.value) then Some(InvalidId)
    else if a.recovery.Some? && !ValidId(a.recovery.value) then Some(InvalidId)
    else if a.deferCleanup && (a.recovery.None? || a.checkpoint.None? || a.numAncestors.Some?) then Some(BadArguments)
    else if !a.deferCleanup && a.recovery.Some? then Some(BadArguments)
    else None
  }

  function NewTransaction(a: RollbackArgs, c: Id, token: Token): Transaction {
    Transaction(Preparing, c, token, a.scrub, a.recovery)
  }

  /** Refusals before the index is even loaded. */
  function Refusal(d: Disk, a: RollbackArgs): Option<StoreError> {
    if ArgumentError(a).Some? then ArgumentError(a)
    else if d.journal.Some? then Some(UnfinishedRollback)
    else if a.recovery.Some? && a.recovery.value in d.receipts then Some(RecoveryIdUsed)
    else None
  }

  /** The checkpoint a rollback goes to, given the loaded index. */
  ghost function Target(d: Disk, ix: Index, a: RollbackArgs): Result<Id, StoreError> {
    var r := Resolution(ix, a.checkpoint, a.numAncestors);
    if r.Err? then Err(LineageError(r.error))
    else if a.deferCleanup && a.checkpoint != Some(r.value) then Err(NotExactId)
    else if r.value !in d.snapshots then Err(CheckpointMissing)
    else if d.current.None? then Err(NoSession)
    else Ok(r.value)
  }

  ghost function RollbackRun(d: Disk, a: RollbackArgs, token: Token, fault: Fault): Run<Id> {
    var target := Target(d, Loaded(d), a);
    if Refusal(d, a).Some? then Run([], Err(Refusal(d, a).value))
    else if target.Err? then Run(LoadSteps(d), Err(target.error))
    else
      var t := NewTransaction(a, target.value, token);
      Run(LoadSteps(d) + SwapSteps(AfterLoad(d), t, Loaded(d), fault), SwapResult(t, fault))
  }

  /** Loading changes the index only, and so not what is chosen; what is chosen is there. */
  lemma TargetIsThere(d: Disk, a: RollbackArgs)
    ensures Target(AfterLoad(d), Loaded(d), a) == Target(d, Loaded(d), a)
    ensures var target := Target(d, Loaded(d), a);
            target.Ok? ==> AfterLoad(d).current.Some? && target.value in AfterLoad(d).snapshots && target.value in Loaded(d).cps
  {
    SnapshotsAreIndexed(d);
  }

  function SwapResult(t: Transaction, fault: Fault): Result<Id, StoreError> {
    match fault
    case NoFault => Ok(t.checkpoint)
    case SnapshotFails(_) => Err(SnapshotFailed)
    case RenameFails => Err(RenameFailed)
  }

  /** The swap proper, up to and including the rename of the old tree out of the way. */
  function OldMovedAway(d: Disk, t: Transaction): Disk
    requires d.current.Some? && t.checkpoint in d.snapshots
  {
    SetAside(Journaled(Staged(Journaled(d, t, Preparing), t, d.snapshots[t.checkpoint]), t, Prepared), t)
  }

  function Opening(d: Disk, t: Transaction): seq<Disk>
    requires d.current.Some? && t.checkpoint in d.snapshots
  {
    var d1 := Journaled(d, t, Preparing);
    var d2 := Staged(d1, t, d.snapshots[t.checkpoint]);
    [d1, d2, Journaled(d2, t, Prepared), OldMovedAway(d, t), Journaled(OldMovedAway(d, t), t, OldMoved)]
  }

  function SwapSteps(d: Disk, t: Transaction, ix: Index, fault: Fault): seq<Disk>
    requires d.current.Some? && t.checkpoint in d.snapshots
  {
    var d5 := Journaled(OldMovedAway(d, t), t, OldMoved);
    match fault
    case SnapshotFails(leftTree) =>
      var d1 := Journaled(d, t, Preparing);
      var d2 := Staged(d1, t, d.snapshots[t.checkpoint]);
      if leftTree then [d1, d2, WithoutRestore(d2, t.token), Cleared(WithoutRestore(d2, t.token))]
      else [d1, Cleared(d1)]
    case RenameFails =>
      var back := PutBack(d5, t.token);
      Opening(d, t) + [back, WithoutRestore(back, t.token), Cleared(WithoutRestore(back, t.token))]
    case NoFault =>
      Opening(d, t) + [Promoted(d5, t)] + ClosingSteps(Promoted(d5, t), t, ix)
  }

  /** What follows once the checkpoint's tree is in place. */
  function ClosingSteps(d: Disk, t: Transaction, ix: Index): seq<Disk>
    requires d.current.Some?
  {
    if t.Deferred() then
      var indexed := WithIndex(AfterScrub(d, t.scrub), Moved(ix, t.checkpoint));
      RequestedScrub(d, t.scrub) + [indexed, Journaled(indexed, t, Committed)]
    else
      var committed := Journaled(d, t, Committed);
      [committed] + RequestedScrub(committed, t.scrub) + ForgetSteps(AfterScrub(committed, t.scrub), t, ix)
  }

  function ForgetSteps(d: Disk, t: Transaction, ix: Index): seq<Disk> {
    var dropped := WithoutDiscard(d, t.token);
    var indexed := WithIndex(dropped, Moved(ix, t.checkpoint));
    [dropped, indexed, Cleared(indexed)]
  }

  // ---------------------------------------------------------------- recovery

  /** The names a directory listing reports, in the order it reports them. */
  datatype Listing = Listing(restores: seq<Token>, discards: seq<Token>)

  ghost predicate Lists(l: Listing, d: Disk) {
    && NoDuplicates(l.restores) && (forall x :: x in l.restores <==> x in d.restores)
    && NoDuplicates(l.discards) && (forall x :: x in l.discards <==> x in d.discards)
  }

  function DropAllRestores(d: Disk, names: seq<Token>): seq<Disk>
    decreases |names|
  {
    if names == [] then [] else [WithoutRestore(d, names[0])] + DropAllRestores(WithoutRestore(d, names[0]), names[1..])
  }

  function DropAllDiscards(d: Disk, names: seq<Token>): seq<Disk>
    decreases |names|
  {
    if names == [] then [] else [WithoutDiscard(d, names[0])] + DropAllDiscards(WithoutDiscard(d, names[0]), names[1..])
  }

  /** No journal: staging trees left behind by nobody in particular. */
  function OrphanRun(d: Disk, l: Listing): Run<bool> {
    if l.restores == [] && l.discards == [] then Run([], Ok(false))
    else if d.current.None? && (|l.discards| != 1 || l.discards[0] !in d.discards) then Run([], Err(OrphanRollback))
    else
      var d1 := if d.current.None? then PutBack(d, l.discards[0]) else d;
      var s1 := if d.current.None? then [d1] else [];
      var left := if d.current.None? then [] else l.discards;
      Run(s1 + StagingDrops(d1, l.restores, left), Ok(true))
  }

  function StagingDrops(d: Disk, restoreNames: seq<Token>, discardNames: seq<Token>): seq<Disk> {
    var drops := DropAllRestores(d, restoreNames);
    drops + DropAllDiscards(After(d, drops), discardNames)
  }

  /** A committed deferred rollback: wait for its cleanup, or finish one that has started. */
  function PendingCleanupRun(d: Disk, t: Transaction): Run<bool>
    requires t.Deferred()
  {
    var rid := t.recovery.value;
    if t.token in d.restores then Run([], Err(RetainsRestore))
    else if Loaded(d).head != Some(t.checkpoint) then Run(LoadSteps(d), Err(HeadMismatch))
    else if rid !in d.receipts then
      Run(LoadSteps(d), if t.token in d.discards then Ok(false) else Err(MissingDiscard))
    else if d.receipts[rid].checkpoint != t.checkpoint || d.receipts[rid].discard != t.token then
      Run(LoadSteps(d), Err(ReceiptMismatch))
    else
      Run(LoadSteps(d) + CleanupSteps(AfterLoad(d), t, d.receipts[rid]), Ok(true))
  }

  /** Deleting the discarded tree, completing the receipt, dropping the journal. */
  function CleanupSteps(d: Disk, t: Transaction, r: Receipt): seq<Disk>
    requires t.Deferred()
  {
    var d1 := WithoutDiscard(d, t.token);
    var d2 := WithReceipt(d1, t.recovery.value, r.(completed := true));
    DropDiscard(d, t.token) + [d2, Cleared(d2)]
  }

  /** Recovery first makes sure there is a current tree and decides whether the rollback
      happened: the new current tree (if one was missing) and that decision. */
  datatype Settlement = Settlement(disk: Disk, steps: seq<Disk>, commit: bool)

  function Settled(d: Disk, t: Transaction): (r: Result<Settlement, StoreError>)
    ensures r.Ok? ==> r.value.disk.current.Some?
  {
    if d.current.Some? then Ok(Settlement(d, [], t.phase.OldMoved? || t.phase.Committed?))
    else if !t.phase.Preparing? && t.token in d.restores then
      Ok(Settlement(Promoted(d, t), [Promoted(d, t)], true))
    else if t.token in d.discards then
      Ok(Settlement(PutBack(d, t.token), [PutBack(d, t.token)], false))
    else Err(NoCurrentWorkspace)
  }

  /** Loading the index and moving its head to the journal's checkpoint. */
  ghost function AdoptRun(d: Disk, c: Id): Run<Id> {
    var r := Resolution(Loaded(d), Some(c), None);
    if r.Err? then Run(LoadSteps(d), Err(LineageError(r.error)))
    else Run(LoadSteps(d) + [WithIndex(d, Moved(Loaded(d), r.value))], Ok(r.value))
  }

  ghost function ConfirmDeferredRun(d: Disk, t: Transaction): Run<bool>
    requires d.current.Some?
  {
    if t.token !in d.discards then Run([], Err(MissingDiscard))
    else if t.token in d.restores then Run([], Err(RetainsRestore))
    else
      var d1 := AfterScrub(d, t.scrub);
      var adopt := AdoptRun(d1, t.checkpoint);
      if adopt.result.Err? then Run(RequestedScrub(d, t.scrub) + adopt.steps, Err(adopt.result.error))
      else Run(RequestedScrub(d, t.scrub) + adopt.steps + [Journaled(After(d1, adopt.steps), t, Committed)], Ok(true))
  }

  function DropSteps(d: Disk, t: Transaction): seq<Disk> {
    DropDiscard(d, t.token) + DropRestore(WithoutDiscard(d, t.token), t.token)
  }

  function AfterDrop(d: Disk, t: Transaction): Disk {
    WithoutRestore(WithoutDiscard(d, t.token), t.token)
  }

  ghost function DropStagingRun(d: Disk, t: Transaction, commit: bool): Run<bool> {
    if t.Deferred() && t.recovery.value in d.receipts then Run([], Err(UnexpectedReceipt))
    else
      var rest := ConcludeRun(AfterDrop(d, t), t, commit);
      Run(DropSteps(d, t) + rest.steps, rest.result)
  }

  ghost function ConcludeRun(d: Disk, t: Transaction, commit: bool): Run<bool> {
    var adopt := AdoptRun(d, t.checkpoint);
    if !commit then Run([Cleared(d)], Ok(true))
    else if adopt.result.Err? then Run(adopt.steps, Err(adopt.result.error))
    else Run(adopt.steps + [Cleared(After(d, adopt.steps))], Ok(true))
  }

  ghost function RecoverRun(d: Disk, l: Listing): Run<bool> {
    if d.journal.None? then OrphanRun(d, l)
    else
      var t := d.journal.value;
      if t.Deferred() && t.phase.Committed? && d.current.Some? then PendingCleanupRun(d, t)
      else SettleRun(d, t)
  }

  ghost function SettleRun(d: Disk, t: Transaction): Run<bool> {
    match Settled(d, t)
    case Err(e) => Run([], Err(e))
    case Ok(s) =>
      var rest := DecidedRun(s.disk, t, s.commit);
      Run(s.steps + rest.steps, rest.result)
  }

  ghost function DecidedRun(d: Disk, t: Transaction, commit: bool): Run<bool>
    requires d.current.Some?
  {
    if t.Deferred() && commit then ConfirmDeferredRun(d, t) else DropStagingRun(d, t, commit)
  }

  // ---------------------------------------------------------------- completing a deferred rollback

  function NewReceipt(t: Transaction): Receipt {
    Receipt(t.checkpoint, t.token, false)
  }

  /** The value says whether the cleanup had already been completed before. */
  function CompleteRun(d: Disk, rid: RecoveryId): Run<bool> {
    if !ValidId(rid) then Run([], Err(InvalidId))
    else if d.journal.None? then
      if rid !in d.receipts || !d.receipts[rid].completed then Run([], Err(NoCompletedRollback))
      else if d.receipts[rid].discard in d.discards then Run([], Err(StillDiscarded))
      else Run([], Ok(true))
    else
      var t := d.journal.value;
      if !t.Deferred() || !t.phase.Committed? then Run([], Err(NotCommittedDeferred))
      else if t.recovery.value != rid then Run([], Err(RecoveryMismatch))
      else if d.current.None? then Run([], Err(NoSession))
      else if t.token in d.restores then Run([], Err(RetainsRestore))
      else if Loaded(d).head != Some(t.checkpoint) then Run(LoadSteps(d), Err(HeadMismatch))
      else if rid in d.receipts && (d.receipts[rid].checkpoint != t.checkpoint || d.receipts[rid].discard != t.token) then
        Run(LoadSteps(d), Err(ReceiptMismatch))
      else if rid in d.receipts then
        Run(LoadSteps(d) + CleanupSteps(AfterLoad(d), t, d.receipts[rid]), Ok(false))
      else if t.token !in d.discards then Run(LoadSteps(d), Err(MissingDiscard))
      else
        var d1 := WithReceipt(AfterLoad(d), rid, NewReceipt(t));
        Run(LoadSteps(d) + [d1] + CleanupSteps(d1, t, NewReceipt(t)), Ok(false))
  }

  // ---------------------------------------------------------------- checkpoints

  function CreateCheckpointRun(d: Disk, id: Id, info: Info): Run<()> {
    if !ValidId(id) then Run([], Err(InvalidId))
    else if d.current.None? then Run([], Err(NoSession))
    else if id in d.snapshots then Run([], Err(CheckpointExists))
    else if id in Loaded(d).cps then Run(LoadSteps(d), Err(LineageError(AlreadyIndexed)))
    else
      var d1 := AfterLoad(d).(snapshots := d.snapshots[id := d.current.value]);
      Run(LoadSteps(d) + [d1, WithIndex(d1, Added(Loaded(d), id, info))], Ok(()))
  }

  ghost function DeleteCheckpointRun(d: Disk, id: Id, force: bool): Run<Id> {
    if !ValidId(id) then Run([], Err(InvalidId))
    else
      var r := Resolution(Loaded(d), Some(id), None);
      if r.Err? then Run(LoadSteps(d), Err(LineageError(r.error)))
      else if r.value in Loaded(d).cps && Loaded(d).cps[r.value].info.pinned && !force then Run(LoadSteps(d), Err(Pinned))
      else if r.value !in d.snapshots then Run(LoadSteps(d), Err(CheckpointMissing))
      else Run(LoadSteps(d) + EraseSteps(AfterLoad(d), Loaded(d), r.value), Ok(r.value))
  }

  function EraseSteps(d: Disk, ix: Index, c: Id): seq<Disk> {
    var d1 := d.(snapshots := d.snapshots - {c});
    [d1, WithIndex(d1, Removed(ix, c))]
  }

  /** Creating a Session looks at the current tree only. */
  function CreateSessionRun(d: Disk): Run<()> {
    if d.current.Some? then Run([], Err(SessionExists))
    else
      var d1 := d.(current := Some(Tree("", [])));
      Run([d1, WithIndex(d1, EMPTY_INDEX)], Ok(()))
  }

  // ---------------------------------------------------------------- where step sequences end

  lemma AfterConcat(d: Disk, a: seq<Disk>, b: seq<Disk>)
    ensures After(d, a + b) == After(After(d, a), b)
  {
  }

  /** Running `a` and then `b` logs, and ends, like running `a + b`. */
  lemma Compose(log: seq<Disk>, d: Disk, a: seq<Disk>, b: seq<Disk>)
    ensures log + a + b == log + (a + b)
    ensures After(d, a + b) == After(After(d, a), b)
  {
  }

  /** After loading, the entries that count as present are exactly the snapshots. */
  lemma SnapshotsAreIndexed(d: Disk)
    ensures forall c :: c in d.snapshots <==> c in Loaded(d).cps && !Loaded(d).cps[c].missing
  {
  }

  lemma AfterLoadSteps(d: Disk)
    ensures After(d, LoadSteps(d)) == AfterLoad(d)
  {
  }

  lemma {:induction false} AfterScrubSteps(d: Disk)
    requires d.current.Some?
    ensures After(d, ScrubSteps(d)) == WithRuntime(d, [])
    decreases |d.current.value.runtime|
  {
    var runtime := d.current.value.runtime;
    if runtime != [] {
      AfterScrubSteps(WithRuntime(d, runtime[1..]));
    }
  }

  lemma AfterRequestedScrub(d: Disk, scrub: bool)
    requires d.current.Some?
    ensures After(d, RequestedScrub(d, scrub)) == AfterScrub(d, scrub)
  {
    if scrub {
      AfterScrubSteps(d);
    }
  }

  lemma AfterDropDiscard(d: Disk, token: Token)
    ensures After(d, DropDiscard(d, token)) == WithoutDiscard(d, token)
  {
    if token !in d.discards {
      assert d.discards - {token} == d.discards;
    }
  }

  lemma AfterDropRestore(d: Disk, token: Token)
    ensures After(d, DropRestore(d, token)) == WithoutRestore(d, token)
  {
    if token !in d.restores {
      assert d.restores - {token} == d.restores;
    }
  }

  lemma AfterDropSteps(d: Disk, t: Transaction)
    ensures After(d, DropSteps(d, t)) == AfterDrop(d, t)
  {
    AfterDropDiscard(d, t.token);
    AfterDropRestore(WithoutDiscard(d, t.token), t.token);
    AfterConcat(d, DropDiscard(d, t.token), DropRestore(WithoutDiscard(d, t.token), t.token));
  }
}
