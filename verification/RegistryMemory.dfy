/** What the registry remembers of what it granted, over every run: persistent executions until
    their Session is reset with success, leases and resets until their tokens come back. */
module RegistryMemory {
  import opened SessionRegistry
  import opened RegistryExclusion

  // ---------------------------------------------------------------- persistent executions

  /** The registration of a persistent execution of the Session is accepted. */
  predicate Registers(w: World, e: Event, key: Key) {
    e.RegisterBackground? && e.key == key && key !in w.reg.mutating && !HasRecoveryLease(w.reg, key)
  }

  /** A reset of the Session is completed with success. */
  predicate Forgets(w: World, e: Event, key: Key) {
    e.CompleteReset? && e.success && e.token in w.reg.resets && w.reg.resets[e.token] == key
  }

  /** Each event, for each Session: an accepted registration adds its execution, a successful
      reset forgets all of them, and everything else leaves them alone. */
  lemma ExecutionsAfter(w: World, e: Event, key: Key)
    ensures Executions(Next(w, e).reg, key)
         == if Registers(w, e, key) then Executions(w.reg, key)[e.execution := e.sandbox]
            else if Forgets(w, e, key) then map[]
            else Executions(w.reg, key)
  {
    match e
    case RegisterBackground(k, x, sandbox) => RegisteredExecutions(w, k, x, sandbox, key);
    case CompleteReset(token, success) => CompletedExecutions(w, token, success, key);
    case _ => OtherwiseSameExecutions(w, e);
  }

  lemma RegisteredExecutions(w: World, k: Key, x: ExecutionId, sandbox: string, key: Key)
    ensures var r := Next(w, RegisterBackground(k, x, sandbox)).reg;
            Executions(r, key)
            == if k == key && key !in w.reg.mutating && !HasRecoveryLease(w.reg, key) then Executions(w.reg, key)[x := sandbox]
               else Executions(w.reg, key)
  {
  }

  lemma CompletedExecutions(w: World, token: Token, success: bool, key: Key)
    ensures Executions(Next(w, CompleteReset(token, success)).reg, key)
         == if Forgets(w, CompleteReset(token, success), key) then map[] else Executions(w.reg, key)
  {
  }

  lemma OtherwiseSameExecutions(w: World, e: Event)
    requires !e.RegisterBackground? && !e.CompleteReset?
    ensures Next(w, e).reg.background == w.reg.background
  {
    hide AcquireError, FenceError, MutationError, ReadError, RegisterError;
    hide Acquired, Released, ResetBegun, ReadEntered, ReadLeft;
    match e
    case Acquire(key, recovery, token) => AcquiredBackground(w.reg, key, recovery, token);
    case Release(token) => ReleasedBackground(w.reg, token);
    case BeginReset(key, token) => ResetBackground(w.reg, key, token);
    case EnterRead(key) => ReadBackground(w.reg, key);
    case LeaveRead(key) => ReadBackground(w.reg, key);
    case _ =>
  }

  lemma AcquiredBackground(r: Registry, key: Key, recovery: bool, token: Token)
    ensures Acquired(r, key, recovery, token).background == r.background
  {
  }

  lemma ReleasedBackground(r: Registry, token: Token)
    ensures Released(r, token).background == r.background
  {
  }

  lemma ResetBackground(r: Registry, key: Key, token: Token)
    ensures ResetBegun(r, key, token).background == r.background
  {
  }

  lemma ReadBackground(r: Registry, key: Key)
    ensures ReadEntered(r, key).background == r.background && ReadLeft(r, key).background == r.background
  {
  }

  /** At no event of the run is the Session's reset completed with success. */
  predicate Remembers(w: World, es: seq<Event>, key: Key)
    decreases |es|
  {
    es == [] || (!Forgets(w, es[0], key) && Remembers(Next(w, es[0]), es[1..], key))
  }

  /** At no event of the run is this execution registered again. */
  predicate NotRegisteredAgain(es: seq<Event>, key: Key, x: ExecutionId) {
    forall i :: 0 <= i < |es| ==> !(es[i].RegisterBackground? && es[i].key == key && es[i].execution == x)
  }

  lemma {:induction false} ExecutionsStay(w: World, es: seq<Event>, key: Key, x: ExecutionId)
    requires x in Executions(w.reg, key) && Remembers(w, es, key)
    ensures x in Executions(Replay(w, es).reg, key)
    ensures NotRegisteredAgain(es, key, x) ==> Executions(Replay(w, es).reg, key)[x] == Executions(w.reg, key)[x]
    decreases |es|
  {
    if es != [] {
      ExecutionsAfter(w, es[0], key);
      assert NotRegisteredAgain(es, key, x) ==> NotRegisteredAgain(es[1..], key, x);
      hide Next, Forgets;
      ExecutionsStay(Next(w, es[0]), es[1..], key, x);
    }
  }

  /** An accepted registration is remembered over any run of registry calls, failed resets
      included, until a reset of its Session is completed with success. Until then the Session
      admits neither a plain mutation nor a recovery execution, and beginning its reset, as
      soon as that is possible, returns the execution. */
  lemma RegistrationIsRemembered(w: World, key: Key, x: ExecutionId, sandbox: string, es: seq<Event>)
    requires Registers(w, RegisterBackground(key, x, sandbox), key)
    requires Remembers(Next(w, RegisterBackground(key, x, sandbox)), es, key)
    ensures var r := Replay(Next(w, RegisterBackground(key, x, sandbox)), es).reg;
            && x in Executions(r, key) && (NotRegisteredAgain(es, key, x) ==> Executions(r, key)[x] == sandbox)
            && MutationError(r, key).Some? && AcquireError(r, key, true).Some?
  {
    var e := RegisterBackground(key, x, sandbox);
    ExecutionsAfter(w, e, key);
    hide Next, Remembers;
    ExecutionsStay(Next(w, e), es, key, x);
    ExecutionsRefuse(Replay(Next(w, e), es).reg, key, x);
  }

  lemma ExecutionsRefuse(r: Registry, key: Key, x: ExecutionId)
    requires x in Executions(r, key)
    ensures MutationError(r, key).Some? && AcquireError(r, key, true).Some?
  {
  }

  // ---------------------------------------------------------------- leases

  predicate GivesBack(e: Event, token: Token) {
    e.Release? && e.token == token
  }

  predicate NeverGivenBack(es: seq<Event>, token: Token) {
    forall i :: 0 <= i < |es| ==> !GivesBack(es[i], token)
  }

  /** The lease of this token, of a recovery execution or not. */
  predicate Leases(r: Registry, token: Token, key: Key, recovery: bool) {
    token in r.leases && r.leases[token] == key && (token in r.recoveryLeases <==> recovery)
  }

  lemma LeaseAfter(w: World, e: Event, token: Token, key: Key, recovery: bool)
    requires Enabled(w, e) && Leases(w.reg, token, key, recovery) && !GivesBack(e, token)
    ensures Leases(Next(w, e).reg, token, key, recovery)
  {
    hide AcquireError, FenceError, MutationError, ReadError, RegisterError;
  }

  lemma {:induction false} LeaseStays(w: World, es: seq<Event>, token: Token, key: Key, recovery: bool)
    requires Admissible(w, es) && Leases(w.reg, token, key, recovery) && NeverGivenBack(es, token)
    ensures Leases(Replay(w, es).reg, token, key, recovery)
    decreases |es|
  {
    if es != [] {
      LeaseAfter(w, es[0], token, key, recovery);
      hide Next, Enabled, Leases;
      LeaseStays(Next(w, es[0]), es[1..], token, key, recovery);
    }
  }

  lemma LeaseRefuses(r: Registry, token: Token, key: Key, recovery: bool)
    requires Leases(r, token, key, recovery)
    ensures AcquireError(r, key, false).Some? && AcquireError(r, key, true).Some?
    ensures FenceError(r, key).Some? && MutationError(r, key).Some?
    ensures recovery ==> ReadError(r, key).Some? && RegisterError(r, key).Some?
  {
    assert HasLease(r, key);
    assert recovery ==> HasRecoveryLease(r, key);
  }

  /** A granted lease is held over any run of registry calls until its token is given back. Until
      then the Session admits no other execution, reset or mutation, and beside a recovery
      execution no reader and no persistent execution either. */
  lemma LeaseIsHeld(w: World, key: Key, recovery: bool, token: Token, es: seq<Event>)
    requires Enabled(w, Acquire(key, recovery, token)) && AcquireError(w.reg, key, recovery).None?
    requires Admissible(Next(w, Acquire(key, recovery, token)), es) && NeverGivenBack(es, token)
    ensures var r := Replay(Next(w, Acquire(key, recovery, token)), es).reg;
            && AcquireError(r, key, false).Some? && AcquireError(r, key, true).Some?
            && FenceError(r, key).Some? && MutationError(r, key).Some?
            && (recovery ==> ReadError(r, key).Some? && RegisterError(r, key).Some?)
  {
    var v := Next(w, Acquire(key, recovery, token));
    assert Leases(v.reg, token, key, recovery);
    hide AcquireError, FenceError, MutationError, ReadError, RegisterError, Next;
    LeaseStays(v, es, token, key, recovery);
    LeaseRefuses(Replay(v, es).reg, token, key, recovery);
  }

  /** Giving it back frees the Session: the next execution is admitted. */
  lemma GivingBackFrees(w: World, token: Token, key: Key, recovery: bool)
    requires Exclusive(w) && Leases(w.reg, token, key, recovery)
    ensures var r := Next(w, Release(token)).reg;
            !HasLease(r, key) && AcquireError(r, key, false).None? && (FenceError(r, key).None? <==> w.readers[key] == 0)
  {
    var v := Next(w, Release(token));
    assert Excluded(w, key) && HasLease(w.reg, key);
    assert !HasLease(v.reg, key);
  }

  // ---------------------------------------------------------------- resets

  /** A reset that begins has a good token, so the theorems about good tokens apply: the Session
      is closed to everybody until that token completes it. */
  lemma BegunResetHolds(w: World, key: Key, token: Token, es: seq<Event>)
    requires Exclusive(w) && Enabled(w, BeginReset(key, token)) && FenceError(w.reg, key).None?
    requires Admissible(Next(w, BeginReset(key, token)), es)
    ensures ResetTokenHolds(Next(w, BeginReset(key, token)).reg, token, key)
    ensures ClosedThroughout(Next(w, BeginReset(key, token)), es, key) <==> !Completes(es, token)
  {
    BeginResetKeeps(w, key, token);
    assert ResetTokenHolds(Next(w, BeginReset(key, token)).reg, token, key);
    hide Next, Exclusive, ClosedThroughout, Completes, ResetTokenHolds, FenceError;
    ResetBodyIsExclusiveExactly(Next(w, BeginReset(key, token)), es, token, key);
  }
}
