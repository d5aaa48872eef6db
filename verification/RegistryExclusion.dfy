/** Who excludes whom, in every state that any interleaving of registry calls can reach. */
module RegistryExclusion {
  import opened SessionRegistry

  /** The registry together with the scopes its callers have open. */
  datatype World = World(reg: Registry, mutations: multiset<Key>, readers: multiset<Key>)

  datatype Event =
    | Acquire(key: Key, recovery: bool, token: Token)
    | Release(token: Token)
    | RegisterBackground(key: Key, execution: ExecutionId, sandbox: string)
    | BeginReset(key: Key, token: Token)
    | CompleteReset(token: Token, success: bool)
    | EnterMutation(key: Key)
    | LeaveMutation(key: Key)
    | EnterRead(key: Key)
    | LeaveRead(key: Key)

  /** Tokens are fresh uuids; a scope is only left by whoever has it open. */
  ghost predicate Enabled(w: World, e: Event) {
    match e
    case Acquire(_, _, token) => token !in w.reg.leases && token !in w.reg.recoveryLeases
    case BeginReset(_, token) => token !in w.reg.resets
    case LeaveMutation(key) => key in w.mutations
    case LeaveRead(key) => key in w.readers
    case _ => true
  }

  /** One critical section; a refused request changes nothing. */
  function Next(w: World, e: Event): World {
    match e
    case Acquire(key, recovery, token) =>
      if AcquireError(w.reg, key, recovery).Some? then w else w.(reg := Acquired(w.reg, key, recovery, token))
    case Release(token) => w.(reg := Released(w.reg, token))
    case RegisterBackground(key, execution, sandbox) =>
      if RegisterError(w.reg, key).Some? then w else w.(reg := Registered(w.reg, key, execution, sandbox))
    case BeginReset(key, token) =>
      if FenceError(w.reg, key).Some? then w else w.(reg := ResetBegun(w.reg, key, token))
    case CompleteReset(token, success) =>
      if token !in w.reg.resets then w else w.(reg := ResetCompleted(w.reg, token, success))
    case EnterMutation(key) =>
      if MutationError(w.reg, key).Some? then w
      else w.(reg := w.reg.(mutating := w.reg.mutating + {key}), mutations := w.mutations + multiset{key})
    case LeaveMutation(key) =>
      w.(reg := w.reg.(mutating := w.reg.mutating - {key}), mutations := w.mutations - multiset{key})
    case EnterRead(key) =>
      if ReadError(w.reg, key).Some? then w
      else w.(reg := ReadEntered(w.reg, key), readers := w.readers + multiset{key})
    case LeaveRead(key) =>
      w.(reg := ReadLeft(w.reg, key), readers := w.readers - multiset{key})
  }

  ghost predicate Resetting(w: World, key: Key) {
    exists token :: token in w.reg.resets && w.reg.resets[token] == key
  }

  ghost predicate OneLease(r: Registry) {
    forall t, u :: t in r.leases && u in r.leases && r.leases[t] == r.leases[u] ==> t == u
  }

  ghost predicate OneReset(r: Registry) {
    forall t, u :: t in r.resets && u in r.resets && r.resets[t] == r.resets[u] ==> t == u
  }

  /** The exclusion rules of one Session. */
  ghost predicate Excluded(w: World, key: Key) {
    // a mutating Session has exactly one owner: one mutation scope or one reset token
    && (key in w.reg.mutating <==> (w.mutations[key] == 1 && !Resetting(w, key)) || (w.mutations[key] == 0 && Resetting(w, key)))
    && w.mutations[key] <= 1 && !(w.mutations[key] == 1 && Resetting(w, key))
    // and neither a lease nor a share reader
    && (key in w.reg.mutating ==> !HasLease(w.reg, key) && w.readers[key] == 0)
    // a recovery lease tolerates neither share readers nor persistent executions
    && (HasRecoveryLease(w.reg, key) ==> w.readers[key] == 0 && !HasBackground(w.reg, key))
    // a plain mutation tolerates no persistent executions
    && (w.mutations[key] == 1 ==> !HasBackground(w.reg, key))
    // the reader count is the number of open read scopes
    && Readers(w.reg, key) == w.readers[key]
    && (key in w.reg.shareReaders ==> w.reg.shareReaders[key] > 0)
  }

  ghost predicate Exclusive(w: World) {
    && OneLease(w.reg) && OneReset(w.reg) && w.reg.recoveryLeases <= w.reg.leases.Keys
    && forall key :: Excluded(w, key)
  }

  // ---------------------------------------------------------------- one event

  lemma AcquireKeeps(w: World, key: Key, recovery: bool, token: Token)
    requires Exclusive(w) && Enabled(w, Acquire(key, recovery, token))
    ensures Exclusive(Next(w, Acquire(key, recovery, token)))
  {
    var v := Next(w, Acquire(key, recovery, token));
    if AcquireError(w.reg, key, recovery).None? {
      forall k ensures Excluded(v, k) {
        assert Excluded(w, k);
        assert Resetting(v, k) <==> Resetting(w, k);
        if HasLease(v.reg, k) && k != key {
          var t :| t in v.reg.leases && v.reg.leases[t] == k;
          assert w.reg.leases[t] == k;
        }
        if HasRecoveryLease(v.reg, k) && k != key {
          var t :| t in v.reg.leases && t in v.reg.recoveryLeases && v.reg.leases[t] == k;
          assert w.reg.leases[t] == k && t in w.reg.recoveryLeases;
        }
      }
    }
  }

  lemma ReleaseKeeps(w: World, token: Token)
    requires Exclusive(w)
    ensures Exclusive(Next(w, Release(token)))
  {
    var v := Next(w, Release(token));
    forall k ensures Excluded(v, k) {
      assert Excluded(w, k);
      assert Resetting(v, k) <==> Resetting(w, k);
      if HasLease(v.reg, k) {
        var t :| t in v.reg.leases && v.reg.leases[t] == k;
        assert w.reg.leases[t] == k;
      }
      if HasRecoveryLease(v.reg, k) {
        var t :| t in v.reg.leases && t in v.reg.recoveryLeases && v.reg.leases[t] == k;
        assert w.reg.leases[t] == k && t in w.reg.recoveryLeases;
      }
    }
  }

  lemma RegisterKeeps(w: World, key: Key, execution: ExecutionId, sandbox: string)
    requires Exclusive(w)
    ensures Exclusive(Next(w, RegisterBackground(key, execution, sandbox)))
  {
    var v := Next(w, RegisterBackground(key, execution, sandbox));
    forall k ensures Excluded(v, k) {
      assert Excluded(w, k);
      assert Resetting(v, k) <==> Resetting(w, k);
      assert HasRecoveryLease(v.reg, k) <==> HasRecoveryLease(w.reg, k);
    }
  }

  lemma BeginResetKeeps(w: World, key: Key, token: Token)
    requires Exclusive(w) && Enabled(w, BeginReset(key, token))
    ensures Exclusive(Next(w, BeginReset(key, token)))
  {
    var v := Next(w, BeginReset(key, token));
    if FenceError(w.reg, key).None? {
      assert Excluded(w, key);
      forall k ensures Excluded(v, k) {
        assert Excluded(w, k);
        assert HasRecoveryLease(v.reg, k) <==> HasRecoveryLease(w.reg, k);
        if k == key {
          assert v.reg.resets[token] == k;
        } else if Resetting(w, k) {
          var t :| t in w.reg.resets && w.reg.resets[t] == k;
          assert v.reg.resets[t] == k;
        }
      }
      assert forall t :: t in w.reg.resets ==> w.reg.resets[t] != key;
    }
  }

  lemma CompleteResetKeeps(w: World, token: Token, success: bool)
    requires Exclusive(w)
    ensures Exclusive(Next(w, CompleteReset(token, success)))
  {
    if token in w.reg.resets {
      var key := w.reg.resets[token];
      var v := Next(w, CompleteReset(token, success));
      assert Excluded(w, key) && Resetting(w, key);
      forall k ensures Excluded(v, k) {
        assert Excluded(w, k);
        assert HasRecoveryLease(v.reg, k) <==> HasRecoveryLease(w.reg, k);
        if Resetting(v, k) {
          var t :| t in v.reg.resets && v.reg.resets[t] == k;
          assert w.reg.resets[t] == k;
        } else if Resetting(w, k) {
          var t :| t in w.reg.resets && w.reg.resets[t] == k;
          assert t == token || t in v.reg.resets;
        }
      }
    }
  }

  lemma MutationKeeps(w: World, e: Event)
    requires Exclusive(w) && Enabled(w, e) && (e.EnterMutation? || e.LeaveMutation?)
    ensures Exclusive(Next(w, e))
  {
    var v := Next(w, e);
    assert Excluded(w, e.key);
    forall k ensures Excluded(v, k) {
      assert Excluded(w, k);
      assert Resetting(v, k) <==> Resetting(w, k);
      assert HasRecoveryLease(v.reg, k) <==> HasRecoveryLease(w.reg, k);
    }
  }

  lemma ReadKeeps(w: World, e: Event)
    requires Exclusive(w) && Enabled(w, e) && (e.EnterRead? || e.LeaveRead?)
    ensures Exclusive(Next(w, e))
  {
    var v := Next(w, e);
    assert Excluded(w, e.key);
    forall k ensures Excluded(v, k) {
      assert Excluded(w, k);
      assert Resetting(v, k) <==> Resetting(w, k);
      assert HasRecoveryLease(v.reg, k) <==> HasRecoveryLease(w.reg, k);
    }
  }

  lemma EventKeepsExclusion(w: World, e: Event)
    requires Exclusive(w) && Enabled(w, e)
    ensures Exclusive(Next(w, e))
  {
    match e
    case Acquire(key, recovery, token) => AcquireKeeps(w, key, recovery, token);
    case Release(token) => ReleaseKeeps(w, token);
    case RegisterBackground(key, execution, sandbox) => RegisterKeeps(w, key, execution, sandbox);
    case BeginReset(key, token) => BeginResetKeeps(w, key, token);
    case CompleteReset(token, success) => CompleteResetKeeps(w, token, success);
    case EnterMutation(_) => MutationKeeps(w, e);
    case LeaveMutation(_) => MutationKeeps(w, e);
    case EnterRead(_) => ReadKeeps(w, e);
    case LeaveRead(_) => ReadKeeps(w, e);
  }

  // ---------------------------------------------------------------- runs

  ghost predicate Admissible(w: World, es: seq<Event>)
    decreases |es|
  {
    es == [] || (Enabled(w, es[0]) && Admissible(Next(w, es[0]), es[1..]))
  }

  function Replay(w: World, es: seq<Event>): World
    decreases |es|
  {
    if es == [] then w else Replay(Next(w, es[0]), es[1..])
  }

  const START := World(EMPTY, multiset{}, multiset{})

  lemma StartIsExclusive()
    ensures Exclusive(START)
  {
    forall key ensures Excluded(START, key) {
    }
  }

  /** Any interleaving of registry calls keeps every exclusion rule of every Session. */
  lemma {:induction false} RunsAreExclusive(w: World, es: seq<Event>)
    requires Exclusive(w) && Admissible(w, es)
    ensures Exclusive(Replay(w, es))
    decreases |es|
  {
    if es != [] {
      EventKeepsExclusion(w, es[0]);
      RunsAreExclusive(Next(w, es[0]), es[1..]);
    }
  }

  // ---------------------------------------------------------------- consequences

  /** Two open scopes on one Session never overlap with each other, nor with a lease. */
  lemma MutationIsAlone(es: seq<Event>, key: Key)
    requires Admissible(START, es)
    ensures var w := Replay(START, es);
            && w.mutations[key] <= 1
            && (w.mutations[key] == 1 ==>
                  && !HasLease(w.reg, key) && w.readers[key] == 0 && !HasBackground(w.reg, key)
                  && forall token :: token in w.reg.resets ==> w.reg.resets[token] != key)
  {
    StartIsExclusive();
    RunsAreExclusive(START, es);
    var w := Replay(START, es);
    assert Excluded(w, key);
    assert !Resetting(w, key) ==> forall token :: token in w.reg.resets ==> w.reg.resets[token] != key;
  }

  /** The Session has no lease, no reader and no mutation scope, and nobody could get in. */
  ghost predicate Closed(w: World, key: Key) {
    w.mutations[key] == 0 && w.readers[key] == 0 && !HasLease(w.reg, key) && RefusesAll(w.reg, key)
  }

  /** So it is now, and after every event of a run. */
  ghost predicate ClosedThroughout(w: World, es: seq<Event>, key: Key)
    decreases |es|
  {
    Closed(w, key) && (es == [] || ClosedThroughout(Next(w, es[0]), es[1..], key))
  }

  predicate Completing(e: Event, token: Token) {
    e.CompleteReset? && e.token == token
  }

  predicate Completes(es: seq<Event>, token: Token) {
    exists i :: 0 <= i < |es| && Completing(es[i], token)
  }

  lemma GoodTokenCloses(w: World, token: Token, key: Key)
    requires Exclusive(w) && ResetTokenHolds(w.reg, token, key)
    ensures Closed(w, key)
  {
    assert Excluded(w, key);
    assert Resetting(w, key);
  }

  /** Whatever the reset's outcome, completing it opens the Session at once: to executions,
      share readers and resets without condition, and to a plain mutation or a recovery
      execution exactly if no persistent execution is registered. */
  lemma CompletingOpens(w: World, token: Token, key: Key, success: bool)
    requires Exclusive(w) && ResetTokenHolds(w.reg, token, key)
    ensures var r := Next(w, CompleteReset(token, success)).reg;
            && AcquireError(r, key, false).None? && ReadError(r, key).None? && FenceError(r, key).None?
            && (MutationError(r, key).None? <==> !HasBackground(r, key))
            && (AcquireError(r, key, true).None? <==> !HasBackground(r, key))
            && (success ==> !HasBackground(r, key))
            && !RefusesAll(r, key)
  {
    GoodTokenCloses(w, token, key);
    assert Excluded(w, key);
  }

  lemma EventKeepsToken(w: World, e: Event, token: Token, key: Key)
    requires Exclusive(w) && Enabled(w, e) && ResetTokenHolds(w.reg, token, key) && !Completing(e, token)
    ensures ResetTokenHolds(Next(w, e).reg, token, key)
  {
    GoodTokenCloses(w, token, key);
    if e.CompleteReset? && e.token in w.reg.resets {
      OneResetEach(w, token, e.token);
    }
    hide Exclusive;
  }

  lemma OneResetEach(w: World, t: Token, u: Token)
    requires Exclusive(w) && t in w.reg.resets && u in w.reg.resets && t != u
    ensures w.reg.resets[t] != w.reg.resets[u]
  {
  }

  lemma SplitCompletes(es: seq<Event>, token: Token)
    requires es != []
    ensures Completes(es, token) <==> Completing(es[0], token) || Completes(es[1..], token)
  {
    assert forall i :: 0 <= i < |es| - 1 ==> es[1..][i] == es[i + 1];
  }

  /** When the body of `reset_mutation` is exclusive: from a good token on, over any run of
      registry calls, the Session stays free of everybody and refuses everybody exactly as
      long as nobody completes the reset. */
  lemma {:induction false} ResetBodyIsExclusiveExactly(w: World, es: seq<Event>, token: Token, key: Key)
    requires Exclusive(w) && Admissible(w, es) && ResetTokenHolds(w.reg, token, key)
    ensures ClosedThroughout(w, es, key) <==> !Completes(es, token)
    decreases |es|
  {
    GoodTokenCloses(w, token, key);
    if es != [] {
      SplitCompletes(es, token);
      if Completing(es[0], token) {
        CompletingOpens(w, token, key, es[0].success);
      } else {
        EventKeepsExclusion(w, es[0]);
        EventKeepsToken(w, es[0], token, key);
        hide Exclusive, Next, Enabled, Closed, Completing, Completes;
        ResetBodyIsExclusiveExactly(Next(w, es[0]), es[1..], token, key);
      }
    }
  }

  /** An execution, a persistent one, a share reader, a reset or a mutation of the Session gets in. */
  predicate GetsIn(w: World, e: Event, key: Key) {
    match e
    case Acquire(k, recovery, _) => k == key && AcquireError(w.reg, k, recovery).None?
    case BeginReset(k, _) => k == key && FenceError(w.reg, k).None?
    case EnterMutation(k) => k == key && MutationError(w.reg, k).None?
    case EnterRead(k) => k == key && ReadError(w.reg, k).None?
    case RegisterBackground(k, _, _) => k == key && RegisterError(w.reg, k).None?
    case _ => false
  }

  predicate NobodyGetsIn(w: World, es: seq<Event>, key: Key)
    decreases |es|
  {
    es == [] || (!GetsIn(w, es[0], key) && NobodyGetsIn(Next(w, es[0]), es[1..], key))
  }

  predicate NobodyGetsInAfter(w: World, es: seq<Event>, token: Token, key: Key)
    decreases |es|
  {
    es == []
    || (if Completing(es[0], token) then NobodyGetsIn(Next(w, es[0]), es[1..], key)
        else NobodyGetsInAfter(Next(w, es[0]), es[1..], token, key))
  }

  /** So all that can break the exclusion is somebody who gets in after the completion. */
  lemma {:induction false} OnlyCompletionLetsIn(w: World, es: seq<Event>, token: Token, key: Key)
    requires Exclusive(w) && Admissible(w, es) && ResetTokenHolds(w.reg, token, key)
    ensures NobodyGetsIn(w, es, key) <==> NobodyGetsInAfter(w, es, token, key)
    ensures !Completes(es, token) ==> NobodyGetsIn(w, es, key)
    decreases |es|
  {
    GoodTokenCloses(w, token, key);
    if es != [] {
      SplitCompletes(es, token);
      assert !GetsIn(w, es[0], key);
      if !Completing(es[0], token) {
        EventKeepsExclusion(w, es[0]);
        EventKeepsToken(w, es[0], token, key);
        hide Exclusive, Next, Enabled, Closed, Completing, Completes, GetsIn;
        OnlyCompletionLetsIn(Next(w, es[0]), es[1..], token, key);
      }
    }
  }

  /** The token check of `reset_mutation` holds nothing: while its body runs, completing the
      reset lets a plain mutation of the same Session in. */
  lemma ResetMutationBodyIsNotExclusive(key: Key, token: Token)
    ensures var w := Next(START, BeginReset(key, token));
            var v := Next(Next(w, CompleteReset(token, true)), EnterMutation(key));
            ResetTokenHolds(w.reg, token, key) && v.mutations[key] == 1
  {
  }
}
