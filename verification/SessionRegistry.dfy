/** The registry that keeps checkpoint and rollback away from active executions. */
module SessionRegistry {
  import opened Base

  type Key = (string, string)
  type Token = string
  type ExecutionId = string

  datatype RegistryError =
    | Mutating | Leased | ShareReads | BackgroundRuns | RecoveryReserved | BadExecution | UnknownReset | InvalidReset

  /** The value of the registry's fields. */
  datatype Registry = Registry(leases: map<Token, Key>, recoveryLeases: set<Token>, mutating: set<Key>,
                               background: map<Key, map<ExecutionId, string>>, resets: map<Token, Key>,
                               shareReaders: map<Key, nat>)

  const EMPTY := Registry(map[], {}, {}, map[], map[], map[])

  predicate HasLease(r: Registry, key: Key) {
    key in r.leases.Values
  }

  predicate HasRecoveryLease(r: Registry, key: Key) {
    exists token :: token in r.leases && token in r.recoveryLeases && r.leases[token] == key
  }

  predicate HasReaders(r: Registry, key: Key) {
    key in r.shareReaders && r.shareReaders[key] != 0
  }

  predicate HasBackground(r: Registry, key: Key) {
    key in r.background && r.background[key] != map[]
  }

  function Executions(r: Registry, key: Key): map<ExecutionId, string> {
    if key in r.background then r.background[key] else map[]
  }

  // ---------------------------------------------------------------- what each operation computes

  /** Why a request is refused, in the order the code checks. */
  function AcquireError(r: Registry, key: Key, recovery: bool): Option<RegistryError> {
    if key in r.mutating then Some(Mutating)
    else if HasLease(r, key) then Some(Leased)
    else if recovery && HasReaders(r, key) then Some(ShareReads)
    else if recovery && HasBackground(r, key) then Some(BackgroundRuns)
    else None
  }

  function Acquired(r: Registry, key: Key, recovery: bool, token: Token): Registry {
    r.(leases := r.leases[token := key],
       recoveryLeases := if recovery then r.recoveryLeases + {token} else r.recoveryLeases)
  }

  function Released(r: Registry, token: Token): Registry {
    r.(leases := r.leases - {token}, recoveryLeases := r.recoveryLeases - {token})
  }

  function RegisterError(r: Registry, key: Key): Option<RegistryError> {
    if key in r.mutating then Some(Mutating)
    else if HasRecoveryLease(r, key) then Some(RecoveryReserved)
    else None
  }

  function Registered(r: Registry, key: Key, execution: ExecutionId, sandbox: string): Registry {
    r.(background := r.background[key := Executions(r, key)[execution := sandbox]])
  }

  /** What a reset and a plain mutation both demand. */
  function FenceError(r: Registry, key: Key): Option<RegistryError> {
    if HasReaders(r, key) then Some(ShareReads)
    else if key in r.mutating then Some(Mutating)
    else if HasLease(r, key) then Some(Leased)
    else None
  }

  function MutationError(r: Registry, key: Key): Option<RegistryError> {
    if FenceError(r, key).Some? then FenceError(r, key)
    else if HasBackground(r, key) then Some(BackgroundRuns)
    else None
  }

  function ResetBegun(r: Registry, key: Key, token: Token): Registry {
    r.(mutating := r.mutating + {key}, resets := r.resets[token := key])
  }

  function ResetCompleted(r: Registry, token: Token, success: bool): Registry
    requires token in r.resets
  {
    var key := r.resets[token];
    r.(resets := r.resets - {token}, mutating := r.mutating - {key},
       background := if success then r.background - {key} else r.background)
  }

  predicate ResetTokenHolds(r: Registry, token: Token, key: Key) {
    token in r.resets && r.resets[token] == key && key in r.mutating
  }

  function ReadError(r: Registry, key: Key): Option<RegistryError> {
    if key in r.mutating then Some(Mutating)
    else if HasRecoveryLease(r, key) then Some(RecoveryReserved)
    else None
  }

  /** Every execution, reader, reset and mutation of the Session is refused. */
  predicate RefusesAll(r: Registry, key: Key) {
    && AcquireError(r, key, false).Some? && AcquireError(r, key, true).Some? && RegisterError(r, key).Some?
    && FenceError(r, key).Some? && MutationError(r, key).Some? && ReadError(r, key).Some?
  }

  function Readers(r: Registry, key: Key): nat {
    if key in r.shareReaders then r.shareReaders[key] else 0
  }

  function ReadEntered(r: Registry, key: Key): Registry {
    r.(shareReaders := r.shareReaders[key := Readers(r, key) + 1])
  }

  function ReadLeft(r: Registry, key: Key): Registry {
    if Readers(r, key) <= 1 then r.(shareReaders := r.shareReaders - {key})
    else r.(shareReaders := r.shareReaders[key := Readers(r, key) - 1])
  }

  // ---------------------------------------------------------------- the object

  /** Each method body is one critical section under the registry's lock. A context manager
      is a method that enters the scope and one that leaves it. */
  class ExecutionRegistry {
    var leases: map<Token, Key>
    var recoveryLeases: set<Token>
    var mutating: set<Key>
    var background: map<Key, map<ExecutionId, string>>
    var resets: map<Token, Key>
    var shareReaders: map<Key, nat>

    function View(): Registry
      reads this
    {
      Registry(leases, recoveryLeases, mutating, background, resets, shareReaders)
    }

    constructor ()
      ensures View() == EMPTY
    {
      leases, recoveryLeases, mutating := map[], {}, {};
      background, resets, shareReaders := map[], map[], map[];
    }

    method Acquire(key: Key, recovery: bool, token: Token) returns (r: Result<Token, RegistryError>)
      modifies this
      ensures var e := AcquireError(old(View()), key, recovery);
              if e.Some? then r == Err(e.value) && View() == old(View())
              else r == Ok(token) && View() == Acquired(old(View()), key, recovery, token)
    {
      if key in mutating {
        return Err(Mutating);
      }
      if key in leases.Values {
        return Err(Leased);
      }
      if recovery && key in shareReaders && shareReaders[key] != 0 {
        return Err(ShareReads);
      }
      if recovery && key in background && background[key] != map[] {
        return Err(BackgroundRuns);
      }
      leases := leases[token := key];
      if recovery {
        recoveryLeases := recoveryLeases + {token};
      }
      r := Ok(token);
    }

    method Release(token: Token) returns (released: bool)
      modifies this
      ensures released <==> token in old(leases)
      ensures View() == Released(old(View()), token)
    {
      recoveryLeases := recoveryLeases - {token};
      released := token in leases;
      leases := leases - {token};
    }

    method RegisterBackground(key: Key, sandbox: string, execution: ExecutionId) returns (r: Result<ExecutionId, RegistryError>)
      modifies this
      ensures var e := if sandbox == "" || execution == "" then Some(BadExecution) else RegisterError(old(View()), key);
              if e.Some? then r == Err(e.value) && View() == old(View())
              else r == Ok(execution) && View() == Registered(old(View()), key, execution, sandbox)
    {
      if sandbox == "" || execution == "" {
        return Err(BadExecution);
      }
      if key in mutating {
        return Err(Mutating);
      }
      if exists token :: token in leases && token in recoveryLeases && leases[token] == key {
        return Err(RecoveryReserved);
      }
      var records := if key in background then background[key] else map[];
      background := background[key := records[execution := sandbox]];
      r := Ok(execution);
    }

    method BeginRuntimeReset(key: Key, token: Token) returns (r: Result<map<ExecutionId, string>, RegistryError>)
      modifies this
      ensures var e := FenceError(old(View()), key);
              if e.Some? then r == Err(e.value) && View() == old(View())
              else r == Ok(Executions(old(View()), key)) && View() == ResetBegun(old(View()), key, token)
    {
      if key in shareReaders && shareReaders[key] != 0 {
        return Err(ShareReads);
      }
      if key in mutating {
        return Err(Mutating);
      }
      if key in leases.Values {
        return Err(Leased);
      }
      mutating := mutating + {key};
      resets := resets[token := key];
      r := Ok(if key in background then background[key] else map[]);
    }

    method CompleteRuntimeReset(token: Token, success: bool) returns (r: Result<bool, RegistryError>)
      modifies this
      ensures if token in old(resets) then r == Ok(success) && View() == ResetCompleted(old(View()), token, success)
              else r == Err(UnknownReset) && View() == old(View())
    {
      if token !in resets {
        return Err(UnknownReset);
      }
      var key := resets[token];
      resets := resets - {token};
      if success {
        background := background - {key};
      }
      mutating := mutating - {key};
      r := Ok(success);
    }

    /** Entering `reset_mutation`: a check, and nothing held afterwards. It passes for the
        token of the Session's reset only, and when it does, everybody else is refused now. */
    method CheckResetToken(token: Token, key: Key) returns (r: Result<(), RegistryError>)
      ensures r.Ok? ==> RefusesAll(View(), key)
      ensures r.Ok? ==> token in resets && resets[token] == key
      ensures r == if ResetTokenHolds(View(), token, key) then Ok(()) else Err(InvalidReset)
    {
      if token !in resets || resets[token] != key || key !in mutating {
        return Err(InvalidReset);
      }
      r := Ok(());
    }

    method EnterMutation(key: Key) returns (r: Result<(), RegistryError>)
      modifies this
      ensures var e := MutationError(old(View()), key);
              if e.Some? then r == Err(e.value) && View() == old(View())
              else r == Ok(()) && View() == old(View()).(mutating := old(mutating) + {key})
    {
      if key in shareReaders && shareReaders[key] != 0 {
        return Err(ShareReads);
      }
      if key in mutating {
        return Err(Mutating);
      }
      if key in leases.Values {
        return Err(Leased);
      }
      if key in background && background[key] != map[] {
        return Err(BackgroundRuns);
      }
      mutating := mutating + {key};
      r := Ok(());
    }

    method LeaveMutation(key: Key)
      modifies this`mutating
      ensures View() == old(View()).(mutating := old(mutating) - {key})
    {
      mutating := mutating - {key};
    }

    method EnterShareRead(key: Key) returns (r: Result<(), RegistryError>)
      modifies this
      ensures var e := ReadError(old(View()), key);
              if e.Some? then r == Err(e.value) && View() == old(View())
              else r == Ok(()) && View() == ReadEntered(old(View()), key)
    {
      if key in mutating {
        return Err(Mutating);
      }
      if exists token :: token in leases && token in recoveryLeases && leases[token] == key {
        return Err(RecoveryReserved);
      }
      shareReaders := shareReaders[key := (if key in shareReaders then shareReaders[key] else 0) + 1];
      r := Ok(());
    }

    method LeaveShareRead(key: Key)
      requires key in shareReaders && shareReaders[key] > 0
      modifies this`shareReaders
      ensures View() == ReadLeft(old(View()), key)
    {
      shareReaders := shareReaders[key := shareReaders[key] - 1];
      if shareReaders[key] == 0 {
        shareReaders := shareReaders - {key};
      }
    }
  }
}
