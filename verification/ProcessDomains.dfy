/** Process identity in the kernel: how the fork, exec and exit handlers pass it on. */
module ProcessDomains {
  import opened Base

  type Tid = nat
  type Cgroup = nat
  type Cookie = nat

  /** A process domain: the run's cookie and the birth of the process. */
  datatype Identity = Identity(cookie: Cookie, birthNs: nat, birthPid: Tid)

  /** A seeded Session cgroup; root 0 means that no process has claimed it. */
  datatype Session = Session(cookie: Cookie, birthNs: nat, root: Tid)

  datatype Event =
    | Root(id: Identity, pid: Tid)
    | Fork(id: Identity, parent: Identity, pid: Tid, ppid: Tid)
    | Exec(id: Identity, pid: Tid, former: Tid)
    | Exit(id: Identity, pid: Tid)

  /** The maps of the program and everything it ever submitted. */
  datatype Kernel = Kernel(domains: map<Tid, Identity>, sessions: map<Cgroup, Session>, produced: map<Cookie, nat>,
                           lost: nat, log: seq<Event>)

  /** Which helper calls fail: a map update, the scratch buffer, the ring buffer output. */
  datatype Faults = Faults(update: bool, buffer: bool, output: bool)

  // ---------------------------------------------------------------- the handlers

  function Lost(k: Kernel): Kernel { k.(lost := k.lost + 1) }

  function Submitted(k: Kernel, e: Event, f: Faults): Kernel {
    if f.buffer || f.output then Lost(k)
    else
      var c := e.id.cookie;
      var v := k.(log := k.log + [e]);
      if c in k.produced then v.(produced := k.produced[c := k.produced[c] + 1]) else Lost(v)
  }

  /** The domain of the current task. The first task seen in a seeded Session becomes its root. */
  function DomainFor(k: Kernel, pid: Tid, cgroup: Cgroup, f: Faults): (Kernel, Option<Identity>) {
    if pid in k.domains then (k, Some(k.domains[pid]))
    else if cgroup !in k.sessions || k.sessions[cgroup].root != 0 then (k, None)
    else
      var s := k.sessions[cgroup];
      var root := Identity(s.cookie, s.birthNs, pid);
      var claimed := k.(sessions := k.sessions[cgroup := s.(root := pid)]);
      if f.update then (Lost(claimed), None)
      else
        var placed := claimed.(domains := k.domains[pid := root]);
        if f.buffer then (Lost(placed), None) else (Submitted(placed, Root(root, pid), f), Some(root))
  }

  function AfterFork(k: Kernel, parent: Tid, child: Tid, cgroup: Cgroup, now: nat, rootFaults: Faults, f: Faults): Kernel {
    var (v, domain) := DomainFor(k, parent, cgroup, rootFaults);
    if domain.None? then v
    else
      var id := Identity(domain.value.cookie, now, child);
      var u := if f.update then Lost(v) else v.(domains := v.domains[child := id]);
      Submitted(u, Fork(id, domain.value, child, parent), f)
  }

  /** The task `former` becomes `pid`; they differ when a thread other than the leader execs. */
  function AfterExec(k: Kernel, pid: Tid, former: Tid, cgroup: Cgroup, rootFaults: Faults, f: Faults): Kernel {
    if former in k.domains then ExecFound(k, k.domains[former], pid, former, f)
    else
      var (v, domain) := DomainFor(k, pid, cgroup, rootFaults);
      if domain.None? then v else ExecFound(v, domain.value, pid, former, f)
  }

  /** The rest of the exec handler once the domain is found. */
  function ExecFound(k: Kernel, id: Identity, pid: Tid, former: Tid, f: Faults): Kernel {
    if former == pid then Submitted(k, Exec(id, pid, former), f)
    else if f.update then
      var u := Lost(k).(domains := k.domains - {former});
      if pid in u.domains then Submitted(u, Exec(u.domains[pid], pid, former), f) else u
    else Submitted(k.(domains := k.domains[pid := id] - {former}), Exec(id, pid, former), f)
  }

  function AfterExit(k: Kernel, pid: Tid, cgroup: Cgroup, rootFaults: Faults, f: Faults): Kernel {
    var (v, domain) := DomainFor(k, pid, cgroup, rootFaults);
    if domain.None? then v
    else
      var u := Submitted(v, Exit(domain.value, pid), f);
      u.(domains := u.domains - {pid})
  }

  /** `seed` in user space: a counter for the cookie and a claimable Session. */
  function AfterSeed(k: Kernel, cgroup: Cgroup, cookie: Cookie, now: nat): Kernel {
    k.(produced := k.produced[cookie := 0], sessions := k.sessions[cgroup := Session(cookie, now, 0)])
  }

  function AfterFinish(k: Kernel, cgroup: Cgroup, cookie: Cookie): Kernel {
    k.(produced := k.produced - {cookie}, sessions := k.sessions - {cgroup})
  }

  // ---------------------------------------------------------------- the object

  /** The maps and the handlers as the kernel runs them, one at a time. */
  class ProcessMonitor {
    var domains: map<Tid, Identity>
    var sessions: map<Cgroup, Session>
    var produced: map<Cookie, nat>
    var lost: nat
    var log: seq<Event>

    function View(): Kernel
      reads this
    {
      Kernel(domains, sessions, produced, lost, log)
    }

    constructor ()
      ensures View() == Kernel(map[], map[], map[], 0, [])
    {
      domains, sessions, produced, lost, log := map[], map[], map[], 0, [];
    }

    method Submit(e: Event, f: Faults)
      modifies this`log, this`produced, this`lost
      ensures View() == Submitted(old(View()), e, f)
    {
      if f.buffer || f.output {
        lost := lost + 1;
      } else {
        log := log + [e];
        if e.id.cookie in produced {
          produced := produced[e.id.cookie := produced[e.id.cookie] + 1];
        } else {
          lost := lost + 1;
        }
      }
    }

    method DomainForCurrent(pid: Tid, cgroup: Cgroup, f: Faults) returns (domain: Option<Identity>)
      modifies this
      ensures (View(), domain) == DomainFor(old(View()), pid, cgroup, f)
    {
      if pid in domains {
        return Some(domains[pid]);
      }
      if cgroup !in sessions {
        return None;
      }
      var session := sessions[cgroup];
      if session.root == 0 {
        sessions := sessions[cgroup := session.(root := pid)];
        var root := Identity(session.cookie, session.birthNs, pid);
        if f.update {
          lost := lost + 1;
          return None;
        }
        domains := domains[pid := root];
        if f.buffer {
          lost := lost + 1;
          return None;
        }
        Submit(Root(root, pid), f);
      }
      domain := if pid in domains then Some(domains[pid]) else None;
    }

    method HandleFork(parent: Tid, child: Tid, cgroup: Cgroup, now: nat, rootFaults: Faults, f: Faults)
      modifies this
      ensures View() == AfterFork(old(View()), parent, child, cgroup, now, rootFaults, f)
    {
      var domain := DomainForCurrent(parent, cgroup, rootFaults);
      if domain.None? {
        return;
      }
      var inherited := Identity(domain.value.cookie, now, child);
      if f.update {
        lost := lost + 1;
      } else {
        domains := domains[child := inherited];
      }
      Submit(Fork(inherited, domain.value, child, parent), f);
    }

    method HandleExec(pid: Tid, former: Tid, cgroup: Cgroup, rootFaults: Faults, f: Faults)
      modifies this
      ensures View() == AfterExec(old(View()), pid, former, cgroup, rootFaults, f)
    {
      var domain: Option<Identity> := if former in domains then Some(domains[former]) else None;
      if domain.None? {
        domain := DomainForCurrent(pid, cgroup, rootFaults);
      }
      if former != pid && domain.Some? {
        var moved := domain.value;
        if f.update {
          lost := lost + 1;
        } else {
          domains := domains[pid := moved];
        }
        domains := domains - {former};
        domain := if pid in domains then Some(domains[pid]) else None;
      }
      if domain.None? {
        return;
      }
      Submit(Exec(domain.value, pid, former), f);
    }

    method HandleExit(pid: Tid, cgroup: Cgroup, rootFaults: Faults, f: Faults)
      modifies this
      ensures View() == AfterExit(old(View()), pid, cgroup, rootFaults, f)
    {
      var domain := DomainForCurrent(pid, cgroup, rootFaults);
      if domain.None? {
        return;
      }
      Submit(Exit(domain.value, pid), f);
      domains := domains - {pid};
    }
  }
}
