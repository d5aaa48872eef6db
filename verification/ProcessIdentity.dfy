/** What the event log says about processes, in every run that lost nothing. */
module ProcessIdentity {
  import opened ProcessDomains

  /** The kernel program together with its environment: the live tasks and the clock. */
  datatype World = World(k: Kernel, live: set<Tid>, clock: nat)

  datatype Step =
    | Seed(cgroup: Cgroup, cookie: Cookie, now: nat)
    | ForkTask(parent: Tid, child: Tid, cgroup: Cgroup, now: nat, rootFaults: Faults, faults: Faults)
    | ExecTask(pid: Tid, former: Tid, cgroup: Cgroup, rootFaults: Faults, faults: Faults)
    | ExitTask(pid: Tid, cgroup: Cgroup, rootFaults: Faults, faults: Faults)
    | Finish(cgroup: Cgroup, cookie: Cookie)

  /** Live task ids are unique and positive, readings of the clock differ, the old leader has
      exited before another thread takes its id, and a run is finished only when quiescent. */
  predicate Enabled(w: World, s: Step) {
    match s
    case Seed(_, _, now) => now > w.clock
    case ForkTask(parent, child, _, now, _, _) => parent in w.live && child !in w.live && child > 0 && parent > 0 && now > w.clock
    case ExecTask(pid, former, _, _, _) => pid > 0 && former in w.live && (former == pid || pid !in w.live)
    case ExitTask(pid, _, _, _) => pid > 0 && pid in w.live
    case Finish(_, cookie) => forall t :: t in w.k.domains ==> w.k.domains[t].cookie != cookie
  }

  function Next(w: World, s: Step): World {
    match s
    case Seed(cgroup, cookie, now) => w.(k := AfterSeed(w.k, cgroup, cookie, now), clock := now)
    case ForkTask(parent, child, cgroup, now, rf, f) =>
      World(AfterFork(w.k, parent, child, cgroup, now, rf, f), w.live + {child}, now)
    case ExecTask(pid, former, cgroup, rf, f) =>
      w.(k := AfterExec(w.k, pid, former, cgroup, rf, f), live := w.live - {former} + {pid})
    case ExitTask(pid, cgroup, rf, f) => w.(k := AfterExit(w.k, pid, cgroup, rf, f), live := w.live - {pid})
    case Finish(cgroup, cookie) => w.(k := AfterFinish(w.k, cgroup, cookie))
  }

  // ---------------------------------------------------------------- reading the log

  predicate Introduces(e: Event) { e.Root? || e.Fork? }

  /** Introduced and not yet exited. */
  function Alive(log: seq<Event>): set<Identity> {
    if log == [] then {}
    else
      var e := log[|log| - 1];
      var before := Alive(log[..|log| - 1]);
      if Introduces(e) then before + {e.id} else if e.Exit? then before - {e.id} else before
  }

  /** The birth times of all introduced processes. */
  function Births(log: seq<Event>): set<nat> {
    if log == [] then {}
    else
      var e := log[|log| - 1];
      Births(log[..|log| - 1]) + (if Introduces(e) then {e.id.birthNs} else {})
  }

  /** An event that may follow this log: births are new, parents, execs and exits name a
      process that is introduced and has not exited. */
  predicate Fits(log: seq<Event>, e: Event) {
    && (Introduces(e) ==> e.id.birthNs !in Births(log))
    && (e.Fork? ==> e.parent in Alive(log) && e.parent.cookie == e.id.cookie)
    && (e.Exec? || e.Exit? ==> e.id in Alive(log))
  }

  predicate Sound(log: seq<Event>) {
    log == [] || (Sound(log[..|log| - 1]) && Fits(log[..|log| - 1], log[|log| - 1]))
  }

  // ---------------------------------------------------------------- the invariant

  /** Nothing is from the future, and an unclaimed Session still has its birth time for itself. */
  predicate Timely(k: Kernel, clock: nat) {
    && (forall b :: b in Births(k.log) ==> b <= clock)
    && (forall c :: c in k.sessions ==> k.sessions[c].birthNs <= clock)
    && (forall c :: c in k.sessions && k.sessions[c].root == 0 ==> k.sessions[c].birthNs !in Births(k.log))
    && (forall c, d :: c in k.sessions && d in k.sessions && k.sessions[c].birthNs == k.sessions[d].birthNs ==> c == d)
  }

  /** The domain map and the log agree on who is alive. */
  predicate Tracked(k: Kernel) {
    && Sound(k.log)
    && (forall t :: t in k.domains ==> k.domains[t] in Alive(k.log))
    && (forall t, u :: t in k.domains && u in k.domains && k.domains[t] == k.domains[u] ==> t == u)
    && (forall id :: id in Alive(k.log) ==> exists t :: t in k.domains && k.domains[t] == id)
    && (forall id :: id in Alive(k.log) ==> id.birthNs in Births(k.log))
  }

  ghost predicate Good(k: Kernel, live: set<Tid>, clock: nat) {
    Tracked(k) && k.domains.Keys <= live && Timely(k, clock)
  }

  ghost predicate Inv(w: World) {
    w.k.lost == 0 ==> Good(w.k, w.live, w.clock)
  }

  // ---------------------------------------------------------------- steps of the log

  lemma Appended(log: seq<Event>, e: Event)
    ensures (log + [e])[..|log|] == log && (log + [e])[|log|] == e
  {
  }

  lemma IntroKeeps(k: Kernel, v: Kernel, t: Tid, e: Event)
    requires Tracked(k) && Introduces(e) && Fits(k.log, e) && t !in k.domains
    requires v == k.(domains := k.domains[t := e.id], log := k.log + [e], produced := v.produced, sessions := v.sessions)
    ensures Tracked(v) && Births(v.log) == Births(k.log) + {e.id.birthNs}
  {
    Appended(k.log, e);
    forall u | u in k.domains ensures k.domains[u] != e.id {
      assert k.domains[u].birthNs in Births(k.log);
    }
    forall id | id in Alive(v.log) ensures exists u :: u in v.domains && v.domains[u] == id {
      if id == e.id {
        assert v.domains[t] == id;
      } else {
        var u :| u in k.domains && k.domains[u] == id;
        assert v.domains[u] == id;
      }
    }
  }

  lemma ExecLogged(log: seq<Event>, e: Event)
    requires Sound(log) && e.Exec? && e.id in Alive(log)
    ensures Sound(log + [e]) && Alive(log + [e]) == Alive(log) && Births(log + [e]) == Births(log)
  {
    Appended(log, e);
  }

  lemma ExecKeeps(k: Kernel, v: Kernel, at: Tid, pid: Tid, e: Event)
    requires Tracked(k) && at in k.domains && (at == pid || pid !in k.domains) && e.Exec? && e.id == k.domains[at]
    requires v == k.(domains := (k.domains - {at})[pid := e.id], log := k.log + [e], produced := v.produced)
    ensures Tracked(v) && Births(v.log) == Births(k.log)
  {
    ExecLogged(k.log, e);
    hide Sound, Alive, Births;
    forall id | id in Alive(v.log) ensures exists u :: u in v.domains && v.domains[u] == id {
      var u :| u in k.domains && k.domains[u] == id;
      assert v.domains[if u == at then pid else u] == id;
    }
  }

  lemma ExitKeeps(k: Kernel, v: Kernel, pid: Tid)
    requires Tracked(k) && pid in k.domains
    requires v == k.(domains := k.domains - {pid}, log := k.log + [Exit(k.domains[pid], pid)], produced := v.produced)
    ensures Tracked(v) && Births(v.log) == Births(k.log)
  {
    Appended(k.log, Exit(k.domains[pid], pid));
    forall id | id in Alive(v.log) ensures exists u :: u in v.domains && v.domains[u] == id {
      var u :| u in k.domains && k.domains[u] == id;
      assert v.domains[u] == id;
    }
  }

  // The loss counter never falls.

  lemma SubmitLoss(k: Kernel, e: Event, f: Faults)
    ensures Submitted(k, e, f).lost >= k.lost
  {
  }

  lemma DomainForLoss(k: Kernel, pid: Tid, cgroup: Cgroup, f: Faults)
    ensures DomainFor(k, pid, cgroup, f).0.lost >= k.lost
  {
    if cgroup in k.sessions {
      var s := k.sessions[cgroup];
      var root := Identity(s.cookie, s.birthNs, pid);
      SubmitLoss(k.(sessions := k.sessions[cgroup := s.(root := pid)], domains := k.domains[pid := root]), Root(root, pid), f);
    }
    hide Submitted;
  }

  lemma ExecFoundLoss(k: Kernel, id: Identity, pid: Tid, former: Tid, f: Faults)
    ensures ExecFound(k, id, pid, former, f).lost >= k.lost
  {
    SubmitLoss(k, Exec(id, pid, former), f);
    SubmitLoss(k.(domains := k.domains[pid := id] - {former}), Exec(id, pid, former), f);
    var u := Lost(k).(domains := k.domains - {former});
    if pid in u.domains { SubmitLoss(u, Exec(u.domains[pid], pid, former), f); }
    hide Submitted;
  }

  lemma SubmitNoLoss(k: Kernel, e: Event, f: Faults)
    ensures Submitted(k, e, f).lost >= k.lost
    ensures Submitted(k, e, f).lost == k.lost ==>
              Submitted(k, e, f) == k.(log := k.log + [e], produced := Submitted(k, e, f).produced)
  {
  }

  lemma DomainForKeeps(k: Kernel, pid: Tid, cgroup: Cgroup, f: Faults, live: set<Tid>, clock: nat)
    requires Good(k, live, clock) && pid > 0
    ensures var (v, domain) := DomainFor(k, pid, cgroup, f);
            && (v.lost == k.lost ==>
                  && Good(v, live + {pid}, clock)
                  && v.domains.Keys <= k.domains.Keys + {pid}
                  && (forall t :: t in k.domains ==> t in v.domains && v.domains[t] == k.domains[t])
                  && (domain.Some? <==> pid in v.domains) && (domain.Some? ==> v.domains[pid] == domain.value))
  {
    hide Tracked, Sound, Alive, Births;
    var (v, domain) := DomainFor(k, pid, cgroup, f);
    if pid !in k.domains && cgroup in k.sessions && k.sessions[cgroup].root == 0 && v.lost == k.lost {
      var s := k.sessions[cgroup];
      var e := Root(Identity(s.cookie, s.birthNs, pid), pid);
      var placed := k.(sessions := k.sessions[cgroup := s.(root := pid)], domains := k.domains[pid := e.id]);
      SubmitNoLoss(placed, e, f);
      IntroKeeps(k, v, pid, e);
    }
  }

  /** The second half of the fork handler. */
  lemma ForkPlaced(u: Kernel, v: Kernel, child: Tid, e: Event, live: set<Tid>, clock: nat, now: nat)
    requires Good(u, live, clock) && child !in live && now > clock
    requires e.Fork? && e.id.birthNs == now && e.parent in u.domains.Values && e.parent.cookie == e.id.cookie
    requires v == u.(domains := u.domains[child := e.id], log := u.log + [e], produced := v.produced)
    ensures Good(v, live + {child}, now)
  {
    assert now !in Births(u.log);
    assert e.parent in Alive(u.log);
    assert child !in u.domains.Keys;
    hide Alive, Births, Sound;
    IntroKeeps(u, v, child, e);
    hide Tracked, Fits;
  }

  lemma ForkKeeps(k: Kernel, parent: Tid, child: Tid, cgroup: Cgroup, now: nat, rf: Faults, f: Faults, live: set<Tid>, clock: nat)
    requires Good(k, live, clock) && parent > 0 && parent in live && child !in live && now > clock
    ensures var v := AfterFork(k, parent, child, cgroup, now, rf, f);
            v.lost == k.lost ==> Good(v, live + {child}, now)
  {
    DomainForLoss(k, parent, cgroup, rf);
    var (u, domain) := DomainFor(k, parent, cgroup, rf);
    var v := AfterFork(k, parent, child, cgroup, now, rf, f);
    DomainForKeeps(k, parent, cgroup, rf, live, clock);
    hide DomainFor, Tracked, Timely;
    assert live + {parent} == live;
    if domain.Some? {
      var e := Fork(Identity(domain.value.cookie, now, child), domain.value, child, parent);
      var placed := if f.update then Lost(u) else u.(domains := u.domains[child := e.id]);
      SubmitNoLoss(placed, e, f);
      hide Submitted;
      if v.lost == k.lost {
        assert e.parent in u.domains.Values;
        ForkPlaced(u, v, child, e, live, clock, now);
      }
    } else if v.lost == k.lost {
      LaterIsTimely(v, clock, now);
    }
  }

  lemma LaterIsTimely(k: Kernel, clock: nat, now: nat)
    requires Timely(k, clock) && clock <= now
    ensures Timely(k, now)
  {
  }

  /** The second half of the exec handler, once the domain is found under `at`. */
  lemma ExecMoved(u: Kernel, pid: Tid, former: Tid, at: Tid, f: Faults, live: set<Tid>, clock: nat)
    requires Good(u, live, clock) && at in u.domains
    requires at == former || (at == pid && former !in u.domains)
    requires at == former && former != pid ==> pid !in u.domains
    ensures var v := ExecFound(u, u.domains[at], pid, former, f);
            v.lost == u.lost ==> Good(v, live - {former} + {pid}, clock)
  {
    if f.update && former != pid {
      FailedMoveIsLost(u, u.domains[at], pid, former, f);
    } else {
      var e := Exec(u.domains[at], pid, former);
      var moved := if former == pid then u else u.(domains := u.domains[pid := e.id] - {former});
      assert moved.domains == (u.domains - {at})[pid := e.id];
      assert ExecFound(u, u.domains[at], pid, former, f) == Submitted(moved, e, f);
      hide Submitted, ExecFound, Tracked, Timely;
      ExecSubmitted(u, moved, at, pid, former, e, f, live, clock);
    }
  }

  lemma ExecSubmitted(u: Kernel, moved: Kernel, at: Tid, pid: Tid, former: Tid, e: Event, f: Faults, live: set<Tid>, clock: nat)
    requires Good(u, live, clock) && at in u.domains && (at == pid || pid !in u.domains) && e.Exec? && e.id == u.domains[at]
    requires moved == u.(domains := (u.domains - {at})[pid := e.id])
    requires at == former || former !in u.domains
    ensures var v := Submitted(moved, e, f);
            v.lost == u.lost ==> Good(v, live - {former} + {pid}, clock)
  {
    SubmitNoLoss(moved, e, f);
    var v := Submitted(moved, e, f);
    hide Submitted;
    if v.lost == u.lost {
      ExecKeeps(u, v, at, pid, e);
      hide Tracked;
    }
  }

  lemma FailedMoveIsLost(k: Kernel, id: Identity, pid: Tid, former: Tid, f: Faults)
    requires f.update && former != pid
    ensures ExecFound(k, id, pid, former, f).lost > k.lost
  {
    var u := Lost(k).(domains := k.domains - {former});
    if pid in u.domains { SubmitLoss(u, Exec(u.domains[pid], pid, former), f); }
    hide Submitted;
  }

  lemma ExecTaskKeeps(k: Kernel, pid: Tid, former: Tid, cgroup: Cgroup, rf: Faults, f: Faults, live: set<Tid>, clock: nat)
    requires Good(k, live, clock) && pid > 0 && former in live && (former == pid || pid !in live)
    ensures var v := AfterExec(k, pid, former, cgroup, rf, f);
            v.lost == k.lost ==> Good(v, live - {former} + {pid}, clock)
  {
    var v := AfterExec(k, pid, former, cgroup, rf, f);
    hide Tracked, Timely, ExecFound;
    if former in k.domains {
      assert pid != former ==> pid !in k.domains.Keys;
      ExecMoved(k, pid, former, former, f, live, clock);
    } else {
      var (u, domain) := DomainFor(k, pid, cgroup, rf);
      DomainForKeeps(k, pid, cgroup, rf, live, clock);
      DomainForLoss(k, pid, cgroup, rf);
      if domain.Some? { ExecFoundLoss(u, domain.value, pid, former, f); }
      hide DomainFor;
      if v.lost == k.lost && domain.Some? {
        assert former !in k.domains.Keys && (former != pid ==> former !in u.domains.Keys);
        ExecMoved(u, pid, former, pid, f, live + {pid}, clock);
        assert live + {pid} - {former} + {pid} == live - {former} + {pid};
      } else if v.lost == k.lost {
        assert Good(u, live + {pid}, clock) && former !in u.domains.Keys && pid !in u.domains.Keys;
      }
    }
  }

  /** The second half of the exit handler. */
  lemma ExitSubmitted(u: Kernel, pid: Tid, f: Faults, live: set<Tid>, clock: nat)
    requires Good(u, live, clock) && pid in u.domains
    ensures var e := Exit(u.domains[pid], pid);
            var v := Submitted(u, e, f).(domains := Submitted(u, e, f).domains - {pid});
            v.lost == u.lost ==> Good(v, live - {pid}, clock)
  {
    var e := Exit(u.domains[pid], pid);
    SubmitNoLoss(u, e, f);
    var t := Submitted(u, e, f);
    hide Submitted;
    if t.lost == u.lost {
      var v := t.(domains := t.domains - {pid});
      assert v == u.(domains := u.domains - {pid}, log := u.log + [e], produced := v.produced);
      ExitKeeps(u, v, pid);
      hide Tracked;
    }
  }

  lemma ExitTaskKeeps(k: Kernel, pid: Tid, cgroup: Cgroup, rf: Faults, f: Faults, live: set<Tid>, clock: nat)
    requires Good(k, live, clock) && pid > 0 && pid in live
    ensures var v := AfterExit(k, pid, cgroup, rf, f);
            v.lost == k.lost ==> Good(v, live - {pid}, clock)
  {
    DomainForLoss(k, pid, cgroup, rf);
    var (u, domain) := DomainFor(k, pid, cgroup, rf);
    DomainForKeeps(k, pid, cgroup, rf, live, clock);
    hide DomainFor, Tracked, Timely;
    assert live + {pid} == live;
    if domain.Some? {
      SubmitLoss(u, Exit(domain.value, pid), f);
      hide Submitted;
      if AfterExit(k, pid, cgroup, rf, f).lost == k.lost { ExitSubmitted(u, pid, f, live, clock); }
    }
  }

  // ---------------------------------------------------------------- runs

  lemma StepKeeps(w: World, s: Step)
    requires Inv(w) && Enabled(w, s)
    ensures Next(w, s).k.lost >= w.k.lost && Inv(Next(w, s))
  {
    match s
    case Seed(cgroup, cookie, now) =>
      hide Tracked;
      assert w.k.lost == 0 ==> Tracked(AfterSeed(w.k, cgroup, cookie, now)) by { SameLog(w.k, AfterSeed(w.k, cgroup, cookie, now)); }
    case ForkTask(parent, child, cgroup, now, rf, f) =>
      hide Good;
      LossGrows(w, s);
      if w.k.lost == 0 { ForkKeeps(w.k, parent, child, cgroup, now, rf, f, w.live, w.clock); }
    case ExecTask(pid, former, cgroup, rf, f) =>
      hide Good;
      LossGrows(w, s);
      if w.k.lost == 0 { ExecTaskKeeps(w.k, pid, former, cgroup, rf, f, w.live, w.clock); }
    case ExitTask(pid, cgroup, rf, f) =>
      hide Good;
      LossGrows(w, s);
      if w.k.lost == 0 { ExitTaskKeeps(w.k, pid, cgroup, rf, f, w.live, w.clock); }
    case Finish(cgroup, cookie) =>
      hide Tracked;
      assert w.k.lost == 0 ==> Tracked(AfterFinish(w.k, cgroup, cookie)) by { SameLog(w.k, AfterFinish(w.k, cgroup, cookie)); }
  }

  lemma SameLog(k: Kernel, v: Kernel)
    requires v.log == k.log && v.domains == k.domains
    ensures Tracked(k) ==> Tracked(v)
  {
  }

  lemma LossGrows(w: World, s: Step)
    ensures Next(w, s).k.lost >= w.k.lost
  {
    match s
    case ForkTask(parent, child, cgroup, now, rf, f) =>
      DomainForLoss(w.k, parent, cgroup, rf);
      var (u, domain) := DomainFor(w.k, parent, cgroup, rf);
      hide DomainFor;
      if domain.Some? {
        var id := Identity(domain.value.cookie, now, child);
        SubmitLoss(if f.update then Lost(u) else u.(domains := u.domains[child := id]), Fork(id, domain.value, child, parent), f);
        hide Submitted;
      }
    case ExecTask(pid, former, cgroup, rf, f) =>
      DomainForLoss(w.k, pid, cgroup, rf);
      var (u, domain) := DomainFor(w.k, pid, cgroup, rf);
      hide DomainFor, ExecFound;
      if former in w.k.domains {
        ExecFoundLoss(w.k, w.k.domains[former], pid, former, f);
      } else if domain.Some? {
        ExecFoundLoss(u, domain.value, pid, former, f);
      }
    case ExitTask(pid, cgroup, rf, f) =>
      DomainForLoss(w.k, pid, cgroup, rf);
      var (u, domain) := DomainFor(w.k, pid, cgroup, rf);
      hide DomainFor;
      if domain.Some? {
        SubmitLoss(u, Exit(domain.value, pid), f);
        hide Submitted;
      }
    case _ =>
  }

  predicate Admissible(w: World, ss: seq<Step>)
    decreases |ss|
  {
    ss == [] || (Enabled(w, ss[0]) && Admissible(Next(w, ss[0]), ss[1..]))
  }

  function Replay(w: World, ss: seq<Step>): World
    decreases |ss|
  {
    if ss == [] then w else Replay(Next(w, ss[0]), ss[1..])
  }

  /** The program is loaded while some tasks already run. */
  function Start(live: set<Tid>): World {
    World(Kernel(map[], map[], map[], 0, []), live, 0)
  }

  lemma {:induction false} RunKeeps(w: World, ss: seq<Step>)
    requires Inv(w) && Admissible(w, ss)
    ensures Inv(Replay(w, ss))
    decreases |ss|
  {
    if ss != [] {
      StepKeeps(w, ss[0]);
      hide Inv, Next, Enabled;
      RunKeeps(Next(w, ss[0]), ss[1..]);
    }
  }

  lemma Reachable(live: set<Tid>, ss: seq<Step>)
    requires Admissible(Start(live), ss) && Replay(Start(live), ss).k.lost == 0
    ensures var w := Replay(Start(live), ss); Good(w.k, w.live, w.clock)
  {
    RunKeeps(Start(live), ss);
  }

  // ---------------------------------------------------------------- consequences

  lemma {:induction false} BirthsListed(log: seq<Event>, i: nat)
    requires i < |log| && Introduces(log[i])
    ensures log[i].id.birthNs in Births(log)
    decreases |log|
  {
    if i < |log| - 1 { BirthsListed(log[..|log| - 1], i); }
  }

  lemma {:induction false} SoundAt(log: seq<Event>, i: nat)
    requires Sound(log) && i < |log|
    ensures Sound(log[..i]) && Fits(log[..i], log[i])
    decreases |log|
  {
    if i < |log| - 1 {
      SoundAt(log[..|log| - 1], i);
      assert log[..|log| - 1][..i] == log[..i];
    }
  }

  /** No two root or fork events introduce processes with the same birth time: every identity
      is introduced at most once, and a seed, whose time is its root's, has at most one root. */
  lemma IntroducedOnce(live: set<Tid>, ss: seq<Step>, i: nat, j: nat)
    requires Admissible(Start(live), ss) && Replay(Start(live), ss).k.lost == 0
    requires var log := Replay(Start(live), ss).k.log; i < j < |log| && Introduces(log[i]) && Introduces(log[j])
    ensures var log := Replay(Start(live), ss).k.log; log[i].id.birthNs != log[j].id.birthNs
  {
    Reachable(live, ss);
    var log := Replay(Start(live), ss).k.log;
    SoundAt(log, j);
    BirthsListed(log[..j], i);
  }

  /** Every fork's parent, and the subject of every exec and exit, was introduced earlier and
      has not exited in between. */
  lemma NamesAliveProcess(live: set<Tid>, ss: seq<Step>, j: nat)
    requires Admissible(Start(live), ss) && Replay(Start(live), ss).k.lost == 0
    requires j < |Replay(Start(live), ss).k.log| && !Replay(Start(live), ss).k.log[j].Root?
    ensures var log := Replay(Start(live), ss).k.log;
            var id := if log[j].Fork? then log[j].parent else log[j].id;
            exists i :: 0 <= i < j && Introduces(log[i]) && log[i].id == id
                        && forall m :: i < m < j ==> !(log[m].Exit? && log[m].id == id)
  {
    Reachable(live, ss);
    var log := Replay(Start(live), ss).k.log;
    SoundAt(log, j);
    var id := if log[j].Fork? then log[j].parent else log[j].id;
    var i := AliveSince(log[..j], id);
    assert forall m :: 0 <= m < j ==> log[..j][m] == log[m];
  }

  lemma {:induction false} AliveSince(log: seq<Event>, id: Identity) returns (i: nat)
    requires id in Alive(log)
    ensures i < |log| && Introduces(log[i]) && log[i].id == id
    ensures forall m :: i < m < |log| ==> !(log[m].Exit? && log[m].id == id)
    decreases |log|
  {
    var last := log[|log| - 1];
    if Introduces(last) && last.id == id {
      i := |log| - 1;
    } else {
      i := AliveSince(log[..|log| - 1], id);
      assert forall m :: 0 <= m < |log| - 1 ==> log[..|log| - 1][m] == log[m];
    }
  }

  /** The domain map holds exactly the processes that are introduced and not exited, each
      under one live task id. */
  lemma DomainsAreAliveProcesses(live: set<Tid>, ss: seq<Step>)
    requires Admissible(Start(live), ss) && Replay(Start(live), ss).k.lost == 0
    ensures var w := Replay(Start(live), ss);
            && w.k.domains.Values == Alive(w.k.log) && w.k.domains.Keys <= w.live
            && forall t, u :: t in w.k.domains && u in w.k.domains && w.k.domains[t] == w.k.domains[u] ==> t == u
  {
    Reachable(live, ss);
    var w := Replay(Start(live), ss);
    assert w.k.domains.Values == Alive(w.k.log);
  }

  /** Every process of the run that was introduced has exited. */
  predicate Quiescent(log: seq<Event>, c: Cookie) {
    forall i :: 0 <= i < |log| && Introduces(log[i]) && log[i].id.cookie == c ==>
      exists j :: i < j < |log| && log[j].Exit? && log[j].id == log[i].id
  }

  /** Then none of its domains is left in the map. */
  lemma QuiescentRunHasNoDomain(live: set<Tid>, ss: seq<Step>, c: Cookie, t: Tid)
    requires Admissible(Start(live), ss) && Replay(Start(live), ss).k.lost == 0
    requires Quiescent(Replay(Start(live), ss).k.log, c) && t in Replay(Start(live), ss).k.domains
    ensures Replay(Start(live), ss).k.domains[t].cookie != c
  {
    Reachable(live, ss);
    var k := Replay(Start(live), ss).k;
    if k.domains[t].cookie == c {
      var i := AliveSince(k.log, k.domains[t]);
      assert false;
    }
  }

  /** A thread that execs in place of its leader keeps its identity under the leader's id. */
  lemma NonLeaderExecKeepsIdentity(w: World, pid: Tid, former: Tid, cgroup: Cgroup, rf: Faults, f: Faults)
    requires Inv(w) && Enabled(w, ExecTask(pid, former, cgroup, rf, f)) && former != pid && former in w.k.domains
    requires Next(w, ExecTask(pid, former, cgroup, rf, f)).k.lost == w.k.lost == 0
    ensures var v := Next(w, ExecTask(pid, former, cgroup, rf, f));
            && v.k.domains == (w.k.domains - {former})[pid := w.k.domains[former]]
            && v.k.log == w.k.log + [Exec(w.k.domains[former], pid, former)]
            && Alive(v.k.log) == Alive(w.k.log)
  {
    if f.update {
      FailedMoveIsLost(w.k, w.k.domains[former], pid, former, f);
    } else {
      Appended(w.k.log, Exec(w.k.domains[former], pid, former));
    }
  }
}
