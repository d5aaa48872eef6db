/** That every process of a run is attributed to it: what each handler records when nothing is
    lost, and which tasks are tracked after any loss-free run. */
module ProcessAttribution {
  import opened Base
  import opened ProcessDomains
  import opened ProcessIdentity

  // ---------------------------------------------------------------- one handler call

  /** The task acts in a seeded Session that nobody has claimed yet. */
  predicate ClaimsRoot(k: Kernel, pid: Tid, cgroup: Cgroup) {
    pid !in k.domains && cgroup in k.sessions && k.sessions[cgroup].root == 0
  }

  /** Whom a task acts as: the process it is known as, or the root of the Session it claims. */
  function ActsAs(k: Kernel, pid: Tid, cgroup: Cgroup): Option<Identity> {
    if pid in k.domains then Some(k.domains[pid])
    else if ClaimsRoot(k, pid, cgroup) then Some(Identity(k.sessions[cgroup].cookie, k.sessions[cgroup].birthNs, pid))
    else None
  }

  function RootEvents(k: Kernel, pid: Tid, cgroup: Cgroup): seq<Event> {
    if ClaimsRoot(k, pid, cgroup) then [Root(ActsAs(k, pid, cgroup).value, pid)] else []
  }

  /** The events of one step, when nothing is lost. */
  function EventsOf(k: Kernel, s: Step): seq<Event> {
    match s
    case ForkTask(parent, child, cgroup, now, _, _) =>
      var id := ActsAs(k, parent, cgroup);
      if id.None? then []
      else RootEvents(k, parent, cgroup) + [Fork(Identity(id.value.cookie, now, child), id.value, child, parent)]
    case ExecTask(pid, former, cgroup, _, _) =>
      if former in k.domains then [Exec(k.domains[former], pid, former)]
      else
        var id := ActsAs(k, pid, cgroup);
        if id.None? then [] else RootEvents(k, pid, cgroup) + [Exec(id.value, pid, former)]
    case ExitTask(pid, cgroup, _, _) =>
      var id := ActsAs(k, pid, cgroup);
      if id.None? then [] else RootEvents(k, pid, cgroup) + [Exit(id.value, pid)]
    case _ => []
  }

  lemma ActingIsRecorded(k: Kernel, pid: Tid, cgroup: Cgroup, f: Faults)
    requires DomainFor(k, pid, cgroup, f).0.lost == k.lost
    ensures var (v, domain) := DomainFor(k, pid, cgroup, f);
            var id := ActsAs(k, pid, cgroup);
            && domain == id && v.log == k.log + RootEvents(k, pid, cgroup)
            && v.domains == (if id.Some? then k.domains[pid := id.value] else k.domains)
            && v.sessions == (if ClaimsRoot(k, pid, cgroup) then k.sessions[cgroup := k.sessions[cgroup].(root := pid)]
                              else k.sessions)
  {
  }

  /** A loss-free fork by a task that is tracked or claims a root puts exactly the child into the
      map, under its parent's cookie and with a birth of its own, and says so in the log. */
  lemma ForkIsRecorded(k: Kernel, parent: Tid, child: Tid, cgroup: Cgroup, now: nat, rf: Faults, f: Faults)
    requires AfterFork(k, parent, child, cgroup, now, rf, f).lost == k.lost
    ensures var v := AfterFork(k, parent, child, cgroup, now, rf, f);
            var id := ActsAs(k, parent, cgroup);
            && v.log == k.log + EventsOf(k, ForkTask(parent, child, cgroup, now, rf, f))
            && v.domains == (if id.Some? then k.domains[parent := id.value][child := Identity(id.value.cookie, now, child)]
                             else k.domains)
            && v.sessions == DomainFor(k, parent, cgroup, rf).0.sessions
  {
    DomainForLoss(k, parent, cgroup, rf);
    var (u, domain) := DomainFor(k, parent, cgroup, rf);
    if domain.Some? {
      var id := Identity(domain.value.cookie, now, child);
      var placed := if f.update then Lost(u) else u.(domains := u.domains[child := id]);
      SubmitNoLoss(placed, Fork(id, domain.value, child, parent), f);
    }
    ActingIsRecorded(k, parent, cgroup, rf);
    hide Submitted, DomainFor;
  }

  lemma FoundExecIsRecorded(k: Kernel, id: Identity, pid: Tid, former: Tid, f: Faults)
    requires ExecFound(k, id, pid, former, f).lost == k.lost
    requires if former in k.domains then k.domains[former] == id else pid in k.domains && k.domains[pid] == id
    ensures var v := ExecFound(k, id, pid, former, f);
            && v.log == k.log + [Exec(id, pid, former)] && v.domains == (k.domains - {former})[pid := id]
            && v.sessions == k.sessions
  {
    if former == pid {
      SubmitNoLoss(k, Exec(id, pid, former), f);
    } else if f.update {
      FailedMoveIsLost(k, id, pid, former, f);
    } else {
      SubmitNoLoss(k.(domains := k.domains[pid := id] - {former}), Exec(id, pid, former), f);
    }
    hide Submitted;
  }

  /** A loss-free exec moves the process to its new task id, or claims the root, and is logged. */
  lemma ExecIsRecorded(k: Kernel, pid: Tid, former: Tid, cgroup: Cgroup, rf: Faults, f: Faults)
    requires AfterExec(k, pid, former, cgroup, rf, f).lost == k.lost
    ensures var v := AfterExec(k, pid, former, cgroup, rf, f);
            var id := if former in k.domains then Some(k.domains[former]) else ActsAs(k, pid, cgroup);
            && v.log == k.log + EventsOf(k, ExecTask(pid, former, cgroup, rf, f))
            && v.domains == (if id.Some? then (k.domains - {former})[pid := id.value] else k.domains)
            && v.sessions == (if former in k.domains then k.sessions else DomainFor(k, pid, cgroup, rf).0.sessions)
  {
    hide ExecFound;
    if former in k.domains {
      FoundExecIsRecorded(k, k.domains[former], pid, former, f);
    } else {
      DomainForLoss(k, pid, cgroup, rf);
      var (u, domain) := DomainFor(k, pid, cgroup, rf);
      if domain.Some? { ExecFoundLoss(u, domain.value, pid, former, f); }
      ActingIsRecorded(k, pid, cgroup, rf);
      hide DomainFor;
      if domain.Some? {
        assert former !in u.domains || u.domains[former] == domain.value;
        FoundExecIsRecorded(u, domain.value, pid, former, f);
        assert (u.domains - {former})[pid := domain.value] == (k.domains - {former})[pid := domain.value];
      }
    }
  }

  /** A loss-free exit is logged, and takes exactly that process out of the map. */
  lemma ExitIsRecorded(k: Kernel, pid: Tid, cgroup: Cgroup, rf: Faults, f: Faults)
    requires AfterExit(k, pid, cgroup, rf, f).lost == k.lost
    ensures var v := AfterExit(k, pid, cgroup, rf, f);
            && v.log == k.log + EventsOf(k, ExitTask(pid, cgroup, rf, f))
            && v.domains == k.domains - {pid} && v.sessions == DomainFor(k, pid, cgroup, rf).0.sessions
  {
    DomainForLoss(k, pid, cgroup, rf);
    var (u, domain) := DomainFor(k, pid, cgroup, rf);
    if domain.Some? { SubmitNoLoss(u, Exit(domain.value, pid), f); }
    ActingIsRecorded(k, pid, cgroup, rf);
    hide Submitted, DomainFor;
    assert domain.None? ==> k.domains - {pid} == k.domains;
  }

  /** So in a loss-free step the log grows by exactly the events of what happened. */
  lemma StepIsLogged(w: World, s: Step)
    requires Next(w, s).k.lost == w.k.lost
    ensures Next(w, s).k.log == w.k.log + EventsOf(w.k, s)
  {
    hide AfterFork, AfterExec, AfterExit, EventsOf;
    match s
    case ForkTask(parent, child, cgroup, now, rf, f) => ForkIsRecorded(w.k, parent, child, cgroup, now, rf, f);
    case ExecTask(pid, former, cgroup, rf, f) => ExecIsRecorded(w.k, pid, former, cgroup, rf, f);
    case ExitTask(pid, cgroup, rf, f) => ExitIsRecorded(w.k, pid, cgroup, rf, f);
    case _ => NothingHappens(w.k, s);
  }

  lemma NothingHappens(k: Kernel, s: Step)
    requires s.Seed? || s.Finish?
    ensures EventsOf(k, s) == []
  {
  }

  // ---------------------------------------------------------------- which run a task belongs to

  /** What attribution should be: the run of each task, and the runs whose root is yet to come. */
  datatype Attribution = Attribution(runs: map<Tid, Cookie>, unclaimed: map<Cgroup, Cookie>)

  /** The first task that acts in an unclaimed Session is its run's root. */
  function Acted(a: Attribution, t: Tid, cgroup: Cgroup): Attribution {
    if t !in a.runs && cgroup in a.unclaimed then Attribution(a.runs[t := a.unclaimed[cgroup]], a.unclaimed - {cgroup}) else a
  }

  /** A child belongs to its parent's run; an exec keeps it under the leader's id; an exit ends it. */
  function Attributed(a: Attribution, s: Step): Attribution {
    match s
    case Seed(cgroup, cookie, _) => a.(unclaimed := a.unclaimed[cgroup := cookie])
    case Finish(cgroup, _) => a.(unclaimed := a.unclaimed - {cgroup})
    case ForkTask(parent, child, cgroup, _, _, _) =>
      var b := Acted(a, parent, cgroup);
      if parent in b.runs then b.(runs := b.runs[child := b.runs[parent]]) else b
    case ExecTask(pid, former, cgroup, _, _) =>
      if former in a.runs then a.(runs := (a.runs - {former})[pid := a.runs[former]]) else Acted(a, pid, cgroup)
    case ExitTask(pid, cgroup, _, _) =>
      var b := Acted(a, pid, cgroup); b.(runs := b.runs - {pid})
  }

  function AttributedAll(a: Attribution, ss: seq<Step>): Attribution
    decreases |ss|
  {
    if ss == [] then a else AttributedAll(Attributed(a, ss[0]), ss[1..])
  }

  /** What the kernel's maps say. */
  function Says(k: Kernel): Attribution {
    Attribution(map t | t in k.domains :: k.domains[t].cookie,
                map g | g in k.sessions && k.sessions[g].root == 0 :: k.sessions[g].cookie)
  }

  lemma ActingIsAttributed(k: Kernel, pid: Tid, cgroup: Cgroup, f: Faults)
    requires DomainFor(k, pid, cgroup, f).0.lost == k.lost && pid > 0
    ensures Says(DomainFor(k, pid, cgroup, f).0) == Acted(Says(k), pid, cgroup)
  {
    ActingIsRecorded(k, pid, cgroup, f);
    hide DomainFor;
  }

  lemma ForkIsAttributed(w: World, s: Step)
    requires s.ForkTask? && Enabled(w, s) && Next(w, s).k.lost == w.k.lost
    ensures Says(Next(w, s).k) == Attributed(Says(w.k), s)
  {
    var k := w.k;
    DomainForLoss(k, s.parent, s.cgroup, s.rootFaults);
    ForkIsRecorded(k, s.parent, s.child, s.cgroup, s.now, s.rootFaults, s.faults);
    ForkLoss(k, s);
    ActingIsAttributed(k, s.parent, s.cgroup, s.rootFaults);
    ActingIsRecorded(k, s.parent, s.cgroup, s.rootFaults);
    hide AfterFork, DomainFor;
  }

  lemma ForkLoss(k: Kernel, s: Step)
    requires s.ForkTask? && AfterFork(k, s.parent, s.child, s.cgroup, s.now, s.rootFaults, s.faults).lost == k.lost
    ensures DomainFor(k, s.parent, s.cgroup, s.rootFaults).0.lost == k.lost
  {
    DomainForLoss(k, s.parent, s.cgroup, s.rootFaults);
    var (u, domain) := DomainFor(k, s.parent, s.cgroup, s.rootFaults);
    hide DomainFor;
    if domain.Some? {
      var id := Identity(domain.value.cookie, s.now, s.child);
      SubmitLoss(if s.faults.update then Lost(u) else u.(domains := u.domains[s.child := id]),
                 Fork(id, domain.value, s.child, s.parent), s.faults);
    }
    hide Submitted;
  }

  lemma ExecLoss(k: Kernel, s: Step)
    requires s.ExecTask? && AfterExec(k, s.pid, s.former, s.cgroup, s.rootFaults, s.faults).lost == k.lost
    ensures s.former !in k.domains ==> DomainFor(k, s.pid, s.cgroup, s.rootFaults).0.lost == k.lost
  {
    DomainForLoss(k, s.pid, s.cgroup, s.rootFaults);
    var (u, domain) := DomainFor(k, s.pid, s.cgroup, s.rootFaults);
    hide DomainFor, ExecFound;
    if domain.Some? { ExecFoundLoss(u, domain.value, s.pid, s.former, s.faults); }
  }

  lemma ExecIsAttributed(w: World, s: Step)
    requires s.ExecTask? && Enabled(w, s) && Next(w, s).k.lost == w.k.lost
    ensures Says(Next(w, s).k) == Attributed(Says(w.k), s)
  {
    var k := w.k;
    ExecIsRecorded(k, s.pid, s.former, s.cgroup, s.rootFaults, s.faults);
    ExecLoss(k, s);
    hide AfterExec, DomainFor;
    if s.former !in k.domains {
      ActingIsAttributed(k, s.pid, s.cgroup, s.rootFaults);
      ActingIsRecorded(k, s.pid, s.cgroup, s.rootFaults);
      assert k.domains - {s.former} == k.domains;
      var id := ActsAs(k, s.pid, s.cgroup);
      assert id.None? ==> s.pid !in k.domains;
      assert s.pid in k.domains ==> k.domains[s.pid := id.value] == k.domains;
    }
  }

  lemma ExitLoss(k: Kernel, s: Step)
    requires s.ExitTask? && AfterExit(k, s.pid, s.cgroup, s.rootFaults, s.faults).lost == k.lost
    ensures DomainFor(k, s.pid, s.cgroup, s.rootFaults).0.lost == k.lost
  {
    DomainForLoss(k, s.pid, s.cgroup, s.rootFaults);
    var (u, domain) := DomainFor(k, s.pid, s.cgroup, s.rootFaults);
    hide DomainFor;
    if domain.Some? { SubmitLoss(u, Exit(domain.value, s.pid), s.faults); }
    hide Submitted;
  }

  lemma ExitIsAttributed(w: World, s: Step)
    requires s.ExitTask? && Enabled(w, s) && Next(w, s).k.lost == w.k.lost
    ensures Says(Next(w, s).k) == Attributed(Says(w.k), s)
  {
    var k := w.k;
    ExitIsRecorded(k, s.pid, s.cgroup, s.rootFaults, s.faults);
    ExitLoss(k, s);
    ActingIsAttributed(k, s.pid, s.cgroup, s.rootFaults);
    ActingIsRecorded(k, s.pid, s.cgroup, s.rootFaults);
    hide AfterExit, DomainFor;
  }

  lemma StepIsAttributed(w: World, s: Step)
    requires Enabled(w, s) && Next(w, s).k.lost == w.k.lost
    ensures Says(Next(w, s).k) == Attributed(Says(w.k), s)
  {
    hide AfterFork, AfterExec, AfterExit;
    match s
    case ForkTask(_, _, _, _, _, _) => ForkIsAttributed(w, s);
    case ExecTask(_, _, _, _, _) => ExecIsAttributed(w, s);
    case ExitTask(_, _, _, _) => ExitIsAttributed(w, s);
    case Seed(_, _, _) =>
    case Finish(_, _) =>
  }

  lemma {:induction false} LossNeverFalls(w: World, ss: seq<Step>)
    ensures Replay(w, ss).k.lost >= w.k.lost
    decreases |ss|
  {
    if ss != [] {
      LossGrows(w, ss[0]);
      hide Next;
      LossNeverFalls(Next(w, ss[0]), ss[1..]);
    }
  }

  /** After every loss-free run the kernel's maps attribute each task to the run it belongs to, and
      no task to any other. */
  lemma {:induction false} RunIsAttributed(w: World, ss: seq<Step>)
    requires Admissible(w, ss) && Replay(w, ss).k.lost == w.k.lost
    ensures Says(Replay(w, ss).k) == AttributedAll(Says(w.k), ss)
    decreases |ss|
  {
    if ss != [] {
      var v := Next(w, ss[0]);
      LossGrows(w, ss[0]);
      LossNeverFalls(v, ss[1..]);
      StepIsAttributed(w, ss[0]);
      hide Next, Enabled, Says, Attributed;
      RunIsAttributed(v, ss[1..]);
    }
  }

  // ---------------------------------------------------------------- descendants

  /** What one step does to a set of tasks closed under forking. */
  function Family(family: set<Tid>, s: Step): set<Tid> {
    match s
    case ForkTask(parent, child, _, _, _, _) => if parent in family then family + {child} else family - {child}
    case ExecTask(pid, former, _, _, _) =>
      if former in family then family - {former} + {pid} else if former != pid then family - {pid} else family
    case ExitTask(pid, _, _, _) => family - {pid}
    case _ => family
  }

  /** The members of a set of tasks that are left after a run, and their descendants. */
  function FamilyAfter(family: set<Tid>, ss: seq<Step>): set<Tid>
    decreases |ss|
  {
    if ss == [] then family else FamilyAfter(Family(family, ss[0]), ss[1..])
  }

  ghost predicate AllIn(a: Attribution, family: set<Tid>, c: Cookie) {
    forall t :: t in family ==> t in a.runs && a.runs[t] == c
  }

  lemma FamilyStaysIn(a: Attribution, family: set<Tid>, c: Cookie, s: Step)
    requires AllIn(a, family, c)
    ensures AllIn(Attributed(a, s), Family(family, s), c)
  {
  }

  lemma {:induction false} FamilyIsAttributed(a: Attribution, family: set<Tid>, c: Cookie, ss: seq<Step>)
    requires AllIn(a, family, c)
    ensures AllIn(AttributedAll(a, ss), FamilyAfter(family, ss), c)
    decreases |ss|
  {
    if ss != [] {
      FamilyStaysIn(a, family, c, ss[0]);
      hide AllIn, Attributed, Family;
      FamilyIsAttributed(Attributed(a, ss[0]), Family(family, ss[0]), c, ss[1..]);
    }
  }

  /** So every task that a tracked process forked, directly or through others, is in the map under
      that process's run until it exits, over every loss-free run. */
  lemma DescendantsAreTracked(w: World, ss: seq<Step>, ancestor: Tid, t: Tid)
    requires Admissible(w, ss) && Replay(w, ss).k.lost == w.k.lost
    requires ancestor in w.k.domains && t in FamilyAfter({ancestor}, ss)
    ensures var k := Replay(w, ss).k;
            t in k.domains && k.domains[t].cookie == w.k.domains[ancestor].cookie
  {
    RunIsAttributed(w, ss);
    FamilyIsAttributed(Says(w.k), {ancestor}, w.k.domains[ancestor].cookie, ss);
    assert t in Says(Replay(w, ss).k).runs;
    hide Replay, AttributedAll, FamilyAfter, Admissible;
  }

  // ---------------------------------------------------------------- produced counts

  /** How many events of a run the log holds. */
  function Logged(log: seq<Event>, c: Cookie): nat {
    if log == [] then 0 else Logged(log[..|log| - 1], c) + (if log[|log| - 1].id.cookie == c then 1 else 0)
  }

  /** From k to v each event of the run that was logged was also counted as produced. */
  predicate CountedUp(k: Kernel, v: Kernel, c: Cookie) {
    c in k.produced ==> c in v.produced && v.produced[c] + Logged(k.log, c) == k.produced[c] + Logged(v.log, c)
  }

  lemma SubmitCounts(k: Kernel, e: Event, f: Faults, c: Cookie)
    requires Submitted(k, e, f).lost == k.lost
    ensures CountedUp(k, Submitted(k, e, f), c)
  {
    assert (k.log + [e])[..|k.log|] == k.log;
  }

  lemma ActingCounts(k: Kernel, pid: Tid, cgroup: Cgroup, f: Faults, c: Cookie)
    requires DomainFor(k, pid, cgroup, f).0.lost == k.lost
    ensures CountedUp(k, DomainFor(k, pid, cgroup, f).0, c)
  {
    hide Submitted;
    if ClaimsRoot(k, pid, cgroup) && !f.update && !f.buffer {
      var s := k.sessions[cgroup];
      var id := Identity(s.cookie, s.birthNs, pid);
      SubmitCounts(k.(sessions := k.sessions[cgroup := s.(root := pid)], domains := k.domains[pid := id]), Root(id, pid), f, c);
    }
  }

  lemma ForkCounts(k: Kernel, s: Step, c: Cookie)
    requires s.ForkTask? && AfterFork(k, s.parent, s.child, s.cgroup, s.now, s.rootFaults, s.faults).lost == k.lost
    ensures CountedUp(k, AfterFork(k, s.parent, s.child, s.cgroup, s.now, s.rootFaults, s.faults), c)
  {
    ForkLoss(k, s);
    ActingCounts(k, s.parent, s.cgroup, s.rootFaults, c);
    var (u, domain) := DomainFor(k, s.parent, s.cgroup, s.rootFaults);
    hide DomainFor, Submitted;
    if domain.Some? {
      var id := Identity(domain.value.cookie, s.now, s.child);
      var placed := if s.faults.update then Lost(u) else u.(domains := u.domains[s.child := id]);
      SubmitNoLoss(placed, Fork(id, domain.value, s.child, s.parent), s.faults);
      SubmitCounts(placed, Fork(id, domain.value, s.child, s.parent), s.faults, c);
    }
  }

  lemma FoundExecCounts(k: Kernel, id: Identity, pid: Tid, former: Tid, f: Faults, c: Cookie)
    requires ExecFound(k, id, pid, former, f).lost == k.lost
    ensures CountedUp(k, ExecFound(k, id, pid, former, f), c)
  {
    hide Submitted, Logged;
    if former == pid {
      SubmitCounts(k, Exec(id, pid, former), f, c);
    } else if f.update {
      FailedMoveIsLost(k, id, pid, former, f);
    } else {
      SubmitCounts(k.(domains := k.domains[pid := id] - {former}), Exec(id, pid, former), f, c);
    }
  }

  lemma ExecCounts(k: Kernel, s: Step, c: Cookie)
    requires s.ExecTask? && AfterExec(k, s.pid, s.former, s.cgroup, s.rootFaults, s.faults).lost == k.lost
    ensures CountedUp(k, AfterExec(k, s.pid, s.former, s.cgroup, s.rootFaults, s.faults), c)
  {
    ExecLoss(k, s);
    hide ExecFound, DomainFor, Logged;
    if s.former in k.domains {
      FoundExecCounts(k, k.domains[s.former], s.pid, s.former, s.faults, c);
    } else {
      ActingCounts(k, s.pid, s.cgroup, s.rootFaults, c);
      var (u, domain) := DomainFor(k, s.pid, s.cgroup, s.rootFaults);
      if domain.Some? { FoundExecCounts(u, domain.value, s.pid, s.former, s.faults, c); }
    }
  }

  lemma ExitCounts(k: Kernel, s: Step, c: Cookie)
    requires s.ExitTask? && AfterExit(k, s.pid, s.cgroup, s.rootFaults, s.faults).lost == k.lost
    ensures CountedUp(k, AfterExit(k, s.pid, s.cgroup, s.rootFaults, s.faults), c)
  {
    ExitLoss(k, s);
    ActingCounts(k, s.pid, s.cgroup, s.rootFaults, c);
    var (u, domain) := DomainFor(k, s.pid, s.cgroup, s.rootFaults);
    hide DomainFor, Submitted, Logged;
    if domain.Some? { SubmitCounts(u, Exit(domain.value, s.pid), s.faults, c); }
  }

  /** The run is neither seeded nor finished in these steps. */
  predicate Ongoing(ss: seq<Step>, c: Cookie) {
    forall i :: 0 <= i < |ss| ==> !((ss[i].Seed? || ss[i].Finish?) && ss[i].cookie == c)
  }

  lemma StepCounts(w: World, s: Step, c: Cookie)
    requires Next(w, s).k.lost == w.k.lost && Ongoing([s], c)
    ensures CountedUp(w.k, Next(w, s).k, c)
  {
    assert !((s.Seed? || s.Finish?) && s.cookie == c) by { assert [s][0] == s; }
    hide AfterFork, AfterExec, AfterExit, Logged, Ongoing;
    match s
    case ForkTask(_, _, _, _, _, _) => ForkCounts(w.k, s, c);
    case ExecTask(_, _, _, _, _) => ExecCounts(w.k, s, c);
    case ExitTask(_, _, _, _) => ExitCounts(w.k, s, c);
    case _ =>
  }

  /** While a run goes on and nothing is lost, the count of produced events, which `finish` waits
      for, grows by exactly the events of the run that are logged. */
  lemma {:induction false} EventsAreCounted(w: World, ss: seq<Step>, c: Cookie)
    requires Replay(w, ss).k.lost == w.k.lost && Ongoing(ss, c)
    ensures CountedUp(w.k, Replay(w, ss).k, c)
    decreases |ss|
  {
    if ss != [] {
      var v := Next(w, ss[0]);
      LossGrows(w, ss[0]);
      LossNeverFalls(v, ss[1..]);
      assert Ongoing([ss[0]], c) && Ongoing(ss[1..], c);
      StepCounts(w, ss[0], c);
      hide Next, Logged;
      EventsAreCounted(v, ss[1..], c);
    }
  }
}
