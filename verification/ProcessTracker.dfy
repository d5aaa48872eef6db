/** The user-space tracker: per-run counters, draining the ring, and the map sweep. */
module ProcessTracker {
  import opened Base

  type Tid = nat
  type Cookie = nat
  type Cgroup = nat

  datatype Counter = Counter(cookie: Cookie, cgroup: Cgroup, seen: nat)

  /** An entry of the domain map; the sequence is the map's own iteration order. */
  datatype Entry = Entry(tid: Tid, cookie: Cookie)

  datatype Failure = Exists | OutOfMemory | Invalid | MapFull | NoCgroup | PollFailed | LossOrGap | SweepTooLong

  /** What one `ring_buffer__poll` does: handles some events, is interrupted, or fails. */
  datatype Outcome = Handles(n: nat) | Interrupted | Fails

  /** One poll, and the events of other runs that the kernel produces in the meantime. */
  datatype Poll = Poll(arrivals: seq<Cookie>, outcome: Outcome)

  const POLLS := 200
  const VISITS := 131072

  // ---------------------------------------------------------------- counting

  /** How many waiting events belong to a run. */
  function Waiting(ring: seq<Cookie>, c: Cookie): nat {
    if ring == [] then 0 else (if ring[0] == c then 1 else 0) + Waiting(ring[1..], c)
  }

  lemma {:induction false} WaitingSnoc(ring: seq<Cookie>, x: Cookie, c: Cookie)
    ensures Waiting(ring + [x], c) == Waiting(ring, c) + (if x == c then 1 else 0)
  {
    if ring == [] {
      assert [x][1..] == [];
    } else {
      assert (ring + [x])[1..] == ring[1..] + [x];
      WaitingSnoc(ring[1..], x, c);
    }
  }

  lemma {:induction false} NoneWaiting(ring: seq<Cookie>, c: Cookie)
    ensures Waiting(ring, c) == 0 <==> c !in ring
  {
    if ring != [] {
      assert ring == [ring[0]] + ring[1..];
      NoneWaiting(ring[1..], c);
    }
  }

  predicate Has(counters: seq<Counter>, c: Cookie) {
    exists i :: 0 <= i < |counters| && counters[i].cookie == c
  }

  /** The counters agree with the kernel: what was produced for a run was seen or waits. */
  ghost predicate Accounted(counters: seq<Counter>, produced: map<Cookie, nat>, ring: seq<Cookie>) {
    && (forall i, j :: 0 <= i < j < |counters| ==> counters[i].cookie != counters[j].cookie)
    && (forall i :: 0 <= i < |counters| ==>
          && counters[i].cookie in produced
          && produced[counters[i].cookie] == counters[i].seen + Waiting(ring, counters[i].cookie))
    && (forall c :: c in produced ==> Has(counters, c))
    && (forall c :: c in ring ==> c in produced)
  }

  /** The oldest waiting event has a counter, and counting it as seen keeps the accounts. */
  lemma SeenIsCounted(counters: seq<Counter>, produced: map<Cookie, nat>, ring: seq<Cookie>, i: nat)
    requires Accounted(counters, produced, ring) && ring != []
    requires i < |counters| ==> counters[i].cookie == ring[0]
    requires i >= |counters| ==> !Has(counters, ring[0])
    ensures i < |counters|
    ensures Accounted(counters[i := counters[i].(seen := counters[i].seen + 1)], produced, ring[1..])
  {
    assert ring[0] in ring;
    var after := counters[i := counters[i].(seen := counters[i].seen + 1)];
    forall x | Has(counters, x) ensures Has(after, x) {
      var k :| 0 <= k < |counters| && counters[k].cookie == x;
      assert after[k].cookie == x;
    }
  }

  /** So does dropping the counter and the produced count of a run with nothing waiting. */
  lemma ForgottenIsAccounted(counters: seq<Counter>, produced: map<Cookie, nat>, ring: seq<Cookie>, i: nat)
    requires Accounted(counters, produced, ring) && i < |counters| && counters[i].cookie !in ring
    ensures var after := counters[..i] + counters[i + 1..];
            Accounted(after, produced - {counters[i].cookie}, ring) && !Has(after, counters[i].cookie)
  {
    var after := counters[..i] + counters[i + 1..];
    forall x | Has(counters, x) && x != counters[i].cookie ensures Has(after, x) {
      var k :| 0 <= k < |counters| && counters[k].cookie == x;
      assert after[if k < i then k else k - 1].cookie == x;
    }
  }

  // ---------------------------------------------------------------- the sweep

  function Others(es: seq<Entry>, c: Cookie): (r: seq<Entry>)
    ensures |r| <= |es|
  {
    if es == [] then [] else (if es[0].cookie == c then [] else [es[0]]) + Others(es[1..], c)
  }

  /** How many keys the sweep is given when `before` foreign entries precede `es`: every own
      entry costs itself and another walk over the foreign entries before it. */
  function Visits(es: seq<Entry>, c: Cookie, before: nat): nat {
    if es == [] then 0
    else if es[0].cookie == c then 1 + before + Visits(es[1..], c, before)
    else 1 + Visits(es[1..], c, before + 1)
  }

  function Own(es: seq<Entry>, c: Cookie): nat { |es| - |Others(es, c)| }

  predicate Foreign(es: seq<Entry>, c: Cookie) {
    forall i :: 0 <= i < |es| ==> es[i].cookie != c
  }

  lemma {:induction false} OthersConcat(a: seq<Entry>, b: seq<Entry>, c: Cookie)
    ensures Others(a + b, c) == Others(a, c) + Others(b, c)
  {
    if a == [] {
      assert a + b == b;
    } else {
      assert (a + b)[1..] == a[1..] + b;
      OthersConcat(a[1..], b, c);
    }
  }

  lemma {:induction false} ForeignStay(es: seq<Entry>, c: Cookie)
    ensures Foreign(es, c) ==> Others(es, c) == es
    ensures |Others(es, c)| <= |es| && Foreign(Others(es, c), c)
  {
    if es != [] {
      assert Foreign(es, c) ==> forall i :: 0 <= i < |es| - 1 ==> es[1..][i] == es[i + 1];
      ForeignStay(es[1..], c);
    }
  }

  /** Walking again over foreign entries. */
  lemma {:induction false} WalkAgain(a: seq<Entry>, b: seq<Entry>, c: Cookie, before: nat)
    requires Foreign(a, c)
    ensures Visits(a + b, c, before) == |a| + Visits(b, c, before + |a|)
  {
    if a == [] {
      assert a + b == b;
    } else {
      assert (a + b)[1..] == a[1..] + b && (a + b)[0] == a[0];
      assert forall i :: 0 <= i < |a| - 1 ==> a[1..][i] == a[i + 1];
      WalkAgain(a[1..], b, c, before + 1);
    }
  }

  /** With m own and n foreign entries the sweep needs at most m * (n + 1) + n keys, and that
      many when the foreign ones come first. */
  lemma {:induction false} VisitsBound(es: seq<Entry>, c: Cookie, before: nat)
    ensures Visits(es, c, before) <= Own(es, c) * (before + |Others(es, c)| + 1) + |Others(es, c)|
  {
    if es != [] {
      var m, n := Own(es[1..], c), |Others(es[1..], c)|;
      if es[0].cookie == c {
        VisitsBound(es[1..], c, before);
        assert Own(es, c) == m + 1 && |Others(es, c)| == n;
        Distribute(m, before + n + 1);
      } else {
        VisitsBound(es[1..], c, before + 1);
        assert Own(es, c) == m && |Others(es, c)| == n + 1;
        assert before + 1 + n + 1 == before + (n + 1) + 1;
      }
    }
  }

  lemma Distribute(m: int, k: int)
    ensures (m + 1) * k == m * k + k
  {
  }

  lemma {:induction false} VisitsOwnOnly(es: seq<Entry>, c: Cookie, before: nat)
    requires forall i :: 0 <= i < |es| ==> es[i].cookie == c
    ensures Visits(es, c, before) == |es| * (before + 1)
  {
    if es != [] {
      assert forall i :: 0 <= i < |es| - 1 ==> es[1..][i] == es[i + 1];
      VisitsOwnOnly(es[1..], c, before);
      assert |es| * (before + 1) == (before + 1) + (|es| - 1) * (before + 1);
    }
  }

  /** A quiescent run normally has no domain left, and then the sweep ends for every map the
      kernel can hold. */
  lemma NoOwnDomainsAlwaysEnds(es: seq<Entry>, c: Cookie)
    requires |es| <= 65536 && Foreign(es, c)
    ensures Visits(es, c, 0) < VISITS - 1
  {
    WalkAgain(es, [], c, 0);
    assert es + [] == es;
  }

  /** But two left-over domains behind a nearly full map are too many. */
  lemma TwoOwnDomainsCanBeTooMany(foreign: seq<Entry>, own: seq<Entry>, c: Cookie)
    requires Foreign(foreign, c) && |foreign| == 65534 && |own| == 2 && own[0].cookie == own[1].cookie == c
    ensures |foreign + own| <= 65536 && Visits(foreign + own, c, 0) >= VISITS - 1
  {
    WalkAgain(foreign, own, c, 0);
    VisitsOwnOnly(own, c, |foreign|);
  }

  /** Deleting the entry the sweep stands at costs a visit and starts the walk again. */
  lemma DeletedAt(es: seq<Entry>, at: nat, c: Cookie)
    requires at < |es| && es[at].cookie == c && Foreign(es[..at], c)
    ensures var rest := es[..at] + es[at + 1..];
            Others(rest, c) == Others(es, c) && Visits(es[at..], c, at) == 1 + Visits(rest, c, 0)
  {
    var front, back := es[..at], es[at + 1..];
    assert es == front + ([es[at]] + back) && es[at..][1..] == back;
    OthersConcat(front, [es[at]] + back, c);
    OthersConcat(front, back, c);
    WalkAgain(front, back, c, 0);
  }

  // ---------------------------------------------------------------- the object

  class Tracker {
    var counters: seq<Counter>
    var produced: map<Cookie, nat>
    var sessions: map<Cgroup, Cookie>
    var domains: seq<Entry>
    var lost: nat
    var ring: seq<Cookie>

    /** Loss switches the accounting off for good; no finish succeeds after it. */
    ghost predicate Valid()
      reads this
    {
      lost == 0 ==> Accounted(counters, produced, ring)
    }

    constructor ()
      ensures Valid() && counters == [] && produced == map[] && sessions == map[] && domains == [] && lost == 0 && ring == []
    {
      counters, produced, sessions, domains, lost, ring := [], map[], map[], [], 0, [];
    }

    method CounterFor(c: Cookie) returns (i: nat)
      ensures i <= |counters| && (i < |counters| ==> counters[i].cookie == c)
      ensures i == |counters| <==> !Has(counters, c)
    {
      i := 0;
      while i < |counters| && counters[i].cookie != c
        invariant 0 <= i <= |counters| && forall k :: 0 <= k < i ==> counters[k].cookie != c
      {
        i := i + 1;
      }
    }

    /** The kernel submits an event of a run: into the ring, and into its produced count. */
    method Produce(c: Cookie)
      requires Valid()
      modifies this`ring, this`produced, this`lost
      ensures produced == if c in old(produced) then old(produced)[c := old(produced)[c] + 1] else old(produced)
      ensures Valid() && ring == old(ring) + [c] && lost == (if c in old(produced) then old(lost) else old(lost) + 1)
    {
      forall x ensures Waiting(ring + [c], x) == Waiting(ring, x) + (if c == x then 1 else 0) {
        WaitingSnoc(ring, c, x);
      }
      ring := ring + [c];
      if c in produced {
        produced := produced[c := produced[c] + 1];
      } else {
        lost := lost + 1;
      }
    }

    /** The ring callback for the oldest waiting event. */
    method HandleEvent()
      requires Valid() && ring != []
      modifies this`ring, this`counters
      ensures Valid() && ring == old(ring)[1..] && |counters| == |old(counters)|
      ensures forall i :: 0 <= i < |counters| ==> counters[i] == old(counters)[i].(seen := counters[i].seen)
    {
      var c := ring[0];
      var i := CounterFor(c);
      if lost == 0 {
        SeenIsCounted(counters, produced, ring, i);
      }
      ring := ring[1..];
      hide Accounted, Has;
      if i < |counters| {
        counters := counters[i := counters[i].(seen := counters[i].seen + 1)];
      }
    }

    /** The kernel goes on producing events while the tracker waits. */
    method ProduceAll(cs: seq<Cookie>)
      requires Valid()
      modifies this`ring, this`produced, this`lost
      ensures Valid() && ring == old(ring) + cs && lost >= old(lost)
      ensures produced.Keys == old(produced).Keys
      ensures forall c :: c in produced && c !in cs ==> produced[c] == old(produced)[c]
    {
      var i := 0;
      while i < |cs|
        invariant 0 <= i <= |cs| && Valid() && ring == old(ring) + cs[..i] && lost >= old(lost)
        invariant produced.Keys == old(produced).Keys
        invariant forall c :: c in produced && c !in cs ==> produced[c] == old(produced)[c]
      {
        Produce(cs[i]);
        i := i + 1;
      }
      assert cs[..i] == cs;
    }

    /** One poll: the callback for each of the next events. */
    method PollOnce(p: Outcome) returns (failed: bool)
      requires Valid()
      modifies this`ring, this`counters
      ensures Valid() && failed == p.Fails? && |counters| == |old(counters)| && |ring| <= |old(ring)|
      ensures ring == old(ring)[|old(ring)| - |ring|..] && (p.Handles? && p.n >= |old(ring)| ==> ring == [])
      ensures forall i :: 0 <= i < |counters| ==> counters[i] == old(counters)[i].(seen := counters[i].seen)
    {
      var n := 0;
      while p.Handles? && n < p.n && ring != []
        invariant Valid() && |counters| == |old(counters)| && |ring| <= |old(ring)|
        invariant ring == old(ring)[|old(ring)| - |ring|..] && n + |ring| == |old(ring)|
        invariant forall i :: 0 <= i < |counters| ==> counters[i] == old(counters)[i].(seen := counters[i].seen)
        decreases |ring|
      {
        HandleEvent();
        n := n + 1;
      }
      failed := p.Fails?;
    }

    /** `seed`: registers the run's counter and its Session; any failure undoes both. */
    method Seed(cookie: Cookie, memory: bool, room: bool, cgroup: Option<Cgroup>, stored: bool) returns (r: Option<Failure>)
      requires Valid()
      modifies this
      ensures Valid() && domains == old(domains) && lost == old(lost) && ring == old(ring)
      ensures r.None? ==> cgroup.Some? && counters == [Counter(cookie, cgroup.value, 0)] + old(counters)
                          && produced == old(produced)[cookie := 0] && sessions == old(sessions)[cgroup.value := cookie]
      ensures r.Some? ==> counters == old(counters) && produced == old(produced) && sessions == old(sessions)
      ensures r.None? <==> !Has(old(counters), cookie) && memory && room && cookie !in old(produced) && cgroup.Some? && stored
    {
      var i := CounterFor(cookie);
      if i < |counters| { return Some(Exists); }
      if !memory { return Some(OutOfMemory); }
      if cookie in produced || !room { return Some(MapFull); }
      if cgroup.None? { return Some(NoCgroup); }
      if !stored { return Some(MapFull); }
      counters := [Counter(cookie, cgroup.value, 0)] + counters;
      produced := produced[cookie := 0];
      sessions := sessions[cgroup.value := cookie];
      NoneWaiting(ring, cookie);
      assert counters[0].cookie == cookie && counters[1..] == old(counters);
      forall x | Has(old(counters), x) ensures Has(counters, x) {
        var k :| 0 <= k < |old(counters)| && old(counters)[k].cookie == x;
        assert counters[k + 1].cookie == x;
      }
      r := None;
    }
  
    /** Deletes every domain of a run; after each deletion the walk starts again. */
    method Sweep(c: Cookie) returns (ok: bool)
      modifies this`domains
      ensures ok <==> Visits(old(domains), c, 0) < VISITS - 1
      ensures ok ==> domains == Others(old(domains), c)
      ensures Others(domains, c) == Others(old(domains), c)
    {
      var visited, at, more := 0, 0, true;
      while more && visited < VISITS
        invariant at <= |domains| && visited <= VISITS && Foreign(domains[..at], c)
        invariant Others(domains, c) == Others(old(domains), c)
        invariant visited + Visits(domains[at..], c, at) == Visits(old(domains), c, 0) + (if more then 0 else 1)
        invariant more || at == |domains|
        decreases VISITS - visited, more
      {
        visited := visited + 1;
        if at == |domains| {
          more := false;
        } else if domains[at].cookie == c {
          DeletedAt(domains, at, c);
          domains := domains[..at] + domains[at + 1..];
          at := 0;
          assert domains[0..] == domains;
        } else {
          assert domains[at..][1..] == domains[at + 1..];
          at := at + 1;
        }
      }
      ok := visited < VISITS;
      if ok {
        assert domains[..at] == domains;
        ForeignStay(domains, c);
      }
    }

    /** `finish`, called once the run's cgroup is empty, so that no more events of the run are
        produced, while those of other runs may be: drains, sweeps, and forgets the run. */
    method Finish(cookie: Cookie, polls: seq<Poll>) returns (r: Option<Failure>)
      requires Valid() && |polls| == POLLS && forall i :: 0 <= i < POLLS ==> cookie !in polls[i].arrivals
      modifies this
      ensures Valid() && lost >= old(lost) && Others(domains, cookie) == Others(old(domains), cookie)
      ensures r.None? ==> lost == 0 && cookie !in ring && !Has(counters, cookie)
                          && produced.Keys == old(produced).Keys - {cookie} && domains == Others(old(domains), cookie)
                          && exists k :: 0 <= k < |old(counters)| && old(counters)[k].cookie == cookie
                                         && sessions == old(sessions) - {old(counters)[k].cgroup}
      ensures r.Some? ==> produced.Keys == old(produced).Keys && sessions == old(sessions)
      ensures r == Some(Invalid) <==> !Has(old(counters), cookie) || cookie !in old(produced)
      ensures r == Some(LossOrGap) ==> lost > 0 || cookie in ring
      ensures r == Some(SweepTooLong) ==> Visits(old(domains), cookie, 0) >= VISITS - 1
      ensures r.None? ==> Visits(old(domains), cookie, 0) < VISITS - 1
      ensures r.None? <== Has(old(counters), cookie) && cookie in old(produced) && lost == 0 && FullDrain(polls[0], |old(ring)|)
                          && Visits(old(domains), cookie, 0) < VISITS - 1
      ensures r.None? || r.value in {Invalid, PollFailed, LossOrGap, SweepTooLong}
    {
      var i := CounterFor(cookie);
      if i == |counters| || cookie !in produced { return Some(Invalid); }
      var expected := produced[cookie];
      var failed := Drain(i, cookie, expected, polls);
      if failed { return Some(PollFailed); }
      NoneWaiting(ring, cookie);
      if counters[i].seen != expected || lost > 0 { return Some(LossOrGap); }
      var ok := Sweep(cookie);
      if !ok { return Some(SweepTooLong); }
      Forget(i, cookie);
      r := None;
    }

    /** A poll that handles everything that waits and arrives. */
    static predicate FullDrain(p: Poll, waiting: nat) {
      p.outcome.Handles? && p.outcome.n >= waiting + |p.arrivals|
    }

    /** The polling loop of `finish`. */
    method Drain(i: nat, cookie: Cookie, expected: nat, polls: seq<Poll>) returns (failed: bool)
      requires Valid() && |polls| == POLLS && forall k :: 0 <= k < POLLS ==> cookie !in polls[k].arrivals
      requires i < |counters| && counters[i].cookie == cookie && cookie in produced && produced[cookie] == expected
      modifies this`ring, this`counters, this`produced, this`lost
      ensures Valid() && lost >= old(lost) && |counters| == |old(counters)| && produced.Keys == old(produced).Keys
      ensures produced[cookie] == expected
      ensures forall k :: 0 <= k < |counters| ==> counters[k] == old(counters)[k].(seen := counters[k].seen)
      ensures lost == 0 && FullDrain(polls[0], |old(ring)|) ==> !failed && counters[i].seen == expected
    {
      hide Accounted;
      var attempt := 0;
      Settled(i, cookie);
      while attempt < POLLS && counters[i].seen < expected
        invariant Valid() && lost >= old(lost) && 0 <= attempt <= POLLS
        invariant |counters| == |old(counters)| && produced.Keys == old(produced).Keys && produced[cookie] == expected
        invariant forall k :: 0 <= k < |counters| ==> counters[k] == old(counters)[k].(seen := counters[k].seen)
        invariant attempt == 0 ==> ring == old(ring)
        invariant lost == 0 ==> counters[i].seen <= expected
        invariant attempt > 0 && lost == 0 && FullDrain(polls[0], |old(ring)|) ==> counters[i].seen == expected
      {
        ProduceAll(polls[attempt].arrivals);
        failed := PollOnce(polls[attempt].outcome);
        Settled(i, cookie);
        if failed { return; }
        attempt := attempt + 1;
      }
      failed := false;
    }

    /** What the accounting says of one run. */
    lemma Settled(i: nat, cookie: Cookie)
      requires Valid() && i < |counters| && counters[i].cookie == cookie && cookie in produced
      ensures lost == 0 ==> counters[i].seen <= produced[cookie]
      ensures lost == 0 && ring == [] ==> counters[i].seen == produced[cookie]
    {
    }

    method Forget(i: nat, cookie: Cookie)
      requires lost == 0 && Accounted(counters, produced, ring) && i < |counters| && counters[i].cookie == cookie
      requires cookie !in ring
      modifies this`produced, this`sessions, this`counters
      ensures Accounted(counters, produced, ring) && !Has(counters, cookie)
      ensures produced == old(produced) - {cookie} && sessions == old(sessions) - {old(counters)[i].cgroup}
      ensures counters == old(counters)[..i] + old(counters)[i + 1..]
    {
      ForgottenIsAccounted(counters, produced, ring, i);
      hide Accounted, Has;
      produced := produced - {cookie};
      sessions := sessions - {counters[i].cgroup};
      counters := counters[..i] + counters[i + 1..];
    }
  }
}
