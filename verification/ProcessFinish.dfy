/** Why `finish` ends well in the normal case: by then the kernel has deleted the domains of
    the run itself. */
module ProcessFinish {
  import PI = ProcessIdentity
  import opened ProcessTracker

  /** What the tracker sees of the kernel's domain map, in the map's iteration order. */
  ghost predicate Lists(es: seq<Entry>, domains: map<Tid, PI.ProcessDomains.Identity>) {
    && |es| == |domains|
    && forall i :: 0 <= i < |es| ==> es[i].tid in domains && domains[es[i].tid].cookie == es[i].cookie
  }

  /** In a loss-free run, once every process of a cookie has exited: the sweep finds no domain
      of it, leaves all others, and stays below its limit, whatever else the map holds. So a
      finish that drains the ring is acknowledged. */
  lemma QuiescentFinishEnds(live: set<Tid>, ss: seq<PI.Step>, c: Cookie, es: seq<Entry>)
    requires PI.Admissible(PI.Start(live), ss)
    requires var k := PI.Replay(PI.Start(live), ss).k;
             k.lost == 0 && PI.Quiescent(k.log, c) && Lists(es, k.domains) && |k.domains| <= 65536
    ensures Others(es, c) == es && Visits(es, c, 0) < VISITS - 1
  {
    forall i | 0 <= i < |es| ensures es[i].cookie != c {
      PI.QuiescentRunHasNoDomain(live, ss, c, es[i].tid);
    }
    ForeignStay(es, c);
    NoOwnDomainsAlwaysEnds(es, c);
  }
}
