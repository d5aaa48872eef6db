/** The lineage is a forest, and deleting a checkpoint takes a quotient of it. */
module LineageForest {
  import opened Base
  import opened Lineage

  // ---------------------------------------------------------------- chains

  /** `s` lists `start`, its parent, its parent's parent, ... up to a root. */
  ghost predicate IsChain(ix: Index, start: Option<Id>, s: seq<Id>)
    decreases |s|
  {
    match start
    case None => s == []
    case Some(c) => s != [] && s[0] == c && c in ix.cps && IsChain(ix, ix.cps[c].parent, s[1..])
  }

  ghost predicate Rooted(ix: Index, start: Option<Id>) {
    exists s :: IsChain(ix, start, s)
  }

  /** Both directions of every parent and child pointer of `c`. */
  ghost predicate Linked(ix: Index, c: Id)
    requires c in ix.cps
  {
    var m := ix.cps[c];
    && (m.parent.Some? ==> m.parent.value in ix.cps && c in ix.cps[m.parent.value].children)
    && (forall k :: k in m.children && k != LIVE_CHILD ==> k in ix.cps && ix.cps[k].parent == Some(c))
    && NoDuplicates(m.children)
  }

  ghost predicate Forest(ix: Index) {
    && LIVE_CHILD !in ix.cps
    && (ix.head.Some? ==> ix.head.value in ix.cps)
    && (forall c :: c in ix.cps ==> Linked(ix, c))
    && (forall c :: c in ix.cps ==> Rooted(ix, Some(c)))
  }

  lemma {:induction false} ChainUnique(ix: Index, start: Option<Id>, s: seq<Id>, t: seq<Id>)
    requires IsChain(ix, start, s) && IsChain(ix, start, t)
    ensures s == t
    decreases |s|
  {
    if start.Some? {
      ChainUnique(ix, ix.cps[start.value].parent, s[1..], t[1..]);
      assert s == [s[0]] + s[1..] && t == [t[0]] + t[1..];
    }
  }

  lemma {:induction false} ChainSuffix(ix: Index, start: Option<Id>, s: seq<Id>, i: nat)
    requires IsChain(ix, start, s) && i < |s|
    ensures IsChain(ix, Some(s[i]), s[i..])
    decreases i
  {
    if i > 0 {
      ChainSuffix(ix, ix.cps[start.value].parent, s[1..], i - 1);
      assert s[1..][i - 1..] == s[i..];
    }
  }

  /** A chain that meets an element twice would be its own proper suffix. */
  lemma ChainHasNoDuplicates(ix: Index, start: Option<Id>, s: seq<Id>)
    requires IsChain(ix, start, s)
    ensures NoDuplicates(s)
    ensures forall c :: c in s ==> c in ix.cps
  {
    forall i, j | 0 <= i < j < |s| ensures s[i] != s[j] {
      if s[i] == s[j] {
        ChainSuffix(ix, start, s, i);
        ChainSuffix(ix, start, s, j);
        ChainUnique(ix, Some(s[i]), s[i..], s[j..]);
        assert false;
      }
    }
    forall c | c in s ensures c in ix.cps {
      var i :| 0 <= i < |s| && s[i] == c;
      ChainSuffix(ix, start, s, i);
    }
  }

  /** Chains only depend on the parent pointers they follow. */
  lemma {:induction false} ChainFrame(ix: Index, jx: Index, start: Option<Id>, s: seq<Id>)
    requires IsChain(ix, start, s)
    requires forall c :: c in ix.cps ==> c in jx.cps && jx.cps[c].parent == ix.cps[c].parent
    ensures IsChain(jx, start, s)
    decreases |s|
  {
    if start.Some? {
      ChainFrame(ix, jx, ix.cps[start.value].parent, s[1..]);
    }
  }

  lemma ForestRoots(ix: Index, start: Option<Id>)
    requires Forest(ix) && (start.Some? ==> start.value in ix.cps)
    ensures Rooted(ix, start)
  {
    if start.None? {
      assert IsChain(ix, None, []);
    }
  }

  lemma RootedFrame(ix: Index, jx: Index, start: Option<Id>)
    requires Rooted(ix, start)
    requires forall c :: c in ix.cps ==> c in jx.cps && jx.cps[c].parent == ix.cps[c].parent
    ensures Rooted(jx, start)
  {
    var s :| IsChain(ix, start, s);
    ChainFrame(ix, jx, start, s);
  }

  // ---------------------------------------------------------------- resolving an ancestor

  lemma {:induction false} AncestorOnChain(ix: Index, c: Id, s: seq<Id>, k: nat)
    requires IsChain(ix, Some(c), s)
    ensures Ancestor(ix, c, k) == if k < |s| then Some(s[k]) else None
    decreases k
  {
    if k > 0 && ix.cps[c].parent.Some? {
      AncestorOnChain(ix, ix.cps[c].parent.value, s[1..], k - 1);
    }
  }

  lemma {:induction false} DistinctMembersFit(s: seq<Id>, u: set<Id>)
    requires NoDuplicates(s) && forall x :: x in s ==> x in u
    ensures |s| <= |u|
    decreases |s|
  {
    if s != [] {
      DistinctMembersFit(s[1..], u - {s[0]});
    }
  }

  /** `num_ancestors = n` names the n-th element of the head's chain, and never resolves
      for an n above the number of checkpoints. */
  lemma ResolveIsNthOfHeadChain(ix: Index, n: int) returns (chain: seq<Id>)
    requires Forest(ix)
    ensures IsChain(ix, ix.head, chain) && NoDuplicates(chain) && |chain| <= |ix.cps.Keys|
    ensures Resolution(ix, None, Some(n)).Ok? <==> 1 <= n <= |chain|
    ensures 1 <= n <= |chain| ==> Resolution(ix, None, Some(n)) == Ok(chain[n - 1])
  {
    ForestRoots(ix, ix.head);
    chain :| IsChain(ix, ix.head, chain);
    ChainHasNoDuplicates(ix, ix.head, chain);
    DistinctMembersFit(chain, ix.cps.Keys);
    if n >= 1 && ix.head.Some? {
      AncestorOnChain(ix, ix.head.value, chain, n - 1);
    }
  }

  /** A resolved id is present on disk according to the index, and either the one asked
      for or the only present id that starts with it. */
  lemma ResolvedIdIsPresent(ix: Index, wanted: Id)
    ensures var r := Resolution(ix, Some(wanted), None);
            r.Ok? ==> r.value in ix.cps && !ix.cps[r.value].missing && wanted <= r.value
                      && (wanted in ix.cps && !ix.cps[wanted].missing ==> r.value == wanted)
                      && (r.value != wanted ==> PrefixMatches(ix, wanted) == {r.value})
  {
    var matches := PrefixMatches(ix, wanted);
    if exists c :: matches == {c} {
      var c :| matches == {c};
      assert forall d :: d in matches ==> d == c;
      assert c in matches;
    }
  }

  // ---------------------------------------------------------------- each operation keeps the forest

  /** What adding, moving the head and reconciling share: entries keep their parent, and
      a child list gains at most `added`, under the entry that is its parent. */
  ghost predicate Grows(ix: Index, jx: Index, added: Option<Id>) {
    && ix.cps.Keys <= jx.cps.Keys
    && forall c :: c in ix.cps ==>
         && jx.cps[c].parent == ix.cps[c].parent
         && NoDuplicates(jx.cps[c].children)
         && forall k :: k != LIVE_CHILD ==>
              (k in jx.cps[c].children <==> k in ix.cps[c].children || (Some(k) == added && k in jx.cps && jx.cps[k].parent == Some(c)))
  }

  lemma GrownForest(ix: Index, jx: Index, added: Option<Id>)
    requires Forest(ix) && LIVE_CHILD !in jx.cps
    requires jx.head.Some? ==> jx.head.value in jx.cps
    requires added.Some? ==> added.value in jx.cps && added.value !in ix.cps
    requires Grows(ix, jx, added)
    requires forall c :: c in jx.cps && c !in ix.cps ==>
      && jx.cps[c].children in {[], [LIVE_CHILD]}
      && (jx.cps[c].parent.Some? ==> added == Some(c) && jx.cps[c].parent.value in ix.cps)
    ensures Forest(jx)
  {
    forall c | c in jx.cps ensures Linked(jx, c) && Rooted(jx, Some(c)) {
      if c in ix.cps {
        assert Linked(ix, c);
        RootedFrame(ix, jx, Some(c));
      } else {
        ForestRoots(ix, jx.cps[c].parent);
        RootedFrame(ix, jx, jx.cps[c].parent);
        var s :| IsChain(jx, jx.cps[c].parent, s);
        assert IsChain(jx, Some(c), [c] + s);
      }
    }
  }

  lemma MarkedKeepsParents(cps: map<Id, Meta>, head: Option<Id>)
    ensures Marked(cps, head).Keys == cps.Keys
    ensures forall x :: x in cps ==> Marked(cps, head)[x].parent == cps[x].parent
    ensures forall x :: x in cps ==> NoDuplicates(cps[x].children) ==> NoDuplicates(Marked(cps, head)[x].children)
    ensures forall x, k :: x in cps && k != LIVE_CHILD ==>
      (k in Marked(cps, head)[x].children <==> k in cps[x].children)
  {
  }

  lemma AddedChildren(ix: Index, id: Id, info: Info, c: Id)
    requires Forest(ix) && id !in ix.cps && id != LIVE_CHILD && c in ix.cps
    ensures Added(ix, id, info).cps.Keys == ix.cps.Keys + {id}
    ensures var m := Added(ix, id, info).cps[c];
            && m.parent == ix.cps[c].parent && NoDuplicates(m.children)
            && (forall k :: k != LIVE_CHILD ==>
                  (k in m.children <==> k in ix.cps[c].children || (k == id && ix.head == Some(c))))
  {
    hide Rooted;
    assert Linked(ix, c);
    assert id !in ix.cps[c].children;
  }

  lemma AddGrows(ix: Index, id: Id, info: Info)
    requires Forest(ix) && id !in ix.cps && id != LIVE_CHILD
    ensures Added(ix, id, info).cps.Keys == ix.cps.Keys + {id}
    ensures Grows(ix, Added(ix, id, info), Some(id))
  {
    var jx := Added(ix, id, info);
    assert jx.cps[id].parent == ix.head;
    hide Added, Forest, NoDuplicates;
    forall c | c in ix.cps {
      AddedChildren(ix, id, info, c);
    }
  }

  lemma AddKeepsForest(ix: Index, id: Id, info: Info)
    requires Forest(ix) && id !in ix.cps && id != LIVE_CHILD
    ensures Forest(Added(ix, id, info))
  {
    AddGrows(ix, id, info);
    GrownForest(ix, Added(ix, id, info), Some(id));
  }

  lemma WithoutMarkerGrows(ix: Index)
    requires Forest(ix)
    ensures WithoutHeadMarker(ix).Keys == ix.cps.Keys
    ensures Grows(ix, Index(ix.head, WithoutHeadMarker(ix)), None)
  {
    forall c | c in ix.cps ensures NoDuplicates(ix.cps[c].children) {
      assert Linked(ix, c);
    }
  }

  lemma MarkedGrows(ix: Index, cps: map<Id, Meta>, head: Option<Id>)
    requires Grows(ix, Index(ix.head, cps), None)
    ensures Grows(ix, Index(head, Marked(cps, head)), None)
  {
    MarkedKeepsParents(cps, head);
  }

  lemma MoveHeadGrows(ix: Index, id: Id)
    requires Forest(ix) && id in ix.cps
    ensures Moved(ix, id).cps.Keys == ix.cps.Keys
    ensures Grows(ix, Moved(ix, id), None)
  {
    WithoutMarkerGrows(ix);
    MarkedGrows(ix, WithoutHeadMarker(ix), Some(id));
  }

  lemma MoveHeadKeepsForest(ix: Index, id: Id)
    requires Forest(ix) && id in ix.cps
    ensures Forest(Moved(ix, id))
  {
    MoveHeadGrows(ix, id);
    GrownForest(ix, Moved(ix, id), None);
  }

  lemma ReconcileGrows(ix: Index, actual: set<Id>)
    requires Forest(ix)
    ensures Grows(ix, Reconciled(ix, actual), None)
  {
    forall c | c in ix.cps ensures NoDuplicates(Reconciled(ix, actual).cps[c].children) {
      assert Linked(ix, c);
    }
  }

  lemma ReconcileKeepsForest(ix: Index, actual: set<Id>)
    requires Forest(ix) && LIVE_CHILD !in actual
    ensures Forest(Reconciled(ix, actual))
  {
    ReconcileGrows(ix, actual);
    GrownForest(ix, Reconciled(ix, actual), None);
  }

  /** None of the three changes the ancestor chain of any checkpoint it found. */
  lemma GrowingKeepsChains(ix: Index, op: Op, start: Option<Id>, s: seq<Id>)
    requires Forest(ix) && ValidOp(op) && !op.Remove? && IsChain(ix, start, s)
    ensures IsChain(Applied(ix, op), start, s)
  {
    match op
    case Add(id, info) => if id !in ix.cps { AddGrows(ix, id, info); ChainFrame(ix, Added(ix, id, info), start, s); }
    case MoveHead(id) => if id in ix.cps { MoveHeadGrows(ix, id); ChainFrame(ix, Moved(ix, id), start, s); }
    case Reconcile(actual) => ReconcileGrows(ix, actual); ChainFrame(ix, Reconciled(ix, actual), start, s);
  }

  // ---------------------------------------------------------------- removal is a quotient

  /** Where a chain starts once `c` is gone: at `c`'s parent instead of at `c`. */
  function Skip(ix: Index, c: Id, start: Option<Id>): Option<Id>
    requires c in ix.cps
  {
    if start == Some(c) then ix.cps[c].parent else start
  }

  lemma RemovedParents(ix: Index, c: Id)
    requires Forest(ix) && c in ix.cps
    ensures Removed(ix, c).cps.Keys == ix.cps.Keys - {c}
    ensures forall x :: x in ix.cps && x != c ==> Removed(ix, c).cps[x].parent == Skip(ix, c, ix.cps[x].parent)
    ensures Removed(ix, c).head == Skip(ix, c, ix.head)
  {
    hide Rooted, Without, Merged, Marked, NoDuplicates;
    assert Linked(ix, c);
    forall x | x in ix.cps ensures Bypassed(ix, c)[x].parent == Skip(ix, c, ix.cps[x].parent) {
      assert Linked(ix, x);
    }
    MarkedKeepsParents(Bypassed(ix, c) - {c}, Removed(ix, c).head);
  }

  /** The child list of `p` after removing `c`: `c` is replaced by its own children. */
  lemma RemovedChildren(ix: Index, c: Id, x: Id)
    requires Forest(ix) && c in ix.cps && x in ix.cps && x != c
    ensures x in Removed(ix, c).cps
    ensures NoDuplicates(Removed(ix, c).cps[x].children)
    ensures forall k :: k != LIVE_CHILD ==>
      (k in Removed(ix, c).cps[x].children <==>
       if ix.cps[c].parent == Some(x) then (k in ix.cps[x].children && k != c) || k in ix.cps[c].children
       else k in ix.cps[x].children)
  {
    assert Linked(ix, c) && Linked(ix, x);
    MarkedKeepsParents(Bypassed(ix, c) - {c}, Removed(ix, c).head);
  }

  /** The ancestor chain of every start after removing `c` is the old chain with `c`
      filtered out, whether or not `c` is a root, the head or the start itself. */
  lemma {:induction false} RemoveFiltersChain(ix: Index, c: Id, start: Option<Id>, s: seq<Id>)
    requires Forest(ix) && c in ix.cps && IsChain(ix, start, s)
    ensures IsChain(Removed(ix, c), Skip(ix, c, start), Without(s, c))
    decreases |s|
  {
    RemovedParents(ix, c);
    if start.Some? {
      var x := start.value;
      RemoveFiltersChain(ix, c, ix.cps[x].parent, s[1..]);
      ChainHasNoDuplicates(ix, start, s);
      if x == c && ix.cps[c].parent.Some? {
        assert s[1] == ix.cps[c].parent.value;
        assert s[0] != s[1];
      }
    }
  }

  lemma ParentDiffers(ix: Index, c: Id)
    requires Forest(ix) && c in ix.cps
    ensures ix.cps[c].parent != Some(c)
  {
    var s :| IsChain(ix, Some(c), s);
    ChainHasNoDuplicates(ix, Some(c), s);
    if ix.cps[c].parent.Some? {
      assert IsChain(ix, ix.cps[c].parent, s[1..]);
      assert s[1..][0] == ix.cps[c].parent.value;
      assert s[0] != s[1];
    }
  }

  lemma RemoveKeepsLinks(ix: Index, jx: Index, c: Id, x: Id)
    requires Forest(ix) && c in ix.cps && x in ix.cps && x != c && jx == Removed(ix, c)
    requires x in jx.cps
    ensures Linked(jx, x)
  {
    RemovedParents(ix, c);
    ParentDiffers(ix, c);
    assert Linked(ix, c) && Linked(ix, x);
    RemovedChildren(ix, c, x);
    if jx.cps[x].parent.Some? {
      RemovedChildren(ix, c, jx.cps[x].parent.value);
    }
  }

  lemma RemoveKeepsForest(ix: Index, c: Id)
    requires Forest(ix)
    ensures Forest(Removed(ix, c))
  {
    if c in ix.cps {
      var jx := Removed(ix, c);
      RemovedParents(ix, c);
      assert Linked(ix, c);
      ParentDiffers(ix, c);
      forall x | x in jx.cps ensures Linked(jx, x) && Rooted(jx, Some(x)) {
        RemoveKeepsLinks(ix, jx, c, x);
        var s :| IsChain(ix, Some(x), s);
        RemoveFiltersChain(ix, c, Some(x), s);
      }
    }
  }

  // ---------------------------------------------------------------- runs

  datatype Op = Add(id: Id, info: Info) | MoveHead(id: Id) | Remove(id: Id) | Reconcile(actual: set<Id>)

  /** The index after one call, whether the call succeeds or raises. */
  function Applied(ix: Index, op: Op): Index {
    match op
    case Add(id, info) => if id in ix.cps then ix else Added(ix, id, info)
    case MoveHead(id) => if id in ix.cps then Moved(ix, id) else ix
    case Remove(id) => Removed(ix, id)
    case Reconcile(actual) => Reconciled(ix, actual)
  }

  /** Checkpoint ids and snapshot names are validated ids, so never the live marker. */
  ghost predicate ValidOp(op: Op) {
    match op
    case Add(id, _) => id != LIVE_CHILD
    case Reconcile(actual) => LIVE_CHILD !in actual
    case _ => true
  }

  function Replay(ix: Index, ops: seq<Op>): Index
    decreases |ops|
  {
    if ops == [] then ix else Replay(Applied(ix, ops[0]), ops[1..])
  }

  lemma OpKeepsForest(ix: Index, op: Op)
    requires Forest(ix) && ValidOp(op)
    ensures Forest(Applied(ix, op))
  {
    match op
    case Add(id, info) => if id !in ix.cps { AddKeepsForest(ix, id, info); }
    case MoveHead(id) => if id in ix.cps { MoveHeadKeepsForest(ix, id); }
    case Remove(id) => RemoveKeepsForest(ix, id);
    case Reconcile(actual) => ReconcileKeepsForest(ix, actual);
  }

  lemma {:induction false} RunKeepsForest(ix: Index, ops: seq<Op>)
    requires Forest(ix) && forall i :: 0 <= i < |ops| ==> ValidOp(ops[i])
    ensures Forest(Replay(ix, ops))
    decreases |ops|
  {
    if ops != [] {
      OpKeepsForest(ix, ops[0]);
      RunKeepsForest(Applied(ix, ops[0]), ops[1..]);
    }
  }

  // ---------------------------------------------------------------- the live marker

  /** The marker sits at the head and nowhere else. */
  ghost predicate LiveAtHead(ix: Index) {
    forall c :: c in ix.cps ==> (LIVE_CHILD in ix.cps[c].children <==> ix.head == Some(c))
  }

  lemma AddKeepsMarker(ix: Index, id: Id, info: Info)
    requires Forest(ix) && LiveAtHead(ix) && id !in ix.cps && id != LIVE_CHILD
    ensures LiveAtHead(Added(ix, id, info))
  {
    AddGrows(ix, id, info);
    forall c | c in ix.cps ensures LIVE_CHILD !in Added(ix, id, info).cps[c].children {
    }
  }

  lemma MoveHeadKeepsMarker(ix: Index, id: Id)
    requires LiveAtHead(ix) && id in ix.cps
    ensures LiveAtHead(Moved(ix, id))
  {
    var bare := WithoutHeadMarker(ix);
    assert bare.Keys == ix.cps.Keys;
    forall c | c in ix.cps ensures LIVE_CHILD !in bare[c].children {
    }
  }

  lemma BypassedKeepsMarker(ix: Index, id: Id)
    requires id in ix.cps && id != LIVE_CHILD
    ensures Bypassed(ix, id).Keys == ix.cps.Keys
    ensures forall c :: c in ix.cps ==>
      (LIVE_CHILD in Bypassed(ix, id)[c].children <==> LIVE_CHILD in ix.cps[c].children)
  {
    hide Without, Merged;
  }

  lemma RemoveKeepsMarker(ix: Index, id: Id)
    requires Forest(ix) && LiveAtHead(ix) && id in ix.cps
    ensures LiveAtHead(Removed(ix, id))
  {
    RemovedParents(ix, id);
    BypassedKeepsMarker(ix, id);
    hide Forest, Bypassed;
  }

  /** Every operation keeps the marker at the head, except exactly a reconcile that drops
      the head: it leaves the marker behind. */
  lemma MarkerFollowsHeadExactly(ix: Index, op: Op)
    requires Forest(ix) && ValidOp(op) && LiveAtHead(ix)
    ensures LiveAtHead(Applied(ix, op)) <==>
            !(op.Reconcile? && ix.head.Some? && ix.head.value !in op.actual)
  {
    match op
    case Add(id, info) => if id !in ix.cps { AddKeepsMarker(ix, id, info); }
    case MoveHead(id) => if id in ix.cps { MoveHeadKeepsMarker(ix, id); }
    case Remove(id) => if id in ix.cps { RemoveKeepsMarker(ix, id); }
    case Reconcile(actual) =>
      var jx := Reconciled(ix, actual);
      if ix.head.Some? && ix.head.value !in actual {
        assert LIVE_CHILD in jx.cps[ix.head.value].children;
      }
  }

  /** After such a drop, the next head move leaves two live markers in the lineage. */
  lemma DroppedHeadLeavesTwoMarkers(info: Info)
    ensures var ix := Replay(EMPTY_INDEX, [Add("a", info), Add("b", info), Reconcile({"a"}), MoveHead("a")]);
            && "a" in ix.cps && LIVE_CHILD in ix.cps["a"].children
            && "b" in ix.cps && LIVE_CHILD in ix.cps["b"].children
  {
    var ops := [Add("a", info), Add("b", info), Reconcile({"a"}), MoveHead("a")];
    assert ops[1..][1..] == [Reconcile({"a"}), MoveHead("a")] && ops[1..][1..][1..] == [MoveHead("a")];
    var ix1 := Applied(EMPTY_INDEX, ops[0]);
    var ix2 := Applied(ix1, ops[1]);
    var ix3 := Applied(ix2, ops[2]);
    var ix4 := Applied(ix3, ops[3]);
    assert Replay(ix3, [MoveHead("a")]) == Replay(ix4, []);
    assert Replay(ix2, ops[1..][1..]) == ix4;
    assert Replay(ix1, ops[1..]) == ix4;
    assert ix2.cps.Keys == {"a", "b"};
  }
}
