/** The checkpoint lineage of one Session: a forest kept as mirrored parent and
    child pointers, with a head and a live marker. */
module Lineage {
  import opened Base

  type Id = string

  const LIVE_CHILD: Id := "__live__"

  datatype Info = Info(createdAtNs: int, origin: string, message: Option<string>,
                       pinned: bool, metadata: Option<string>)

  datatype Meta = Meta(info: Info, missing: bool, parent: Option<Id>, children: seq<Id>)

  /** The value an index object holds, and what its file stores. */
  datatype Index = Index(head: Option<Id>, cps: map<Id, Meta>)

  const EMPTY_INDEX := Index(None, map[])

  const RECOVERED_META := Meta(Info(0, "filesystem-recovery", None, false, None), false, None, [])

  datatype IndexError =
    | AlreadyIndexed | NotIndexed | NeedExactlyOne | BadAncestorCount | NoHead | LineageEnds
    | NoSuchCheckpoint | AmbiguousPrefix

  // ---------------------------------------------------------------- lists

  function Without(xs: seq<Id>, x: Id): (r: seq<Id>)
    ensures forall y :: y in r <==> y in xs && y != x
    ensures NoDuplicates(xs) ==> NoDuplicates(r)
  {
    if xs == [] then [] else
      var rest := Without(xs[1..], x);
      assert NoDuplicates(xs) ==> xs[0] !in xs[1..] && NoDuplicates(xs[1..]);
      if xs[0] == x then rest else [xs[0]] + rest
  }

  /** `base` followed by the entries of `extra` it does not hold yet. */
  function Merged(base: seq<Id>, extra: seq<Id>): (r: seq<Id>)
    ensures forall y :: y in r <==> y in base || y in extra
    ensures NoDuplicates(base) ==> NoDuplicates(r)
  {
    if extra == [] then base else
      var last := extra[|extra| - 1];
      var r := Merged(base, extra[..|extra| - 1]);
      assert extra == extra[..|extra| - 1] + [last];
      if last in r then r else r + [last]
  }

  // ---------------------------------------------------------------- what each operation computes

  function WithoutHeadMarker(ix: Index): map<Id, Meta> {
    if ix.head.Some? && ix.head.value in ix.cps then
      var m := ix.cps[ix.head.value];
      ix.cps[ix.head.value := m.(children := Without(m.children, LIVE_CHILD))]
    else
      ix.cps
  }

  function Marked(cps: map<Id, Meta>, head: Option<Id>): map<Id, Meta> {
    if head.Some? && head.value in cps && LIVE_CHILD !in cps[head.value].children then
      cps[head.value := cps[head.value].(children := cps[head.value].children + [LIVE_CHILD])]
    else
      cps
  }

  function Added(ix: Index, id: Id, info: Info): Index {
    var bare := WithoutHeadMarker(ix);
    var cps :=
      if ix.head.Some? && ix.head.value in bare then
        var m := bare[ix.head.value];
        bare[ix.head.value := m.(children := if id in m.children then m.children else m.children + [id])]
      else
        bare;
    Index(Some(id), cps[id := Meta(info, false, ix.head, [LIVE_CHILD])])
  }

  function Moved(ix: Index, id: Id): Index {
    Index(Some(id), Marked(WithoutHeadMarker(ix), Some(id)))
  }

  function Reparented(cps: map<Id, Meta>, kids: seq<Id>, parent: Option<Id>): map<Id, Meta> {
    map c | c in cps :: if c in kids then cps[c].(parent := parent) else cps[c]
  }

  /** The children of `id` handed to its parent. */
  function Bypassed(ix: Index, id: Id): map<Id, Meta>
    requires id in ix.cps
  {
    var parent := ix.cps[id].parent;
    var kids := Without(ix.cps[id].children, LIVE_CHILD);
    var cps := Reparented(ix.cps, kids, parent);
    if parent.Some? && parent.value in cps then
      var m := cps[parent.value];
      cps[parent.value := m.(children := Merged(Without(m.children, id), kids))]
    else
      cps
  }

  function Removed(ix: Index, id: Id): Index {
    if id !in ix.cps then ix else
      var head := if ix.head == Some(id) then ix.cps[id].parent else ix.head;
      Index(head, Marked(Bypassed(ix, id) - {id}, head))
  }

  function Reconciled(ix: Index, actual: set<Id>): Index {
    Index(
      if ix.head.Some? && ix.head.value !in actual then None else ix.head,
      map c | c in ix.cps.Keys + actual ::
        if c in ix.cps then ix.cps[c].(missing := c !in actual) else RECOVERED_META)
  }

  function Ancestor(ix: Index, c: Id, k: nat): Option<Id>
    decreases k
  {
    if k == 0 then Some(c)
    else if c in ix.cps && ix.cps[c].parent.Some? then Ancestor(ix, ix.cps[c].parent.value, k - 1)
    else None
  }

  function PrefixMatches(ix: Index, prefix: Id): set<Id> {
    set c | c in ix.cps && prefix <= c && !ix.cps[c].missing
  }

  ghost function ResolvedId(ix: Index, wanted: Id): Result<Id, IndexError> {
    var matches := PrefixMatches(ix, wanted);
    if wanted in ix.cps && !ix.cps[wanted].missing then Ok(wanted)
    else if matches == {} then Err(NoSuchCheckpoint)
    else if exists c :: matches == {c} then var c :| matches == {c}; Ok(c)
    else Err(AmbiguousPrefix)
  }

  ghost function Resolution(ix: Index, wanted: Option<Id>, numAncestors: Option<int>): Result<Id, IndexError> {
    if wanted.None? == numAncestors.None? then Err(NeedExactlyOne)
    else if wanted.Some? then ResolvedId(ix, wanted.value)
    else if numAncestors.value < 1 then Err(BadAncestorCount)
    else if ix.head.None? then Err(NoHead)
    else match Ancestor(ix, ix.head.value, numAncestors.value - 1)
      case None => Err(LineageEnds)
      case Some(a) => Ok(a)
  }

  // ---------------------------------------------------------------- the index object

  class CheckpointIndex {
    var head: Option<Id>
    var checkpoints: map<Id, Meta>

    function View(): Index
      reads this
    {
      Index(head, checkpoints)
    }

    constructor (ix: Index)
      ensures View() == ix
    {
      head, checkpoints := ix.head, ix.cps;
    }

    method Add(id: Id, info: Info) returns (r: Result<(), IndexError>)
      modifies this
      ensures r == if id in old(checkpoints) then Err(AlreadyIndexed) else Ok(())
      ensures View() == if r.Ok? then Added(old(View()), id, info) else old(View())
    {
      if id in checkpoints {
        return Err(AlreadyIndexed);
      }
      if head.Some? && head.value in checkpoints {
        var children := Without(checkpoints[head.value].children, LIVE_CHILD);
        if id !in children {
          children := children + [id];
        }
        checkpoints := checkpoints[head.value := checkpoints[head.value].(children := children)];
      }
      checkpoints := checkpoints[id := Meta(info, false, head, [LIVE_CHILD])];
      head := Some(id);
      r := Ok(());
    }

    /** Reports whether anything changed, and changes exactly what `Reconciled` says. */
    method Reconcile(actual: set<Id>) returns (changed: bool)
      modifies this
      ensures View() == Reconciled(old(View()), actual)
      ensures changed <==> View() != old(View())
    {
      ghost var was := checkpoints;
      changed := IndexFoundSnapshots(actual);
      ghost var grown := checkpoints;
      var refreshed := RefreshMissingFlags(actual);
      changed := changed || refreshed;
      if head.Some? && head.value !in actual {
        head := None;
        changed := true;
      }
      assert refreshed ==> checkpoints != was by {
        if refreshed {
          var c :| c in grown && checkpoints[c] != grown[c];
          assert c in was ==> checkpoints[c] != was[c];
        }
      }
    }

    /** First loop of reconciling: every snapshot without an entry gets one. */
    method IndexFoundSnapshots(actual: set<Id>) returns (changed: bool)
      modifies this
      ensures head == old(head)
      ensures checkpoints == map c | c in old(checkpoints).Keys + actual ::
                               if c in old(checkpoints) then old(checkpoints)[c] else RECOVERED_META
      ensures changed <==> checkpoints.Keys != old(checkpoints).Keys
    {
      changed := false;
      var todo := actual - checkpoints.Keys;
      while todo != {}
        invariant todo <= actual - old(checkpoints).Keys
        invariant checkpoints.Keys == old(checkpoints).Keys + (actual - todo)
        invariant forall c :: c in checkpoints ==>
          checkpoints[c] == if c in old(checkpoints) then old(checkpoints)[c] else RECOVERED_META
        invariant head == old(head)
        invariant changed <==> todo != actual - old(checkpoints).Keys
        decreases todo
      {
        var c :| c in todo;
        checkpoints := checkpoints[c := RECOVERED_META];
        todo := todo - {c};
        changed := true;
      }
    }

    /** Second loop of reconciling: the missing flag of every entry follows the snapshots. */
    method RefreshMissingFlags(actual: set<Id>) returns (changed: bool)
      modifies this
      ensures head == old(head)
      ensures checkpoints == map c | c in old(checkpoints) ::
                               old(checkpoints)[c].(missing := c !in actual)
      ensures changed <==> exists c :: c in old(checkpoints) && checkpoints[c] != old(checkpoints)[c]
    {
      ghost var was := checkpoints;
      changed := false;
      var items := checkpoints.Keys;
      while items != {}
        invariant items <= was.Keys && checkpoints.Keys == was.Keys
        invariant forall c :: c in was ==>
          checkpoints[c] == if c in items then was[c] else was[c].(missing := c !in actual)
        invariant head == old(head)
        invariant changed <==> exists c :: c in was && checkpoints[c] != was[c]
        decreases items
      {
        var c :| c in items;
        var missing := c !in actual;
        if checkpoints[c].missing != missing {
          checkpoints := checkpoints[c := checkpoints[c].(missing := missing)];
          changed := true;
          assert checkpoints[c] != was[c];
        }
        items := items - {c};
      }
    }

    method Resolve(wanted: Option<Id>, numAncestors: Option<int>) returns (r: Result<Id, IndexError>)
      ensures r == Resolution(View(), wanted, numAncestors)
    {
      if wanted.None? == numAncestors.None? {
        return Err(NeedExactlyOne);
      }
      if numAncestors.Some? {
        if numAncestors.value < 1 {
          return Err(BadAncestorCount);
        }
        if head.None? {
          return Err(NoHead);
        }
        var resolved := head.value;
        for i := 1 to numAncestors.value
          invariant Ancestor(View(), head.value, numAncestors.value - 1)
                 == Ancestor(View(), resolved, numAncestors.value - i)
        {
          if resolved in checkpoints && checkpoints[resolved].parent.Some? {
            resolved := checkpoints[resolved].parent.value;
          } else {
            return Err(LineageEnds);
          }
        }
        return Ok(resolved);
      }
      if wanted.value in checkpoints && !checkpoints[wanted.value].missing {
        return Ok(wanted.value);
      }
      var matches := set c | c in checkpoints && wanted.value <= c && !checkpoints[c].missing;
      assert matches == PrefixMatches(View(), wanted.value);
      if matches == {} {
        return Err(NoSuchCheckpoint);
      }
      var c :| c in matches;
      if matches != {c} {
        return Err(AmbiguousPrefix);
      }
      r := Ok(c);
    }

    method MoveHead(id: Id) returns (r: Result<(), IndexError>)
      modifies this
      ensures r == if id in old(checkpoints) then Ok(()) else Err(NotIndexed)
      ensures View() == if r.Ok? then Moved(old(View()), id) else old(View())
    {
      if id !in checkpoints {
        return Err(NotIndexed);
      }
      if head.Some? && head.value in checkpoints {
        var kept := Without(checkpoints[head.value].children, LIVE_CHILD);
        checkpoints := checkpoints[head.value := checkpoints[head.value].(children := kept)];
      }
      var children := checkpoints[id].children;
      if LIVE_CHILD !in children {
        checkpoints := checkpoints[id := checkpoints[id].(children := children + [LIVE_CHILD])];
      }
      head := Some(id);
      r := Ok(());
    }

    method Remove(id: Id)
      modifies this
      ensures View() == Removed(old(View()), id)
    {
      if id !in checkpoints {
        return;
      }
      var parent := checkpoints[id].parent;
      Bypass(id);
      if head == Some(id) {
        head := parent;
      }
      checkpoints := checkpoints - {id};
      if head.Some? && head.value in checkpoints {
        var headChildren := checkpoints[head.value].children;
        if LIVE_CHILD !in headChildren {
          checkpoints := checkpoints[head.value := checkpoints[head.value].(children := headChildren + [LIVE_CHILD])];
        }
      }
    }

    /** The two loops of `remove`. */
    method Bypass(id: Id)
      requires id in checkpoints
      modifies this`checkpoints
      ensures checkpoints == Bypassed(old(View()), id)
    {
      ghost var was := checkpoints;
      var parent := checkpoints[id].parent;
      var kids := Without(checkpoints[id].children, LIVE_CHILD);
      for i := 0 to |kids|
        invariant checkpoints == Reparented(was, kids[..i], parent)
      {
        if kids[i] in checkpoints {
          checkpoints := checkpoints[kids[i] := checkpoints[kids[i]].(parent := parent)];
        }
        assert kids[..i + 1] == kids[..i] + [kids[i]];
      }
      assert kids[..|kids|] == kids;
      if parent.Some? && parent.value in checkpoints {
        var parentChildren := MergeChildren(Without(checkpoints[parent.value].children, id), kids);
        checkpoints := checkpoints[parent.value := checkpoints[parent.value].(children := parentChildren)];
      }
    }

    method MergeChildren(base: seq<Id>, kids: seq<Id>) returns (children: seq<Id>)
      ensures children == Merged(base, kids)
    {
      children := base;
      for i := 0 to |kids|
        invariant children == Merged(base, kids[..i])
      {
        if kids[i] !in children {
          children := children + [kids[i]];
        }
        assert kids[..i + 1][..i] == kids[..i];
      }
      assert kids[..|kids|] == kids;
    }
  }
}
