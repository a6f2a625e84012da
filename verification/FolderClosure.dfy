/** Descendant queries: both frontier loops compute what is reachable from the roots, on any parent
  * graph, cyclic or not. */
module FolderClosure {
  import opened Prelude
  import opened Forest
  import opened Folders

  /** x can be reached from one of the roots by going down. */
  ghost predicate Reached(t: Tree, roots: set<FolderId>, x: FolderId) {
    exists r :: r in roots && Below(t, x, r)
  }

  ghost predicate AllReached(t: Tree, roots: set<FolderId>, ids: set<FolderId>) {
    forall x {:trigger Reached(t, roots, x)} :: x in ids ==> Reached(t, roots, x)
  }

  function ChildIds(t: Tree, frontier: set<FolderId>): set<FolderId> {
    set x <- t | t[x].parent.Some? && t[x].parent.value in frontier
  }

  ghost predicate Saturated(t: Tree, ids: set<FolderId>, frontier: set<FolderId>) {
    forall x <- t :: t[x].parent.Some? && t[x].parent.value in ids - frontier ==> x in ids
  }

  lemma ChildIsReached(t: Tree, roots: set<FolderId>, x: FolderId)
    requires x in t && t[x].parent.Some? && Reached(t, roots, t[x].parent.value)
    ensures Reached(t, roots, x)
  {
    var p := t[x].parent.value;
    var r :| r in roots && Below(t, p, r);
    BelowParent(t, x, p);
    BelowTransitive(t, x, p, r);
  }

  /** A set that holds the roots and all children of its members holds everything reachable. */
  lemma {:induction false} SaturatedHoldsAll(t: Tree, ids: set<FolderId>, x: FolderId, r: FolderId, n: nat)
    requires Saturated(t, ids, {}) && r in ids && Up(t, Some(x), n) == Some(r)
    ensures x in ids
    decreases n
  {
    if n > 0 {
      SaturatedHoldsAll(t, ids, Parent(t, x).value, r, n - 1);
    }
  }

  lemma ClosureIsExact(t: Tree, roots: set<FolderId>, ids: set<FolderId>)
    requires roots <= ids && Saturated(t, ids, {}) && AllReached(t, roots, ids)
    ensures forall x :: x in ids <==> Reached(t, roots, x)
  {
    forall x | Reached(t, roots, x) ensures x in ids {
      var r :| r in roots && Below(t, x, r);
      var n: nat :| Up(t, Some(x), n) == Some(r);
      SaturatedHoldsAll(t, ids, x, r, n);
    }
  }

  lemma NextLayer(t: Tree, roots: set<FolderId>, ids: set<FolderId>, frontier: set<FolderId>, added: set<FolderId>)
    requires frontier <= ids && Saturated(t, ids, frontier) && AllReached(t, roots, ids)
    requires added == ChildIds(t, frontier) - ids
    ensures Saturated(t, ids + added, added) && AllReached(t, roots, ids + added)
  {
    forall x | x in added ensures Reached(t, roots, x) {
      ChildIsReached(t, roots, x);
    }
    forall x | x in t && t[x].parent.Some? && t[x].parent.value in (ids + added) - added ensures x in ids + added {
      if t[x].parent.value in frontier {
        assert x in ChildIds(t, frontier);
      }
    }
  }

  /** personnel.py: sets. */
  method FolderAndDescendantIds(t: Tree, roots: set<FolderId>) returns (ids: set<FolderId>)
    ensures forall x :: x in ids <==> Reached(t, roots, x)
  {
    ids := roots;
    var frontier := ids;
    forall x | x in roots ensures Reached(t, roots, x) {
      BelowSelf(t, x);
    }
    while frontier != {}
      invariant roots <= ids && frontier <= ids && Saturated(t, ids, frontier)
      invariant AllReached(t, roots, ids)
      decreases t.Keys - ids, if frontier != {} then 1 else 0
    {
      var added := ChildIds(t, frontier) - ids;
      NextLayer(t, roots, ids, frontier, added);
      if added == {} {
        assert ids + added == ids;
        frontier := {};
        break;
      }
      var one :| one in added;
      assert one in t.Keys - ids && one !in t.Keys - (ids + added);
      ids := ids + added;
      frontier := added;
    }
    ClosureIsExact(t, roots, ids);
  }

  // ---------------------------------------------------------------- documents/views.py: lists

  predicate Distinct(s: seq<FolderId>) {
    forall i, j :: 0 <= i < j < |s| ==> s[i] != s[j]
  }

  /** The rows a query finds, each once, in some order. */
  method Listed(rows: set<FolderId>) returns (s: seq<FolderId>)
    ensures Distinct(s) && Elements(s) == rows
  {
    s := [];
    var left := rows;
    while left != {}
      invariant Distinct(s) && left <= rows && Elements(s) == rows - left
      decreases left
    {
      var x :| x in left;
      assert x !in Elements(s);
      ElementsAppend(s, [x]);
      assert Elements([x]) == {x};
      s := s + [x];
      left := left - {x};
    }
  }

  /** Only active rows count on the way down; the roots themselves are taken as given. */
  function ActiveRows(t: Tree): Tree {
    map x <- t | t[x].active :: t[x]
  }

  function Without(s: seq<FolderId>, known: seq<FolderId>): (r: seq<FolderId>)
    ensures forall x :: x in r <==> x in s && x !in known
    ensures Distinct(s) ==> Distinct(r)
    ensures |r| <= |s|
  {
    if s == [] then []
    else
      var rest := Without(s[1..], known);
      assert Distinct(s) ==> Distinct(s[1..]) && forall i :: 0 < i < |s| ==> s[i] != s[0];
      assert forall x :: x in s <==> x == s[0] || x in s[1..];
      if s[0] in known then rest else [s[0]] + rest
  }

  lemma DistinctAppend(s: seq<FolderId>, r: seq<FolderId>)
    requires Distinct(s) && Distinct(r) && forall x :: x in r ==> x !in s
    ensures Distinct(s + r)
  {
    forall i, j | 0 <= i < j < |s + r| ensures (s + r)[i] != (s + r)[j] {
      if i < |s| <= j {
        assert r[j - |s|] in r;
      }
    }
  }

  lemma ElementsAppend(s: seq<FolderId>, r: seq<FolderId>)
    ensures Elements(s + r) == Elements(s) + Elements(r)
  {
  }

  /** What the list loop keeps. */
  ghost predicate Growing(t: Tree, roots: set<FolderId>, ids: seq<FolderId>, frontier: seq<FolderId>) {
    && Distinct(ids) && roots <= Elements(ids) && Elements(frontier) <= Elements(ids)
    && Saturated(t, Elements(ids), Elements(frontier)) && AllReached(t, roots, Elements(ids))
  }

  lemma NextList(t: Tree, roots: set<FolderId>, ids: seq<FolderId>, frontier: seq<FolderId>, children: seq<FolderId>,
                 added: seq<FolderId>)
    requires Growing(t, roots, ids, frontier)
    requires Distinct(children) && Elements(children) == ChildIds(t, Elements(frontier))
    requires added == Without(children, ids)
    ensures Growing(t, roots, ids + added, added)
    ensures added != [] ==> t.Keys - Elements(ids + added) < t.Keys - Elements(ids)
  {
    forall x ensures x in Elements(added) <==> x in ChildIds(t, Elements(frontier)) && x !in Elements(ids) {
      assert x in children <==> x in Elements(children);
    }
    NextLayer(t, roots, Elements(ids), Elements(frontier), Elements(added));
    DistinctAppend(ids, added);
    ElementsAppend(ids, added);
    if added != [] {
      assert added[0] in Elements(added);
      assert added[0] in t.Keys - Elements(ids) && added[0] !in t.Keys - Elements(ids + added);
    }
  }

  method DescendantsOf(t: Tree, roots: seq<FolderId>) returns (ids: seq<FolderId>)
    requires Distinct(roots)
    ensures Distinct(ids) && roots <= ids
    ensures forall x :: x in ids <==> Reached(ActiveRows(t), Elements(roots), x)
  {
    var rows := ActiveRows(t);
    ids := roots;
    var frontier := ids;
    RootsAreReached(rows, Elements(roots));
    while frontier != []
      invariant roots <= ids && Growing(rows, Elements(roots), ids, frontier)
      decreases rows.Keys - Elements(ids), |frontier|
    {
      var children := Listed(ChildIds(rows, Elements(frontier)));
      var added := Without(children, ids);
      NextList(rows, Elements(roots), ids, frontier, children, added);
      if added == [] {
        assert ids + added == ids;
      }
      frontier := added;
      ids := ids + frontier;
    }
    assert Elements(frontier) == {};
    ClosureIsExact(rows, Elements(roots), Elements(ids));
    assert forall x :: x in ids <==> x in Elements(ids);
  }

  lemma RootsAreReached(t: Tree, roots: set<FolderId>)
    ensures AllReached(t, roots, roots)
  {
    forall x | x in roots ensures Reached(t, roots, x) {
      BelowSelf(t, x);
    }
  }

  // ---------------------------------------------------------------- the roots of a request

  function RootForCode(code: string, definitions: seq<Definition>): Option<Definition> {
    if definitions == [] then None
    else if code == definitions[0].code then Some(definitions[0])
    else RootForCode(code, definitions[1..])
  }

  function RootForName(name: string, definitions: seq<Definition>): Option<Definition> {
    if definitions == [] then None
    else if Names(definitions[0], name) then Some(definitions[0])
    else RootForName(name, definitions[1..])
  }

  function StandardRootFor(row: Folder): Option<Definition> {
    var byCode := RootForCode(row.code, STANDARD_ROOTS);
    if byCode.Some? then byCode else RootForName(row.name, STANDARD_ROOTS)
  }

  /** The folder asked for, every active folder of the same kind when it is a standard root, and its
    * active public children when it is the archive root. */
  function RequestRoots(t: Tree, f: FolderId): set<FolderId> {
    if f !in t || !t[f].active || t[f].project.Some? || t[f].parent.Some? then {f}
    else
      var definition := StandardRootFor(t[f]);
      if definition.Some? then
        {f} + set x <- t | t[x].active && (t[x].code == definition.value.code || Names(definition.value, t[x].name))
      else if t[f].code == ARCHIVE_ROOT.code || Names(ARCHIVE_ROOT, t[f].name) then
        {f} + set x <- t | t[x].active && t[x].project == None && t[x].parent == Some(f)
      else {f}
  }

  method DescendantFolderIds(t: Tree, f: FolderId) returns (ids: seq<FolderId>)
    ensures Distinct(ids) && |ids| > 0 && ids[0] == f
    ensures f in t && t[f].active ==>
              forall x :: x in ids <==> Reached(ActiveRows(t), RequestRoots(t, f), x)
    ensures f !in t || !t[f].active ==> ids == [f]
  {
    if f !in t || !t[f].active {
      return [f];
    }
    var equivalent := Listed(RequestRoots(t, f));
    var roots := [f] + Without(equivalent, [f]);
    DistinctAppend([f], Without(equivalent, [f]));
    assert Elements(roots) == RequestRoots(t, f) by {
      forall x ensures x in Elements(roots) <==> x in RequestRoots(t, f) {
        assert x in Elements(equivalent) <==> x in equivalent;
        assert x in roots <==> x == f || x in Without(equivalent, [f]);
      }
    }
    ids := DescendantsOf(t, roots);
    assert ids[0] == roots[0];
  }
}
