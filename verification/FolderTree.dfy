/** The nested folder list: every folder hangs once below its parent, in the given order, and a walk
  * through the nested lists meets each folder once unless it lies on or below a cycle. */
module FolderTree {
  import opened Prelude
  import opened Forest
  import opened FolderClosure

  // A folder of the list: its id and its parent's.
  datatype Row = Row(id: FolderId, parent: Option<FolderId>)

  function Ids(rows: seq<Row>): seq<FolderId> {
    seq(|rows|, i requires 0 <= i < |rows| => rows[i].id)
  }

  /** The parent a row is shown below: its own, when that one is listed too. */
  function ShownBelow(rows: seq<Row>, row: Row): Option<FolderId> {
    if row.parent.Some? && row.parent.value in Ids(rows) then row.parent else None
  }

  /** The rows shown below `above`, in the order of the list. */
  function Siblings(all: seq<Row>, rows: seq<Row>, above: Option<FolderId>): seq<FolderId> {
    if rows == [] then []
    else
      var rest := Siblings(all, rows[..|rows| - 1], above);
      var last := rows[|rows| - 1];
      if ShownBelow(all, last) == above then rest + [last.id] else rest
  }

  // The lists of children, and of roots.
  datatype Nested = Nested(children: map<FolderId, seq<FolderId>>, roots: seq<FolderId>)

  ghost predicate Nests(rows: seq<Row>, done: seq<Row>, n: Nested) {
    && (forall x :: x in n.children <==> x in Ids(rows))
    && n.roots == Siblings(rows, done, None)
    && forall x <- n.children :: n.children[x] == Siblings(rows, done, Some(x))
  }

  method BuildTree(rows: seq<Row>) returns (n: Nested)
    requires Distinct(Ids(rows))
    ensures Nests(rows, rows, n)
  {
    var children: map<FolderId, seq<FolderId>> := map x | x in Ids(rows) :: [];
    var roots: seq<FolderId> := [];
    for i := 0 to |rows|
      invariant Nests(rows, rows[..i], Nested(children, roots))
    {
      var row := rows[i];
      ghost var before := Nested(children, roots);
      if row.parent.Some? && row.parent.value in children {
        children := children[row.parent.value := children[row.parent.value] + [row.id]];
      } else {
        roots := roots + [row.id];
      }
      NextRow(rows, i, before, Nested(children, roots));
    }
    assert rows[..|rows|] == rows;
    return Nested(children, roots);
  }

  lemma NextRow(rows: seq<Row>, i: nat, n: Nested, m: Nested)
    requires i < |rows| && Nests(rows, rows[..i], n)
    requires var row := rows[i];
             m == if row.parent.Some? && row.parent.value in n.children
                  then n.(children := n.children[row.parent.value := n.children[row.parent.value] + [row.id]])
                  else n.(roots := n.roots + [row.id])
    ensures Nests(rows, rows[..i + 1], m)
  {
    assert rows[..i + 1][..i] == rows[..i];
    assert rows[..i + 1][i] == rows[i];
    forall above ensures Siblings(rows, rows[..i + 1], above)
                         == if ShownBelow(rows, rows[i]) == above then Siblings(rows, rows[..i], above) + [rows[i].id]
                            else Siblings(rows, rows[..i], above) {
    }
  }

  // ---------------------------------------------------------------- the graph of shown parents

  function Graph(rows: seq<Row>): Tree
    requires Distinct(Ids(rows))
  {
    map i | 0 <= i < |rows| :: Ids(rows)[i] := Folder(None, ShownBelow(rows, rows[i]), "", "", 0, true, false)
  }

  lemma GraphParents(rows: seq<Row>, i: nat)
    requires Distinct(Ids(rows)) && i < |rows|
    ensures rows[i].id in Graph(rows) && Parent(Graph(rows), rows[i].id) == ShownBelow(rows, rows[i])
    ensures Closed(Graph(rows))
  {
    var t := Graph(rows);
    assert Ids(rows)[i] in t;
    forall x | x in t && t[x].parent.Some? ensures t[x].parent.value in t {
      var j :| 0 <= j < |rows| && Ids(rows)[j] == x && t[x].parent == ShownBelow(rows, rows[j]);
      var k :| 0 <= k < |rows| && Ids(rows)[k] == t[x].parent.value;
      assert Ids(rows)[k] in t;
    }
  }

  /** The siblings below a folder are exactly its children in the graph, each once. */
  lemma {:induction false} SiblingsAre(rows: seq<Row>, n: nat, above: Option<FolderId>)
    requires Distinct(Ids(rows)) && n <= |rows|
    ensures Distinct(Siblings(rows, rows[..n], above))
    ensures forall x :: x in Siblings(rows, rows[..n], above) <==>
              exists i :: 0 <= i < n && Ids(rows)[i] == x && ShownBelow(rows, rows[i]) == above
  {
    if n > 0 {
      assert rows[..n][..n - 1] == rows[..n - 1];
      SiblingsAre(rows, n - 1, above);
      var rest := Siblings(rows, rows[..n - 1], above);
      var last := rows[n - 1];
      assert last.id == Ids(rows)[n - 1];
      if ShownBelow(rows, last) == above {
        assert last.id !in rest;
        DistinctAppend(rest, [last.id]);
      }
      forall x ensures x in Siblings(rows, rows[..n], above) <==>
                 exists i :: 0 <= i < n && Ids(rows)[i] == x && ShownBelow(rows, rows[i]) == above {
        if exists i :: 0 <= i < n && Ids(rows)[i] == x && ShownBelow(rows, rows[i]) == above {
          var i :| 0 <= i < n && Ids(rows)[i] == x && ShownBelow(rows, rows[i]) == above;
          assert i < n - 1 || x == last.id;
        }
      }
    }
  }

  lemma ChildrenInGraph(rows: seq<Row>, above: Option<FolderId>, x: FolderId)
    requires Distinct(Ids(rows))
    ensures x in Siblings(rows, rows, above) <==> x in Graph(rows) && Parent(Graph(rows), x) == above
  {
    assert rows[..|rows|] == rows;
    SiblingsAre(rows, |rows|, above);
    forall i | 0 <= i < |rows| ensures Parent(Graph(rows), Ids(rows)[i]) == ShownBelow(rows, rows[i]) {
      GraphParents(rows, i);
    }
    if x in Graph(rows) {
      var i :| 0 <= i < |rows| && Ids(rows)[i] == x;
    }
  }

  // ---------------------------------------------------------------- walking the nested lists

  /** The folders met by a walk through the lists down to a depth, in the order of the walk. */
  function Walk(children: map<FolderId, seq<FolderId>>, ids: seq<FolderId>, depth: nat): seq<FolderId>
    decreases depth, |ids|
  {
    if depth == 0 || ids == [] then []
    else
      var below := if ids[0] in children then Walk(children, children[ids[0]], depth - 1) else [];
      [ids[0]] + below + Walk(children, ids[1..], depth)
  }

  /** x is at most `depth - 1` steps below one of the ids. */
  ghost predicate Within(t: Tree, x: FolderId, ids: seq<FolderId>, depth: nat) {
    exists n: nat :: n < depth && Up(t, Some(x), n).Some? && Up(t, Some(x), n).value in ids
  }

  /** Folders with the same parent, whose way up ends. */
  ghost predicate AreSiblings(t: Tree, ids: seq<FolderId>, above: Option<FolderId>) {
    Distinct(ids) && Ends(t, above) && forall y <- ids :: Parent(t, y) == above
  }

  /** A folder is below at most one of several siblings, and at one distance. */
  lemma OneSibling(t: Tree, x: FolderId, above: Option<FolderId>, y: FolderId, z: FolderId, m: nat, n: nat)
    requires Ends(t, above) && Parent(t, y) == above && Parent(t, z) == above
    requires Up(t, Some(x), m) == Some(y) && Up(t, Some(x), n) == Some(z)
    ensures m >= n
  {
    if m < n {
      UpAdd(t, Some(x), m, n - m);
      assert Up(t, Some(y), n - m) == Up(t, above, n - m - 1) == Some(z);
      if above.Some? {
        var k: nat :| Up(t, above, k) == None;
        UpAdd(t, above, n - m - 1, 1);
        assert Up(t, Some(z), 1) == above;
        UpRepeats(t, above.value, n - m, k);
        assert (n - m) * k >= k;
        UpStays(t, above, k, (n - m) * k);
      }
    }
  }

  lemma OneAmong(t: Tree, x: FolderId, above: Option<FolderId>, y: FolderId, z: FolderId, m: nat, n: nat)
    requires Ends(t, above) && Parent(t, y) == above && Parent(t, z) == above
    requires Up(t, Some(x), m) == Some(y) && Up(t, Some(x), n) == Some(z)
    ensures y == z && m == n
  {
    OneSibling(t, x, above, y, z, m, n);
    OneSibling(t, x, above, z, y, n, m);
  }

  lemma WithinParts(t: Tree, x: FolderId, ids: seq<FolderId>, depth: nat, below: seq<FolderId>)
    requires depth > 0 && ids != []
    requires forall y :: y in below <==> y in t && t[y].parent == Some(ids[0])
    ensures Within(t, x, ids, depth) <==> x == ids[0] || Within(t, x, below, depth - 1) || Within(t, x, ids[1..], depth)
  {
    var y, rest := ids[0], ids[1..];
    assert forall z :: z in ids <==> z == y || z in rest;
    if x == y {
      assert Up(t, Some(x), 0).value in ids;
    }
    if Within(t, x, below, depth - 1) {
      var n: nat :| n < depth - 1 && Up(t, Some(x), n).Some? && Up(t, Some(x), n).value in below;
      UpAdd(t, Some(x), n, 1);
      assert Up(t, Some(x), n + 1) == Some(y);
    }
    if Within(t, x, rest, depth) {
      var m: nat :| m < depth && Up(t, Some(x), m).Some? && Up(t, Some(x), m).value in rest;
      assert Up(t, Some(x), m).value in ids;
    }
    if Within(t, x, ids, depth) && x != y && !Within(t, x, rest, depth) {
      var n: nat :| n < depth && Up(t, Some(x), n).Some? && Up(t, Some(x), n).value in ids;
      UpAdd(t, Some(x), n - 1, 1);
      var c := Up(t, Some(x), n - 1).value;
      assert Up(t, Some(c), 1) == Parent(t, c) == Some(y);
      assert c in below;
    }
  }

  lemma PartsAreApart(t: Tree, x: FolderId, ids: seq<FolderId>, depth: nat, above: Option<FolderId>, below: seq<FolderId>)
    requires depth > 0 && ids != [] && AreSiblings(t, ids, above)
    requires forall y :: y in below <==> y in t && t[y].parent == Some(ids[0])
    ensures !(x == ids[0] && Within(t, x, below, depth - 1))
    ensures !(x == ids[0] && Within(t, x, ids[1..], depth))
    ensures !(Within(t, x, below, depth - 1) && Within(t, x, ids[1..], depth))
  {
    var y, rest := ids[0], ids[1..];
    assert y in ids && forall z :: z in rest ==> z in ids && z != y;
    if Within(t, x, below, depth - 1) {
      var n: nat :| n < depth - 1 && Up(t, Some(x), n).Some? && Up(t, Some(x), n).value in below;
      UpAdd(t, Some(x), n, 1);
      assert Up(t, Some(x), n + 1) == Some(y);
      if x == y {
        assert Up(t, Some(x), 0) == Some(y);
        OneAmong(t, x, above, y, y, 0, n + 1);
      }
      if Within(t, x, rest, depth) {
        var m: nat :| m < depth && Up(t, Some(x), m).Some? && Up(t, Some(x), m).value in rest;
        OneAmong(t, x, above, y, Up(t, Some(x), m).value, n + 1, m);
      }
    } else if x == y && Within(t, x, rest, depth) {
      var m: nat :| m < depth && Up(t, Some(x), m).Some? && Up(t, Some(x), m).value in rest;
      assert Up(t, Some(x), 0) == Some(y);
      OneAmong(t, x, above, y, Up(t, Some(x), m).value, 0, m);
    }
  }

  /** How often the walk meets x. */
  function Tally(children: map<FolderId, seq<FolderId>>, ids: seq<FolderId>, depth: nat, x: FolderId): nat
    decreases depth, |ids|
  {
    if depth == 0 || ids == [] then 0
    else
      (if x == ids[0] then 1 else 0)
      + (if ids[0] in children then Tally(children, children[ids[0]], depth - 1, x) else 0)
      + Tally(children, ids[1..], depth, x)
  }

  function Times(s: seq<FolderId>, x: FolderId): nat {
    if s == [] then 0 else (if s[0] == x then 1 else 0) + Times(s[1..], x)
  }

  lemma {:induction false} TimesAppend(s: seq<FolderId>, r: seq<FolderId>, x: FolderId)
    ensures Times(s + r, x) == Times(s, x) + Times(r, x)
  {
    if s == [] {
      assert s + r == r;
    } else {
      assert (s + r)[1..] == s[1..] + r;
      TimesAppend(s[1..], r, x);
    }
  }

  lemma {:induction false} WalkCounts(children: map<FolderId, seq<FolderId>>, ids: seq<FolderId>, depth: nat, x: FolderId)
    ensures Times(Walk(children, ids, depth), x) == Tally(children, ids, depth, x)
    decreases depth, |ids|
  {
    if depth > 0 && ids != [] {
      var y := ids[0];
      var below := if y in children then Walk(children, children[y], depth - 1) else [];
      var rest := Walk(children, ids[1..], depth);
      WalkCounts(children, ids[1..], depth, x);
      if y in children {
        WalkCounts(children, children[y], depth - 1, x);
      }
      TimesAppend([y] + below, rest, x);
      TimesAppend([y], below, x);
      assert [y][1..] == [];
    }
  }

  ghost function Met(t: Tree, x: FolderId, ids: seq<FolderId>, depth: nat): nat {
    if Within(t, x, ids, depth) then 1 else 0
  }

  lemma PartsAddUp(t: Tree, x: FolderId, ids: seq<FolderId>, depth: nat, above: Option<FolderId>, below: seq<FolderId>)
    requires depth > 0 && ids != [] && AreSiblings(t, ids, above)
    requires forall y :: y in below <==> y in t && t[y].parent == Some(ids[0])
    ensures Met(t, x, ids, depth) == (if x == ids[0] then 1 else 0) + Met(t, x, below, depth - 1) + Met(t, x, ids[1..], depth)
  {
    WithinParts(t, x, ids, depth, below);
    PartsAreApart(t, x, ids, depth, above, below);
  }

  /** One step of the walk, among the siblings below `above` from the k-th on. */
  lemma StepDown(rows: seq<Row>, above: Option<FolderId>, k: nat, depth: nat, x: FolderId)
    requires Distinct(Ids(rows)) && Ends(Graph(rows), above) && depth > 0 && k < |Siblings(rows, rows, above)|
    ensures var t := Graph(rows);
            var ids := Siblings(rows, rows, above)[k..];
            && ids[0] in Ids(rows) && Ends(t, Some(ids[0]))
            && Met(t, x, ids, depth)
               == (if x == ids[0] then 1 else 0) + Met(t, x, Siblings(rows, rows, Some(ids[0])), depth - 1)
                  + Met(t, x, ids[1..], depth)
  {
    var t := Graph(rows);
    var siblings := Siblings(rows, rows, above);
    var y := siblings[k];
    SiblingsInGraph(rows, above);
    SiblingsInGraph(rows, Some(y));
    assert y in siblings;
    InGraphIsListed(rows, y);
    EndsStep(t, y);
    TailAreSiblings(t, siblings, k, above);
    PartsAddUp(t, x, siblings[k..], depth, above, Siblings(rows, rows, Some(y)));
  }

  /** The two lists a walk turns to at the k-th sibling. */
  lemma StepsInLists(rows: seq<Row>, n: Nested, above: Option<FolderId>, k: nat)
    requires Distinct(Ids(rows)) && Nests(rows, rows, n) && k < |Siblings(rows, rows, above)|
    requires Siblings(rows, rows, above)[k] in Ids(rows)
    ensures var siblings := Siblings(rows, rows, above);
            var y := siblings[k..][0];
            && y in n.children && n.children[y] == Siblings(rows, rows, Some(y))[0..]
            && siblings[k..][1..] == siblings[k + 1..]
  {
  }

  lemma NothingWithin(t: Tree, x: FolderId, ids: seq<FolderId>, depth: nat)
    requires depth == 0 || ids == []
    ensures Met(t, x, ids, depth) == 0
  {
  }

  lemma TallySteps(children: map<FolderId, seq<FolderId>>, ids: seq<FolderId>, depth: nat, x: FolderId)
    requires depth > 0 && ids != [] && ids[0] in children
    ensures Tally(children, ids, depth, x)
            == (if x == ids[0] then 1 else 0) + Tally(children, children[ids[0]], depth - 1, x)
               + Tally(children, ids[1..], depth, x)
  {
  }

  lemma {:induction false} TallyMeets(rows: seq<Row>, n: Nested, above: Option<FolderId>, k: nat, depth: nat, x: FolderId)
    requires Distinct(Ids(rows)) && Nests(rows, rows, n)
    requires Ends(Graph(rows), above) && k <= |Siblings(rows, rows, above)|
    ensures Tally(n.children, Siblings(rows, rows, above)[k..], depth, x)
            == Met(Graph(rows), x, Siblings(rows, rows, above)[k..], depth)
    decreases depth, |Siblings(rows, rows, above)| - k
  {
    var siblings := Siblings(rows, rows, above);
    if depth == 0 || k == |siblings| {
      NothingWithin(Graph(rows), x, siblings[k..], depth);
    } else {
      StepDown(rows, above, k, depth, x);
      StepsInLists(rows, n, above, k);
      TallyMeets(rows, n, Some(siblings[k..][0]), 0, depth - 1, x);
      TallyMeets(rows, n, above, k + 1, depth, x);
      TallySteps(n.children, siblings[k..], depth, x);
    }
  }

  lemma TailAreSiblings(t: Tree, ids: seq<FolderId>, k: nat, above: Option<FolderId>)
    requires k <= |ids| && AreSiblings(t, ids, above)
    ensures AreSiblings(t, ids[k..], above)
  {
    assert forall i :: 0 <= i < |ids[k..]| ==> ids[k..][i] == ids[i + k];
  }

  lemma SiblingsInGraph(rows: seq<Row>, above: Option<FolderId>)
    requires Distinct(Ids(rows))
    ensures Distinct(Siblings(rows, rows, above))
    ensures forall z :: z in Siblings(rows, rows, above) <==> z in Graph(rows) && Parent(Graph(rows), z) == above
  {
    assert rows[..|rows|] == rows;
    SiblingsAre(rows, |rows|, above);
    forall z ensures z in Siblings(rows, rows, above) <==> z in Graph(rows) && Parent(Graph(rows), z) == above {
      ChildrenInGraph(rows, above, z);
    }
  }

  lemma InGraphIsListed(rows: seq<Row>, y: FolderId)
    requires Distinct(Ids(rows))
    ensures y in Graph(rows) <==> y in Ids(rows)
  {
    if y in Ids(rows) {
      var i :| 0 <= i < |rows| && Ids(rows)[i] == y;
    }
  }

  /** A walk from the roots meets every folder whose way up through listed parents ends within the
    * depth exactly once, and no other folder at all. */
  lemma EachFolderOnce(rows: seq<Row>, n: Nested, depth: nat, x: FolderId)
    requires Distinct(Ids(rows)) && Nests(rows, rows, n)
    ensures Times(Walk(n.children, n.roots, depth), x)
            == if x in Ids(rows) && Up(Graph(rows), Some(x), depth) == None then 1 else 0
  {
    var t := Graph(rows);
    SiblingsInGraph(rows, None);
    assert Up(t, None, 0) == None;
    TallyMeets(rows, n, None, 0, depth, x);
    WalkCounts(n.children, n.roots, depth, x);
    assert n.roots[0..] == n.roots;
    InGraphIsListed(rows, x);
    GraphIsClosed(rows);
    UnderRoot(t, n.roots, x, depth);
  }

  lemma GraphIsClosed(rows: seq<Row>)
    requires Distinct(Ids(rows))
    ensures Closed(Graph(rows))
  {
    if |rows| > 0 {
      GraphParents(rows, 0);
    }
  }

  lemma UnderRoot(t: Tree, roots: seq<FolderId>, x: FolderId, depth: nat)
    requires Closed(t) && forall z :: z in roots <==> z in t && Parent(t, z) == None
    ensures Within(t, x, roots, depth) <==> x in t && Up(t, Some(x), depth) == None
  {
    if Within(t, x, roots, depth) {
      var m: nat :| m < depth && Up(t, Some(x), m).Some? && Up(t, Some(x), m).value in roots;
      UpAdd(t, Some(x), m, 1);
      assert Up(t, Some(x), m + 1) == None;
      UpStays(t, Some(x), m + 1, depth);
    }
    if x in t && Up(t, Some(x), depth) == None {
      EndsAtRoot(t, x, depth);
    }
  }

  lemma {:induction false} EndsAtRoot(t: Tree, x: FolderId, depth: nat)
    requires Closed(t) && x in t && Up(t, Some(x), depth) == None
    ensures exists n: nat :: n < depth && Up(t, Some(x), n).Some? && Up(t, Some(x), n).value in t
                             && Parent(t, Up(t, Some(x), n).value) == None
    decreases depth
  {
    var p := Parent(t, x);
    if p == None {
      assert Up(t, Some(x), 0) == Some(x);
    } else {
      EndsAtRoot(t, p.value, depth - 1);
      var n: nat :| n < depth - 1 && Up(t, p, n).Some? && Up(t, p, n).value in t && Parent(t, Up(t, p, n).value) == None;
      assert Up(t, Some(x), n + 1) == Up(t, p, n);
    }
  }
}
