/** Deleting a project: its removed documents go first, then its folders, deepest first. */
module ProjectDeletion {
  import opened Prelude
  import opened Forest
  import opened Folders
  import opened FolderGraph

  predicate HasLiveDocuments(w: World, p: ProjectId) {
    exists d :: d in w.documents && !w.documents[d].deleted
                && (w.documents[d].project == Some(p)
                    || (w.documents[d].folder in w.folders && w.folders[w.documents[d].folder].project == Some(p)))
  }

  predicate HasForeignDocuments(w: World, p: ProjectId) {
    exists d :: d in w.documents && w.documents[d].project != Some(p) && w.documents[d].folder in w.folders
                && w.folders[w.documents[d].folder].project == Some(p)
  }

  function OwnFolders(t: Tree, p: ProjectId): set<FolderId> {
    set x <- t | t[x].project == Some(p)
  }

  function OthersDocuments(documents: map<DocumentId, Document>, p: ProjectId): map<DocumentId, Document> {
    map d <- documents | documents[d].project != Some(p) :: documents[d]
  }

  /** What a deletion leaves: every row of every other project and nothing of this one. */
  function DeleteProject(w: World, p: ProjectId): Result<World, FolderError> {
    if p !in w.projects then Err(NotFound)
    else if HasLiveDocuments(w, p) then Err(HasDocuments)
    else if HasForeignDocuments(w, p) then Err(FolderError.HasForeignDocuments)
    else Ok(w.(folders := w.folders - OwnFolders(w.folders, p),
               documents := OthersDocuments(w.documents, p),
               projects := w.projects - {p}))
  }

  // ---------------------------------------------------------------- depth within a project

  /** n is the number of steps from x up to the topmost folder reached inside `own`. */
  ghost predicate HasDepth(t: Tree, own: set<FolderId>, x: FolderId, n: nat)
    decreases n
  {
    var p := Parent(t, x);
    if p.Some? && p.value in own then n > 0 && HasDepth(t, own, p.value, n - 1) else n == 0
  }

  lemma {:induction false} DepthIsUnique(t: Tree, own: set<FolderId>, x: FolderId, m: nat, n: nat)
    requires HasDepth(t, own, x, m) && HasDepth(t, own, x, n)
    ensures m == n
    decreases m
  {
    var p := Parent(t, x);
    if p.Some? && p.value in own {
      DepthIsUnique(t, own, p.value, m - 1, n - 1);
    }
  }

  ghost predicate DepthsAreTrue(t: Tree, own: set<FolderId>, depths: map<FolderId, nat>) {
    forall x <- depths :: HasDepth(t, own, x, depths[x])
  }

  /** The recursion remembers each depth it finds. It ends because chains of parents do. */
  method FolderDepth(parents: map<FolderId, Option<FolderId>>, known: map<FolderId, nat>, f: FolderId,
                     ghost t: Tree, ghost own: set<FolderId>, ghost height: nat)
      returns (depth: nat, depths: map<FolderId, nat>)
    requires parents.Keys == own <= t.Keys && f in own && forall x <- own :: parents[x] == t[x].parent
    requires DepthsAreTrue(t, own, known) && Up(t, Some(f), height) == None
    ensures HasDepth(t, own, f, depth) && DepthsAreTrue(t, own, depths)
    ensures known.Keys + {f} <= depths.Keys && depths[f] == depth
    decreases height
  {
    if f in known {
      return known[f], known;
    }
    var parent := parents[f];
    if parent.None? || parent.value !in parents {
      return 0, known[f := 0];
    }
    var above, found := FolderDepth(parents, known, parent.value, t, own, height - 1);
    return above + 1, found[f := above + 1];
  }

  // ---------------------------------------------------------------- the order of deletion

  predicate Covers(depths: map<FolderId, nat>, folders: seq<FolderId>) {
    forall x <- folders :: x in depths
  }

  function Insert(depths: map<FolderId, nat>, x: FolderId, sorted: seq<FolderId>): seq<FolderId>
    requires x in depths && Covers(depths, sorted)
  {
    if sorted == [] || depths[sorted[0]] <= depths[x] then [x] + sorted
    else [sorted[0]] + Insert(depths, x, sorted[1..])
  }

  /** sorted(..., reverse=True): deepest first, equal depths in their given order. */
  function DeepestFirst(depths: map<FolderId, nat>, folders: seq<FolderId>): (r: seq<FolderId>)
    requires Covers(depths, folders)
    ensures multiset(r) == multiset(folders)
  {
    if folders == [] then []
    else
      var rest := DeepestFirst(depths, folders[1..]);
      assert folders == [folders[0]] + folders[1..];
      assert Covers(depths, rest) by {
        forall x | x in rest ensures x in depths {
          assert x in multiset(rest);
          assert x in folders[1..];
        }
      }
      InsertAdds(depths, folders[0], rest);
      Insert(depths, folders[0], rest)
  }

  predicate Descending(depths: map<FolderId, nat>, s: seq<FolderId>)
    requires Covers(depths, s)
  {
    forall i, j :: 0 <= i < j < |s| ==> depths[s[i]] >= depths[s[j]]
  }

  lemma {:induction false} InsertAdds(depths: map<FolderId, nat>, x: FolderId, sorted: seq<FolderId>)
    requires x in depths && Covers(depths, sorted)
    ensures multiset(Insert(depths, x, sorted)) == multiset(sorted) + multiset{x}
  {
    if sorted != [] && depths[sorted[0]] > depths[x] {
      InsertAdds(depths, x, sorted[1..]);
      assert sorted == [sorted[0]] + sorted[1..];
    }
  }

  lemma InSameMultiset(s: seq<FolderId>, r: seq<FolderId>, x: FolderId)
    requires multiset(s) == multiset(r)
    ensures x in s <==> x in r
  {
    assert x in multiset(s) <==> x in multiset(r);
  }

  predicate AtMost(depths: map<FolderId, nat>, s: seq<FolderId>, bound: nat)
    requires Covers(depths, s)
  {
    forall i :: 0 <= i < |s| ==> depths[s[i]] <= bound
  }

  lemma PrependSorts(depths: map<FolderId, nat>, x: FolderId, sorted: seq<FolderId>)
    requires x in depths && Covers(depths, sorted) && Descending(depths, sorted)
    requires AtMost(depths, sorted, depths[x])
    ensures Covers(depths, [x] + sorted) && Descending(depths, [x] + sorted)
  {
    var s := [x] + sorted;
    forall i, j | 0 <= i < j < |s| ensures depths[s[i]] >= depths[s[j]] {
      assert s[j] == sorted[j - 1];
      assert i > 0 ==> s[i] == sorted[i - 1];
    }
  }

  lemma {:induction false} InsertSorts(depths: map<FolderId, nat>, x: FolderId, sorted: seq<FolderId>, bound: nat)
    requires x in depths && Covers(depths, sorted) && Descending(depths, sorted)
    requires AtMost(depths, sorted, bound) && depths[x] <= bound
    ensures var r := Insert(depths, x, sorted);
            Covers(depths, r) && Descending(depths, r) && AtMost(depths, r, bound)
    decreases |sorted|
  {
    if sorted == [] || depths[sorted[0]] <= depths[x] {
      PrependSorts(depths, x, sorted);
    } else {
      var rest := sorted[1..];
      assert forall i :: 0 <= i < |rest| ==> rest[i] == sorted[i + 1];
      InsertSorts(depths, x, rest, depths[sorted[0]]);
      PrependSorts(depths, sorted[0], Insert(depths, x, rest));
    }
  }

  ghost function Deepest(depths: map<FolderId, nat>, s: seq<FolderId>): (bound: nat)
    requires Covers(depths, s)
    ensures AtMost(depths, s, bound)
  {
    if s == [] then 0
    else
      var above := Deepest(depths, s[1..]);
      assert forall i :: 1 <= i < |s| ==> s[i] == s[1..][i - 1];
      if above < depths[s[0]] then depths[s[0]] else above
  }

  lemma {:induction false} DeepestFirstSorts(depths: map<FolderId, nat>, folders: seq<FolderId>)
    requires Covers(depths, folders)
    ensures var r := DeepestFirst(depths, folders); Covers(depths, r) && Descending(depths, r)
  {
    if folders != [] {
      DeepestFirstSorts(depths, folders[1..]);
      var rest := DeepestFirst(depths, folders[1..]);
      var bound := Deepest(depths, [folders[0]] + rest);
      assert AtMost(depths, [folders[0]] + rest, bound);
      assert forall i :: 0 <= i < |rest| ==> rest[i] == ([folders[0]] + rest)[i + 1];
      InsertSorts(depths, folders[0], rest, bound);
    }
  }

  /** A child comes strictly before its parent. */
  lemma ChildComesFirst(t: Tree, own: set<FolderId>, depths: map<FolderId, nat>, order: seq<FolderId>, i: nat, j: nat)
    requires Covers(depths, order) && Descending(depths, order) && DepthsAreTrue(t, own, depths)
    requires i < |order| && j < |order| && order[j] in own && Parent(t, order[i]) == Some(order[j])
    ensures i < j
  {
    var c, f := order[i], order[j];
    assert HasDepth(t, own, c, depths[c]);
    DepthIsUnique(t, own, f, depths[f], depths[c] - 1);
  }

  lemma LowerIndex(order: seq<FolderId>, x: FolderId) returns (i: nat)
    requires x in order
    ensures i < |order| && order[i] == x
  {
    i :| 0 <= i < |order| && order[i] == x;
  }

  // ---------------------------------------------------------------- the whole request

  /** After the checks, no folder of the project holds a document once the project's own are gone. */
  lemma FoldersAreEmptied(w: World, p: ProjectId, f: FolderId)
    requires !HasForeignDocuments(w, p) && f in OwnFolders(w.folders, p)
    ensures !HoldsDocument(OthersDocuments(w.documents, p), f)
  {
  }

  /** A folder of the project has children only inside the project. */
  lemma ChildrenAreOwn(t: Tree, p: ProjectId, x: FolderId)
    requires Shares(t) && x in t && t[x].parent.Some? && t[x].parent.value in OwnFolders(t, p)
    ensures x in OwnFolders(t, p)
  {
  }

  /** The request as it runs. The database refuses to drop a folder that still has a child or a
    * document; that refusal never happens, whatever order the rows are listed in. */
  method Delete(w: World, p: ProjectId, listed: seq<FolderId>) returns (r: Result<World, FolderError>)
    requires SoundWorld(w)
    requires forall x :: x in listed <==> x in OwnFolders(w.folders, p)
    ensures r == DeleteProject(w, p)
  {
    if p !in w.projects {
      return Err(NotFound);
    }
    if HasLiveDocuments(w, p) {
      return Err(HasDocuments);
    }
    if HasForeignDocuments(w, p) {
      return Err(FolderError.HasForeignDocuments);
    }
    var documents := OthersDocuments(w.documents, p);
    var dropped := DropFolders(w, p, listed, documents);
    match dropped {
      case Err(e) => return Err(e);
      case Ok(folders) =>
        return Ok(w.(folders := folders, documents := documents, projects := w.projects - {p}));
    }
  }

  method DepthsOf(t: Tree, listed: seq<FolderId>, ghost p: ProjectId) returns (depths: map<FolderId, nat>)
    requires IsForest(t) && forall x :: x in listed <==> x in OwnFolders(t, p)
    ensures DepthsAreTrue(t, OwnFolders(t, p), depths) && Covers(depths, listed)
  {
    ghost var own := OwnFolders(t, p);
    var parents: map<FolderId, Option<FolderId>> := map x | x in listed :: t[x].parent;
    depths := map[];
    for i := 0 to |listed|
      invariant DepthsAreTrue(t, own, depths)
      invariant Covers(depths, listed[..i])
    {
      var f := listed[i];
      assert f in listed;
      ghost var height: nat :| Up(t, Some(f), height) == None;
      ghost var known := depths;
      var depth;
      depth, depths := FolderDepth(parents, depths, f, t, own, height);
      forall x | x in listed[..i + 1] ensures x in depths {
        assert x == f || x in listed[..i];
      }
    }
    assert listed[..|listed|] == listed;
  }

  ghost predicate Dropped(t: Tree, order: seq<FolderId>, i: nat, u: Tree)
    requires i <= |order|
  {
    u == t - Elements(order[..i])
  }

  /** Dropping one folder, when everything that comes before it in the order is gone. */
  lemma NextHasNoChild(t: Tree, p: ProjectId, depths: map<FolderId, nat>, order: seq<FolderId>, i: nat, u: Tree)
    requires Shares(t) && i < |order| && Dropped(t, order, i, u)
    requires forall x :: x in order <==> x in OwnFolders(t, p)
    requires Covers(depths, order) && Descending(depths, order) && DepthsAreTrue(t, OwnFolders(t, p), depths)
    ensures !HasChild(u, order[i])
  {
    if HasChild(u, order[i]) {
      var c :| c in u && u[c].parent == Some(order[i]);
      assert order[i] in order;
      ChildrenAreOwn(t, p, c);
      var k := LowerIndex(order, c);
      ChildComesFirst(t, OwnFolders(t, p), depths, order, k, i);
      assert false;
    }
  }

  method DropFolders(w: World, p: ProjectId, listed: seq<FolderId>, documents: map<DocumentId, Document>)
      returns (r: Result<Tree, FolderError>)
    requires SoundWorld(w) && !HasForeignDocuments(w, p) && documents == OthersDocuments(w.documents, p)
    requires forall x :: x in listed <==> x in OwnFolders(w.folders, p)
    ensures r == Ok(w.folders - OwnFolders(w.folders, p))
  {
    var t := w.folders;
    var depths := DepthsOf(t, listed, p);
    var order := DeepestFirst(depths, listed);
    DeepestFirstSorts(depths, listed);
    forall x ensures x in order <==> x in OwnFolders(t, p) {
      InSameMultiset(order, listed, x);
    }
    r := DropInOrder(t, p, depths, order, documents, w);
    assert Elements(order) == OwnFolders(t, p);
  }

  method DropInOrder(t: Tree, ghost p: ProjectId, ghost depths: map<FolderId, nat>, order: seq<FolderId>,
                     documents: map<DocumentId, Document>, ghost w: World)
      returns (r: Result<Tree, FolderError>)
    requires t == w.folders && Shares(t) && !HasForeignDocuments(w, p)
    requires documents == OthersDocuments(w.documents, p)
    requires forall x :: x in order <==> x in OwnFolders(t, p)
    requires Covers(depths, order) && Descending(depths, order) && DepthsAreTrue(t, OwnFolders(t, p), depths)
    ensures r == Ok(t - Elements(order))
  {
    var left := t;
    for i := 0 to |order|
      invariant Dropped(t, order, i, left)
    {
      var f := order[i];
      NextHasNoChild(t, p, depths, order, i, left);
      assert f in order;
      FoldersAreEmptied(w, p, f);
      if HasChild(left, f) || HoldsDocument(documents, f) {
        return Err(ProtectedReference);
      }
      DropNext(t, order, i, left);
      left := left - {f};
    }
    assert order[..|order|] == order;
    return Ok(left);
  }

  lemma DropNext(t: Tree, order: seq<FolderId>, i: nat, left: Tree)
    requires i < |order| && Dropped(t, order, i, left)
    ensures Dropped(t, order, i + 1, left - {order[i]})
  {
    assert order[..i + 1] == order[..i] + [order[i]];
    assert Elements(order[..i + 1]) == Elements(order[..i]) + {order[i]};
  }

  /** What is left is a sound world in which no document misses its folder, nothing outside the
    * project has changed, and the project had only removed documents to lose. */
  lemma DeleteKeepsSound(w: World, p: ProjectId)
    requires SoundWorld(w) && DeleteProject(w, p).Ok?
    ensures SoundWorld(DeleteProject(w, p).value)
    ensures SharesStrictly(w.folders) ==> SharesStrictly(DeleteProject(w, p).value.folders)
    ensures var after := DeleteProject(w, p).value;
            && (forall x :: x in after.folders <==> x in w.folders && w.folders[x].project != Some(p))
            && (forall x <- after.folders :: after.folders[x] == w.folders[x])
            && (forall d :: d in after.documents <==> d in w.documents && w.documents[d].project != Some(p))
            && (forall d <- after.documents :: after.documents[d] == w.documents[d])
            && (forall d <- w.documents :: d !in after.documents ==> w.documents[d].deleted)
            && (forall q <- w.projects :: q != p ==> q in after.projects && after.projects[q] == w.projects[q])
  {
    var after := DeleteProject(w, p).value;
    var t, u := w.folders, after.folders;
    assert Closed(u) by {
      forall x | x in u && u[x].parent.Some? ensures u[x].parent.value in u {
        if u[x].parent.value in OwnFolders(t, p) {
          ChildrenAreOwn(t, p, x);
        }
      }
    }
    ReparentKeepsForest(t, u, OwnFolders(t, p), None);
    forall d | d in after.documents ensures after.documents[d].folder in u {
      var f := w.documents[d].folder;
      assert HoldsDocument(after.documents, f);
      if f in OwnFolders(t, p) {
        FoldersAreEmptied(w, p, f);
      }
    }
  }
}
